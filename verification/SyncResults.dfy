/** What a message sync achieves: coverage under interference, the exact union without it, safe aborts and
    retries, and that it can always run to completion.
 */
module SyncResults {
  import opened Basics
  import opened Chain
  import opened Proto
  import opened LogFormat
  import opened LogIndex
  import opened LogStore
  import opened ChannelLog
  import opened BucketSync

  // ---------------------------------------------------------------- equal buckets need no exchange

  /** The bucket hashes of the two summarised logs do not collide. */
  ghost predicate NoBucketCollision(c: Codec, a: seq<Envelope>, b: seq<Envelope>) {
    forall k: nat :: k < BUCKET_COUNT && c.bucketHash(Members(Ids(a), k)) == c.bucketHash(Members(Ids(b), k)) ==>
                       Members(Ids(a), k) == Members(Ids(b), k)
  }

  lemma {:induction false} DifferingHas(server: map<nat, Bytes>, client: map<nat, Bytes>, n: nat, b: nat)
    ensures b in Differing(server, client, n) <==> b < n && Differs(server, client, b)
  {
    if n > 0 { DifferingHas(server, client, n - 1, b); }
  }

  lemma HashesExact(c: Codec, es: seq<Envelope>)
    ensures Hashes(c, es) == HashesOf(c, Ids(es))
  {
    CollectSummaries(Ids(es), HashesOf(c, Ids(es)), BUCKET_COUNT);
  }

  lemma BucketAsSet(c: Codec, es: seq<Envelope>, k: nat, id: Id)
    requires AllCanonical(Ids(es)) && CanonicalId(id)
    ensures id in BucketOf(es, k) <==> InBucket(id, k) && Raw(id) in BucketIds(Ids(es), k)
  {
    var ids := Ids(es);
    BucketHas(ids, k, Raw(id));
    if HasRaw(ids, k, Raw(id)) {
      var i :| 0 <= i < |ids| && Raw(ids[i]) == Raw(id) && InBucket(ids[i], k);
      assert CanonicalId(ids[i]);
    }
    if id in ids && InBucket(id, k) {
      var i :| 0 <= i < |ids| && ids[i] == id;
      assert Raw(ids[i]) == Raw(id);
    }
  }

  lemma AgreeingHashes(c: Codec, a: seq<Id>, b: seq<Id>, k: nat)
    requires k < BUCKET_COUNT && !Differs(HashesOf(c, a), HashesOf(c, b), k)
    ensures BucketIds(a, k) == [] <==> BucketIds(b, k) == []
    ensures BucketIds(a, k) != [] ==> c.bucketHash(Members(a, k)) == c.bucketHash(Members(b, k))
  {
  }

  lemma EqualHashEqualBucket(c: Codec, a: seq<Envelope>, b: seq<Envelope>, k: nat)
    requires AllCanonical(Ids(a)) && AllCanonical(Ids(b)) && k < BUCKET_COUNT && NoBucketCollision(c, a, b)
    requires !Differs(Hashes(c, a), Hashes(c, b), k)
    ensures multiset(BucketIds(Ids(a), k)) == multiset(BucketIds(Ids(b), k))
  {
    HashesExact(c, a);
    HashesExact(c, b);
    AgreeingHashes(c, Ids(a), Ids(b), k);
    if BucketIds(Ids(a), k) != [] {
      MembersDetermineBucket(Ids(a), Ids(b), k);
    }
  }

  lemma SameBucket(c: Codec, a: seq<Envelope>, b: seq<Envelope>, k: nat)
    requires CodecOk(c) && AllGenuine(c, a) && AllGenuine(c, b)
    requires multiset(BucketIds(Ids(a), k)) == multiset(BucketIds(Ids(b), k))
    ensures BucketOf(a, k) <= BucketOf(b, k)
  {
    GenuineIds(c, a);
    GenuineIds(c, b);
    forall id | id in BucketOf(a, k) ensures id in BucketOf(b, k) {
      var i :| 0 <= i < |Ids(a)| && Ids(a)[i] == id;
      assert CanonicalId(id);
      BucketAsSet(c, a, k, id);
      BucketAsSet(c, b, k, id);
      assert Raw(id) in multiset(BucketIds(Ids(a), k));
      assert Raw(id) in multiset(BucketIds(Ids(b), k));
    }
  }

  /** If every differing bucket of `a` is covered and the others agree with `b`, all of `a` is covered. */
  lemma CoverAllBuckets(c: Codec, a: seq<Envelope>, b: seq<Envelope>, all: set<Id>, diff: seq<nat>)
    requires CodecOk(c) && AllGenuine(c, a) && AllGenuine(c, b)
    requires CoversAll(all, a, diff, []) && IdSet(b) <= all
    requires forall k: nat :: k < BUCKET_COUNT && k !in diff ==>
                                multiset(BucketIds(Ids(a), k)) == multiset(BucketIds(Ids(b), k))
    ensures IdSet(a) <= all
  {
    GenuineIds(c, a);
    forall id | id in IdSet(a) ensures id in all {
      var i :| 0 <= i < |Ids(a)| && Ids(a)[i] == id;
      assert CanonicalId(Ids(a)[i]);
      var k := Raw(id)[0] as nat;
      assert id in BucketOf(a, k);
      if k in diff {
        assert Covers(all, a, k);
      } else {
        SameBucket(c, a, b, k);
      }
    }
  }

  // ---------------------------------------------------------------- runs

  ghost predicate Quiet(steps: seq<Step>) {
    forall i :: 0 <= i < |steps| ==> !steps[i].Interfere?
  }

  ghost predicate SidesOk(c: Codec, client: Side, server: Side) {
    LogOk(c, client.log) && LogOk(c, server.log)
  }

  lemma {:induction false} RunKeeps(c: Codec, s: Session, steps: seq<Step>)
    requires Inv(c, s)
    ensures var s' := Run(c, s, steps);
            && Inv(c, s') && s.client.log <= s'.client.log && s.server.log <= s'.server.log
            && (Quiet(steps) ==> Union(s') == Union(s))
    decreases |steps|
  {
    if steps != [] {
      StepKeeps(c, s, steps[0]);
      RunKeeps(c, Act(c, s, steps[0]), steps[1..]);
      if Quiet(steps) {
        assert !steps[0].Interfere?;
        assert forall i :: 0 <= i < |steps[1..]| ==> steps[1..][i] == steps[i + 1];
      }
    }
  }

  lemma SnapshotsAgree(c: Codec, a: seq<Envelope>, b: seq<Envelope>, diff: seq<nat>, k: nat)
    requires CodecOk(c) && AllGenuine(c, a) && AllGenuine(c, b) && NoBucketCollision(c, a, b)
    requires diff == Differing(Hashes(c, a), Hashes(c, b), BUCKET_COUNT)
    requires k < BUCKET_COUNT && k !in diff
    ensures multiset(BucketIds(Ids(a), k)) == multiset(BucketIds(Ids(b), k))
  {
    DifferingHas(Hashes(c, a), Hashes(c, b), BUCKET_COUNT, k);
    GenuineIds(c, a);
    GenuineIds(c, b);
    EqualHashEqualBucket(c, a, b, k);
  }

  lemma SameBucketHas(a: seq<Envelope>, b: seq<Envelope>, k: nat, raw: Bytes)
    requires BucketOf(a, k) <= BucketOf(b, k) && raw in BucketIds(Ids(a), k)
    ensures raw in BucketIds(Ids(b), k)
  {
    BucketHas(Ids(a), k, raw);
    BucketHas(Ids(b), k, raw);
    var i :| 0 <= i < |Ids(a)| && InBucket(Ids(a)[i], k) && Raw(Ids(a)[i]) == raw;
    assert Ids(a)[i] in BucketOf(a, k);
    var j :| 0 <= j < |Ids(b)| && Ids(b)[j] == Ids(a)[i];
  }

  /** Buckets that hold the same ids have the same hash, or none. */
  lemma SameBucketAgrees(c: Codec, a: seq<Envelope>, b: seq<Envelope>, k: nat)
    requires CodecOk(c) && LogOk(c, a) && LogOk(c, b) && BucketOf(a, k) == BucketOf(b, k)
    ensures !Differs(Hashes(c, a), Hashes(c, b), k)
  {
    GenuineIds(c, a);
    GenuineIds(c, b);
    BucketDistinct(Ids(a), k);
    BucketDistinct(Ids(b), k);
    forall raw ensures raw in BucketIds(Ids(a), k) <==> raw in BucketIds(Ids(b), k) {
      if raw in BucketIds(Ids(a), k) { SameBucketHas(a, b, k, raw); }
      if raw in BucketIds(Ids(b), k) { SameBucketHas(b, a, k, raw); }
    }
    DistinctMultiset(BucketIds(Ids(a), k), BucketIds(Ids(b), k));
    SortCanonical(BucketIds(Ids(a), k), BucketIds(Ids(b), k));
    assert |multiset(BucketIds(Ids(a), k))| == |multiset(BucketIds(Ids(b), k))|;
    HashesExact(c, a);
    HashesExact(c, b);
  }

  /** A bucket is listed exactly if the two logs differ in it. */
  lemma ListedIff(c: Codec, server: seq<Envelope>, client: seq<Envelope>, k: nat)
    requires CodecOk(c) && LogOk(c, server) && LogOk(c, client) && NoBucketCollision(c, server, client)
    ensures k in Differing(Hashes(c, server), Hashes(c, client), BUCKET_COUNT)
       <==> k < BUCKET_COUNT && BucketOf(server, k) != BucketOf(client, k)
  {
    var diff := Differing(Hashes(c, server), Hashes(c, client), BUCKET_COUNT);
    DifferingHas(Hashes(c, server), Hashes(c, client), BUCKET_COUNT, k);
    if BucketOf(server, k) == BucketOf(client, k) {
      SameBucketAgrees(c, server, client, k);
    } else if k < BUCKET_COUNT && k !in diff {
      SnapshotsAgree(c, server, client, diff, k);
      SameBucket(c, server, client, k);
      SameBucket(c, client, server, k);
    }
  }

  lemma PrefixGenuine(c: Codec, a: seq<Envelope>, b: seq<Envelope>)
    requires a <= b && AllGenuine(c, b)
    ensures AllGenuine(c, a)
  {
  }

  /** Bucket reconciliation loses nothing, whatever other writers do meanwhile: after a completed sync the
      server holds every id the client held when it took its summaries, and the client every id the server
      held when it took its own. */
  lemma CompletedSyncCovers(c: Codec, client: Side, server: Side, steps: seq<Step>)
    requires CodecOk(c) && SidesOk(c, client, server)
    requires var s := Run(c, Begin(client, server), steps);
             s.phase.Complete? && NoBucketCollision(c, s.serverAt, s.clientAt)
    ensures var s := Run(c, Begin(client, server), steps);
            IdSet(s.clientAt) <= IdSet(s.server.log) && IdSet(s.serverAt) <= IdSet(s.client.log)
  {
    var s := Run(c, Begin(client, server), steps);
    RunKeeps(c, Begin(client, server), steps);
    CompleteCovers(c, s);
  }

  lemma CompleteCovers(c: Codec, s: Session)
    requires CodecOk(c) && Inv(c, s) && s.phase.Complete? && NoBucketCollision(c, s.serverAt, s.clientAt)
    ensures IdSet(s.clientAt) <= IdSet(s.server.log) && IdSet(s.serverAt) <= IdSet(s.client.log)
  {
    PrefixGenuine(c, s.serverAt, s.server.log);
    PrefixGenuine(c, s.clientAt, s.client.log);
    PrefixIds(s.serverAt, s.server.log);
    PrefixIds(s.clientAt, s.client.log);
    SidesCover(c, s.serverAt, s.clientAt, IdSet(s.server.log), IdSet(s.client.log), s.phase.diff);
  }

  /** Two snapshots whose differing buckets are covered are covered altogether. */
  lemma SidesCover(
    c: Codec, serverAt: seq<Envelope>, clientAt: seq<Envelope>, serverNow: set<Id>, clientNow: set<Id>, diff: seq<nat>)
    requires CodecOk(c) && AllGenuine(c, serverAt) && AllGenuine(c, clientAt)
    requires NoBucketCollision(c, serverAt, clientAt)
    requires diff == Differing(Hashes(c, serverAt), Hashes(c, clientAt), BUCKET_COUNT)
    requires CoversAll(serverNow, clientAt, diff, []) && CoversAll(clientNow, serverAt, diff, [])
    requires IdSet(serverAt) <= serverNow && IdSet(clientAt) <= clientNow
    ensures IdSet(clientAt) <= serverNow && IdSet(serverAt) <= clientNow
  {
    forall k: nat | k < BUCKET_COUNT && k !in diff
      ensures multiset(BucketIds(Ids(serverAt), k)) == multiset(BucketIds(Ids(clientAt), k))
    {
      SnapshotsAgree(c, serverAt, clientAt, diff, k);
    }
    CoverAllBuckets(c, clientAt, serverAt, serverNow, diff);
    CoverAllBuckets(c, serverAt, clientAt, clientNow, diff);
  }

  /** The snapshots hold at least what the logs held when the session began. */
  ghost predicate SnapshotsCover(s: Session, client: seq<Envelope>, server: seq<Envelope>) {
    && client <= s.client.log && server <= s.server.log
    && (!s.phase.Start? && !s.phase.Aborted? ==> client <= s.clientAt)
    && (!s.phase.Start? && !s.phase.Aborted? && !s.phase.Asked? ==> server <= s.serverAt)
  }

  lemma {:induction false} SnapshotsStay(
    c: Codec, s: Session, steps: seq<Step>, client: seq<Envelope>, server: seq<Envelope>)
    requires Inv(c, s) && SnapshotsCover(s, client, server)
    ensures SnapshotsCover(Run(c, s, steps), client, server)
    decreases |steps|
  {
    if steps != [] {
      StepKeeps(c, s, steps[0]);
      SnapshotStep(c, s, steps[0], client, server);
      SnapshotsStay(c, Act(c, s, steps[0]), steps[1..], client, server);
    }
  }

  lemma SnapshotStep(c: Codec, s: Session, step: Step, client: seq<Envelope>, server: seq<Envelope>)
    requires SnapshotsCover(s, client, server)
    requires s.client.log <= Act(c, s, step).client.log && s.server.log <= Act(c, s, step).server.log
    ensures SnapshotsCover(Act(c, s, step), client, server)
  {
  }

  /** Without other writers, at every moment each node holds at least what it held before and at most the
      union; once the sync is complete both hold exactly the union. */
  lemma QuietSync(c: Codec, client: Side, server: Side, steps: seq<Step>)
    requires CodecOk(c) && SidesOk(c, client, server) && Quiet(steps)
    ensures var s, all := Run(c, Begin(client, server), steps), IdSet(client.log) + IdSet(server.log);
            && IdSet(client.log) <= IdSet(s.client.log) <= all
            && IdSet(server.log) <= IdSet(s.server.log) <= all
            && (s.phase.Complete? && NoBucketCollision(c, s.serverAt, s.clientAt) ==>
                  IdSet(s.client.log) == all && IdSet(s.server.log) == all)
  {
    var b := Begin(client, server);
    var s := Run(c, b, steps);
    RunKeeps(c, b, steps);
    SnapshotsStay(c, b, steps, client.log, server.log);
    PrefixIds(client.log, s.client.log);
    PrefixIds(server.log, s.server.log);
    if s.phase.Complete? && NoBucketCollision(c, s.serverAt, s.clientAt) {
      CompleteCovers(c, s);
      PrefixIds(client.log, s.clientAt);
      PrefixIds(server.log, s.serverAt);
    }
  }

  /** The ids that other writers hand to the nodes during a run. */
  function WrittenIds(steps: seq<Step>): set<Id> {
    if steps == [] then {} else (if steps[0].Interfere? then {steps[0].env.id} else {}) + WrittenIds(steps[1..])
  }

  /** No id is lost and none is invented: what the nodes hold together only grows, and only by what other
      writers wrote. */
  lemma {:induction false} NothingInvented(c: Codec, s: Session, steps: seq<Step>)
    requires Inv(c, s)
    ensures Union(s) <= Union(Run(c, s, steps)) <= Union(s) + WrittenIds(steps)
    decreases |steps|
  {
    if steps != [] {
      StepKeeps(c, s, steps[0]);
      var s' := Act(c, s, steps[0]);
      PrefixIds(s.client.log, s'.client.log);
      PrefixIds(s.server.log, s'.server.log);
      NothingInvented(c, s', steps[1..]);
    }
  }

  /** A sync stopped at any point can simply be run again: the second one reaches the union of what the
      nodes held before the first. */
  lemma RetryReachesSameUnion(c: Codec, client: Side, server: Side, first: seq<Step>, again: seq<Step>)
    requires CodecOk(c) && SidesOk(c, client, server) && Quiet(first) && Quiet(again)
    requires var s1 := Run(c, Begin(client, server), first);
             var s2 := Run(c, Begin(s1.client, s1.server), again);
             s2.phase.Complete? && NoBucketCollision(c, s2.serverAt, s2.clientAt)
    ensures var s1 := Run(c, Begin(client, server), first);
            var s2 := Run(c, Begin(s1.client, s1.server), again);
            IdSet(s2.client.log) == IdSet(s2.server.log) == IdSet(client.log) + IdSet(server.log)
  {
    var s1 := Run(c, Begin(client, server), first);
    RunKeeps(c, Begin(client, server), first);
    QuietSync(c, s1.client, s1.server, again);
  }

  /** A log that grew has a new id. */
  lemma GrownLogHasNewId(before: seq<Envelope>, after: seq<Envelope>)
    requires before <= after && before != after && Distinct(Ids(after))
    ensures !(IdSet(after) <= IdSet(before))
  {
    var id := Ids(after)[|before|];
    assert id in IdSet(after);
    forall i | 0 <= i < |before| ensures Ids(before)[i] != id {
      assert Ids(before)[i] == Ids(after)[i];
    }
  }

  /** Reconciliation is about ids, not envelopes. An id covers the message but not its author, so two nodes may
      hold different envelopes under one id; if they hold the same ids no sync ever exchanges anything. */
  lemma SameIdsNothingMoves(c: Codec, client: Side, server: Side, steps: seq<Step>)
    requires CodecOk(c) && SidesOk(c, client, server) && Quiet(steps) && IdSet(client.log) == IdSet(server.log)
    ensures var s := Run(c, Begin(client, server), steps);
            s.client.log == client.log && s.server.log == server.log
  {
    var s := Run(c, Begin(client, server), steps);
    RunKeeps(c, Begin(client, server), steps);
    QuietSync(c, client, server, steps);
    if s.client.log != client.log { GrownLogHasNewId(client.log, s.client.log); }
    if s.server.log != server.log { GrownLogHasNewId(server.log, s.server.log); }
  }
}
