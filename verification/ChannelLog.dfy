/** The operations on one channel's log, each run while holding the log's exclusive lock. */
module ChannelLog {
  import opened Basics
  import opened Chain
  import opened Proto
  import opened LogFormat
  import opened LogIndex
  import opened LogStore
  import opened TailOrder
  import M = Moderation
  import Policy
  import Roles

  datatype ChunkSummary = ChunkSummary(index: nat, count: nat, hash: Bytes)

  class ChannelFile {
    const c: Codec
    const chan: Bytes
    var log: Bytes
    var index: Option<Index>
    ghost var envelopes: seq<Envelope>
    ghost var torn: Bytes

    ghost predicate Valid()
      reads this
    {
      && CodecOk(c)
      && Sound(c, Disk(log, index), envelopes, torn)
      && forall i :: 0 <= i < |envelopes| ==> envelopes[i].channel == chan
    }

    constructor (c: Codec, chan: Bytes)
      requires CodecOk(c)
      ensures Valid() && this.c == c && this.chan == chan && envelopes == [] && torn == []
    {
      this.c, this.chan := c, chan;
      log, index, envelopes, torn := [], None, [], [];
    }

    /** Believes a current stamp and rebuilds anything else from the verified log. */
    method EnsureIndex() returns (ok: bool)
      requires Valid()
      modifies this`index
      ensures Valid()
      ensures ok <==> torn == []
      ensures index == if ok then Some(FullIndex(c, envelopes)) else old(index)
    {
      EnsureExact(c, Disk(log, index), envelopes, torn);
      if index == None || index.value.logLen != |log| || index.value.schema != SCHEMA_VERSION {
        var scanned := ScanVerified(c, log);
        if scanned.None? { return false; }
        var rebuilt := RebuildIndex(c, scanned.value, |log|);
        index := Some(rebuilt);
      }
      assert envelopes[..|envelopes|] == envelopes;
      ok := true;
    }

    /** Appends a genuine envelope of an allowed author, once. */
    method AppendMessage(policy: Policy.ChannelPolicy, env: Envelope) returns (ok: bool)
      requires Valid()
      modifies this
      ensures Valid() && torn == old(torn)
      ensures ok <==>
              && env.channel == chan && Genuine(c.prims, env) && torn == []
              && (policy.mode == Policy.Open || policy.owner == Some(env.from)
                  || env.from in policy.moderators || env.from in policy.writers)
      ensures envelopes == if ok && env.id !in Ids(old(envelopes)) then old(envelopes) + [env] else old(envelopes)
      ensures ok ==> index == Some(FullIndex(c, envelopes))
    {
      if env.channel != chan { return false; }
      var genuine := Verify(c.prims, env);
      if !genuine { return false; }
      if !Policy.AllowsAppend(policy, env.from) { return false; }
      var ready := EnsureIndex();
      if !ready { return false; }
      IndexedIds(c, envelopes);
      if env.id in index.value.messages { return true; }
      WriteRecord(env);
      ok := true;
    }

    /** Appends under the policy that a history derives: without a history anyone may write, with one the owner,
        the moderators and the writers, as the last event about each says. */
    method AppendUnder(s: Policy.PolicyScheme, ps: seq<Policy.PolicyEvent>, env: Envelope) returns (ok: bool)
      requires Valid()
      modifies this
      ensures Valid() && torn == old(torn)
      ensures ok <==>
              && env.channel == chan && Genuine(c.prims, env) && torn == [] && Policy.Valid(s, chan, ps)
              && (ps == [] || Roles.Owns(ps, env.from)
                  || Roles.HasRole(ps, Policy.Moderator, env.from) || Roles.HasRole(ps, Policy.Writer, env.from))
      ensures envelopes == if ok && env.id !in Ids(old(envelopes)) then old(envelopes) + [env] else old(envelopes)
    {
      var policy := Policy.DerivePolicy(s, chan, ps);
      if policy.None? { return false; }
      Roles.PolicyByLastWord(s, chan, ps, env.from);
      ok := AppendMessage(policy.value, env);
    }

    /** Writes one new record and commits its index entry. */
    method WriteRecord(env: Envelope)
      requires Valid() && torn == [] && index == Some(FullIndex(c, envelopes))
      requires Genuine(c.prims, env) && env.channel == chan && env.id !in Ids(envelopes)
      modifies this
      ensures Valid() && torn == [] && envelopes == old(envelopes) + [env]
      ensures index == Some(FullIndex(c, envelopes))
    {
      var record := c.encode(env) + [NEWLINE];
      var longer := log + record;
      var next := CommitEntry(c, log, index.value, envelopes, env, longer);
      log := longer;
      envelopes := envelopes + [env];
      index := next;
    }

    predicate Fits(id: Id, e: Envelope)
    {
      e.id == id && e.channel == chan && Genuine(c.prims, e)
    }

    /** Reads and verifies the record at a location. */
    method ReadIndexed(id: Id, offset: nat, length: nat) returns (r: Option<Envelope>)
      requires Valid()
      ensures forall e :: RecordAt(c, log, offset, length, e) && Fits(id, e) ==> r == Some(e)
    {
      if offset + length > |log| || length == 0 { return None; }
      var record := log[offset..offset + length];
      if record[length - 1] != NEWLINE { return None; }
      var e := c.decode(record[..length - 1]);
      forall x | RecordAt(c, log, offset, length, x) ensures e == Some(x) {
        assert RoundTrips(c, x);
        assert record[..length - 1] == c.encode(x);
      }
      if e.None? || e.value.id != id || e.value.channel != chan { return None; }
      var genuine := Verify(c.prims, e.value);
      r := if genuine then e else None;
    }

    /** Finds one message by its id. */
    method ReadMessageById(id: Id) returns (r: Option<Envelope>)
      requires Valid()
      modifies this`index
      ensures Valid()
      ensures r.Some? <==> torn == [] && id in Ids(envelopes)
      ensures r.Some? ==> r.value in envelopes && r.value.id == id
    {
      var ready := EnsureIndex();
      if !ready { return None; }
      IndexedIds(c, envelopes);
      if id !in index.value.messages { return None; }
      ghost var i :| 0 <= i < |envelopes| && Ids(envelopes)[i] == id;
      LocatedRecord(c, log, envelopes, i);
      var at := index.value.messages[id];
      r := ReadIndexed(id, at.offset, at.length);
    }

    /** One summary for each non-empty bucket, in ascending order. */
    method ChunkSummaries() returns (r: Option<seq<ChunkSummary>>)
      requires Valid()
      modifies this`index
      ensures Valid()
      ensures r.Some? <==> torn == []
      ensures r.Some? ==> r.value == Summaries(Ids(envelopes), HashesOf(c, Ids(envelopes)), BUCKET_COUNT)
    {
      var ready := EnsureIndex();
      if !ready { return None; }
      PlacedIds(c, envelopes, 0);
      GenuineIds(c, envelopes);
      var summaries := Summarise(c, Ids(envelopes), index.value.chunks, index.value.hashes);
      r := Some(summaries);
    }

    /** The ids of one bucket, as text. */
    method ChunkIds(b: nat) returns (r: Option<seq<Id>>)
      requires Valid()
      modifies this`index
      ensures Valid()
      ensures r.Some? <==> torn == []
      ensures r.Some? ==> forall id :: id in r.value <==> id in Ids(envelopes) && InBucket(id, b)
    {
      var ready := EnsureIndex();
      if !ready { return None; }
      PlacedIds(c, envelopes, 0);
      GenuineIds(c, envelopes);
      var texts := BucketAsText(Ids(envelopes), index.value.chunks, b);
      r := texts;
    }

    /** The last `n` visible messages in log order: walks the index from the end of the log. */
    method ReadTail(mc: M.Context, ps: seq<Policy.PolicyEvent>, ms: seq<M.ModerationEvent>, n: nat, audit: bool)
      returns (r: Option<seq<Envelope>>)
      requires Valid()
      modifies this`index
      ensures Valid()
      ensures r.Some? <==> n == 0 || (torn == [] && (audit || M.Valid(mc, ps, ms)))
      ensures n == 0 ==> r == Some([])
      ensures r.Some? && n > 0 ==>
                r.value == LastN(Visible(envelopes, if audit then map[] else M.Replay(mc, ps, ms).value), n)
    {
      if n == 0 { return Some([]); }
      var hidden: M.State := map[];
      if !audit {
        var state := M.DeriveModeration(mc, ps, ms);
        if state.None? { return None; }
        hidden := state.value;
      }
      var ready := EnsureIndex();
      if !ready { return None; }
      var locations := Entries(index.value.messages);
      EntriesInOrder(c, envelopes, locations);
      locations := Sort(LaterFirst, locations);
      var found := CollectTail(locations, hidden, n);
      r := Some(found);
    }

    /** Reads visible records from the end until there are enough, then puts them in log order. */
    method CollectTail(locations: seq<Entry>, hidden: M.State, n: nat) returns (r: seq<Envelope>)
      requires Valid() && torn == [] && n > 0 && locations == Backwards(c, envelopes)
      ensures r == LastN(Visible(envelopes, hidden), n)
    {
      var found: seq<Envelope> := [];
      var i := 0;
      while i < |locations| && |found| < n
        invariant 0 <= i <= |locations| == |envelopes|
        invariant Gathered(found, envelopes, |envelopes| - i, hidden)
        invariant |found| <= n
      {
        found := CollectEntry(locations[i], |envelopes| - 1 - i, hidden, found);
        i := i + 1;
      }
      GatherEnd(found, envelopes, |envelopes| - i, hidden, n);
      r := Reverse(found);
    }

    /** Adds one record to what was gathered, unless it is hidden. */
    method CollectEntry(at: Entry, ghost k: nat, hidden: M.State, found: seq<Envelope>) returns (more: seq<Envelope>)
      requires Valid() && torn == [] && k < |envelopes| && at == EntryOf(c, envelopes, k)
      requires Gathered(found, envelopes, k + 1, hidden)
      ensures Gathered(more, envelopes, k, hidden) && |more| <= |found| + 1
    {
      GatherStep(found, envelopes, k, hidden);
      more := found;
      if at.id !in hidden {
        var e := ReadEntry(at, k);
        more := found + [e];
      }
    }

    method ReadEntry(at: Entry, ghost k: nat) returns (e: Envelope)
      requires Valid() && torn == [] && k < |envelopes| && at == EntryOf(c, envelopes, k)
      ensures e == envelopes[k]
    {
      LocatedRecord(c, log, envelopes, k);
      var read := ReadIndexed(at.id, at.offset, at.length);
      assert read == Some(envelopes[k]);
      e := read.value;
    }
  }

  lemma AppendSound(
    c: Codec, log: Bytes, index: Index, es: seq<Envelope>, e: Envelope, longer: Bytes, next: Option<Index>)
    requires CodecOk(c) && Shape(c, log, es, []) && index == FullIndex(c, es)
    requires Genuine(c.prims, e) && e.id !in Ids(es)
    requires longer == log + Record(c, e) && next == Committed(c, index, e, |longer|)
    ensures next == Some(FullIndex(c, es + [e])) && Sound(c, Disk(longer, next), es + [e], [])
  {
    ShapeAppend(c, log, es, e);
    CommitExact(c, es, e, |longer|, index);
    WholeIsSound(c, Disk(longer, next), es + [e]);
  }

  /** The index after a new record was written to the end of the log. */
  method CommitEntry(c: Codec, log: Bytes, index: Index, ghost es: seq<Envelope>, e: Envelope, longer: Bytes)
    returns (next: Option<Index>)
    requires CodecOk(c) && Shape(c, log, es, []) && index == FullIndex(c, es)
    requires Genuine(c.prims, e) && e.id !in Ids(es) && longer == log + Record(c, e)
    ensures next == Some(FullIndex(c, es + [e])) && Sound(c, Disk(longer, next), es + [e], [])
  {
    next := IndexInsert(c, index, e.id, |longer| - |Record(c, e)|, |Record(c, e)|, |longer|);
    AppendSound(c, log, index, es, e, longer, next);
  }

  /** One summary for each non-empty bucket of the tables. */
  method Summarise(c: Codec, ghost ids: seq<Id>, chunks: map<nat, Bytes>, hashes: map<nat, Bytes>)
    returns (summaries: seq<ChunkSummary>)
    requires AllCanonical(ids) && chunks == ChunksOf(ids) && hashes == HashAll(c, chunks)
    ensures summaries == Summaries(ids, hashes, BUCKET_COUNT)
  {
    summaries := [];
    for b := 0 to BUCKET_COUNT
      invariant summaries == Summaries(ids, hashes, b)
    {
      if b in chunks {
        StoredSize(ids, chunks, b);
        summaries := summaries + [ChunkSummary(b, |chunks[b]| / ID_LENGTH, hashes[b])];
      }
    }
  }

  lemma StoredSize(ids: seq<Id>, chunks: map<nat, Bytes>, b: nat)
    requires AllCanonical(ids) && chunks == ChunksOf(ids) && b in chunks
    ensures |chunks[b]| / ID_LENGTH == |BucketIds(ids, b)|
  {
    BucketSize(ids, b);
  }

  /** The ids stored in bucket `b`; nothing for a bucket that is not stored. */
  method BucketAsText(ghost ids: seq<Id>, chunks: map<nat, Bytes>, b: nat) returns (r: Option<seq<Id>>)
    requires AllCanonical(ids) && chunks == ChunksOf(ids)
    ensures r.Some? && forall id :: id in r.value <==> id in ids && InBucket(id, b)
  {
    BucketTexts(ids, b);
    if b !in chunks { return Some([]); }
    BucketSize(ids, b);
    if |chunks[b]| % ID_LENGTH != 0 { return None; }
    r := Some(HexAll(ChunksExact(chunks[b])));
  }

  /** The summaries of the buckets below `b`, in ascending order. */
  function Summaries(ids: seq<Id>, hashes: map<nat, Bytes>, b: nat): seq<ChunkSummary> {
    if b == 0 then [] else
    Summaries(ids, hashes, b - 1)
    + if b - 1 in hashes then [ChunkSummary(b - 1, |BucketIds(ids, b - 1)|, hashes[b - 1])] else []
  }

  /** The table of hashes that a receiver collects from summaries. */
  function Collect(s: seq<ChunkSummary>): map<nat, Bytes> {
    if s == [] then map[] else Collect(s[..|s| - 1])[s[|s| - 1].index := s[|s| - 1].hash]
  }

  /** Sending summaries and collecting them gives back the stored hashes. */
  lemma {:induction false} CollectSummaries(ids: seq<Id>, hashes: map<nat, Bytes>, b: nat)
    ensures Collect(Summaries(ids, hashes, b)) == map k | k in hashes && k < b :: hashes[k]
  {
    if b > 0 {
      CollectSummaries(ids, hashes, b - 1);
      var before := Summaries(ids, hashes, b - 1);
      if b - 1 in hashes {
        var s := before + [ChunkSummary(b - 1, |BucketIds(ids, b - 1)|, hashes[b - 1])];
        assert s[..|s| - 1] == before;
      } else {
        assert before + [] == before;
      }
    }
  }

  function HexAll(raws: seq<Bytes>): (ids: seq<Id>)
    ensures |ids| == |raws| && forall i :: 0 <= i < |raws| ==> ids[i] == Hex(raws[i])
  {
    seq(|raws|, i requires 0 <= i < |raws| => Hex(raws[i]))
  }

  lemma BucketSize(ids: seq<Id>, b: nat)
    requires AllCanonical(ids)
    ensures |Members(ids, b)| == ID_LENGTH * |BucketIds(ids, b)|
    ensures ChunksExact(Members(ids, b)) == Sort(LexLeq, BucketIds(ids, b))
  {
    BucketIdsRaw(ids, b);
    SortedRaw(BucketIds(ids, b));
    ChunksOfFlatten(Sort(LexLeq, BucketIds(ids, b)));
  }

  /** The texts of a stored bucket are exactly the ids that fall into it. */
  lemma BucketTexts(ids: seq<Id>, b: nat)
    requires AllCanonical(ids)
    ensures forall id :: id in HexAll(Sort(LexLeq, BucketIds(ids, b))) <==> id in ids && InBucket(id, b)
    ensures BucketIds(ids, b) == [] ==> forall id :: !(id in ids && InBucket(id, b))
    ensures b >= BUCKET_COUNT ==> BucketIds(ids, b) == []
  {
    var raws := Sort(LexLeq, BucketIds(ids, b));
    LexIsTotalOrder();
    SortSorts(LexLeq, BucketIds(ids, b));
    forall id ensures id in HexAll(raws) <==> id in ids && InBucket(id, b) {
      if id in HexAll(raws) {
        var i :| 0 <= i < |raws| && Hex(raws[i]) == id;
        assert raws[i] in BucketIds(ids, b);
        BucketHas(ids, b, raws[i]);
        var j :| 0 <= j < |ids| && Raw(ids[j]) == raws[i] && InBucket(ids[j], b);
        assert CanonicalId(ids[j]);
      }
      if id in ids && InBucket(id, b) {
        var j :| 0 <= j < |ids| && ids[j] == id;
        assert CanonicalId(ids[j]);
        BucketHas(ids, b, Raw(id));
        assert Raw(id) in raws;
        var i :| 0 <= i < |raws| && raws[i] == Raw(id);
        assert HexAll(raws)[i] == id;
      }
    }
    if BucketIds(ids, b) != [] {
      BucketHas(ids, b, BucketIds(ids, b)[0]);
      assert BucketIds(ids, b)[0] in BucketIds(ids, b);
    }
  }
}
