/** What the nodes check before and during a transfer: the lists of the differing buckets keep the cap, and
    both nodes admit the authors of what they lack. No step of a session changes whether it is so.
 */
module SyncProgress {
  import opened Basics
  import opened Chain
  import opened Proto
  import opened LogFormat
  import opened LogIndex
  import opened BucketSync
  import Policy

  // ---------------------------------------------------------------- the condition

  /** The ids of all the listed buckets. */
  ghost function BucketsOf(es: seq<Envelope>, bs: seq<nat>): set<Id> {
    if bs == [] then {} else BucketOf(es, bs[0]) + BucketsOf(es, bs[1..])
  }

  /** The envelope that stands for `id` in the log is by an author the policy admits. */
  predicate Admitted(p: Policy.ChannelPolicy, es: seq<Envelope>, id: Id) {
    var e := Lookup(es, id);
    e.Some? && Policy.AllowsAppend(p, e.value.from)
  }

  ghost predicate AdmitsIds(p: Policy.ChannelPolicy, es: seq<Envelope>, ids: set<Id>) {
    forall id :: id in ids ==> Admitted(p, es, id)
  }

  ghost predicate AdmitsList(p: Policy.ChannelPolicy, es: seq<Envelope>, ids: seq<Id>) {
    forall id :: id in ids ==> Admitted(p, es, id)
  }

  ghost predicate AdmitsQueue(p: Policy.ChannelPolicy, es: seq<Envelope>) {
    forall e :: e in es ==> Policy.AllowsAppend(p, e.from)
  }

  /** Lists that keep the cap and whose differences both nodes will take. */
  ghost predicate ListsFit(client: Side, server: Side, serverIds: set<Id>, clientIds: set<Id>) {
    && |clientIds| <= MAX_DIFFERING_IDS && |serverIds| <= MAX_DIFFERING_IDS
    && AdmitsIds(client.policy, server.log, serverIds - clientIds)
    && AdmitsIds(server.policy, client.log, clientIds - serverIds)
  }

  predicate Opening(p: Phase) {
    p.Start? || p.Asked? || p.ListingServer? || p.ListingClient?
  }

  /** The id lists of the server and of the client, as the session has made them or will make them. */
  ghost function Lists(c: Codec, s: Session): (set<Id>, set<Id>)
    requires Opening(s.phase)
  {
    match s.phase
    case Start => ListsOf(s, Differing(Hashes(c, s.server.log), Hashes(c, s.client.log), BUCKET_COUNT))
    case Asked(h) => ListsOf(s, Differing(Hashes(c, s.server.log), h, BUCKET_COUNT))
    case ListingServer(diff, todo, ids) => (ids + BucketsOf(s.server.log, todo), BucketsOf(s.client.log, diff))
    case ListingClient(_, todo, serverIds, clientIds) => (serverIds, clientIds + BucketsOf(s.client.log, todo))
  }

  ghost function ListsOf(s: Session, diff: seq<nat>): (set<Id>, set<Id>) {
    (BucketsOf(s.server.log, diff), BucketsOf(s.client.log, diff))
  }

  /** Nothing that the nodes check stands in the way of the session. */
  ghost predicate Fits(c: Codec, s: Session) {
    match s.phase
    case Transfer(_, _, _, toSend, down, toUpload, up, _, _) =>
      && AdmitsList(s.client.policy, s.server.log, toSend) && AdmitsQueue(s.client.policy, down)
      && AdmitsList(s.server.policy, s.client.log, toUpload) && AdmitsQueue(s.server.policy, up)
    case Complete(_) => true
    case Aborted => false
    case _ => ListsFit(s.client, s.server, Lists(c, s).0, Lists(c, s).1)
  }

  /** A step of the session itself, which is not broken off and keeps its policies. */
  predicate Calm(step: Step) {
    !step.Interfere? && !step.Abort? && !step.ChangePolicy?
  }

  ghost predicate AllCalm(steps: seq<Step>) {
    forall i :: 0 <= i < |steps| ==> Calm(steps[i])
  }

  // ---------------------------------------------------------------- no calm step changes it

  lemma NoneAdded(ids: set<Id>)
    ensures {} + ids == ids && ids + {} == ids
  {
  }

  lemma ListServerKeepsLists(c: Codec, s: Session)
    requires s.phase.ListingServer?
    ensures Lists(c, DoListServer(s)) == Lists(c, s)
  {
    var p := s.phase;
    if p.todo == [] {
      NoneAdded(p.serverIds);
      NoneAdded(BucketsOf(s.client.log, p.diff));
    } else {
      var b := BucketOf(s.server.log, p.todo[0]);
      var rest := BucketsOf(s.server.log, p.todo[1..]);
      assert p.serverIds + (b + rest) == p.serverIds + b + rest;
    }
  }

  lemma ListClientKeepsLists(c: Codec, s: Session)
    requires s.phase.ListingClient?
    ensures Lists(c, DoListClient(s)) == Lists(c, s)
  {
    var p := s.phase;
    if p.todo != [] {
      var b := BucketOf(s.client.log, p.todo[0]);
      var rest := BucketsOf(s.client.log, p.todo[1..]);
      assert p.clientIds + (b + rest) == p.clientIds + b + rest;
    }
  }

  /** The lists are the same whenever one looks, as long as the session is making them. */
  lemma StepKeepsLists(c: Codec, s: Session, step: Step)
    requires Opening(s.phase) && Calm(step) && !step.Decide?
    ensures var s' := Act(c, s, step);
            s'.client == s.client && s'.server == s.server && Opening(s'.phase) && Lists(c, s') == Lists(c, s)
  {
    match s.phase
    case ListingServer(_, _, _) => if step.ListServer? { ListServerKeepsLists(c, s); }
    case ListingClient(_, _, _, _) => if step.ListClient? { ListClientKeepsLists(c, s); }
    case Asked(h) => NoneAdded(BucketsOf(s.server.log, Differing(Hashes(c, s.server.log), h, BUCKET_COUNT)));
    case _ =>
  }

  lemma ListedFits(p: Policy.ChannelPolicy, es: seq<Envelope>, list: seq<Id>, ids: set<Id>)
    requires Enumerates(list, ids)
    ensures AdmitsList(p, es, list) == AdmitsIds(p, es, ids)
  {
    EnumeratedIds(list, ids);
  }

  lemma DecideFits(c: Codec, s: Session, wants: seq<Id>, sends: seq<Id>)
    requires s.phase.ListingClient?
    ensures Fits(c, DoDecide(s, wants, sends)) == Fits(c, s)
  {
    var p := s.phase;
    if p.todo == [] {
      NoneAdded(p.clientIds);
      if DoDecide(s, wants, sends).phase.Transfer? {
        ListedFits(s.client.policy, s.server.log, sends, p.serverIds - p.clientIds);
        ListedFits(s.server.policy, s.client.log, wants, p.clientIds - p.serverIds);
      }
    }
  }

  lemma FirstAdmitted(p: Policy.ChannelPolicy, es: seq<Envelope>, ids: seq<Id>)
    requires ids != []
    ensures AdmitsList(p, es, ids) == (Admitted(p, es, ids[0]) && AdmitsList(p, es, ids[1..]))
  {
    assert ids == [ids[0]] + ids[1..];
  }

  lemma SendFits(c: Codec, s: Session)
    requires s.phase.Transfer?
    ensures Fits(c, DoSend(s)) == Fits(c, s)
  {
    var t := s.phase;
    if t.toSend != [] { FirstAdmitted(s.client.policy, s.server.log, t.toSend); }
  }

  lemma UploadFits(c: Codec, s: Session)
    requires s.phase.Transfer?
    ensures Fits(c, DoUpload(s)) == Fits(c, s)
  {
    var t := s.phase;
    if t.toUpload != [] { FirstAdmitted(s.server.policy, s.client.log, t.toUpload); }
  }

  lemma ReceiveFits(c: Codec, s: Session)
    requires s.phase.Transfer?
    requires s.phase.up != [] ==> s.phase.up[0].id in s.phase.wanted && Genuine(c.prims, s.phase.up[0])
    ensures Fits(c, DoReceive(c, s)) == Fits(c, s)
  {
    var t := s.phase;
    if t.up != [] {
      assert t.up == [t.up[0]] + t.up[1..];
    }
  }

  lemma DownloadFits(c: Codec, s: Session)
    requires s.phase.Transfer? && AllGenuine(c, s.phase.down)
    ensures Fits(c, DoDownload(c, s)) == Fits(c, s)
  {
    var t := s.phase;
    if t.down != [] {
      assert t.down == [t.down[0]] + t.down[1..];
    }
  }

  lemma FinishFits(c: Codec, s: Session)
    requires s.phase.Transfer?
    requires s.phase.wanted == {} ==> s.phase.up == [] && s.phase.toUpload == []
    ensures Fits(c, DoFinish(s)) == Fits(c, s)
  {
  }

  /** Uploads on their way are wanted, and nothing is wanted only if none is on its way. */
  lemma UploadsWanted(c: Codec, up: seq<Envelope>, toUpload: seq<Id>, wanted: set<Id>)
    requires Enumerates(Ids(up) + toUpload, wanted) && AllGenuine(c, up)
    ensures up != [] ==> up[0].id in wanted && Genuine(c.prims, up[0])
    ensures up == [] && toUpload == [] <==> wanted == {}
  {
    EnumeratedIds(Ids(up) + toUpload, wanted);
    if up != [] {
      assert Ids(up)[0] == up[0].id;
      assert up[0].id in Ids(up) + toUpload;
    }
    if toUpload != [] { assert toUpload[0] in Ids(up) + toUpload; }
  }

  lemma TransferFits(c: Codec, s: Session, step: Step)
    requires Inv(c, s) && s.phase.Transfer? && Calm(step)
    ensures Fits(c, Act(c, s, step)) == Fits(c, s)
  {
    UploadsWanted(c, s.phase.up, s.phase.toUpload, s.phase.wanted);
    match step
    case Send => SendFits(c, s);
    case Upload => UploadFits(c, s);
    case Receive => ReceiveFits(c, s);
    case Download => DownloadFits(c, s);
    case Finish => FinishFits(c, s);
    case _ =>
  }

  /** A session that has ended stays as it is. */
  lemma EndedStays(c: Codec, s: Session, step: Step)
    requires !s.phase.Transfer? && !Opening(s.phase) && Calm(step)
    ensures Act(c, s, step) == s
  {
  }

  lemma OpeningFits(c: Codec, s: Session, step: Step)
    requires Opening(s.phase) && Calm(step) && !step.Decide?
    ensures Fits(c, Act(c, s, step)) == Fits(c, s)
  {
    StepKeepsLists(c, s, step);
  }

  lemma DecideStepFits(c: Codec, s: Session, step: Step)
    requires Opening(s.phase) && step.Decide?
    ensures Fits(c, Act(c, s, step)) == Fits(c, s)
  {
    if s.phase.ListingClient? { DecideFits(c, s, step.wants, step.sends); }
  }

  /** No step of the session itself changes whether anything stands in its way. */
  lemma StepFits(c: Codec, s: Session, step: Step)
    requires Inv(c, s) && Calm(step)
    ensures Fits(c, Act(c, s, step)) == Fits(c, s)
  {
    if s.phase.Transfer? {
      TransferFits(c, s, step);
    } else if !Opening(s.phase) {
      EndedStays(c, s, step);
    } else if step.Decide? {
      DecideStepFits(c, s, step);
    } else {
      OpeningFits(c, s, step);
    }
  }

  // ---------------------------------------------------------------- small logs always fit

  lemma {:induction false} SubsetSmaller(a: set<Id>, b: set<Id>)
    requires a <= b
    ensures |a| <= |b|
  {
    assert a + (b - a) == b;
    assert |b| == |a| + |b - a|;
  }

  lemma {:induction false} BucketsWithin(es: seq<Envelope>, bs: seq<nat>)
    ensures BucketsOf(es, bs) <= IdSet(es)
    decreases |bs|
  {
    if bs != [] { BucketsWithin(es, bs[1..]); }
  }

  /** The lists hold nothing that the logs do not hold: nodes that admit each other's authors and hold no more
      than the cap pass every check. */
  lemma SmallLogsFit(c: Codec, client: Side, server: Side)
    requires AdmitsQueue(client.policy, server.log) && AdmitsQueue(server.policy, client.log)
    requires |IdSet(client.log)| <= MAX_DIFFERING_IDS && |IdSet(server.log)| <= MAX_DIFFERING_IDS
    ensures Fits(c, Begin(client, server))
  {
    var diff := Differing(Hashes(c, server.log), Hashes(c, client.log), BUCKET_COUNT);
    var a, b := BucketsOf(server.log, diff), BucketsOf(client.log, diff);
    BucketsWithin(server.log, diff);
    BucketsWithin(client.log, diff);
    SubsetSmaller(a, IdSet(server.log));
    SubsetSmaller(b, IdSet(client.log));
  }
}
