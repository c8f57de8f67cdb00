/** The message part of a sync session: bucket summaries, the id lists of differing buckets, the list of
    wanted ids and the envelopes, with other writers at work on both nodes all the time.
 */
module BucketSync {
  import opened Basics
  import opened Chain
  import opened Proto
  import opened LogFormat
  import opened LogIndex
  import opened LogStore
  import opened ChannelLog
  import Policy

  const MAX_DIFFERING_IDS: nat := 100_000

  /** A node's log and the policy it currently enforces. */
  datatype Side = Side(log: seq<Envelope>, policy: Policy.ChannelPolicy)

  datatype Phase =
    | Start
    | Asked(clientHashes: map<nat, Bytes>)
    | ListingServer(diff: seq<nat>, todo: seq<nat>, serverIds: set<Id>)
    | ListingClient(diff: seq<nat>, todo: seq<nat>, serverIds: set<Id>, clientIds: set<Id>)
    | Transfer(
        diff: seq<nat>, serverIds: set<Id>, clientIds: set<Id>,
        toSend: seq<Id>, down: seq<Envelope>,
        toUpload: seq<Id>, up: seq<Envelope>,
        wanted: set<Id>, received: nat)
    | Complete(diff: seq<nat>)
    | Aborted

  /** `clientAt` and `serverAt` record the logs from which the summaries were taken. */
  datatype Session = Session(
    client: Side, server: Side, phase: Phase, clientAt: seq<Envelope>, serverAt: seq<Envelope>)

  datatype Step =
    | Summarise
    | Compare
    | ListServer
    | ListClient
    | Decide(wants: seq<Id>, sends: seq<Id>)
    | Send
    | Upload
    | Receive
    | Download
    | Finish
    | Abort
    | Interfere(onClient: bool, env: Envelope)
    | ChangePolicy(onClient: bool, policy: Policy.ChannelPolicy)

  function IdSet(es: seq<Envelope>): set<Id> {
    set id | id in Ids(es)
  }

  function BucketOf(es: seq<Envelope>, b: nat): set<Id> {
    set id | id in Ids(es) && InBucket(id, b)
  }

  function Hashes(c: Codec, es: seq<Envelope>): map<nat, Bytes> {
    Collect(Summaries(Ids(es), HashesOf(c, Ids(es)), BUCKET_COUNT))
  }

  predicate Differs(server: map<nat, Bytes>, client: map<nat, Bytes>, b: nat) {
    (b in server) != (b in client) || (b in server && b in client && server[b] != client[b])
  }

  /** The differing buckets below `b`, in ascending order. */
  function Differing(server: map<nat, Bytes>, client: map<nat, Bytes>, b: nat): seq<nat> {
    if b == 0 then [] else
    Differing(server, client, b - 1) + if Differs(server, client, b - 1) then [b - 1] else []
  }

  /** Appending deduplicates by id and refuses an author the policy does not admit. */
  function Append(s: Side, e: Envelope): Option<Side> {
    if !Policy.AllowsAppend(s.policy, e.from) then None
    else if e.id in Ids(s.log) then Some(s)
    else Some(s.(log := s.log + [e]))
  }

  /** The first logged envelope with this id. */
  function Lookup(es: seq<Envelope>, id: Id): (r: Option<Envelope>)
    ensures r.Some? <==> id in Ids(es)
    ensures r.Some? ==> r.value in es && r.value.id == id
  {
    if es == [] then None
    else if es[0].id == id then assert Ids(es)[0] == id; Some(es[0])
    else
      assert forall i :: 1 <= i < |es| ==> Ids(es)[i] == Ids(es[1..])[i - 1];
      Lookup(es[1..], id)
  }

  /** `s` lists every id of the set exactly once, in some order. */
  predicate Enumerates(s: seq<Id>, ids: set<Id>) {
    multiset(s) == multiset(ids)
  }

  /** The server reads the next envelope the client lacks and sends it. */
  function DoSend(s: Session): Session
    requires s.phase.Transfer?
  {
    if s.phase.toSend == [] then s else
    match Lookup(s.server.log, s.phase.toSend[0])
    case None => s.(phase := Aborted)
    case Some(e) => s.(phase := s.phase.(toSend := s.phase.toSend[1..], down := s.phase.down + [e]))
  }

  /** The client reads the next requested envelope and sends it. */
  function DoUpload(s: Session): Session
    requires s.phase.Transfer?
  {
    if s.phase.toUpload == [] then s else
    match Lookup(s.client.log, s.phase.toUpload[0])
    case None => s.(phase := Aborted)
    case Some(e) => s.(phase := s.phase.(toUpload := s.phase.toUpload[1..], up := s.phase.up + [e]))
  }

  /** The server takes one upload: it must have been requested, be genuine and be admitted. */
  function DoReceive(c: Codec, s: Session): Session
    requires s.phase.Transfer?
  {
    if s.phase.toSend != [] || s.phase.up == [] || s.phase.wanted == {} then s else
    var e := s.phase.up[0];
    if e.id !in s.phase.wanted || !Genuine(c.prims, e) then s.(phase := Aborted) else
    match Append(s.server, e)
    case None => s.(phase := Aborted)
    case Some(n) =>
      s.(server := n,
      phase := s.phase.(up := s.phase.up[1..], wanted := s.phase.wanted - {e.id},
      received := s.phase.received + 1))
  }

  /** The client takes one download. */
  function DoDownload(c: Codec, s: Session): Session
    requires s.phase.Transfer?
  {
    if s.phase.toUpload != [] || s.phase.down == [] then s else
    var e := s.phase.down[0];
    if !Genuine(c.prims, e) then s.(phase := Aborted) else
    match Append(s.client, e)
    case None => s.(phase := Aborted)
    case Some(n) => s.(client := n, phase := s.phase.(down := s.phase.down[1..]))
  }

  function DoListServer(s: Session): Session
    requires s.phase.ListingServer?
  {
    var p := s.phase;
    if p.todo == [] then s.(phase := ListingClient(p.diff, p.diff, p.serverIds, {}))
    else s.(phase := ListingServer(p.diff, p.todo[1..], p.serverIds + BucketOf(s.server.log, p.todo[0])))
  }

  function DoListClient(s: Session): Session
    requires s.phase.ListingClient?
  {
    var p := s.phase;
    if p.todo == [] then s
    else s.(phase := ListingClient(p.diff, p.todo[1..], p.serverIds, p.clientIds + BucketOf(s.client.log, p.todo[0])))
  }

  /** With both lists complete the server asks for what it lacks and plans to send what the client lacks. */
  function DoDecide(s: Session, wants: seq<Id>, sends: seq<Id>): Session
    requires s.phase.ListingClient?
  {
    var p := s.phase;
    if p.todo != [] then s
    else if |p.clientIds| > MAX_DIFFERING_IDS || |p.serverIds| > MAX_DIFFERING_IDS then s.(phase := Aborted)
    else if Enumerates(wants, p.clientIds - p.serverIds) && Enumerates(sends, p.serverIds - p.clientIds) then
      s.(phase := Transfer(p.diff, p.serverIds, p.clientIds, sends, [], wants, [], p.clientIds - p.serverIds, 0))
    else s
  }

  function DoFinish(s: Session): Session
    requires s.phase.Transfer?
  {
    if s.phase.toSend == [] && s.phase.wanted == {} && s.phase.down == []
    then s.(phase := Complete(s.phase.diff)) else s
  }

  function DoSummarise(c: Codec, s: Session): Session {
    if s.phase.Start? then Session(s.client, s.server, Asked(Hashes(c, s.client.log)), s.client.log, s.serverAt)
    else s
  }

  function DoCompare(c: Codec, s: Session): Session {
    if s.phase.Asked? then
      var diff := Differing(Hashes(c, s.server.log), s.phase.clientHashes, BUCKET_COUNT);
      Session(s.client, s.server, ListingServer(diff, diff, {}), s.clientAt, s.server.log)
    else s
  }

  function DoInterfere(c: Codec, s: Session, onClient: bool, e: Envelope): Session {
    if !Genuine(c.prims, e) then s
    else if onClient then (match Append(s.client, e) case None => s case Some(n) => s.(client := n))
    else (match Append(s.server, e) case None => s case Some(n) => s.(server := n))
  }

  function Act(c: Codec, s: Session, step: Step): Session {
    match step
    case Interfere(onClient, e) => DoInterfere(c, s, onClient, e)
    case ChangePolicy(onClient, p) =>
      if onClient then s.(client := s.client.(policy := p)) else s.(server := s.server.(policy := p))
    case Abort => if s.phase.Complete? then s else s.(phase := Aborted)
    case Summarise => DoSummarise(c, s)
    case Compare => DoCompare(c, s)
    case ListServer => if s.phase.ListingServer? then DoListServer(s) else s
    case ListClient => if s.phase.ListingClient? then DoListClient(s) else s
    case Decide(wants, sends) => if s.phase.ListingClient? then DoDecide(s, wants, sends) else s
    case Send => if s.phase.Transfer? then DoSend(s) else s
    case Upload => if s.phase.Transfer? then DoUpload(s) else s
    case Receive => if s.phase.Transfer? then DoReceive(c, s) else s
    case Download => if s.phase.Transfer? then DoDownload(c, s) else s
    case Finish => if s.phase.Transfer? then DoFinish(s) else s
  }

  function Run(c: Codec, s: Session, steps: seq<Step>): Session
    decreases |steps|
  {
    if steps == [] then s else Run(c, Act(c, s, steps[0]), steps[1..])
  }

  function Begin(client: Side, server: Side): Session {
    Session(client, server, Start, [], [])
  }

  // ---------------------------------------------------------------- invariant

  ghost predicate LogOk(c: Codec, es: seq<Envelope>) {
    AllGenuine(c, es) && Distinct(Ids(es))
  }

  /** The bucket `b` of `es` is contained in `ids`. */
  ghost predicate Covers(ids: set<Id>, es: seq<Envelope>, b: nat) {
    BucketOf(es, b) <= ids
  }

  ghost predicate CoversAll(ids: set<Id>, es: seq<Envelope>, bs: seq<nat>, todo: seq<nat>) {
    forall b :: b in bs && b !in todo ==> Covers(ids, es, b)
  }

  /** The lists exchanged cover the differing buckets of both summaries. */
  ghost predicate ListsOk(s: Session, diff: seq<nat>, serverIds: set<Id>, clientIds: set<Id>) {
    && CoversAll(serverIds, s.serverAt, diff, []) && CoversAll(clientIds, s.clientAt, diff, [])
    && serverIds <= IdSet(s.server.log) && clientIds <= IdSet(s.client.log)
  }

  /** Every listed server id is still to be sent, on its way, or logged by the client. */
  ghost predicate DownOk(
    c: Codec, serverLog: seq<Envelope>, clientLog: seq<Envelope>, serverIds: set<Id>, clientIds: set<Id>,
    toSend: seq<Id>, down: seq<Envelope>)
  {
    && AllGenuine(c, down) && IdSet(down) <= IdSet(serverLog)
    && (forall id :: id in toSend ==> id in serverIds)
    && (forall id :: id in serverIds - clientIds ==> id in toSend || id in IdSet(down) || id in IdSet(clientLog))
  }

  /** Every listed client id is still wanted or logged by the server; the wanted ids are each on their way
      exactly once, and the count of received ones is right. */
  ghost predicate UpOk(
    c: Codec, serverLog: seq<Envelope>, clientLog: seq<Envelope>, serverIds: set<Id>, clientIds: set<Id>,
    toUpload: seq<Id>, up: seq<Envelope>, wanted: set<Id>, received: nat)
  {
    && AllGenuine(c, up) && IdSet(up) <= IdSet(clientLog)
    && (forall id :: id in toUpload ==> id in clientIds)
    && Enumerates(Ids(up) + toUpload, wanted)
    && (forall id :: id in clientIds - serverIds ==> id in wanted || id in IdSet(serverLog))
    && received + |wanted| == |clientIds - serverIds|
  }

  ghost predicate TransferOk(c: Codec, s: Session)
    requires s.phase.Transfer?
  {
    var t := s.phase;
    && ListsOk(s, t.diff, t.serverIds, t.clientIds)
    && DownOk(c, s.server.log, s.client.log, t.serverIds, t.clientIds, t.toSend, t.down)
    && UpOk(c, s.server.log, s.client.log, t.serverIds, t.clientIds, t.toUpload, t.up, t.wanted, t.received)
  }

  ghost predicate PhaseOk(c: Codec, s: Session) {
    match s.phase
    case Start => true
    case Asked(h) => h == Hashes(c, s.clientAt)
    case ListingServer(diff, todo, serverIds) =>
      && diff == Differing(Hashes(c, s.serverAt), Hashes(c, s.clientAt), BUCKET_COUNT)
      && CoversAll(serverIds, s.serverAt, diff, todo) && serverIds <= IdSet(s.server.log)
    case ListingClient(diff, todo, serverIds, clientIds) =>
      && diff == Differing(Hashes(c, s.serverAt), Hashes(c, s.clientAt), BUCKET_COUNT)
      && CoversAll(serverIds, s.serverAt, diff, []) && serverIds <= IdSet(s.server.log)
      && CoversAll(clientIds, s.clientAt, diff, todo) && clientIds <= IdSet(s.client.log)
    case Transfer(diff, _, _, _, _, _, _, _, _) =>
      && diff == Differing(Hashes(c, s.serverAt), Hashes(c, s.clientAt), BUCKET_COUNT) && TransferOk(c, s)
    case Complete(diff) =>
      && diff == Differing(Hashes(c, s.serverAt), Hashes(c, s.clientAt), BUCKET_COUNT)
      && CoversAll(IdSet(s.server.log), s.clientAt, diff, [])
      && CoversAll(IdSet(s.client.log), s.serverAt, diff, [])
    case Aborted => true
  }

  ghost predicate Inv(c: Codec, s: Session) {
    && LogOk(c, s.client.log) && LogOk(c, s.server.log)
    && s.clientAt <= s.client.log && s.serverAt <= s.server.log
    && PhaseOk(c, s)
  }

  lemma AppendKeeps(c: Codec, s: Side, e: Envelope)
    requires LogOk(c, s.log) && Genuine(c.prims, e) && Append(s, e).Some?
    ensures var n := Append(s, e).value;
            LogOk(c, n.log) && s.log <= n.log && IdSet(n.log) == IdSet(s.log) + {e.id}
  {
    if e.id !in Ids(s.log) {
      assert Ids(s.log + [e]) == Ids(s.log) + [e.id];
    }
  }

  lemma PrefixIds(a: seq<Envelope>, b: seq<Envelope>)
    requires a <= b
    ensures IdSet(a) <= IdSet(b)
    ensures forall k :: BucketOf(a, k) <= BucketOf(b, k)
  {
    assert forall i :: 0 <= i < |a| ==> Ids(a)[i] == Ids(b)[i];
  }

  /** The ids known to the two nodes together. */
  ghost function Union(s: Session): set<Id> {
    IdSet(s.client.log) + IdSet(s.server.log)
  }

  /** What every step achieves: the invariant, growing logs, and no id from nowhere. */
  ghost predicate Keeps(c: Codec, s: Session, s': Session) {
    Inv(c, s') && s.client.log <= s'.client.log && s.server.log <= s'.server.log && Union(s') == Union(s)
  }

  lemma ListServerKeeps(c: Codec, s: Session)
    requires Inv(c, s) && s.phase.ListingServer?
    ensures Inv(c, DoListServer(s))
  {
    var p := s.phase;
    PrefixIds(s.serverAt, s.server.log);
    if p.todo != [] {
      forall b | b in p.diff && b !in p.todo[1..]
        ensures Covers(p.serverIds + BucketOf(s.server.log, p.todo[0]), s.serverAt, b)
      {
        assert b == p.todo[0] || b !in p.todo;
      }
    }
  }

  lemma ListClientKeeps(c: Codec, s: Session)
    requires Inv(c, s) && s.phase.ListingClient?
    ensures Inv(c, DoListClient(s))
  {
    var p := s.phase;
    PrefixIds(s.clientAt, s.client.log);
    if p.todo != [] {
      forall b | b in p.diff && b !in p.todo[1..]
        ensures Covers(p.clientIds + BucketOf(s.client.log, p.todo[0]), s.clientAt, b)
      {
        assert b == p.todo[0] || b !in p.todo;
      }
    }
  }

  lemma DecideKeeps(c: Codec, s: Session, wants: seq<Id>, sends: seq<Id>)
    requires Inv(c, s) && s.phase.ListingClient?
    ensures Inv(c, DoDecide(s, wants, sends))
  {
    var p := s.phase;
    if DoDecide(s, wants, sends).phase.Transfer? {
      EnumeratedIds(wants, p.clientIds - p.serverIds);
      EnumeratedIds(sends, p.serverIds - p.clientIds);
      assert Ids([]) + wants == wants;
      assert DownOk(c, s.server.log, s.client.log, p.serverIds, p.clientIds, sends, []);
      assert UpOk(c, s.server.log, s.client.log, p.serverIds, p.clientIds, wants, [], p.clientIds - p.serverIds, 0);
    }
  }

  lemma EnumeratedIds(s: seq<Id>, ids: set<Id>)
    requires Enumerates(s, ids)
    ensures forall id :: id in s <==> id in ids
  {
    forall id ensures id in s <==> id in ids {
      assert id in s <==> id in multiset(s);
      assert id in ids <==> id in multiset(ids);
    }
  }

  lemma QueueGrows(q: seq<Envelope>, e: Envelope)
    ensures Ids(q + [e]) == Ids(q) + [e.id] && IdSet(q + [e]) == IdSet(q) + {e.id}
  {
    assert Ids(q + [e]) == Ids(q) + [e.id];
  }

  lemma QueueShrinks(q: seq<Envelope>)
    requires q != []
    ensures Ids(q) == [q[0].id] + Ids(q[1..]) && IdSet(q) == {q[0].id} + IdSet(q[1..])
  {
    assert Ids(q) == [q[0].id] + Ids(q[1..]);
  }

  lemma DownAfterSend(
    c: Codec, serverLog: seq<Envelope>, clientLog: seq<Envelope>, serverIds: set<Id>, clientIds: set<Id>,
    toSend: seq<Id>, down: seq<Envelope>, e: Envelope)
    requires DownOk(c, serverLog, clientLog, serverIds, clientIds, toSend, down)
    requires toSend != [] && e.id == toSend[0] && Genuine(c.prims, e) && e.id in IdSet(serverLog)
    ensures DownOk(c, serverLog, clientLog, serverIds, clientIds, toSend[1..], down + [e])
  {
    QueueGrows(down, e);
  }

  lemma DownAfterDownload(
    c: Codec, serverLog: seq<Envelope>, clientLog: seq<Envelope>, serverIds: set<Id>, clientIds: set<Id>,
    toSend: seq<Id>, down: seq<Envelope>, grown: seq<Envelope>)
    requires DownOk(c, serverLog, clientLog, serverIds, clientIds, toSend, down) && down != []
    requires IdSet(grown) == IdSet(clientLog) + {down[0].id}
    ensures DownOk(c, serverLog, grown, serverIds, clientIds, toSend, down[1..])
    ensures Genuine(c.prims, down[0]) && down[0].id in IdSet(serverLog)
  {
    QueueShrinks(down);
  }

  lemma UpAfterUpload(
    c: Codec, serverLog: seq<Envelope>, clientLog: seq<Envelope>, serverIds: set<Id>, clientIds: set<Id>,
    toUpload: seq<Id>, up: seq<Envelope>, wanted: set<Id>, received: nat, e: Envelope)
    requires UpOk(c, serverLog, clientLog, serverIds, clientIds, toUpload, up, wanted, received)
    requires toUpload != [] && e.id == toUpload[0] && Genuine(c.prims, e) && e.id in IdSet(clientLog)
    ensures UpOk(c, serverLog, clientLog, serverIds, clientIds, toUpload[1..], up + [e], wanted, received)
  {
    QueueGrows(up, e);
    assert Ids(up + [e]) + toUpload[1..] == Ids(up) + toUpload;
  }

  lemma TakeFirst(id: Id, rest: seq<Id>, ids: set<Id>)
    requires Enumerates([id] + rest, ids)
    ensures id in ids && Enumerates(rest, ids - {id}) && |ids - {id}| == |ids| - 1
  {
    assert multiset([id] + rest) == multiset{id} + multiset(rest);
    assert id in multiset(ids);
    assert multiset(ids - {id}) == multiset(ids) - multiset{id};
  }

  lemma UpAfterReceive(
    c: Codec, serverLog: seq<Envelope>, clientLog: seq<Envelope>, serverIds: set<Id>, clientIds: set<Id>,
    toUpload: seq<Id>, up: seq<Envelope>, wanted: set<Id>, received: nat, grown: seq<Envelope>)
    requires UpOk(c, serverLog, clientLog, serverIds, clientIds, toUpload, up, wanted, received) && up != []
    requires IdSet(grown) == IdSet(serverLog) + {up[0].id}
    ensures UpOk(c, grown, clientLog, serverIds, clientIds, toUpload, up[1..], wanted - {up[0].id}, received + 1)
    ensures Genuine(c.prims, up[0]) && up[0].id in IdSet(clientLog) && up[0].id in wanted
  {
    QueueShrinks(up);
    var rest := Ids(up[1..]) + toUpload;
    assert Ids(up) + toUpload == [up[0].id] + rest;
    TakeFirst(up[0].id, rest, wanted);
    assert AllGenuine(c, up[1..]) && IdSet(up[1..]) <= IdSet(clientLog);
  }

  lemma SendInv(c: Codec, s: Session)
    requires Inv(c, s) && s.phase.Transfer?
    ensures Inv(c, DoSend(s)) && DoSend(s).phase.Transfer?
    ensures DoSend(s).client == s.client && DoSend(s).server == s.server
  {
    var t := s.phase;
    if t.toSend != [] {
      assert t.toSend[0] in t.serverIds && t.toSend[0] in IdSet(s.server.log);
      var e := Lookup(s.server.log, t.toSend[0]).value;
      DownAfterSend(c, s.server.log, s.client.log, t.serverIds, t.clientIds, t.toSend, t.down, e);
    }
  }

  lemma SendKeeps(c: Codec, s: Session)
    requires Inv(c, s) && s.phase.Transfer?
    ensures Keeps(c, s, DoSend(s))
  {
    SendInv(c, s);
  }

  lemma UploadInv(c: Codec, s: Session)
    requires Inv(c, s) && s.phase.Transfer?
    ensures Inv(c, DoUpload(s)) && DoUpload(s).phase.Transfer?
    ensures DoUpload(s).client == s.client && DoUpload(s).server == s.server
  {
    var t := s.phase;
    if t.toUpload != [] {
      assert t.toUpload[0] in t.clientIds && t.toUpload[0] in IdSet(s.client.log);
      var e := Lookup(s.client.log, t.toUpload[0]).value;
      UpAfterUpload(c, s.server.log, s.client.log, t.serverIds, t.clientIds, t.toUpload, t.up, t.wanted, t.received, e);
    }
  }

  lemma UploadKeeps(c: Codec, s: Session)
    requires Inv(c, s) && s.phase.Transfer?
    ensures Keeps(c, s, DoUpload(s))
  {
    UploadInv(c, s);
  }

  /** Growing a log keeps everything else. */
  lemma GrownClient(c: Codec, s: Session, n: Side)
    requires Inv(c, s) && LogOk(c, n.log) && s.client.log <= n.log
    ensures Inv(c, s.(client := n))
  {
    PrefixIds(s.client.log, n.log);
  }

  lemma GrownServer(c: Codec, s: Session, n: Side)
    requires Inv(c, s) && LogOk(c, n.log) && s.server.log <= n.log
    ensures Inv(c, s.(server := n))
  {
    PrefixIds(s.server.log, n.log);
  }

  /** Moving an id that is already known to one node leaves the union as it is. */
  lemma ReceiveUnion(c: Codec, s: Session)
    requires Inv(c, s) && s.phase.Transfer?
    ensures s.server.log <= DoReceive(c, s).server.log && s.client == DoReceive(c, s).client
    ensures Union(DoReceive(c, s)) == Union(s)
  {
    var t, s' := s.phase, DoReceive(c, s);
    if s' != s && s'.phase.Transfer? {
      AppendKeeps(c, s.server, t.up[0]);
    }
  }

  lemma ReceiveInv(c: Codec, s: Session)
    requires Inv(c, s) && s.phase.Transfer?
    ensures Inv(c, DoReceive(c, s))
  {
    var t, s' := s.phase, DoReceive(c, s);
    if s' != s && s'.phase.Transfer? {
      AppendKeeps(c, s.server, t.up[0]);
      GrownServer(c, s, s'.server);
      UpAfterReceive(c, s.server.log, s.client.log, t.serverIds, t.clientIds,
                     t.toUpload, t.up, t.wanted, t.received, s'.server.log);
    }
  }

  lemma ReceiveKeeps(c: Codec, s: Session)
    requires Inv(c, s) && s.phase.Transfer?
    ensures Keeps(c, s, DoReceive(c, s))
  {
    ReceiveInv(c, s);
    ReceiveUnion(c, s);
  }

  lemma DownloadKeeps(c: Codec, s: Session)
    requires Inv(c, s) && s.phase.Transfer?
    ensures Keeps(c, s, DoDownload(c, s))
  {
    var t, s' := s.phase, DoDownload(c, s);
    if s' != s && s'.phase.Transfer? {
      AppendKeeps(c, s.client, t.down[0]);
      GrownClient(c, s, s'.client);
      DownAfterDownload(c, s.server.log, s.client.log, t.serverIds, t.clientIds, t.toSend, t.down, s'.client.log);
    }
  }

  lemma FinishKeeps(c: Codec, s: Session)
    requires Inv(c, s) && s.phase.Transfer?
    ensures Keeps(c, s, DoFinish(s))
  {
    if DoFinish(s).phase.Complete? {
      var t := s.phase;
      assert t.clientIds <= IdSet(s.server.log);
      assert t.serverIds <= IdSet(s.client.log);
    }
  }

  lemma InterfereKeeps(c: Codec, s: Session, onClient: bool, e: Envelope)
    requires Inv(c, s)
    ensures var s' := DoInterfere(c, s, onClient, e);
            && Inv(c, s') && s.client.log <= s'.client.log && s.server.log <= s'.server.log
            && Union(s') <= Union(s) + {e.id}
  {
    var s' := DoInterfere(c, s, onClient, e);
    if s' != s {
      if onClient {
        AppendKeeps(c, s.client, e);
        GrownClient(c, s, s'.client);
      } else {
        AppendKeeps(c, s.server, e);
        GrownServer(c, s, s'.server);
      }
    }
  }

  lemma PolicyKeeps(c: Codec, s: Session, onClient: bool, p: Policy.ChannelPolicy)
    requires Inv(c, s)
    ensures Keeps(c, s, Act(c, s, ChangePolicy(onClient, p)))
  {
    if onClient { GrownClient(c, s, s.client.(policy := p)); } else { GrownServer(c, s, s.server.(policy := p)); }
  }

  lemma AbortKeeps(c: Codec, s: Session)
    requires Inv(c, s)
    ensures Keeps(c, s, Act(c, s, Abort))
  {
  }

  lemma ListingKeeps(c: Codec, s: Session, step: Step)
    requires Inv(c, s) && (step.ListServer? || step.ListClient? || step.Decide?)
    ensures Inv(c, Act(c, s, step))
    ensures Act(c, s, step).client == s.client && Act(c, s, step).server == s.server
  {
    match step
    case ListServer => if s.phase.ListingServer? { ListServerKeeps(c, s); }
    case ListClient => if s.phase.ListingClient? { ListClientKeeps(c, s); }
    case Decide(wants, sends) => if s.phase.ListingClient? { DecideKeeps(c, s, wants, sends); }
  }

  /** Every step keeps the invariant and every logged message; only a local writer adds a new one. */
  lemma StepKeeps(c: Codec, s: Session, step: Step)
    requires Inv(c, s)
    ensures var s' := Act(c, s, step);
            && Inv(c, s') && s.client.log <= s'.client.log && s.server.log <= s'.server.log
            && (if step.Interfere? then Union(s') <= Union(s) + {step.env.id} else Union(s') == Union(s))
  {
    match step
    case Interfere(onClient, e) => InterfereKeeps(c, s, onClient, e);
    case Abort => AbortKeeps(c, s);
    case ChangePolicy(onClient, p) => PolicyKeeps(c, s, onClient, p);
    case Summarise =>
    case Compare =>
    case ListServer => ListingKeeps(c, s, step);
    case ListClient => ListingKeeps(c, s, step);
    case Decide(_, _) => ListingKeeps(c, s, step);
    case Send => if s.phase.Transfer? { SendKeeps(c, s); }
    case Upload => if s.phase.Transfer? { UploadKeeps(c, s); }
    case Receive => if s.phase.Transfer? { ReceiveKeeps(c, s); }
    case Download => if s.phase.Transfer? { DownloadKeeps(c, s); }
    case Finish => if s.phase.Transfer? { FinishKeeps(c, s); }
  }

  // ---------------------------------------------------------------- what is refused

  /** A log takes an envelope from the owner, the moderators and the writers, or from anyone on an open channel,
      and takes it once. */
  lemma AppendIff(s: Side, e: Envelope)
    ensures Append(s, e) ==
            if s.policy.mode == Policy.Open || s.policy.owner == Some(e.from)
               || e.from in s.policy.moderators || e.from in s.policy.writers
            then Some(Side(if exists x :: x in s.log && x.id == e.id then s.log else s.log + [e], s.policy)) else None
  {
    if e.id in Ids(s.log) {
      var i :| 0 <= i < |s.log| && Ids(s.log)[i] == e.id;
      assert s.log[i] in s.log;
    } else {
      forall x | x in s.log ensures x.id != e.id {
        var i :| 0 <= i < |s.log| && s.log[i] == x;
        assert Ids(s.log)[i] == x.id;
      }
    }
  }

  /** Whatever a peer sends: an upload that was not requested, a forged one or one by an author who may not write
      ends the session without changing a log, and so does such a download. */
  lemma RefusalsAbort(c: Codec, s: Session)
    requires s.phase.Transfer?
    ensures s.phase.toSend == [] && s.phase.up != [] && s.phase.wanted != {}
            && (s.phase.up[0].id !in s.phase.wanted || !Genuine(c.prims, s.phase.up[0])
                || Append(s.server, s.phase.up[0]).None?) ==>
              DoReceive(c, s) == s.(phase := Aborted)
    ensures s.phase.toUpload == [] && s.phase.down != []
            && (!Genuine(c.prims, s.phase.down[0]) || Append(s.client, s.phase.down[0]).None?) ==>
              DoDownload(c, s) == s.(phase := Aborted)
  {
  }
}
