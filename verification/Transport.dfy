/** The transfer of a message sync over a transport that holds only so much. The server sends everything before
    it reads, and so does the client once it is asked, and a send waits until the transport has room.
 */
module Transport {
  import opened Basics
  import opened Chain
  import opened Proto
  import opened LogFormat
  import opened LogIndex
  import opened LogStore
  import opened BucketSync
  import opened SyncResults
  import opened SyncProgress

  /** How large envelopes are on the wire, and how much fits into each direction while nobody reads. */
  datatype Wire = Wire(size: Envelope -> nat, down: nat, up: nat)

  /** What is on its way. */
  function Load(t: Wire, queue: seq<Envelope>): nat {
    if queue == [] then 0 else t.size(queue[0]) + Load(t, queue[1..])
  }

  function IdLoad(t: Wire, es: seq<Envelope>, id: Id): nat {
    match Lookup(es, id)
    case None => 0
    case Some(e) => t.size(e)
  }

  /** What is still to be sent from the log. */
  function ListLoad(t: Wire, es: seq<Envelope>, ids: seq<Id>): nat {
    if ids == [] then 0 else IdLoad(t, es, ids[0]) + ListLoad(t, es, ids[1..])
  }

  /** The size of the envelopes of a log that have one of these ids. */
  function SetLoad(t: Wire, es: seq<Envelope>, ids: set<Id>): nat {
    if es == [] then 0 else (if es[0].id in ids then t.size(es[0]) else 0) + SetLoad(t, es[1..], ids)
  }

  /** A send has room if what it sends still fits, or if the receiver has taken everything and is reading. */
  predicate Room(t: Wire, s: Session, step: Step) {
    match step
    case Send =>
      s.phase.Transfer? && s.phase.toSend != [] ==>
        || (s.phase.down == [] && s.phase.toUpload == [])
        || Load(t, s.phase.down) + IdLoad(t, s.server.log, s.phase.toSend[0]) <= t.down
    case Upload =>
      s.phase.Transfer? && s.phase.toUpload != [] ==>
        || (s.phase.up == [] && s.phase.toSend == [])
        || Load(t, s.phase.up) + IdLoad(t, s.client.log, s.phase.toUpload[0]) <= t.up
    case _ => true
  }

  /** A send without room waits. */
  function Flow(t: Wire, c: Codec, s: Session, step: Step): Session {
    if Room(t, s, step) then Act(c, s, step) else s
  }

  function FlowRun(t: Wire, c: Codec, s: Session, steps: seq<Step>): Session
    decreases |steps|
  {
    if steps == [] then s else FlowRun(t, c, Flow(t, c, s, steps[0]), steps[1..])
  }

  /** The steps of a run that did not have to wait. */
  function Taken(t: Wire, c: Codec, s: Session, steps: seq<Step>): seq<Step>
    decreases |steps|
  {
    if steps == [] then []
    else (if Room(t, s, steps[0]) then [steps[0]] else []) + Taken(t, c, Flow(t, c, s, steps[0]), steps[1..])
  }

  /** Whatever holds of all runs holds of those over a transport that holds only so much. */
  lemma {:induction false} FlowRunIsRun(t: Wire, c: Codec, s: Session, steps: seq<Step>)
    ensures FlowRun(t, c, s, steps) == Run(c, s, Taken(t, c, s, steps))
    ensures forall step :: step in Taken(t, c, s, steps) ==> step in steps
    decreases |steps|
  {
    if steps != [] {
      var next := Flow(t, c, s, steps[0]);
      FlowRunIsRun(t, c, next, steps[1..]);
      if Room(t, s, steps[0]) {
        assert Taken(t, c, s, steps)[1..] == Taken(t, c, next, steps[1..]);
      } else {
        assert Taken(t, c, s, steps) == Taken(t, c, next, steps[1..]);
      }
    }
  }

  // ---------------------------------------------------------------- the condition

  /** One direction fits into the transport as a whole. */
  ghost predicate ListsFlow(t: Wire, client: Side, server: Side, serverIds: set<Id>, clientIds: set<Id>) {
    || SetLoad(t, server.log, serverIds - clientIds) <= t.down
    || SetLoad(t, client.log, clientIds - serverIds) <= t.up
  }

  /** The two nodes cannot both end up waiting for each other to read. */
  ghost predicate Flows(t: Wire, c: Codec, s: Session) {
    match s.phase
    case Transfer(_, _, _, toSend, down, toUpload, up, _, _) =>
      || toSend == [] || toUpload == []
      || Load(t, down) + ListLoad(t, s.server.log, toSend) <= t.down
      || Load(t, up) + ListLoad(t, s.client.log, toUpload) <= t.up
    case Complete(_) => true
    case Aborted => false
    case _ => ListsFlow(t, s.client, s.server, Lists(c, s).0, Lists(c, s).1)
  }

  lemma {:induction false} LoadSnoc(t: Wire, queue: seq<Envelope>, e: Envelope)
    ensures Load(t, queue + [e]) == Load(t, queue) + t.size(e)
    decreases |queue|
  {
    if queue != [] {
      assert (queue + [e])[1..] == queue[1..] + [e];
      LoadSnoc(t, queue[1..], e);
    }
  }

  lemma {:induction false} AbsentLoad(t: Wire, es: seq<Envelope>, ids: set<Id>, id: Id)
    requires id !in Ids(es)
    ensures SetLoad(t, es, ids) == SetLoad(t, es, ids - {id})
    decreases |es|
  {
    if es != [] {
      RestIds(es);
      AbsentLoad(t, es[1..], ids, id);
    }
  }

  lemma RestIds(es: seq<Envelope>)
    requires es != []
    ensures Ids(es) == [es[0].id] + Ids(es[1..])
    ensures Distinct(Ids(es)) ==> Distinct(Ids(es[1..])) && es[0].id !in Ids(es[1..])
  {
    assert Ids(es) == [es[0].id] + Ids(es[1..]);
    assert forall i :: 0 <= i < |es| - 1 ==> Ids(es[1..])[i] == Ids(es)[i + 1];
  }

  lemma {:induction false} LoadWithout(t: Wire, es: seq<Envelope>, ids: set<Id>, id: Id)
    requires Distinct(Ids(es)) && id in ids && id in Ids(es)
    ensures SetLoad(t, es, ids) == IdLoad(t, es, id) + SetLoad(t, es, ids - {id})
    decreases |es|
  {
    RestIds(es);
    if es[0].id == id { AbsentLoad(t, es[1..], ids, id); } else { LoadWithout(t, es[1..], ids, id); }
  }

  lemma {:induction false} NoLoad(t: Wire, es: seq<Envelope>)
    ensures SetLoad(t, es, {}) == 0
    decreases |es|
  {
    if es != [] { NoLoad(t, es[1..]); }
  }

  /** However the wanted ids are ordered, they make up the same load. */
  lemma {:induction false} ListedLoad(t: Wire, es: seq<Envelope>, list: seq<Id>, ids: set<Id>)
    requires Distinct(Ids(es)) && Enumerates(list, ids) && ids <= IdSet(es)
    ensures ListLoad(t, es, list) == SetLoad(t, es, ids)
    decreases |list|
  {
    if list == [] {
      EnumeratedIds(list, ids);
      assert ids == {};
      NoLoad(t, es);
    } else {
      assert list == [list[0]] + list[1..];
      TakeFirst(list[0], list[1..], ids);
      ListedLoad(t, es, list[1..], ids - {list[0]});
      LoadWithout(t, es, ids, list[0]);
    }
  }

  // ---------------------------------------------------------------- no step changes it

  /** Putting the next envelope on the wire moves its load and changes no total. */
  lemma LoadMoves(t: Wire, es: seq<Envelope>, ids: seq<Id>, queue: seq<Envelope>)
    requires ids != [] && Lookup(es, ids[0]).Some?
    ensures Load(t, queue + [Lookup(es, ids[0]).value]) + ListLoad(t, es, ids[1..])
         == Load(t, queue) + ListLoad(t, es, ids)
    ensures |ids| == 1 ==> ListLoad(t, es, ids) == IdLoad(t, es, ids[0])
  {
    LoadSnoc(t, queue, Lookup(es, ids[0]).value);
  }

  lemma SendFlows(t: Wire, c: Codec, s: Session)
    requires s.phase.Transfer? && Room(t, s, Send) && DoSend(s).phase.Transfer?
    ensures Flows(t, c, DoSend(s)) == Flows(t, c, s)
  {
    if s.phase.toSend != [] { LoadMoves(t, s.server.log, s.phase.toSend, s.phase.down); }
  }

  lemma UploadFlows(t: Wire, c: Codec, s: Session)
    requires s.phase.Transfer? && Room(t, s, Upload) && DoUpload(s).phase.Transfer?
    ensures Flows(t, c, DoUpload(s)) == Flows(t, c, s)
  {
    if s.phase.toUpload != [] { LoadMoves(t, s.client.log, s.phase.toUpload, s.phase.up); }
  }

  /** Taking something in has to wait for the own sends. */
  lemma TakingFlows(t: Wire, c: Codec, s: Session, s': Session)
    requires s.phase.Transfer? && (s' == DoReceive(c, s) || s' == DoDownload(c, s) || s' == DoFinish(s))
    ensures s' == s || (Flows(t, c, s) && (!s'.phase.Aborted? ==> Flows(t, c, s')))
  {
  }

  lemma ListedFlow(
    t: Wire, client: Side, server: Side, serverIds: set<Id>, clientIds: set<Id>, sends: seq<Id>, wants: seq<Id>)
    requires Distinct(Ids(client.log)) && Distinct(Ids(server.log))
    requires serverIds <= IdSet(server.log) && clientIds <= IdSet(client.log)
    requires Enumerates(sends, serverIds - clientIds) && Enumerates(wants, clientIds - serverIds)
    ensures ListsFlow(t, client, server, serverIds, clientIds) <==>
            || sends == [] || wants == []
            || ListLoad(t, server.log, sends) <= t.down || ListLoad(t, client.log, wants) <= t.up
  {
    ListedLoad(t, server.log, sends, serverIds - clientIds);
    ListedLoad(t, client.log, wants, clientIds - serverIds);
  }

  lemma ListsKnown(c: Codec, s: Session)
    requires Inv(c, s) && s.phase.ListingClient?
    ensures s.phase.clientIds <= IdSet(s.client.log) && s.phase.serverIds <= IdSet(s.server.log)
    ensures Distinct(Ids(s.client.log)) && Distinct(Ids(s.server.log))
  {
  }

  lemma DecideFlows(t: Wire, c: Codec, s: Session, wants: seq<Id>, sends: seq<Id>)
    requires Inv(c, s) && s.phase.ListingClient? && DoDecide(s, wants, sends).phase.Transfer?
    ensures Flows(t, c, DoDecide(s, wants, sends)) == Flows(t, c, s)
  {
    ListsKnown(c, s);
    NoneAdded(s.phase.clientIds);
    ListedFlow(t, s.client, s.server, s.phase.serverIds, s.phase.clientIds, sends, wants);
  }

  /** What a step of the session does to the condition. */
  ghost predicate KeepsFlow(t: Wire, c: Codec, s: Session, s': Session) {
    && (!s'.phase.Aborted? ==> Flows(t, c, s') == Flows(t, c, s))
    && (!Flows(t, c, s) ==> s'.client == s.client && s'.server == s.server && !Flows(t, c, s'))
  }

  lemma TransferKeepsFlow(t: Wire, c: Codec, s: Session, step: Step)
    requires s.phase.Transfer? && (Calm(step) || step.Abort?)
    ensures KeepsFlow(t, c, s, Flow(t, c, s, step))
  {
    match step
    case Send => if Room(t, s, Send) && DoSend(s).phase.Transfer? { SendFlows(t, c, s); }
    case Upload => if Room(t, s, Upload) && DoUpload(s).phase.Transfer? { UploadFlows(t, c, s); }
    case Receive => TakingFlows(t, c, s, DoReceive(c, s));
    case Download => TakingFlows(t, c, s, DoDownload(c, s));
    case Finish => TakingFlows(t, c, s, DoFinish(s));
    case _ =>
  }

  lemma DecideFrame(s: Session, wants: seq<Id>, sends: seq<Id>)
    requires s.phase.ListingClient?
    ensures var s' := DoDecide(s, wants, sends);
            s' == s || (s'.client == s.client && s'.server == s.server && (s'.phase.Aborted? || s'.phase.Transfer?))
  {
  }

  lemma DecideKeepsFlow(t: Wire, c: Codec, s: Session, wants: seq<Id>, sends: seq<Id>, s': Session)
    requires Inv(c, s) && s.phase.ListingClient? && s' == DoDecide(s, wants, sends)
    ensures KeepsFlow(t, c, s, s')
  {
    DecideFrame(s, wants, sends);
    if s'.phase.Transfer? { DecideFlows(t, c, s, wants, sends); }
  }

  lemma GivingUp(c: Codec, s: Session)
    ensures Act(c, s, Abort) == s || Act(c, s, Abort) == s.(phase := Aborted)
  {
  }

  lemma AbortKeepsFlow(t: Wire, c: Codec, s: Session, s': Session)
    requires s' == s || s' == s.(phase := Aborted)
    ensures KeepsFlow(t, c, s, s')
  {
    assert s'.phase.Aborted? ==> !Flows(t, c, s');
  }

  lemma OpeningKeepsFlow(t: Wire, c: Codec, s: Session, step: Step)
    requires Opening(s.phase) && Calm(step) && !step.Decide?
    ensures KeepsFlow(t, c, s, Act(c, s, step))
  {
    StepKeepsLists(c, s, step);
  }

  lemma DecideActs(c: Codec, s: Session, step: Step)
    requires step.Decide?
    ensures Act(c, s, step) == if s.phase.ListingClient? then DoDecide(s, step.wants, step.sends) else s
  {
  }

  lemma DecideStepKeepsFlow(t: Wire, c: Codec, s: Session, step: Step, s': Session)
    requires Inv(c, s) && step.Decide? && s' == Act(c, s, step)
    ensures KeepsFlow(t, c, s, s')
  {
    DecideActs(c, s, step);
    if s.phase.ListingClient? { DecideKeepsFlow(t, c, s, step.wants, step.sends, s'); }
  }

  lemma AbortStepKeepsFlow(t: Wire, c: Codec, s: Session)
    ensures KeepsFlow(t, c, s, Act(c, s, Abort))
  {
    GivingUp(c, s);
    AbortKeepsFlow(t, c, s, Act(c, s, Abort));
  }

  /** No step of the session changes whether the nodes end up waiting for each other; if they will, no step
      changes a log. */
  lemma StepKeepsFlow(t: Wire, c: Codec, s: Session, step: Step)
    requires Inv(c, s) && (Calm(step) || step.Abort?)
    ensures KeepsFlow(t, c, s, Flow(t, c, s, step))
  {
    if s.phase.Transfer? {
      TransferKeepsFlow(t, c, s, step);
    } else if step.Abort? {
      AbortStepKeepsFlow(t, c, s);
    } else if !Opening(s.phase) {
      EndedStays(c, s, step);
    } else if step.Decide? {
      DecideStepKeepsFlow(t, c, s, step, Act(c, s, step));
    } else {
      OpeningKeepsFlow(t, c, s, step);
    }
  }

  // ---------------------------------------------------------------- waiting for each other

  ghost predicate OwnSteps(steps: seq<Step>) {
    forall i :: 0 <= i < |steps| ==> Calm(steps[i]) || steps[i].Abort?
  }

  /** If neither direction fits, both nodes send and neither reads: whatever the session does, until one of them
      gives up, it does not complete and no log changes. */
  lemma {:induction false} StuckForGood(t: Wire, c: Codec, s: Session, steps: seq<Step>)
    requires Inv(c, s) && !Flows(t, c, s) && OwnSteps(steps)
    ensures var s' := FlowRun(t, c, s, steps);
            !s'.phase.Complete? && s'.client == s.client && s'.server == s.server
    decreases |steps|
  {
    if steps != [] {
      var next := Flow(t, c, s, steps[0]);
      StepKeeps(c, s, steps[0]);
      StepKeepsFlow(t, c, s, steps[0]);
      assert forall i :: 0 <= i < |steps[1..]| ==> steps[1..][i] == steps[i + 1];
      StuckForGood(t, c, next, steps[1..]);
    }
  }

  /** One session after the other between the same two nodes. */
  function Tries(t: Wire, c: Codec, client: Side, server: Side, tries: seq<seq<Step>>): (Side, Side)
    decreases |tries|
  {
    if tries == [] then (client, server) else
    var s := FlowRun(t, c, Begin(client, server), tries[0]);
    Tries(t, c, s.client, s.server, tries[1..])
  }

  /** Trying again does not help. */
  lemma {:induction false} TryingAgainIsStuck(
    t: Wire, c: Codec, client: Side, server: Side, tries: seq<seq<Step>>)
    requires SidesOk(c, client, server) && !Flows(t, c, Begin(client, server))
    requires forall i :: 0 <= i < |tries| ==> OwnSteps(tries[i])
    ensures Tries(t, c, client, server, tries) == (client, server)
    decreases |tries|
  {
    if tries != [] {
      StuckForGood(t, c, Begin(client, server), tries[0]);
      assert forall i :: 0 <= i < |tries[1..]| ==> tries[1..][i] == tries[i + 1];
      TryingAgainIsStuck(t, c, client, server, tries[1..]);
    }
  }

  // ---------------------------------------------------------------- progress

  ghost function Enumeration(ids: set<Id>): (s: seq<Id>)
    ensures Enumerates(s, ids)
  {
    if ids == {} then [] else
    var id :| id in ids;
    var rest := Enumeration(ids - {id});
    assert multiset([id] + rest) == multiset{id} + multiset(ids - {id}) == multiset(ids);
    [id] + rest
  }

  /** What an undisturbed session does next. */
  ghost function NextStep(t: Wire, s: Session): (step: Step)
    ensures Calm(step)
  {
    match s.phase
    case Start => Summarise
    case Asked(_) => Compare
    case ListingServer(_, _, _) => ListServer
    case ListingClient(_, todo, serverIds, clientIds) =>
      if todo != [] then ListClient
      else Decide(Enumeration(clientIds - serverIds), Enumeration(serverIds - clientIds))
    case Transfer(_, _, _, toSend, down, toUpload, up, _, _) =>
      if toSend != [] && Room(t, s, Send) then Send
      else if toUpload != [] && Room(t, s, Upload) then Upload
      else if toSend == [] && up != [] then Receive
      else if toUpload == [] && down != [] then Download
      else Finish
    case _ => Finish
  }

  function Rank(p: Phase): nat {
    match p
    case Start => 5
    case Asked(_) => 4
    case ListingServer(_, _, _) => 3
    case ListingClient(_, _, _, _) => 2
    case Transfer(_, _, _, _, _, _, _, _, _) => 1
    case _ => 0
  }

  function Left(p: Phase): nat {
    match p
    case ListingServer(_, todo, _) => |todo|
    case ListingClient(_, todo, _, _) => |todo|
    case Transfer(_, _, _, toSend, down, toUpload, up, _, _) => 2 * |toSend| + |down| + 2 * |toUpload| + |up|
    case _ => 0
  }

  ghost predicate Nearer(p: Phase, q: Phase) {
    Rank(q) < Rank(p) || (Rank(q) == Rank(p) && Left(q) < Left(p))
  }

  lemma ListServerNearer(s: Session)
    requires s.phase.ListingServer?
    ensures Nearer(s.phase, DoListServer(s).phase)
  {
  }

  lemma ListClientNearer(s: Session)
    requires s.phase.ListingClient? && s.phase.todo != []
    ensures Nearer(s.phase, DoListClient(s).phase)
  {
  }

  lemma DecideNearer(s: Session, wants: seq<Id>, sends: seq<Id>)
    requires s.phase.ListingClient? && s.phase.todo == []
    requires Enumerates(wants, s.phase.clientIds - s.phase.serverIds)
    requires Enumerates(sends, s.phase.serverIds - s.phase.clientIds)
    ensures Nearer(s.phase, DoDecide(s, wants, sends).phase)
  {
  }

  lemma ListingNearer(t: Wire, c: Codec, s: Session)
    requires s.phase.ListingServer? || s.phase.ListingClient?
    ensures Nearer(s.phase, Act(c, s, NextStep(t, s)).phase)
  {
    var step := NextStep(t, s);
    match step
    case ListServer => ListServerNearer(s);
    case ListClient => ListClientNearer(s);
    case Decide(wants, sends) => DecideNearer(s, wants, sends);
  }

  lemma TransferNearer(t: Wire, c: Codec, s: Session)
    requires s.phase.Transfer? && Flows(t, c, s)
    requires s.phase.up == [] && s.phase.toUpload == [] <==> s.phase.wanted == {}
    ensures Room(t, s, NextStep(t, s)) && Nearer(s.phase, Act(c, s, NextStep(t, s)).phase)
  {
  }

  lemma NextNearer(t: Wire, c: Codec, s: Session)
    requires Inv(c, s) && Flows(t, c, s) && !s.phase.Complete?
    ensures Room(t, s, NextStep(t, s)) && Nearer(s.phase, Act(c, s, NextStep(t, s)).phase)
  {
    if s.phase.Transfer? {
      UploadsWanted(c, s.phase.up, s.phase.toUpload, s.phase.wanted);
      TransferNearer(t, c, s);
    } else if s.phase.Start? || s.phase.Asked? {
    } else {
      ListingNearer(t, c, s);
    }
  }

  /** The next step has room, brings the session nearer to its end and keeps the way clear. */
  lemma NextIsClear(t: Wire, c: Codec, s: Session, s': Session)
    requires Inv(c, s) && Fits(c, s) && Flows(t, c, s) && !s.phase.Complete? && s' == Act(c, s, NextStep(t, s))
    ensures s' == Flow(t, c, s, NextStep(t, s)) && Nearer(s.phase, s'.phase)
    ensures Inv(c, s') && Fits(c, s') && Flows(t, c, s')
  {
    var step := NextStep(t, s);
    NextNearer(t, c, s);
    StepKeeps(c, s, step);
    StepFits(c, s, step);
    StepKeepsFlow(t, c, s, step);
  }

  lemma StepThenRest(t: Wire, c: Codec, s: Session, s': Session, rest: seq<Step>)
    requires s' == Flow(t, c, s, NextStep(t, s)) && AllCalm(rest) && FlowRun(t, c, s', rest).phase.Complete?
    ensures AllCalm([NextStep(t, s)] + rest) && FlowRun(t, c, s, [NextStep(t, s)] + rest).phase.Complete?
  {
    assert ([NextStep(t, s)] + rest)[1..] == rest;
  }

  /** Left to itself, a session with nothing in its way comes to its end. */
  lemma {:induction false} CanComplete(t: Wire, c: Codec, s: Session) returns (steps: seq<Step>)
    requires Inv(c, s) && Fits(c, s) && Flows(t, c, s)
    ensures AllCalm(steps) && FlowRun(t, c, s, steps).phase.Complete?
    decreases Rank(s.phase), Left(s.phase)
  {
    steps := [];
    if !s.phase.Complete? {
      var s' := Act(c, s, NextStep(t, s));
      NextIsClear(t, c, s, s');
      var rest := CanComplete(t, c, s');
      StepThenRest(t, c, s, s', rest);
      steps := [NextStep(t, s)] + rest;
    }
  }

  lemma EndIsClear(t: Wire, c: Codec, s: Session)
    ensures s.phase.Complete? ==> Fits(c, s) && Flows(t, c, s)
    ensures s.phase.Aborted? ==> !Fits(c, s)
  {
  }

  /** Undisturbed, a session completes only if its lists fit and one direction flows, and it breaks off before
      anybody gives up waiting only if its lists do not fit. */
  lemma {:induction false} EndsOnlyIf(t: Wire, c: Codec, s: Session, steps: seq<Step>)
    requires Inv(c, s) && AllCalm(steps)
    ensures FlowRun(t, c, s, steps).phase.Complete? ==> Fits(c, s) && Flows(t, c, s)
    ensures FlowRun(t, c, s, steps).phase.Aborted? ==> !Fits(c, s)
    decreases |steps|
  {
    if steps == [] {
      EndIsClear(t, c, s);
    } else {
      assert Calm(steps[0]);
      StepKeeps(c, s, steps[0]);
      StepFits(c, s, steps[0]);
      StepKeepsFlow(t, c, s, steps[0]);
      EndIsClear(t, c, Flow(t, c, s, steps[0]));
      assert forall i :: 0 <= i < |steps[1..]| ==> steps[1..][i] == steps[i + 1];
      EndsOnlyIf(t, c, Flow(t, c, s, steps[0]), steps[1..]);
    }
  }

  /** Some undisturbed continuation completes the session. */
  ghost predicate Completable(t: Wire, c: Codec, s: Session) {
    exists steps :: AllCalm(steps) && FlowRun(t, c, s, steps).phase.Complete?
  }

  /** A session, wherever it stands, has an undisturbed continuation that completes it exactly if its lists fit
      and one of the two directions fits into the transport. */
  lemma CompletesIff(t: Wire, c: Codec, s: Session)
    requires Inv(c, s)
    ensures Completable(t, c, s) <==> Fits(c, s) && Flows(t, c, s)
  {
    if Fits(c, s) && Flows(t, c, s) {
      var steps := CanComplete(t, c, s);
      assert AllCalm(steps) && FlowRun(t, c, s, steps).phase.Complete?;
    } else if Completable(t, c, s) {
      var steps :| AllCalm(steps) && FlowRun(t, c, s, steps).phase.Complete?;
      EndsOnlyIf(t, c, s, steps);
    }
  }

  /** Two nodes whose lists fit, one direction of which fits into the transport, can synchronise, and the sync
      ends with both of them holding exactly the union. */
  lemma SyncReachesUnion(t: Wire, c: Codec, client: Side, server: Side) returns (steps: seq<Step>)
    requires CodecOk(c) && SidesOk(c, client, server)
    requires Fits(c, Begin(client, server)) && Flows(t, c, Begin(client, server))
    ensures var s := FlowRun(t, c, Begin(client, server), steps);
            && AllCalm(steps) && s.phase.Complete?
            && (NoBucketCollision(c, s.serverAt, s.clientAt) ==>
                  IdSet(s.client.log) == IdSet(s.server.log) == IdSet(client.log) + IdSet(server.log))
  {
    steps := CanComplete(t, c, Begin(client, server));
    var taken := Taken(t, c, Begin(client, server), steps);
    FlowRunIsRun(t, c, Begin(client, server), steps);
    forall i | 0 <= i < |taken| ensures !taken[i].Interfere? {
      assert taken[i] in steps;
    }
    QuietSync(c, client, server, taken);
  }

  // ---------------------------------------------------------------- who gets stuck

  lemma {:induction false} SubsetBuckets(a: seq<Envelope>, b: seq<Envelope>, bs: seq<nat>)
    requires IdSet(a) <= IdSet(b)
    ensures BucketsOf(a, bs) <= BucketsOf(b, bs)
    decreases |bs|
  {
    if bs != [] {
      forall id | id in BucketOf(a, bs[0]) ensures id in BucketOf(b, bs[0]) {
        assert id in IdSet(a) && id in IdSet(b);
      }
      SubsetBuckets(a, b, bs[1..]);
    }
  }

  /** A node that has nothing new for the other does not get stuck with it. */
  lemma OneWayFlows(t: Wire, c: Codec, client: Side, server: Side)
    requires IdSet(client.log) <= IdSet(server.log) || IdSet(server.log) <= IdSet(client.log)
    ensures Flows(t, c, Begin(client, server))
  {
    var diff := Differing(Hashes(c, server.log), Hashes(c, client.log), BUCKET_COUNT);
    var a, b := BucketsOf(server.log, diff), BucketsOf(client.log, diff);
    if IdSet(client.log) <= IdSet(server.log) {
      SubsetBuckets(client.log, server.log, diff);
      assert b - a == {};
      NoLoad(t, client.log);
    } else {
      SubsetBuckets(server.log, client.log, diff);
      assert a - b == {};
      NoLoad(t, server.log);
    }
  }

  lemma {:induction false} InBuckets(es: seq<Envelope>, bs: seq<nat>, k: nat, id: Id)
    requires k in bs && id in BucketOf(es, k)
    ensures id in BucketsOf(es, bs)
    decreases |bs|
  {
    if bs[0] != k {
      assert k in bs[1..];
      InBuckets(es, bs[1..], k, id);
    }
  }

  lemma SharedBuckets(a: seq<Envelope>, b: seq<Envelope>, k: nat, id: Id)
    requires BucketOf(a, k) <= BucketOf(b, k) && id in BucketOf(a, k)
    ensures id in IdSet(a) && id in IdSet(b)
  {
    assert id in BucketOf(b, k);
  }

  /** A log that shares no id with the other is listed altogether. */
  lemma DisjointIsListed(c: Codec, a: seq<Envelope>, b: seq<Envelope>, diff: seq<nat>)
    requires CodecOk(c) && AllGenuine(c, a) && AllGenuine(c, b) && IdSet(a) !! IdSet(b)
    requires forall k: nat :: k < BUCKET_COUNT && k !in diff ==>
                                multiset(BucketIds(Ids(a), k)) == multiset(BucketIds(Ids(b), k))
    ensures BucketsOf(a, diff) == IdSet(a)
  {
    BucketsWithin(a, diff);
    GenuineIds(c, a);
    forall id | id in IdSet(a) ensures id in BucketsOf(a, diff) {
      var i :| 0 <= i < |Ids(a)| && Ids(a)[i] == id;
      assert CanonicalId(Ids(a)[i]);
      var k := Raw(id)[0] as nat;
      assert id in BucketOf(a, k);
      if k !in diff {
        SameBucket(c, a, b, k);
        SharedBuckets(a, b, k, id);
        assert false;
      }
      InBuckets(a, diff, k, id);
    }
  }

  lemma {:induction false} WholeLoad(t: Wire, es: seq<Envelope>, ids: set<Id>)
    requires IdSet(es) <= ids
    ensures SetLoad(t, es, ids) == Load(t, es)
    decreases |es|
  {
    if es != [] {
      assert Ids(es)[0] == es[0].id;
      RestIds(es);
      WholeLoad(t, es[1..], ids);
    }
  }

  /** Two nodes that have nothing in common, and each more than the transport holds, never come together, even if
      every check passes, as it does when they admit each other's authors and hold no more than the cap. */
  lemma LargeLogsAreStuck(t: Wire, c: Codec, client: Side, server: Side, tries: seq<seq<Step>>)
    requires CodecOk(c) && SidesOk(c, client, server) && IdSet(client.log) !! IdSet(server.log)
    requires NoBucketCollision(c, server.log, client.log)
    requires Load(t, server.log) > t.down && Load(t, client.log) > t.up
    requires forall i :: 0 <= i < |tries| ==> OwnSteps(tries[i])
    ensures AdmitsQueue(client.policy, server.log) && AdmitsQueue(server.policy, client.log)
            && |IdSet(client.log)| <= MAX_DIFFERING_IDS && |IdSet(server.log)| <= MAX_DIFFERING_IDS ==>
              Fits(c, Begin(client, server))
    ensures !Flows(t, c, Begin(client, server))
    ensures Tries(t, c, client, server, tries) == (client, server)
  {
    var diff := Differing(Hashes(c, server.log), Hashes(c, client.log), BUCKET_COUNT);
    forall k: nat | k < BUCKET_COUNT && k !in diff
      ensures multiset(BucketIds(Ids(server.log), k)) == multiset(BucketIds(Ids(client.log), k))
    {
      SnapshotsAgree(c, server.log, client.log, diff, k);
    }
    DisjointIsListed(c, server.log, client.log, diff);
    DisjointIsListed(c, client.log, server.log, diff);
    var a, b := IdSet(server.log), IdSet(client.log);
    assert a - b == a && b - a == b;
    WholeLoad(t, server.log, a);
    WholeLoad(t, client.log, b);
    TryingAgainIsStuck(t, c, client, server, tries);
    if AdmitsQueue(client.policy, server.log) && AdmitsQueue(server.policy, client.log)
       && |IdSet(client.log)| <= MAX_DIFFERING_IDS && |IdSet(server.log)| <= MAX_DIFFERING_IDS
    {
      SmallLogsFit(c, client, server);
    }
  }
}
