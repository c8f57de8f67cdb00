/** Message syncs between many nodes: any number of sessions at once, interleaved step by step, with local
    writers at work. Nothing is lost, nothing crosses to nodes that no session connects, and rounds of
    completed syncs along a connected graph bring everything to everyone.
 */
module Gossip {
  import opened Basics
  import opened Chain
  import opened Proto
  import opened LogFormat
  import opened BucketSync
  import opened SyncResults
  import opened Provenance
  import Policy

  /** A session between two nodes, with the logs they held when it was opened and when they took summaries. */
  datatype Link = Link(
    client: nat, server: nat, phase: Phase, clientAt: seq<Envelope>, serverAt: seq<Envelope>,
    clientFirst: seq<Envelope>, serverFirst: seq<Envelope>)

  datatype Net = Net(nodes: seq<Side>, links: seq<Link>)

  datatype NetStep =
    | Connect(client: nat, server: nat)
    | Move(link: nat, step: Step)
    | Write(node: nat, env: Envelope)
    | SetPolicy(node: nat, policy: Policy.ChannelPolicy)

  predicate EndsOk(nodes: seq<Side>, l: Link) {
    l.client < |nodes| && l.server < |nodes| && l.client != l.server
  }

  /** The session as its two nodes see it now. */
  function View(nodes: seq<Side>, l: Link): Session
    requires EndsOk(nodes, l)
  {
    Session(nodes[l.client], nodes[l.server], l.phase, l.clientAt, l.serverAt)
  }

  function Moved(l: Link, s: Session): Link {
    l.(phase := s.phase, clientAt := s.clientAt, serverAt := s.serverAt)
  }

  function DoMove(c: Codec, n: Net, k: nat, step: Step): Net
    requires k < |n.links| && EndsOk(n.nodes, n.links[k])
  {
    var l := n.links[k];
    var s := Act(c, View(n.nodes, l), step);
    Net(n.nodes[l.client := s.client][l.server := s.server], n.links[k := Moved(l, s)])
  }

  /** What a local writer or a sync with someone else appends. */
  function DoWrite(c: Codec, n: Net, i: nat, e: Envelope): Net
    requires i < |n.nodes|
  {
    if !Genuine(c.prims, e) then n else
    match Append(n.nodes[i], e)
    case None => n
    case Some(grown) => n.(nodes := n.nodes[i := grown])
  }

  function Perform(c: Codec, n: Net, st: NetStep): Net {
    match st
    case Connect(i, j) =>
      if i < |n.nodes| && j < |n.nodes| && i != j
      then n.(links := n.links + [Link(i, j, Start, [], [], n.nodes[i].log, n.nodes[j].log)]) else n
    case Move(k, step) =>
      if k < |n.links| && EndsOk(n.nodes, n.links[k]) && !step.Interfere? && !step.ChangePolicy?
      then DoMove(c, n, k, step) else n
    case Write(i, e) => if i < |n.nodes| then DoWrite(c, n, i, e) else n
    case SetPolicy(i, p) => if i < |n.nodes| then n.(nodes := n.nodes[i := n.nodes[i].(policy := p)]) else n
  }

  function Play(c: Codec, n: Net, steps: seq<NetStep>): Net
    decreases |steps|
  {
    if steps == [] then n else Play(c, Perform(c, n, steps[0]), steps[1..])
  }

  // ---------------------------------------------------------------- invariant

  ghost predicate NodesOk(c: Codec, nodes: seq<Side>) {
    forall i :: 0 <= i < |nodes| ==> LogOk(c, nodes[i].log)
  }

  ghost predicate LinkOk(c: Codec, nodes: seq<Side>, l: Link) {
    && EndsOk(nodes, l) && Inv(c, View(nodes, l))
    && SnapshotsCover(View(nodes, l), l.clientFirst, l.serverFirst)
  }

  ghost predicate NetOk(c: Codec, n: Net) {
    NodesOk(c, n.nodes) && forall k :: 0 <= k < |n.links| ==> LinkOk(c, n.nodes, n.links[k])
  }

  /** Every log only grew. */
  ghost predicate Grown(nodes: seq<Side>, nodes': seq<Side>) {
    |nodes| == |nodes'| && forall i :: 0 <= i < |nodes| ==> nodes[i].log <= nodes'[i].log
  }

  lemma GrownTrans(a: seq<Side>, b: seq<Side>, d: seq<Side>)
    requires Grown(a, b) && Grown(b, d)
    ensures Grown(a, d)
  {
  }

  /** What the others do is to a session what local writers do. */
  lemma LinkStays(c: Codec, nodes: seq<Side>, nodes': seq<Side>, l: Link)
    requires LinkOk(c, nodes, l) && NodesOk(c, nodes') && Grown(nodes, nodes')
    ensures LinkOk(c, nodes', l)
  {
    var s := View(nodes, l);
    var half := s.(client := nodes'[l.client]);
    GrownClient(c, s, nodes'[l.client]);
    GrownServer(c, half, nodes'[l.server]);
    assert half.(server := nodes'[l.server]) == View(nodes', l);
    StillCovers(s, View(nodes', l), l.clientFirst, l.serverFirst);
  }

  lemma StillCovers(s: Session, s': Session, client: seq<Envelope>, server: seq<Envelope>)
    requires SnapshotsCover(s, client, server)
    requires s'.phase == s.phase && s'.clientAt == s.clientAt && s'.serverAt == s.serverAt
    requires s.client.log <= s'.client.log && s.server.log <= s'.server.log
    ensures SnapshotsCover(s', client, server)
  {
  }

  lemma AllStay(c: Codec, n: Net, nodes': seq<Side>)
    requires NetOk(c, n) && NodesOk(c, nodes') && Grown(n.nodes, nodes')
    ensures NetOk(c, n.(nodes := nodes'))
  {
    forall k | 0 <= k < |n.links| ensures LinkOk(c, nodes', n.links[k]) {
      LinkStays(c, n.nodes, nodes', n.links[k]);
    }
  }

  lemma ConnectKeeps(c: Codec, n: Net, i: nat, j: nat)
    requires NetOk(c, n)
    ensures NetOk(c, Perform(c, n, Connect(i, j)))
  {
  }

  /** The two ends of a moving link, before and after. */
  lemma EndsMove(c: Codec, nodes: seq<Side>, l: Link, s: Session)
    requires EndsOk(nodes, l) && NodesOk(c, nodes) && Inv(c, s)
    requires nodes[l.client].log <= s.client.log && nodes[l.server].log <= s.server.log
    ensures var nodes' := nodes[l.client := s.client][l.server := s.server];
            NodesOk(c, nodes') && Grown(nodes, nodes') && View(nodes', Moved(l, s)) == s
  {
  }

  lemma MoveKeeps(c: Codec, n: Net, k: nat, step: Step)
    requires NetOk(c, n) && k < |n.links| && !step.Interfere? && !step.ChangePolicy?
    ensures NetOk(c, DoMove(c, n, k, step)) && Grown(n.nodes, DoMove(c, n, k, step).nodes)
  {
    var l := n.links[k];
    assert LinkOk(c, n.nodes, l);
    var v := View(n.nodes, l);
    var s := Act(c, v, step);
    StepKeeps(c, v, step);
    SnapshotStep(c, v, step, l.clientFirst, l.serverFirst);
    EndsMove(c, n.nodes, l, s);
    var nodes' := n.nodes[l.client := s.client][l.server := s.server];
    AllStay(c, n, nodes');
    assert LinkOk(c, nodes', Moved(l, s));
  }

  lemma WriteKeeps(c: Codec, n: Net, i: nat, e: Envelope)
    requires NetOk(c, n) && i < |n.nodes|
    ensures NetOk(c, DoWrite(c, n, i, e)) && Grown(n.nodes, DoWrite(c, n, i, e).nodes)
    ensures IdSet(DoWrite(c, n, i, e).nodes[i].log) <= IdSet(n.nodes[i].log) + {e.id}
  {
    if Genuine(c.prims, e) && Append(n.nodes[i], e).Some? {
      AppendKeeps(c, n.nodes[i], e);
      AllStay(c, n, n.nodes[i := Append(n.nodes[i], e).value]);
    }
  }

  lemma SetPolicyKeeps(c: Codec, n: Net, i: nat, p: Policy.ChannelPolicy)
    requires NetOk(c, n) && i < |n.nodes|
    ensures var nodes' := n.nodes[i := n.nodes[i].(policy := p)];
            NetOk(c, n.(nodes := nodes')) && Grown(n.nodes, nodes')
  {
    AllStay(c, n, n.nodes[i := n.nodes[i].(policy := p)]);
  }

  /** Every step of the network keeps every session's invariant and every log. */
  lemma NetStepKeeps(c: Codec, n: Net, st: NetStep)
    requires NetOk(c, n)
    ensures NetOk(c, Perform(c, n, st)) && Grown(n.nodes, Perform(c, n, st).nodes)
  {
    match st
    case Connect(i, j) => ConnectKeeps(c, n, i, j);
    case Move(k, step) =>
      if k < |n.links| && !step.Interfere? && !step.ChangePolicy? { MoveKeeps(c, n, k, step); }
    case Write(i, e) => if i < |n.nodes| { WriteKeeps(c, n, i, e); }
    case SetPolicy(i, p) => if i < |n.nodes| { SetPolicyKeeps(c, n, i, p); }
  }

  lemma {:induction false} PlayKeeps(c: Codec, n: Net, steps: seq<NetStep>)
    requires NetOk(c, n)
    ensures NetOk(c, Play(c, n, steps)) && Grown(n.nodes, Play(c, n, steps).nodes)
    decreases |steps|
  {
    if steps != [] {
      NetStepKeeps(c, n, steps[0]);
      PlayKeeps(c, Perform(c, n, steps[0]), steps[1..]);
      GrownTrans(n.nodes, Perform(c, n, steps[0]).nodes, Play(c, n, steps).nodes);
    }
  }

  // ---------------------------------------------------------------- what a group of nodes holds together

  /** Some node of the group has logged `id`. */
  ghost predicate GroupHolds(nodes: seq<Side>, g: set<nat>, id: Id) {
    exists i :: i in g && i < |nodes| && id in IdSet(nodes[i].log)
  }

  /** A session does not cross the boundary of the group. */
  predicate Inside(g: set<nat>, client: nat, server: nat) {
    client in g <==> server in g
  }

  ghost predicate NoneCrosses(g: set<nat>, n: Net) {
    forall k :: 0 <= k < |n.links| ==> Inside(g, n.links[k].client, n.links[k].server)
  }

  /** The step opens no session across it, between any of the `size` nodes. */
  predicate StaysInside(g: set<nat>, size: nat, st: NetStep) {
    st.Connect? && st.client < size && st.server < size ==> Inside(g, st.client, st.server)
  }

  /** The ids handed to nodes of the group by local writers. */
  function WrittenInto(g: set<nat>, steps: seq<NetStep>): set<Id> {
    if steps == [] then {}
    else (if steps[0].Write? && steps[0].node in g then {steps[0].env.id} else {}) + WrittenInto(g, steps[1..])
  }

  lemma GroupGrows(c: Codec, nodes: seq<Side>, nodes': seq<Side>, g: set<nat>, id: Id)
    requires Grown(nodes, nodes') && GroupHolds(nodes, g, id)
    ensures GroupHolds(nodes', g, id)
  {
  }

  lemma MoveInventsNothing(c: Codec, n: Net, g: set<nat>, k: nat, step: Step, id: Id)
    requires NetOk(c, n) && k < |n.links| && !step.Interfere? && !step.ChangePolicy?
    requires Inside(g, n.links[k].client, n.links[k].server)
    requires GroupHolds(DoMove(c, n, k, step).nodes, g, id)
    ensures GroupHolds(n.nodes, g, id)
  {
    var l := n.links[k];
    assert LinkOk(c, n.nodes, l);
    var v, nodes' := View(n.nodes, l), DoMove(c, n, k, step).nodes;
    StepKeeps(c, v, step);
    var i :| i in g && i < |nodes'| && id in IdSet(nodes'[i].log);
    if i == l.client || i == l.server {
      assert id in Union(v);
    } else {
      assert nodes'[i] == n.nodes[i];
    }
  }

  lemma WriteInventsNothing(c: Codec, n: Net, g: set<nat>, i: nat, e: Envelope, id: Id)
    requires NetOk(c, n) && i < |n.nodes| && GroupHolds(DoWrite(c, n, i, e).nodes, g, id)
    ensures GroupHolds(n.nodes, g, id) || (i in g && id == e.id)
  {
  }

  lemma StepInventsNothing(c: Codec, n: Net, g: set<nat>, st: NetStep, id: Id)
    requires NetOk(c, n) && NoneCrosses(g, n) && GroupHolds(Perform(c, n, st).nodes, g, id)
    ensures GroupHolds(n.nodes, g, id) || (st.Write? && st.node in g && id == st.env.id)
  {
    match st
    case Connect(_, _) =>
    case Move(k, step) =>
      if k < |n.links| && !step.Interfere? && !step.ChangePolicy? {
        assert LinkOk(c, n.nodes, n.links[k]);
        MoveInventsNothing(c, n, g, k, step, id);
      }
    case Write(i, e) => if i < |n.nodes| { WriteInventsNothing(c, n, g, i, e, id); }
    case SetPolicy(i, p) =>
      var nodes' := Perform(c, n, st).nodes;
      var j :| j in g && j < |nodes'| && id in IdSet(nodes'[j].log);
      assert nodes'[j].log == n.nodes[j].log;
  }

  lemma StaysUncrossed(c: Codec, n: Net, g: set<nat>, st: NetStep)
    requires NoneCrosses(g, n) && StaysInside(g, |n.nodes|, st)
    ensures NoneCrosses(g, Perform(c, n, st))
  {
  }

  /** However sessions interleave, abort or repeat: a group of nodes that no session connects with the others
      keeps every id it holds together, and gains none but those its own writers write. */
  lemma {:induction false} GroupConserves(c: Codec, n: Net, g: set<nat>, steps: seq<NetStep>, id: Id)
    requires NetOk(c, n) && NoneCrosses(g, n)
    requires forall i :: 0 <= i < |steps| ==> StaysInside(g, |n.nodes|, steps[i])
    ensures GroupHolds(n.nodes, g, id) ==> GroupHolds(Play(c, n, steps).nodes, g, id)
    ensures GroupHolds(Play(c, n, steps).nodes, g, id) ==> GroupHolds(n.nodes, g, id) || id in WrittenInto(g, steps)
    decreases |steps|
  {
    if steps != [] {
      var next := Perform(c, n, steps[0]);
      NetStepKeeps(c, n, steps[0]);
      StaysUncrossed(c, n, g, steps[0]);
      assert forall i :: 0 <= i < |steps[1..]| ==> steps[1..][i] == steps[i + 1];
      GroupConserves(c, next, g, steps[1..], id);
      if GroupHolds(n.nodes, g, id) { GroupGrows(c, n.nodes, next.nodes, g, id); }
      if GroupHolds(next.nodes, g, id) { StepInventsNothing(c, n, g, steps[0], id); }
    }
  }

  // ---------------------------------------------------------------- how far ids have spread

  /** The nodes known to be informed, and for each session those informed when it was opened. */
  datatype Spread = Spread(informed: set<nat>, knew: seq<set<nat>>)

  /** The sync is complete and its bucket hashes did not collide. */
  ghost predicate Done(c: Codec, l: Link) {
    l.phase.Complete? && NoBucketCollision(c, l.serverAt, l.clientAt)
  }

  predicate Touches(l: Link, known: set<nat>) {
    l.client in known || l.server in known
  }

  /** A completed sync informs both ends if one of them was informed when it was opened. */
  ghost function Follow(c: Codec, n: Net, sp: Spread, st: NetStep): Spread {
    var n' := Perform(c, n, st);
    match st
    case Connect(_, _) => if n'.links != n.links then sp.(knew := sp.knew + [sp.informed]) else sp
    case Move(k, _) =>
      if k < |n'.links| && k < |sp.knew| && Done(c, n'.links[k]) && Touches(n'.links[k], sp.knew[k])
      then sp.(informed := sp.informed + {n'.links[k].client, n'.links[k].server}) else sp
    case _ => sp
  }

  ghost function Trail(c: Codec, n: Net, sp: Spread, steps: seq<NetStep>): Spread
    decreases |steps|
  {
    if steps == [] then sp else Trail(c, Perform(c, n, steps[0]), Follow(c, n, sp, steps[0]), steps[1..])
  }

  ghost predicate KnewOk(c: Codec, l: Link, known: set<nat>, informed: set<nat>, ids: set<Id>) {
    && (l.client in known ==> ids <= IdSet(l.clientFirst))
    && (l.server in known ==> ids <= IdSet(l.serverFirst))
    && (Done(c, l) && Touches(l, known) ==> l.client in informed && l.server in informed)
  }

  /** Informed nodes hold `ids`, and completed sessions have informed their ends. */
  ghost predicate SpreadOk(c: Codec, n: Net, sp: Spread, ids: set<Id>) {
    && |sp.knew| == |n.links|
    && (forall i :: i in sp.informed ==> i < |n.nodes| && ids <= IdSet(n.nodes[i].log))
    && (forall k :: 0 <= k < |n.links| ==> KnewOk(c, n.links[k], sp.knew[k], sp.informed, ids))
  }

  lemma StillInformed(nodes: seq<Side>, nodes': seq<Side>, i: nat, ids: set<Id>)
    requires Grown(nodes, nodes') && i < |nodes| && ids <= IdSet(nodes[i].log)
    ensures ids <= IdSet(nodes'[i].log)
  {
  }

  lemma DoneInforms(c: Codec, nodes: seq<Side>, l: Link, known: set<nat>, ids: set<Id>)
    requires CodecOk(c) && LinkOk(c, nodes, l) && Done(c, l) && Touches(l, known)
    requires l.client in known ==> ids <= IdSet(l.clientFirst)
    requires l.server in known ==> ids <= IdSet(l.serverFirst)
    ensures ids <= IdSet(nodes[l.client].log) && ids <= IdSet(nodes[l.server].log)
  {
    var s := View(nodes, l);
    CompleteCovers(c, s);
    PrefixIds(l.clientFirst, s.clientAt);
    PrefixIds(l.serverFirst, s.serverAt);
    PrefixIds(s.clientAt, s.client.log);
    PrefixIds(s.serverAt, s.server.log);
  }

  lemma ConnectSpreads(c: Codec, n: Net, sp: Spread, i: nat, j: nat, ids: set<Id>)
    requires NetOk(c, n) && SpreadOk(c, n, sp, ids)
    ensures SpreadOk(c, Perform(c, n, Connect(i, j)), Follow(c, n, sp, Connect(i, j)), ids)
  {
  }

  lemma MoreInformed(c: Codec, l: Link, known: set<nat>, informed: set<nat>, more: set<nat>, ids: set<Id>)
    requires KnewOk(c, l, known, informed, ids) && informed <= more
    ensures KnewOk(c, l, known, more, ids)
  {
  }

  lemma MoveSpreads(c: Codec, n: Net, sp: Spread, k: nat, step: Step, ids: set<Id>)
    requires CodecOk(c) && NetOk(c, n) && SpreadOk(c, n, sp, ids)
    requires k < |n.links| && !step.Interfere? && !step.ChangePolicy?
    ensures SpreadOk(c, Perform(c, n, Move(k, step)), Follow(c, n, sp, Move(k, step)), ids)
  {
    assert LinkOk(c, n.nodes, n.links[k]);
    var n', sp' := DoMove(c, n, k, step), Follow(c, n, sp, Move(k, step));
    MoveKeeps(c, n, k, step);
    var l := n'.links[k];
    assert LinkOk(c, n'.nodes, l);
    assert KnewOk(c, n.links[k], sp.knew[k], sp.informed, ids);
    if Done(c, l) && Touches(l, sp.knew[k]) { DoneInforms(c, n'.nodes, l, sp.knew[k], ids); }
    forall i | i in sp'.informed ensures i < |n'.nodes| && ids <= IdSet(n'.nodes[i].log) {
      if i in sp.informed { StillInformed(n.nodes, n'.nodes, i, ids); }
    }
    forall m | 0 <= m < |n'.links| ensures KnewOk(c, n'.links[m], sp'.knew[m], sp'.informed, ids) {
      if m != k { MoreInformed(c, n.links[m], sp.knew[m], sp.informed, sp'.informed, ids); }
    }
  }

  lemma OthersSpread(c: Codec, n: Net, sp: Spread, st: NetStep, ids: set<Id>)
    requires NetOk(c, n) && SpreadOk(c, n, sp, ids) && Perform(c, n, st).links == n.links && Follow(c, n, sp, st) == sp
    ensures SpreadOk(c, Perform(c, n, st), sp, ids)
  {
    var n' := Perform(c, n, st);
    NetStepKeeps(c, n, st);
    forall i | i in sp.informed ensures i < |n'.nodes| && ids <= IdSet(n'.nodes[i].log) {
      StillInformed(n.nodes, n'.nodes, i, ids);
    }
  }

  lemma StepSpreads(c: Codec, n: Net, sp: Spread, st: NetStep, ids: set<Id>)
    requires CodecOk(c) && NetOk(c, n) && SpreadOk(c, n, sp, ids)
    ensures SpreadOk(c, Perform(c, n, st), Follow(c, n, sp, st), ids)
  {
    match st
    case Connect(i, j) => ConnectSpreads(c, n, sp, i, j, ids);
    case Move(k, step) =>
      if k < |n.links| {
        assert LinkOk(c, n.nodes, n.links[k]) && KnewOk(c, n.links[k], sp.knew[k], sp.informed, ids);
        if !step.Interfere? && !step.ChangePolicy? {
          MoveSpreads(c, n, sp, k, step, ids);
        }
      }
    case _ => OthersSpread(c, n, sp, st, ids);
  }

  /** Whatever else happens meanwhile, every informed node holds the ids. */
  lemma {:induction false} TrailHolds(c: Codec, n: Net, sp: Spread, steps: seq<NetStep>, ids: set<Id>)
    requires CodecOk(c) && NetOk(c, n) && SpreadOk(c, n, sp, ids)
    ensures SpreadOk(c, Play(c, n, steps), Trail(c, n, sp, steps), ids)
    decreases |steps|
  {
    if steps != [] {
      NetStepKeeps(c, n, steps[0]);
      StepSpreads(c, n, sp, steps[0], ids);
      TrailHolds(c, Perform(c, n, steps[0]), Follow(c, n, sp, steps[0]), steps[1..], ids);
    }
  }

  // ---------------------------------------------------------------- envelopes that never agree

  /** If one id stands for different envelopes in the logs of two nodes, as it does when two identities signed the
      same message, no syncs between any nodes ever make the two logs agree. */
  lemma ClashesStay(c: Codec, n: Net, steps: seq<NetStep>, i: nat, j: nat, x: Envelope, y: Envelope)
    requires NetOk(c, n) && i < |n.nodes| && j < |n.nodes|
    requires x in n.nodes[i].log && y in n.nodes[j].log && x.id == y.id && x != y
    ensures var m := Play(c, n, steps);
            |m.nodes| == |n.nodes| && x in m.nodes[i].log && y in m.nodes[j].log
            && !SameEnvelopes(m.nodes[i].log, m.nodes[j].log)
  {
    PlayKeeps(c, n, steps);
    var m := Play(c, n, steps);
    GrownLogHas(n.nodes[i].log, m.nodes[i].log, x);
    GrownLogHas(n.nodes[j].log, m.nodes[j].log, y);
    assert LogOk(c, m.nodes[j].log);
    if x in m.nodes[j].log { IdNamesOne(m.nodes[j].log, x, y); }
  }

  // ---------------------------------------------------------------- local writers

  /** A local write puts a genuine envelope of an admitted author into the log of its node, and changes nothing
      else; a policy change changes the policy of its node. */
  lemma LocalSteps(c: Codec, n: Net, i: nat, e: Envelope, p: Policy.ChannelPolicy)
    requires i < |n.nodes|
    ensures var s := n.nodes[i];
            Perform(c, n, Write(i, e)) ==
            if Genuine(c.prims, e) && Append(s, e).Some? then n.(nodes := n.nodes[i := Append(s, e).value]) else n
    ensures Perform(c, n, SetPolicy(i, p)) == n.(nodes := n.nodes[i := Side(n.nodes[i].log, p)])
  {
  }

  /** Any two nodes can open a session, and a step of a session is a step of its two nodes as they are then; all
      other nodes and sessions stay as they are. */
  lemma SessionSteps(c: Codec, n: Net, i: nat, j: nat, k: nat, step: Step)
    requires i < |n.nodes| && j < |n.nodes| && i != j
    requires k < |n.links| && EndsOk(n.nodes, n.links[k]) && !step.Interfere? && !step.ChangePolicy?
    ensures Perform(c, n, Connect(i, j)) ==
            Net(n.nodes, n.links + [Link(i, j, Start, [], [], n.nodes[i].log, n.nodes[j].log)])
    ensures var m, l := Perform(c, n, Move(k, step)), n.links[k];
            && |m.nodes| == |n.nodes| && |m.links| == |n.links|
            && m.links[k].client == l.client && m.links[k].server == l.server
            && View(m.nodes, m.links[k]) == Act(c, View(n.nodes, l), step)
            && (forall h :: 0 <= h < |n.nodes| && h != l.client && h != l.server ==> m.nodes[h] == n.nodes[h])
            && (forall h :: 0 <= h < |n.links| && h != k ==> m.links[h] == n.links[h])
  {
  }
}
