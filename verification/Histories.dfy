/** What any run of the federation, clean or not, does to the active policy histories. */
module Histories {
  import opened Basics
  import opened Chain
  import opened Policy
  import opened Keyring
  import opened KeyExchange
  import opened Reconcile
  import opened Federation
  import A = Admin
  import M = Moderation

  ghost predicate Ready(c: M.Context, u: A.Universe, w: World, i: nat)
    requires i < |w.nodes|
  {
    PolicyReady(c, u, w.nodes[i].policy)
  }

  /** The policy part of the invariant: valid histories on the nodes and on the wire. */
  ghost predicate PolicyInv(c: M.Context, u: A.Universe, w: World) {
    && (forall i: nat {:trigger Ready(c, u, w, i)} :: i < |w.nodes| ==> Ready(c, u, w, i))
    && (forall k: nat {:trigger w.sessions[k]} :: k < |w.sessions| ==> WireOk(c, u, w, w.sessions[k]))
  }

  /** Every node still has its earlier history in front. */
  ghost predicate HistoriesGrow(w: World, w': World) {
    && |w.nodes| == |w'.nodes|
    && forall i :: 0 <= i < |w.nodes| ==>
                     w.nodes[i].me == w'.nodes[i].me && w.nodes[i].policy.active <= w'.nodes[i].policy.active
  }

  /** `es` is part of a history some node had. */
  ghost predicate Part(w: World, es: seq<PolicyEvent>) {
    exists i :: 0 <= i < |w.nodes| && IsPrefix(es, w.nodes[i].policy.active)
  }

  /** Every history of `w'` is part of one in `w`. */
  ghost predicate FromBefore(w: World, w': World) {
    forall i :: 0 <= i < |w'.nodes| ==> Part(w, w'.nodes[i].policy.active)
  }

  /** One node got a longer history and one session may have changed. */
  lemma OneNodeGrows(c: M.Context, u: A.Universe, w: World, w': World, i: nat, k: nat)
    requires PolicyInv(c, u, w) && HistoriesGrow(w, w') && i < |w.nodes| && Ready(c, u, w', i)
    requires forall j :: 0 <= j < |w.nodes| && j != i ==> w'.nodes[j].policy == w.nodes[j].policy
    requires |w'.sessions| == |w.sessions|
    requires forall j :: 0 <= j < |w.sessions| && j != k ==> w'.sessions[j] == w.sessions[j]
    requires k < |w.sessions| ==> WireOk(c, u, w', w'.sessions[k])
    ensures PolicyInv(c, u, w')
  {
    forall j: nat | j < |w.nodes| ensures Ready(c, u, w', j) {
      assert Ready(c, u, w, j);
    }
    forall j: nat | j < |w.sessions| && j != k ensures WireOk(c, u, w', w'.sessions[j]) {
    }
  }

  lemma AnswerPart(c: M.Context, u: A.Universe, w: World, k: nat)
    requires PolicyInv(c, u, w) && Known(w, k)
    ensures Part(w, DoAnswer(c, w, k).nodes[w.sessions[k].server].policy.active)
  {
    var x, l := w.sessions[k], w.nodes[w.sessions[k].server].policy;
    assert WireOk(c, u, w, x) && Ready(c, u, w, x.server);
    ServeResult(c, u, l, w.nodes[x.client].me, x.sent);
    assert IsPrefix(l.active, l.active);
  }

  lemma AnswerWire(c: M.Context, u: A.Universe, w: World, k: nat)
    requires PolicyInv(c, u, w) && Known(w, k) && !w.sessions[k].answered
    ensures var w', x := DoAnswer(c, w, k), w.sessions[k];
            HistoriesGrow(w, w') && Ready(c, u, w', x.server) && WireOk(c, u, w', w'.sessions[k])
  {
    var x := w.sessions[k];
    assert WireOk(c, u, w, x) && Ready(c, u, w, x.server);
    ServeResult(c, u, w.nodes[x.server].policy, w.nodes[x.client].me, x.sent);
  }

  lemma AnswerGrows(c: M.Context, u: A.Universe, w: World, k: nat)
    requires PolicyInv(c, u, w) && Known(w, k)
    ensures var w' := DoAnswer(c, w, k);
            PolicyInv(c, u, w') && HistoriesGrow(w, w') && FromBefore(w, w')
  {
    var x, w' := w.sessions[k], DoAnswer(c, w, k);
    AnswerPart(c, u, w, k);
    if !x.answered {
      AnswerWire(c, u, w, k);
      OneNodeGrows(c, u, w, w', x.server, k);
    }
  }

  lemma FollowPart(c: M.Context, u: A.Universe, w: World, k: nat)
    requires PolicyInv(c, u, w) && Known(w, k)
    ensures Part(w, DoFollow(c, w, k).nodes[w.sessions[k].client].policy.active)
  {
    var x, l := w.sessions[k], w.nodes[w.sessions[k].client].policy;
    assert WireOk(c, u, w, x) && Ready(c, u, w, x.client);
    FollowResult(c, u, l, x.reply);
    assert IsPrefix(l.active, l.active);
  }

  lemma FollowWire(c: M.Context, u: A.Universe, w: World, k: nat)
    requires PolicyInv(c, u, w) && Known(w, k) && !w.sessions[k].followed && w.sessions[k].answered
    ensures var w', x := DoFollow(c, w, k), w.sessions[k];
            HistoriesGrow(w, w') && Ready(c, u, w', x.client) && WireOk(c, u, w', w'.sessions[k])
  {
    var x := w.sessions[k];
    assert WireOk(c, u, w, x) && Ready(c, u, w, x.client);
    FollowResult(c, u, w.nodes[x.client].policy, x.reply);
  }

  lemma FollowGrows(c: M.Context, u: A.Universe, w: World, k: nat)
    requires PolicyInv(c, u, w) && Known(w, k)
    ensures var w' := DoFollow(c, w, k);
            PolicyInv(c, u, w') && HistoriesGrow(w, w') && FromBefore(w, w')
  {
    var x := w.sessions[k];
    FollowPart(c, u, w, k);
    if !x.followed && x.answered { FollowWire(c, u, w, k); }
    FollowedGrows(c, u, w, DoFollow(c, w, k), k);
  }

  lemma FollowedGrows(c: M.Context, u: A.Universe, w: World, w': World, k: nat)
    requires PolicyInv(c, u, w) && Known(w, k)
    requires var x, i := w.sessions[k], w.sessions[k].client;
             && |w'.nodes| == |w.nodes| && |w'.sessions| == |w.sessions| && Part(w, w'.nodes[i].policy.active)
             && (forall j :: 0 <= j < |w.nodes| && j != i ==> w'.nodes[j].policy == w.nodes[j].policy)
             && (forall j :: 0 <= j < |w.sessions| && j != k ==> w'.sessions[j] == w.sessions[j])
             && (w' == w || (HistoriesGrow(w, w') && Ready(c, u, w', i) && WireOk(c, u, w', w'.sessions[k])))
    ensures PolicyInv(c, u, w') && HistoriesGrow(w, w') && FromBefore(w, w')
  {
    if w' != w { OneNodeGrows(c, u, w, w', w.sessions[k].client, k); }
  }

  lemma ReportGrows(c: M.Context, u: A.Universe, w: World, i: nat, j: nat)
    requires PolicyInv(c, u, w) && i < |w.nodes| && j < |w.nodes| && i != j
    ensures var w' := DoReport(w, i, j);
            PolicyInv(c, u, w') && HistoriesGrow(w, w') && FromBefore(w, w')
  {
    var w' := DoReport(w, i, j);
    assert Ready(c, u, w, i);
    forall n: nat | n < |w.nodes| ensures Ready(c, u, w', n) { assert Ready(c, u, w, n); }
    forall k: nat | k < |w'.sessions| ensures WireOk(c, u, w', w'.sessions[k]) {
    }
  }

  /** A step that changes no policy and nothing that is on the wire. */
  ghost predicate Silent(w: World, w': World) {
    && |w.nodes| == |w'.nodes| && |w.sessions| == |w'.sessions|
    && (forall i :: 0 <= i < |w.nodes| ==> w.nodes[i].me == w'.nodes[i].me && w.nodes[i].policy == w'.nodes[i].policy)
    && (forall k :: 0 <= k < |w.sessions| ==> SameWire(w.sessions[k], w'.sessions[k]))
  }

  predicate SameWire(x: Session, x': Session) {
    && x'.client == x.client && x'.server == x.server && x'.sent == x.sent
    && x'.answered == x.answered && x'.reply == x.reply && x'.followed == x.followed
    && (NotYet(x) && !x.answered ==> NotYet(x'))
  }

  lemma SilentGrows(c: M.Context, u: A.Universe, w: World, w': World)
    requires PolicyInv(c, u, w) && Silent(w, w')
    ensures PolicyInv(c, u, w') && HistoriesGrow(w, w') && FromBefore(w, w')
  {
    forall i: nat | i < |w.nodes| ensures Ready(c, u, w', i) { assert Ready(c, u, w, i); }
    forall k: nat | k < |w.sessions| ensures WireOk(c, u, w', w'.sessions[k]) {
      assert WireOk(c, u, w, w.sessions[k]) && SameWire(w.sessions[k], w'.sessions[k]);
    }
    forall i | 0 <= i < |w'.nodes| ensures Part(w, w'.nodes[i].policy.active) {
      assert Part(w, w.nodes[i].policy.active);
    }
  }

  lemma AcceptIsSilent(c: M.Context, y: Crypto, w: World, k: nat, nonces: nat -> Bytes)
    requires Known(w, k)
    ensures Silent(w, DoAccept(c, y, w, k, nonces))
  {
  }

  lemma AcceptBackIsSilent(c: M.Context, y: Crypto, w: World, k: nat, nonces: nat -> Bytes)
    requires Known(w, k)
    ensures Silent(w, DoAcceptBack(c, y, w, k, nonces))
  {
  }

  lemma JudgeIsSilent(c: M.Context, w: World, k: nat)
    requires Known(w, k)
    ensures Silent(w, DoJudge(c, w, k))
  {
  }

  lemma OffersAreSilent(w: World, k: nat)
    requires Known(w, k)
    ensures Silent(w, DoOffer(w, k)) && Silent(w, DoOfferBack(w, k))
  {
  }

  lemma KeyTurnsAreSilent(c: M.Context, y: Crypto, w: World, k: nat, step: Step)
    requires Known(w, k)
    requires step.Judge? || step.OfferKeys? || step.Accept? || step.OfferBack? || step.AcceptBack?
    requires step.session == k
    ensures Silent(w, Act(c, y, w, step))
  {
    if step.Accept? {
      AcceptIsSilent(c, y, w, k, step.nonces);
    } else if step.AcceptBack? {
      AcceptBackIsSilent(c, y, w, k, step.nonces);
    } else if step.Judge? {
      JudgeIsSilent(c, w, k);
    } else {
      OffersAreSilent(w, k);
    }
  }

  lemma KeyStepsAreSilent(c: M.Context, y: Crypto, w: World, step: Step)
    requires step.BeginRotation? || step.DropRotation? || step.FirstKey?
    ensures Silent(w, Act(c, y, w, step))
  {
  }

  lemma LocalGrowth(c: M.Context, u: A.Universe, w: World, i: nat, w': World, ts: int, action: Policy.Action)
    requires PolicyInv(c, u, w) && i < |w.nodes| && Signs(c, u, w.nodes[i], ts, action)
    requires w'.sessions == w.sessions
    requires var n := w.nodes[i];
             w'.nodes == w.nodes[i := Node(n.me, A.PolicyOp(c, n.policy, A.PolicyLocal(n.me, ts, action)), n.ring)]
    ensures PolicyInv(c, u, w') && HistoriesGrow(w, w')
  {
    assert Ready(c, u, w, i);
    LocalGrows(c, u, w.nodes[i], ts, action);
    OneNodeGrows(c, u, w, w', i, |w.sessions|);
  }

  predicate ChangesPolicy(step: Step) {
    step.Append? || step.EndRotation?
  }

  /** Every step keeps valid histories and only lengthens them; a step that is no policy change of a node gives
      no node anything that another did not have. */
  lemma StepGrows(c: M.Context, u: A.Universe, y: Crypto, w: World, step: Step)
    requires PolicyInv(c, u, w) && StepWithin(c, u, w, step)
    ensures var w' := Act(c, y, w, step);
            PolicyInv(c, u, w') && HistoriesGrow(w, w') && (ChangesPolicy(step) || FromBefore(w, w'))
  {
    if ChangesPolicy(step) {
      ChangeGrows(c, u, y, w, step);
    } else if step.BeginRotation? || step.DropRotation? || step.FirstKey? {
      KeyStepsAreSilent(c, y, w, step);
      SilentGrows(c, u, w, Act(c, y, w, step));
    } else {
      SyncStepGrows(c, u, y, w, step);
    }
  }

  lemma ChangeGrows(c: M.Context, u: A.Universe, y: Crypto, w: World, step: Step)
    requires PolicyInv(c, u, w) && StepWithin(c, u, w, step) && ChangesPolicy(step)
    ensures PolicyInv(c, u, Act(c, y, w, step)) && HistoriesGrow(w, Act(c, y, w, step))
  {
    match step
    case Append(i, ts, action) =>
      if i < |w.nodes| { LocalGrowth(c, u, w, i, DoAppend(c, w, i, ts, action), ts, action); }
    case EndRotation(id, ts) =>
      if IsHalf(w, id) { LocalGrowth(c, u, w, w.half[id].node, DoEnd(c, w, id, ts), ts, w.half[id].action); }
  }

  lemma SyncStepGrows(c: M.Context, u: A.Universe, y: Crypto, w: World, step: Step)
    requires PolicyInv(c, u, w)
    requires !ChangesPolicy(step) && !step.BeginRotation? && !step.DropRotation? && !step.FirstKey?
    ensures var w' := Act(c, y, w, step);
            PolicyInv(c, u, w') && HistoriesGrow(w, w') && FromBefore(w, w')
  {
    if step.Report? {
      if step.client < |w.nodes| && step.server < |w.nodes| && step.client != step.server {
        ReportGrows(c, u, w, step.client, step.server);
      }
    } else if Known(w, step.session) {
      if step.Answer? {
        AnswerGrows(c, u, w, step.session);
      } else if step.Follow? {
        FollowGrows(c, u, w, step.session);
      } else {
        KeyTurnsAreSilent(c, y, w, step.session, step);
        SilentGrows(c, u, w, Act(c, y, w, step));
      }
    }
  }

  /** No step, and so no broken or interrupted session, ever shortens or rewrites an active history. */
  lemma {:induction false} HistoriesNeverShrink(c: M.Context, u: A.Universe, y: Crypto, w: World, steps: seq<Step>)
    requires PolicyInv(c, u, w) && RunWithin(c, u, y, w, steps)
    ensures PolicyInv(c, u, Run(c, y, w, steps)) && HistoriesGrow(w, Run(c, y, w, steps))
    decreases |steps|
  {
    if steps != [] {
      var w' := Act(c, y, w, steps[0]);
      StepGrows(c, u, y, w, steps[0]);
      HistoriesNeverShrink(c, u, y, w', steps[1..]);
    }
  }

  // ---------------------------------------------------------------- comparability

  ghost predicate AllComparable(w: World) {
    forall i, j :: 0 <= i < |w.nodes| && 0 <= j < |w.nodes| ==>
                     Comparable(w.nodes[i].policy.active, w.nodes[j].policy.active)
  }

  lemma StaysComparable(w: World, w': World)
    requires AllComparable(w) && FromBefore(w, w')
    ensures AllComparable(w')
  {
    forall i, j | 0 <= i < |w'.nodes| && 0 <= j < |w'.nodes|
      ensures Comparable(w'.nodes[i].policy.active, w'.nodes[j].policy.active)
    {
      assert Part(w, w'.nodes[i].policy.active) && Part(w, w'.nodes[j].policy.active);
      var a :| 0 <= a < |w.nodes| && IsPrefix(w'.nodes[i].policy.active, w.nodes[a].policy.active);
      var b :| 0 <= b < |w.nodes| && IsPrefix(w'.nodes[j].policy.active, w.nodes[b].policy.active);
    }
  }

  /** As long as no node changes its policy itself, histories that were pairwise comparable stay so, however
      the turns of the sessions interleave. */
  lemma {:induction false} SyncsKeepComparable(c: M.Context, u: A.Universe, y: Crypto, w: World, steps: seq<Step>)
    requires PolicyInv(c, u, w) && AllComparable(w) && RunWithin(c, u, y, w, steps)
    requires forall i :: 0 <= i < |steps| ==> !ChangesPolicy(steps[i])
    ensures AllComparable(Run(c, y, w, steps))
    decreases |steps|
  {
    if steps != [] {
      var w' := Act(c, y, w, steps[0]);
      StepGrows(c, u, y, w, steps[0]);
      StaysComparable(w, w');
      SyncsKeepComparable(c, u, y, w', steps[1..]);
    }
  }
}
