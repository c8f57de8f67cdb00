/** Rounds of completed sessions along a connected graph of nodes bring the longest policy history to every node. */
module PolicyRounds {
  import opened Chain
  import opened Policy
  import opened Reconcile
  import opened Keyring
  import opened Federation
  import opened Histories
  import C = Convergence
  import A = Admin
  import M = Moderation

  // ---------------------------------------------------------------- what a session carries

  /** A session that was opened after `w0` carries at least the histories its nodes had then. */
  ghost predicate Carries(w0: World, w: World, x: Session)
    requires |w0.nodes| == |w.nodes|
  {
    && Sides(w, x) && |w0.nodes[x.client].policy.active| <= |x.sent|
    && (x.reply.Update? ==> |w0.nodes[x.server].policy.active| <= |x.reply.events|)
    && (x.followed ==> x.reply.Update? && IsPrefix(x.reply.events, w.nodes[x.client].policy.active))
  }

  /** So do all sessions from number `first` on. */
  ghost predicate AllCarry(w0: World, w: World, first: nat) {
    && HistoriesGrow(w0, w)
    && forall k :: first <= k < |w.sessions| ==> Carries(w0, w, w.sessions[k])
  }

  lemma CarriesOn(w0: World, w: World, w': World, x: Session, x': Session)
    requires |w0.nodes| == |w.nodes| && HistoriesGrow(w, w') && Carries(w0, w, x)
    requires SameWire(x, x')
    ensures Carries(w0, w', x')
  {
    if x.followed { GrowingPrefix(x.reply.events, w.nodes[x.client].policy.active, w'.nodes[x.client].policy.active); }
  }

  /** The sessions that a step leaves alone. */
  lemma OthersCarry(w0: World, w: World, w': World, first: nat, k: nat)
    requires AllCarry(w0, w, first) && HistoriesGrow(w, w') && |w.sessions| <= |w'.sessions|
    requires forall j :: 0 <= j < |w.sessions| && j != k ==> SameWire(w.sessions[j], w'.sessions[j])
    requires forall j :: first <= j < |w'.sessions| && (j == k || j >= |w.sessions|) ==> Carries(w0, w', w'.sessions[j])
    ensures AllCarry(w0, w', first)
  {
    forall j | first <= j < |w'.sessions| ensures Carries(w0, w', w'.sessions[j]) {
      if j < |w.sessions| && j != k { CarriesOn(w0, w, w', w.sessions[j], w'.sessions[j]); }
    }
  }

  lemma ReportCarries(w0: World, w: World, i: nat, j: nat, first: nat)
    requires AllCarry(w0, w, first) && i < |w.nodes| && j < |w.nodes| && i != j
    requires HistoriesGrow(w, DoReport(w, i, j))
    ensures AllCarry(w0, DoReport(w, i, j), first)
  {
    OthersCarry(w0, w, DoReport(w, i, j), first, |w.sessions|);
  }

  lemma AnswerCarries(c: M.Context, u: A.Universe, w0: World, w: World, k: nat, first: nat)
    requires PolicyInv(c, u, w) && Known(w, k) && AllCarry(w0, w, first) && HistoriesGrow(w, DoAnswer(c, w, k))
    ensures AllCarry(w0, DoAnswer(c, w, k), first)
  {
    var x, w' := w.sessions[k], DoAnswer(c, w, k);
    assert WireOk(c, u, w, x) && Histories.Ready(c, u, w, x.server);
    ServeResult(c, u, w.nodes[x.server].policy, w.nodes[x.client].me, x.sent);
    OthersCarry(w0, w, w', first, k);
  }

  lemma FollowCarries(c: M.Context, u: A.Universe, w0: World, w: World, k: nat, first: nat)
    requires PolicyInv(c, u, w) && Known(w, k) && AllCarry(w0, w, first) && HistoriesGrow(w, DoFollow(c, w, k))
    ensures AllCarry(w0, DoFollow(c, w, k), first)
  {
    var x, w' := w.sessions[k], DoFollow(c, w, k);
    assert WireOk(c, u, w, x) && Histories.Ready(c, u, w, x.client);
    FollowResult(c, u, w.nodes[x.client].policy, x.reply);
    OthersCarry(w0, w, w', first, k);
  }

  lemma SilentCarries(w0: World, w: World, w': World, first: nat)
    requires AllCarry(w0, w, first) && Silent(w, w') && HistoriesGrow(w, w')
    ensures AllCarry(w0, w', first)
  {
    OthersCarry(w0, w, w', first, |w.sessions|);
  }

  lemma TurnCarries(
    c: M.Context, u: A.Universe, y: Crypto, w0: World, w: World, w': World, k: nat, step: Step, first: nat)
    requires PolicyInv(c, u, w) && AllCarry(w0, w, first) && Known(w, k) && HistoriesGrow(w, w')
    requires step.Answer? || step.Follow? || step.Judge? || step.OfferKeys? || step.Accept? || step.OfferBack?
             || step.AcceptBack?
    requires step.session == k && w' == Act(c, y, w, step)
    ensures AllCarry(w0, w', first)
  {
    if step.Answer? {
      AnswerCarries(c, u, w0, w, k, first);
    } else if step.Follow? {
      FollowCarries(c, u, w0, w, k, first);
    } else {
      KeyTurnsAreSilent(c, y, w, k, step);
      SilentCarries(w0, w, w', first);
    }
  }

  lemma StepCarries(c: M.Context, u: A.Universe, y: Crypto, w0: World, w: World, step: Step, first: nat, w': World)
    requires PolicyInv(c, u, w) && AllCarry(w0, w, first) && HistoriesGrow(w, w')
    requires !ChangesPolicy(step) && w' == Act(c, y, w, step)
    ensures AllCarry(w0, w', first)
  {
    if step.BeginRotation? || step.DropRotation? || step.FirstKey? {
      KeyStepsAreSilent(c, y, w, step);
      SilentCarries(w0, w, w', first);
    } else if step.Report? {
      if step.client < |w.nodes| && step.server < |w.nodes| && step.client != step.server {
        ReportCarries(w0, w, step.client, step.server, first);
      }
    } else if Known(w, step.session) {
      TurnCarries(c, u, y, w0, w, w', step.session, step, first);
    }
  }

  ghost predicate NoChanges(steps: seq<Step>) {
    forall i :: 0 <= i < |steps| ==> !ChangesPolicy(steps[i])
  }

  lemma {:induction false} RunCarries(
    c: M.Context, u: A.Universe, y: Crypto, w0: World, w: World, steps: seq<Step>, first: nat)
    requires PolicyInv(c, u, w) && AllCarry(w0, w, first) && RunWithin(c, u, y, w, steps) && NoChanges(steps)
    ensures AllCarry(w0, Run(c, y, w, steps), first)
    decreases |steps|
  {
    if steps != [] {
      StepGrows(c, u, y, w, steps[0]);
      StepCarries(c, u, y, w0, w, steps[0], first, Act(c, y, w, steps[0]));
      RunCarries(c, u, y, w0, Act(c, y, w, steps[0]), steps[1..], first);
    }
  }

  /** No history gets longer than the longest there is. */
  ghost predicate Bounded(w: World, n: nat) {
    forall i :: 0 <= i < |w.nodes| ==> |w.nodes[i].policy.active| <= n
  }

  lemma {:induction false} RunStaysBounded(
    c: M.Context, u: A.Universe, y: Crypto, w: World, steps: seq<Step>, n: nat)
    requires PolicyInv(c, u, w) && RunWithin(c, u, y, w, steps) && NoChanges(steps) && Bounded(w, n)
    ensures Bounded(Run(c, y, w, steps), n)
    decreases |steps|
  {
    if steps != [] {
      var w' := Act(c, y, w, steps[0]);
      StepGrows(c, u, y, w, steps[0]);
      forall i | 0 <= i < |w'.nodes| ensures |w'.nodes[i].policy.active| <= n {
        assert Part(w, w'.nodes[i].policy.active);
      }
      RunStaysBounded(c, u, y, w', steps[1..], n);
    }
  }

  // ---------------------------------------------------------------- rounds

  /** The nodes whose history has at least `n` events. */
  function Long(w: World, n: nat): set<nat> {
    set i | 0 <= i < |w.nodes| && |w.nodes[i].policy.active| >= n
  }

  /** A session between the two nodes was opened as number `first` or later, and the client took in the answer. */
  ghost predicate Followed(w: World, first: nat, e: C.Edge) {
    exists k :: first <= k < |w.sessions| && w.sessions[k].followed && Between(w.sessions[k], e)
  }

  predicate Between(x: Session, e: C.Edge) {
    (x.client == e.0 && x.server == e.1) || (x.client == e.1 && x.server == e.0)
  }

  /** During the steps the policy turns of a session are completed along every edge. */
  ghost predicate Round(c: M.Context, y: Crypto, w: World, steps: seq<Step>, edges: set<C.Edge>) {
    forall e :: e in edges ==> Followed(Run(c, y, w, steps), |w.sessions|, e)
  }

  ghost predicate AllRounds(
    c: M.Context, u: A.Universe, y: Crypto, w: World, rounds: seq<seq<Step>>, edges: set<C.Edge>)
    decreases |rounds|
  {
    rounds == []
    || (RunWithin(c, u, y, w, rounds[0]) && NoChanges(rounds[0]) && Round(c, y, w, rounds[0], edges)
        && AllRounds(c, u, y, Run(c, y, w, rounds[0]), rounds[1..], edges))
  }

  function RunAll(c: M.Context, y: Crypto, w: World, rounds: seq<seq<Step>>): World
    decreases |rounds|
  {
    if rounds == [] then w else RunAll(c, y, Run(c, y, w, rounds[0]), rounds[1..])
  }

  /** A completed session leaves both nodes with a history as long as either had. */
  lemma FollowedBrings(c: M.Context, u: A.Universe, w0: World, w: World, first: nat, e: C.Edge, n: nat)
    requires PolicyInv(c, u, w) && AllCarry(w0, w, first) && Followed(w, first, e)
    requires e.0 in Long(w0, n) || e.1 in Long(w0, n)
    ensures e.0 in Long(w, n) && e.1 in Long(w, n)
  {
    var k :| first <= k < |w.sessions| && w.sessions[k].followed && Between(w.sessions[k], e);
    assert Carries(w0, w, w.sessions[k]) && WireOk(c, u, w, w.sessions[k]);
  }

  lemma RoundGrows(
    c: M.Context, u: A.Universe, y: Crypto, w: World, steps: seq<Step>, edges: set<C.Edge>, n: nat)
    requires PolicyInv(c, u, w) && RunWithin(c, u, y, w, steps) && NoChanges(steps) && Round(c, y, w, steps, edges)
    requires C.Connected(edges, |w.nodes|) && Long(w, n) != {}
    ensures var w' := Run(c, y, w, steps);
            && PolicyInv(c, u, w') && HistoriesGrow(w, w') && Long(w, n) <= Long(w', n)
            && ((forall i: nat :: i < |w.nodes| ==> i in Long(w, n)) || |Long(w, n)| < |Long(w', n)|)
  {
    var w' := Run(c, y, w, steps);
    HistoriesNeverShrink(c, u, y, w, steps);
    RunCarries(c, u, y, w, w, steps, |w.sessions|);
    if C.ClosedUnder(edges, Long(w, n)) {
      var o :| o in Long(w, n);
    } else {
      var e :| e in edges && (e.0 in Long(w, n)) != (e.1 in Long(w, n));
      FollowedBrings(c, u, w, w', |w.sessions|, e, n);
      C.SmallerSet(Long(w, n), Long(w', n), if e.0 in Long(w, n) then e.1 else e.0);
    }
  }

  lemma {:induction false} RoundsReachAll(
    c: M.Context, u: A.Universe, y: Crypto, w: World, rounds: seq<seq<Step>>, edges: set<C.Edge>, n: nat)
    requires PolicyInv(c, u, w) && AllComparable(w) && Bounded(w, n) && AllRounds(c, u, y, w, rounds, edges)
    requires C.Connected(edges, |w.nodes|) && Long(w, n) != {}
    requires |Long(w, n)| + |rounds| >= |w.nodes| || forall i: nat :: i < |w.nodes| ==> i in Long(w, n)
    ensures var e := RunAll(c, y, w, rounds);
            && HistoriesGrow(w, e) && AllComparable(e) && Bounded(e, n)
            && forall i: nat :: i < |w.nodes| ==> i in Long(e, n)
    decreases |rounds|
  {
    if rounds == [] {
      if |Long(w, n)| >= |w.nodes| { C.FullSet(Long(w, n), |w.nodes|); }
    } else {
      var w' := Run(c, y, w, rounds[0]);
      RoundGrows(c, u, y, w, rounds[0], edges, n);
      SyncsKeepComparable(c, u, y, w, rounds[0]);
      RunStaysBounded(c, u, y, w, rounds[0], n);
      RoundsReachAll(c, u, y, w', rounds[1..], edges, n);
    }
  }

  /** While no node changes its policy itself, pairwise comparable histories converge: with one round less than
      there are nodes, every node has the longest history that any node had, signatures aside. */
  lemma LongestReachesAll(
    c: M.Context, u: A.Universe, y: Crypto, w: World, rounds: seq<seq<Step>>, edges: set<C.Edge>, m: nat, i: nat)
    requires PolicyInv(c, u, w) && AllComparable(w) && AllRounds(c, u, y, w, rounds, edges)
    requires C.Connected(edges, |w.nodes|) && |rounds| >= |w.nodes| - 1
    requires m < |w.nodes| && i < |w.nodes| && Bounded(w, |w.nodes[m].policy.active|)
    ensures var e := RunAll(c, y, w, rounds);
            && |e.nodes| == |w.nodes| && |e.nodes[i].policy.active| == |w.nodes[m].policy.active|
            && IsPrefix(w.nodes[m].policy.active, e.nodes[i].policy.active)
  {
    var n := |w.nodes[m].policy.active|;
    assert m in Long(w, n);
    RoundsReachAll(c, u, y, w, rounds, edges, n);
    var e := RunAll(c, y, w, rounds);
    assert i in Long(e, n) && m in Long(e, n);
    assert Comparable(e.nodes[m].policy.active, e.nodes[i].policy.active);
  }
}
