/** The order of the turns of a session: each comes after those it builds on, and what a turn has put on record
    stays.
 */
module Turns {
  import opened Basics
  import opened Policy
  import opened Keyring
  import opened Reconcile
  import opened Federation
  import M = Moderation

  /** What was sent, answered, judged, offered and taken stays so. */
  ghost predicate Kept(x: Session, x': Session) {
    && x'.client == x.client && x'.server == x.server && x'.sent == x.sent && x'.clientHad == x.clientHad
    && (x.answered ==> x'.answered && x'.reply == x.reply && x'.serverHad == x.serverHad)
    && (x.followed ==> x'.followed)
    && (x.judged.Some? ==> x'.judged == x.judged)
    && (x.offered.Some? ==> x'.offered == x.offered)
    && (x.taken ==> x'.taken)
    && (x.back.Some? ==> x'.back == x.back)
  }

  /** The client follows an answer with a history, the server judges and then offers only after such an answer, the
      client takes keys only after both, and offers its own only after that. */
  ghost predicate InTurn(x: Session) {
    && (x.followed ==> x.answered && x.reply.Update?)
    && (x.judged.Some? ==> x.reply.Update?)
    && (!x.answered ==> x.reply.Silence?)
    && (x.offered.Some? ==> x.judged.Some?)
    && (x.taken ==> x.followed && x.offered.Some?)
    && (x.back.Some? ==> x.taken)
  }

  ghost predicate Ordered(w: World) {
    forall k :: 0 <= k < |w.sessions| ==> InTurn(w.sessions[k])
  }

  ghost predicate AllKept(w: World, w': World) {
    |w.sessions| <= |w'.sessions| && forall k :: 0 <= k < |w.sessions| ==> Kept(w.sessions[k], w'.sessions[k])
  }

  ghost predicate TurnTaken(w: World, w': World) {
    AllKept(w, w') && (Ordered(w) ==> Ordered(w'))
  }

  lemma OneSession(w: World, w': World, k: nat, x': Session)
    requires k < |w.sessions| && (w'.sessions == w.sessions[k := x'] || w'.sessions == w.sessions)
    requires Kept(w.sessions[k], x') && (InTurn(w.sessions[k]) ==> InTurn(x'))
    ensures TurnTaken(w, w')
  {
  }

  lemma ReportTaken(w: World, i: nat, j: nat)
    requires i < |w.nodes|
    ensures TurnTaken(w, DoReport(w, i, j))
  {
  }

  lemma AnswerTaken(c: M.Context, w: World, k: nat)
    requires Known(w, k)
    ensures TurnTaken(w, DoAnswer(c, w, k))
  {
    var w' := DoAnswer(c, w, k);
    OneSession(w, w', k, w'.sessions[k]);
  }

  lemma FollowTaken(c: M.Context, w: World, k: nat)
    requires Known(w, k)
    ensures TurnTaken(w, DoFollow(c, w, k))
  {
    var w' := DoFollow(c, w, k);
    OneSession(w, w', k, w'.sessions[k]);
  }

  lemma JudgeTaken(c: M.Context, w: World, k: nat)
    requires Known(w, k)
    ensures TurnTaken(w, DoJudge(c, w, k))
  {
    var w' := DoJudge(c, w, k);
    OneSession(w, w', k, w'.sessions[k]);
  }

  lemma OfferTaken(w: World, k: nat)
    requires Known(w, k)
    ensures TurnTaken(w, DoOffer(w, k))
  {
    OneSession(w, DoOffer(w, k), k, DoOffer(w, k).sessions[k]);
  }

  lemma OfferBackTaken(w: World, k: nat)
    requires Known(w, k)
    ensures TurnTaken(w, DoOfferBack(w, k))
  {
    OneSession(w, DoOfferBack(w, k), k, DoOfferBack(w, k).sessions[k]);
  }

  lemma AcceptTaken(c: M.Context, y: Crypto, w: World, k: nat, nonces: nat -> Bytes)
    requires Known(w, k)
    ensures TurnTaken(w, DoAccept(c, y, w, k, nonces))
  {
    var w' := DoAccept(c, y, w, k, nonces);
    OneSession(w, w', k, w'.sessions[k]);
  }

  lemma AcceptBackTaken(c: M.Context, y: Crypto, w: World, k: nat, nonces: nat -> Bytes)
    requires Known(w, k)
    ensures DoAcceptBack(c, y, w, k, nonces).sessions == w.sessions
  {
  }

  lemma LocalTaken(c: M.Context, y: Crypto, w: World, step: Step)
    requires !step.Report? && !step.Answer? && !step.Follow? && !step.Judge? && !step.OfferKeys? && !step.Accept?
    requires !step.OfferBack? && !step.AcceptBack?
    ensures Act(c, y, w, step).sessions == w.sessions
  {
  }

  lemma NothingTaken(w: World, w': World)
    requires w'.sessions == w.sessions
    ensures TurnTaken(w, w')
  {
  }

  lemma KeyTurnTaken(c: M.Context, y: Crypto, w: World, step: Step)
    requires step.OfferKeys? || step.Accept? || step.OfferBack? || step.AcceptBack?
    ensures TurnTaken(w, Act(c, y, w, step))
  {
    match step
    case OfferKeys(k) => if Known(w, k) { OfferTaken(w, k); }
    case Accept(k, nonces) => if Known(w, k) { AcceptTaken(c, y, w, k, nonces); }
    case OfferBack(k) => if Known(w, k) { OfferBackTaken(w, k); }
    case AcceptBack(k, nonces) =>
      if Known(w, k) { AcceptBackTaken(c, y, w, k, nonces); }
      NothingTaken(w, Act(c, y, w, step));
  }

  lemma PolicyTurnTaken(c: M.Context, y: Crypto, w: World, step: Step)
    requires step.Report? || step.Answer? || step.Follow? || step.Judge?
    ensures TurnTaken(w, Act(c, y, w, step))
  {
    match step
    case Report(i, j) => if i < |w.nodes| { ReportTaken(w, i, j); }
    case Answer(k) => if Known(w, k) { AnswerTaken(c, w, k); }
    case Follow(k) => if Known(w, k) { FollowTaken(c, w, k); }
    case Judge(k) => if Known(w, k) { JudgeTaken(c, w, k); }
  }

  lemma StepInTurn(c: M.Context, y: Crypto, w: World, step: Step, w': World)
    requires w' == Act(c, y, w, step)
    ensures TurnTaken(w, w')
  {
    if step.Report? || step.Answer? || step.Follow? || step.Judge? {
      PolicyTurnTaken(c, y, w, step);
    } else if step.OfferKeys? || step.Accept? || step.OfferBack? || step.AcceptBack? {
      KeyTurnTaken(c, y, w, step);
    } else {
      LocalTaken(c, y, w, step);
      NothingTaken(w, w');
    }
  }

  lemma KeptOn(a: World, b: World, d: World)
    requires AllKept(a, b) && AllKept(b, d)
    ensures AllKept(a, d)
  {
    forall k | 0 <= k < |a.sessions| ensures Kept(a.sessions[k], d.sessions[k]) {
      assert Kept(a.sessions[k], b.sessions[k]) && Kept(b.sessions[k], d.sessions[k]);
    }
  }

  /** Over every run, clean or not, every session takes its turns in order, and what is on record is final. */
  lemma {:induction false} TurnsInOrder(c: M.Context, y: Crypto, w: World, steps: seq<Step>)
    requires Ordered(w)
    ensures Ordered(Run(c, y, w, steps)) && AllKept(w, Run(c, y, w, steps))
    decreases |steps|
  {
    if steps != [] {
      var w' := Act(c, y, w, steps[0]);
      StepInTurn(c, y, w, steps[0], w');
      TurnsInOrder(c, y, w', steps[1..]);
      KeptOn(w, w', Run(c, y, w', steps[1..]));
    }
  }
}
