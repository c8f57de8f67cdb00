/** Policy travels before keys, in every run in which nobody offers keys newer than the policy it sent. */
module KeySafety {
  import opened Basics
  import opened Chain
  import opened Policy
  import A = Admin
  import opened Keyring
  import opened KeyExchange
  import opened Reconcile
  import opened Federation
  import opened Sessions
  import M = Moderation

  /** Policy travels before keys. Take any number of nodes, any interleaving of their local changes, of the
      halves of their rotations and of the turns of their sessions, with forks and broken sessions, in which
      every offer is clean. Then a node that holds a finished key has a policy history that extends the one in
      force when the key was finished, and either made the key itself or is let in by some valid extension of
      that history. Unfinished keys are only with their makers. */
  lemma PolicyTravelsBeforeKeys(
    c: M.Context, u: A.Universe, y: Crypto, w: World, steps: seq<Step>, i: nat, id: Id)
    requires Inv(c, u, w) && RunWithin(c, u, y, w, steps) && RunClean(c, y, w, steps)
    requires i < |Run(c, y, w, steps).nodes| && id in KeyIds(Run(c, y, w, steps).nodes[i].ring)
    ensures var e := Run(c, y, w, steps);
            && id in e.maker && (id in e.half ==> e.half[id].node == i)
            && (id !in e.half ==>
                  && id in e.born && A.PolicyOk(c, e.born[id]) && IsPrefix(e.born[id], e.nodes[i].policy.active)
                  && (e.maker[id] == e.nodes[i].me || Admitted(c, u, e.born[id], e.nodes[i].me)))
  {
    RunKeeps(c, u, y, w, steps);
    var e := Run(c, y, w, steps);
    assert NodeOk(c, u, e, i);
    assert HeldOk(c, u, e, i, id);
  }

  function FreshWorld(nodes: seq<Node>): World {
    World(nodes, [], map[], map[], map[])
  }

  /** The same from a world in which nobody has keys yet. */
  lemma FromFreshWorlds(
    c: M.Context, u: A.Universe, y: Crypto, nodes: seq<Node>, steps: seq<Step>, i: nat, id: Id)
    requires forall j :: 0 <= j < |nodes| ==> PolicyReady(c, u, nodes[j].policy) && nodes[j].ring == []
    requires RunWithin(c, u, y, FreshWorld(nodes), steps) && RunClean(c, y, FreshWorld(nodes), steps)
    requires var e := Run(c, y, FreshWorld(nodes), steps);
             i < |e.nodes| && id in KeyIds(e.nodes[i].ring) && id !in e.half
    ensures var e := Run(c, y, FreshWorld(nodes), steps);
            && id in e.born && id in e.maker && IsPrefix(e.born[id], e.nodes[i].policy.active)
            && (e.maker[id] == e.nodes[i].me || Admitted(c, u, e.born[id], e.nodes[i].me))
  {
    var w := FreshWorld(nodes);
    forall j: nat | j < |nodes| ensures NodeOk(c, u, w, j) {
      assert PolicyReady(c, u, nodes[j].policy);
    }
    PolicyTravelsBeforeKeys(c, u, y, w, steps, i, id);
  }

  // ---------------------------------------------------------------- identities that were shut out

  /** The event can let `key` read again. */
  predicate Readmits(action: Policy.Action, key: Key) {
    match action
    case Grant(_, k) => k == key
    case TransferOwner(k) => k == key
    case SetVisibility(v) => v == Public
    case _ => false
  }

  /** Whoever a private channel shuts out stays out until an event lets it in again. */
  lemma {:induction false} StaysShutOut(c: M.Context, h: seq<PolicyEvent>, n: nat, key: Key)
    requires A.PolicyOk(c, h) && n <= |h| && !MayRead(c, h[..n], key)
    requires forall i :: n <= i < |h| ==> !Readmits(h[i].content.body.action, key)
    ensures !MayRead(c, h, key)
    decreases |h|
  {
    if n == |h| {
      assert h[..n] == h;
    } else {
      var m := |h| - 1;
      ValidStep(c.policy, c.chan, h, m);
      GenesisOnlyFirst(c.policy, c.chan, h[..m]);
      ValidPrefix(c.policy, c.chan, h, n);
      assert h[..m][..n] == h[..n] && h[..m + 1] == h;
      StaysShutOut(c, h[..m], n, key);
      ShutOutStep(Replay(c.policy, c.chan, h[..m]).value, h[m].content.body.actor, h[m].content.body.action, key);
    }
  }

  lemma ShutOutStep(p: ChannelPolicy, actor: Key, action: Policy.Action, key: Key)
    requires !AllowsRead(p, key) && Coherent(p) && !Readmits(action, key) && Apply(p, actor, action).Some?
    ensures !AllowsRead(Apply(p, actor, action).value, key)
  {
    match action
    case Grant(role, k) =>
      LexIsTotalOrder();
      SortSorts(LexLeq, Members(p, role) + [k]);
    case _ =>
  }

  lemma ShutOutAt(c: M.Context, u: A.Universe, es: seq<PolicyEvent>, h: seq<PolicyEvent>, me: Key)
    requires A.Lawful(c, u) && A.PolicyOk(c, es) && DrawnFrom(es, u.policy) && IsPrefix(es, h) && DrawnFrom(h, u.policy)
    requires MayRead(c, h, me) && !MayRead(c, es, me)
    ensures exists at: nat :: |es| <= at < |h| && Readmits(h[at].content.body.action, me)
  {
    ValidIsLinked(c.policy, c.chan, es);
    ValidIsLinked(c.policy, c.chan, h);
    PrefixAgrees(c.policy, u.policy, es, h);
    ValidPrefix(c.policy, c.chan, h, |es|);
    SameReaders(c, u, es, h[..|es|], me);
    if forall at: nat :: |es| <= at < |h| ==> !Readmits(h[at].content.body.action, me) {
      StaysShutOut(c, h, |es|, me);
      assert false;
    }
  }

  /** A key that was finished under a policy that shuts an identity out, as one rotated by its removal is,
      comes to that identity only if it made the key itself or a later event of some valid history lets it in
      again. */
  lemma ShutOutNeedsReadmission(
    c: M.Context, u: A.Universe, y: Crypto, w: World, steps: seq<Step>, i: nat, id: Id)
    returns (h: seq<PolicyEvent>, at: nat)
    requires Inv(c, u, w) && RunWithin(c, u, y, w, steps) && RunClean(c, y, w, steps)
    requires var e := Run(c, y, w, steps);
             && i < |e.nodes| && id in KeyIds(e.nodes[i].ring) && id in e.born && id in e.maker
             && !MayRead(c, e.born[id], e.nodes[i].me) && e.maker[id] != e.nodes[i].me
    ensures var e := Run(c, y, w, steps);
            && A.PolicyOk(c, h) && IsPrefix(e.born[id], h)
            && |e.born[id]| <= at < |h| && Readmits(h[at].content.body.action, e.nodes[i].me)
  {
    RunKeeps(c, u, y, w, steps);
    var e := Run(c, y, w, steps);
    var me, es := e.nodes[i].me, e.born[id];
    assert NodeOk(c, u, e, i);
    assert HeldOk(c, u, e, i, id);
    h :| IsPrefix(es, h) && DrawnFrom(h, u.policy) && MayRead(c, h, me);
    ShutOutAt(c, u, es, h, me);
    at :| |es| <= at < |h| && Readmits(h[at].content.body.action, me);
  }

  // ---------------------------------------------------------------- an undisturbed session is clean

  /** Session `k` between `i` and `j` as far as its first turns, with the rings of `w`. */
  ghost predicate Opening(w: World, e: World, i: nat, j: nat, k: nat) {
    && i < |w.nodes| && j < |w.nodes| && |e.nodes| == |w.nodes| && e.half == w.half
    && Known(e, k) && e.sessions[k].client == i && e.sessions[k].server == j
    && e.nodes[i].ring == w.nodes[i].ring && e.nodes[j].ring == w.nodes[j].ring
    && e.sessions[k].clientHad == Settled(w, i)
    && (e.sessions[k].answered ==> e.sessions[k].serverHad == Settled(w, j))
    && e.sessions[k].offered == None && e.sessions[k].back == None
  }

  lemma JudgeOpens(c: M.Context, w: World, e: World, i: nat, j: nat, k: nat)
    requires Opening(w, e, i, j, k)
    ensures Opening(w, DoJudge(c, e, k), i, j, k)
    ensures DoJudge(c, e, k).sessions[k].answered == e.sessions[k].answered
  {
  }

  /** The keys of node `i` are all settled. */
  ghost predicate AllSettled(w: World, i: nat)
    requires i < |w.nodes|
  {
    RingIds(w.nodes[i].ring) <= Settled(w, i)
  }

  /** After an opening that nobody disturbed the offering turn is clean and changes no ring. */
  lemma OfferIsClean(w: World, e: World, i: nat, j: nat, k: nat)
    requires Opening(w, e, i, j, k) && e.sessions[k].answered && AllSettled(w, j)
    ensures Clean(e, OfferKeys(k))
    ensures var d := DoOffer(e, k);
            && Known(d, k) && d.sessions[k].client == i && d.sessions[k].clientHad == Settled(w, i)
            && d.nodes == e.nodes && d.sessions[k].back == None
  {
  }

  /** The turn in which the client offers back what it had and what it was just given is clean. */
  lemma OfferBackIsClean(c: M.Context, y: Crypto, w: World, d: World, k: nat, nonces: nat -> Bytes)
    requires Known(d, k) && d.sessions[k].client < |w.nodes| && AllSettled(w, d.sessions[k].client)
    requires d.nodes[d.sessions[k].client].ring == w.nodes[d.sessions[k].client].ring
    requires d.sessions[k].clientHad == Settled(w, d.sessions[k].client)
    ensures Known(DoAccept(c, y, d, k, nonces), k)
    ensures Clean(DoAccept(c, y, d, k, nonces), OfferBack(k))
  {
    var x, a := d.sessions[k], DoAccept(c, y, d, k, nonces);
    var n := d.nodes[x.client];
    assert a.sessions[k].clientHad == x.clientHad && a.sessions[k].offered == x.offered;
    if x.offered.Some? {
      forall id | id in RingIds(a.nodes[x.client].ring) ensures id in x.clientHad + RingIds(x.offered.value) {
        if a != d {
          BatchIds(y, c.chan, d.nodes[x.server].me, n.me, n.ring, x.offered.value, nonces, id);
        }
        assert id in KeyIds(n.ring) ==> id in RingIds(w.nodes[x.client].ring);
      }
    }
  }

  /** One turn in front of a clean rest. `next` is the world after the turn. */
  lemma CleanTurn(c: M.Context, y: Crypto, w: World, step: Step, next: World, rest: seq<Step>)
    requires Clean(w, step) && next == Act(c, y, w, step) && RunClean(c, y, next, rest)
    ensures RunClean(c, y, w, [step] + rest)
  {
    assert ([step] + rest)[1..] == rest;
  }

  /** What the turns of session `k` are. */
  lemma PolicyTurnsAct(c: M.Context, y: Crypto, w: World, k: nat)
    requires Known(w, k)
    ensures Act(c, y, w, Answer(k)) == DoAnswer(c, w, k)
    ensures Act(c, y, w, Follow(k)) == DoFollow(c, w, k)
    ensures Act(c, y, w, Judge(k)) == DoJudge(c, w, k)
  {
  }

  /** The key turns after an opening that nobody disturbed. */
  lemma KeyTurnsAreClean(
    c: M.Context, y: Crypto, w: World, e: World, i: nat, j: nat, k: nat, sn: nat -> Bytes, last: Step)
    requires Opening(w, e, i, j, k) && e.sessions[k].answered && AllSettled(w, i) && AllSettled(w, j)
    requires last.AcceptBack?
    ensures RunClean(c, y, e, [OfferKeys(k)] + ([Accept(k, sn)] + ([OfferBack(k)] + [last])))
  {
    OfferIsClean(w, e, i, j, k);
    var d := DoOffer(e, k);
    OfferBackIsClean(c, y, w, d, k, sn);
    var a := DoAccept(c, y, d, k, sn);
    LastIsClean(c, y, Act(c, y, a, OfferBack(k)), last);
    CleanTurn(c, y, a, OfferBack(k), Act(c, y, a, OfferBack(k)), [last]);
    CleanTurn(c, y, d, Accept(k, sn), a, [OfferBack(k)] + [last]);
    CleanTurn(c, y, e, OfferKeys(k), d, [Accept(k, sn)] + ([OfferBack(k)] + [last]));
  }

  lemma LastIsClean(c: M.Context, y: Crypto, w: World, last: Step)
    requires last.AcceptBack?
    ensures RunClean(c, y, w, [last])
  {
    assert [last][1..] == [];
  }

  /** A session between nodes without unfinished keys, whose turns follow each other without interruption, is
      clean, whatever the turns decide. */
  lemma UndisturbedSessionIsClean(
    c: M.Context, y: Crypto, w: World, i: nat, j: nat, sn: nat -> Bytes, cn: nat -> Bytes)
    requires i < |w.nodes| && j < |w.nodes| && i != j && AllSettled(w, i) && AllSettled(w, j)
    ensures RunClean(c, y, w, SessionTurns(i, j, |w.sessions|, sn, cn))
  {
    var k := |w.sessions|;
    var w1 := DoReport(w, i, j);
    var w2 := DoAnswer(c, w1, k);
    var w3 := DoFollow(c, w2, k);
    var w4 := DoJudge(c, w3, k);
    JudgeOpens(c, w, w3, i, j, k);
    KeyTurnsAreClean(c, y, w, w4, i, j, k, sn, AcceptBack(k, cn));
    var rest := [OfferKeys(k)] + ([Accept(k, sn)] + ([OfferBack(k)] + [AcceptBack(k, cn)]));
    assert [AcceptBack(k, cn)] + [] == [AcceptBack(k, cn)];
    PolicyTurnsAct(c, y, w1, k);
    PolicyTurnsAct(c, y, w2, k);
    PolicyTurnsAct(c, y, w3, k);
    CleanTurn(c, y, w3, Judge(k), w4, rest);
    CleanTurn(c, y, w2, Follow(k), w3, [Judge(k)] + rest);
    CleanTurn(c, y, w1, Answer(k), w2, [Follow(k)] + ([Judge(k)] + rest));
    CleanTurn(c, y, w, Report(i, j), w1, [Answer(k)] + ([Follow(k)] + ([Judge(k)] + rest)));
  }
}
