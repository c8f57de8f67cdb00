/** Whole sessions between two nodes: what their turns come to when one follows the other. */
module Sessions {
  import opened Basics
  import opened Policy
  import opened Keyring
  import opened KeyExchange
  import opened Reconcile
  import opened Federation
  import A = Admin
  import M = Moderation

  // ---------------------------------------------------------------- runs

  lemma RunStep(c: M.Context, y: Crypto, w: World, step: Step, next: World, rest: seq<Step>)
    requires next == Act(c, y, w, step)
    ensures Run(c, y, w, [step] + rest) == Run(c, y, next, rest)
    ensures RunClean(c, y, w, [step] + rest) ==> Clean(w, step) && RunClean(c, y, next, rest)
  {
    assert ([step] + rest)[1..] == rest;
  }

  /** The turns of session `k` that deal with policies, those that bring keys to the client, and those that
      bring keys back, in front of further steps. */
  function PolicyTurns(i: nat, j: nat, k: nat, rest: seq<Step>): seq<Step> {
    [Report(i, j)] + ([Answer(k)] + ([Follow(k)] + rest))
  }

  function KeyTurns(k: nat, nonces: nat -> Bytes, rest: seq<Step>): seq<Step> {
    [Judge(k)] + ([OfferKeys(k)] + ([Accept(k, nonces)] + rest))
  }

  function ReturnTurns(k: nat, nonces: nat -> Bytes, rest: seq<Step>): seq<Step> {
    [OfferBack(k)] + ([AcceptBack(k, nonces)] + rest)
  }

  /** The whole session between `i` and `j` as session number `k`. */
  function SessionTurns(i: nat, j: nat, k: nat, sn: nat -> Bytes, cn: nat -> Bytes): seq<Step> {
    PolicyTurns(i, j, k, KeyTurns(k, sn, ReturnTurns(k, cn, [])))
  }

  // ---------------------------------------------------------------- the policy turns

  /** The session after its policy turns. */
  function Opened(w: World, i: nat, j: nat): Session
    requires i < |w.nodes| && j < |w.nodes|
  {
    Session(i, j, w.nodes[i].policy.active, Settled(w, i), true, Update(w.nodes[j].policy.active), Settled(w, j), true,
            None, None, false, None)
  }

  /** The client has caught up with the server and the session is open. */
  function Caught(w: World, i: nat, j: nat): World
    requires i < |w.nodes| && j < |w.nodes|
  {
    var n, es := w.nodes[i], w.nodes[j].policy.active;
    w.(nodes := w.nodes[i := Node(n.me, n.policy.(active := es), n.ring)], sessions := w.sessions + [Opened(w, i, j)])
  }

  /** The client's history is the beginning of the server's, which lets the client read. */
  ghost predicate Behind(c: M.Context, w: World, i: nat, j: nat) {
    && i < |w.nodes| && j < |w.nodes| && i != j
    && A.PolicyOk(c, w.nodes[i].policy.active) && w.nodes[i].policy.active <= w.nodes[j].policy.active
    && MayRead(c, w.nodes[j].policy.active, w.nodes[i].me)
  }

  lemma BehindAnswers(c: M.Context, w: World, i: nat, j: nat)
    requires Behind(c, w, i, j)
    ensures DoAnswer(c, DoReport(w, i, j), |w.sessions|)
         == w.(sessions := w.sessions + [Opened(w, i, j).(followed := false)])
  {
    var w1 := DoReport(w, i, j);
    var w2 := DoAnswer(c, w1, |w.sessions|);
    assert w2.nodes == w.nodes;
    assert w2.sessions == w.sessions + [Opened(w, i, j).(followed := false)];
  }

  lemma BehindFollows(c: M.Context, w: World, w2: World, i: nat, j: nat)
    requires Behind(c, w, i, j)
    requires w2 == w.(sessions := w.sessions + [Opened(w, i, j).(followed := false)])
    ensures DoFollow(c, w2, |w.sessions|) == Caught(w, i, j)
  {
    var a, b, w3 := w.nodes[i].policy.active, w.nodes[j].policy.active, DoFollow(c, w2, |w.sessions|);
    assert a + b[|a|..] == b;
    assert w3.nodes == Caught(w, i, j).nodes;
    assert w3.sessions == w.sessions + [Opened(w, i, j)];
  }

  /** The three policy turns bring a client that is behind up to the server's history. */
  lemma PolicyTurnsCatchUp(c: M.Context, y: Crypto, w: World, i: nat, j: nat)
    requires Behind(c, w, i, j)
    ensures var k := |w.sessions|;
            Act(c, y, Act(c, y, Act(c, y, w, Report(i, j)), Answer(k)), Follow(k)) == Caught(w, i, j)
  {
    var k := |w.sessions|;
    var w1 := DoReport(w, i, j);
    assert Act(c, y, w, Report(i, j)) == w1;
    BehindAnswers(c, w, i, j);
    var w2 := DoAnswer(c, w1, k);
    assert Act(c, y, w1, Answer(k)) == w2;
    assert Act(c, y, w2, Follow(k)) == DoFollow(c, w2, k);
    BehindFollows(c, w, w2, i, j);
  }

  lemma RunPolicyTurns(c: M.Context, y: Crypto, w: World, i: nat, j: nat, rest: seq<Step>)
    requires Behind(c, w, i, j)
    ensures var k, w' := |w.sessions|, Caught(w, i, j);
            && Run(c, y, w, PolicyTurns(i, j, k, rest)) == Run(c, y, w', rest)
            && (RunClean(c, y, w, PolicyTurns(i, j, k, rest)) ==> RunClean(c, y, w', rest))
  {
    var k := |w.sessions|;
    var w1 := Act(c, y, w, Report(i, j));
    var w2 := Act(c, y, w1, Answer(k));
    var w3 := Act(c, y, w2, Follow(k));
    PolicyTurnsCatchUp(c, y, w, i, j);
    RunStep(c, y, w, Report(i, j), w1, [Answer(k)] + ([Follow(k)] + rest));
    RunStep(c, y, w1, Answer(k), w2, [Follow(k)] + rest);
    RunStep(c, y, w2, Follow(k), w3, rest);
  }

  /** A client that is not behind stays as it is. */
  lemma CaughtEqual(w: World, i: nat, j: nat)
    requires i < |w.nodes| && j < |w.nodes| && w.nodes[i].policy.active == w.nodes[j].policy.active
    ensures Caught(w, i, j) == w.(sessions := w.sessions + [Opened(w, i, j)])
  {
    assert Caught(w, i, j).nodes == w.nodes;
  }

  // ---------------------------------------------------------------- the key turns

  /** Both sides judge that keys may pass, each by its own policy. */
  predicate KeysMayPass(c: M.Context, client: Node, server: Node) {
    && IsPrivate(c, server.policy.active) && IsPrivate(c, client.policy.active)
    && MayRead(c, server.policy.active, client.me) && MayRead(c, server.policy.active, server.me)
    && MayRead(c, client.policy.active, server.me)
  }

  /** The world after the three key turns towards the client. */
  function HandOver(c: M.Context, y: Crypto, w: World, k: nat, nonces: nat -> Bytes): World {
    Act(c, y, Act(c, y, Act(c, y, w, Judge(k)), OfferKeys(k)), Accept(k, nonces))
  }

  /** The branch guards of the key turns. */
  predicate Guards(c: M.Context, y: Crypto, w: World, k: nat)
    requires Known(w, k)
  {
    var x := w.sessions[k];
    var client, server := w.nodes[x.client], w.nodes[x.server];
    && x.reply.Update? && x.followed && KeysMayPass(c, client, server)
    && y.shared(server.me, client.me).Some? && |server.ring| <= MAX_KEY_OFFERS
  }

  lemma JudgeAndOffer(c: M.Context, y: Crypto, w: World, k: nat)
    requires Known(w, k) && w.sessions[k].judged == None && w.sessions[k].offered == None
    ensures var x, d := w.sessions[k], Act(c, y, Act(c, y, w, Judge(k)), OfferKeys(k));
            var es := w.nodes[x.server].policy.active;
            var passes := x.reply.Update? && IsPrivate(c, es) && MayRead(c, es, w.nodes[x.client].me)
                          && MayRead(c, es, w.nodes[x.server].me);
            var x' := x.(judged := Some(es), offered := Some(w.nodes[x.server].ring));
            d == if passes then w.(sessions := w.sessions[k := x'])
            else w
  {
    var w1 := DoJudge(c, w, k);
    assert Act(c, y, w, Judge(k)) == w1;
    JudgeSets(c, w, k);
    assert Act(c, y, w1, OfferKeys(k)) == DoOffer(w1, k);
    OfferSets(w, w1, k);
  }

  lemma JudgeSets(c: M.Context, w: World, k: nat)
    requires Known(w, k) && w.sessions[k].judged == None
    ensures var x, es := w.sessions[k], w.nodes[w.sessions[k].server].policy.active;
            var passes := x.reply.Update? && IsPrivate(c, es) && MayRead(c, es, w.nodes[x.client].me)
                          && MayRead(c, es, w.nodes[x.server].me);
            DoJudge(c, w, k) == if passes then w.(sessions := w.sessions[k := x.(judged := Some(es))]) else w
  {
  }

  lemma OfferSets(w: World, w1: World, k: nat)
    requires Known(w, k) && w.sessions[k].judged == None && w.sessions[k].offered == None
    requires var x, es := w.sessions[k], w.nodes[w.sessions[k].server].policy.active;
             w1 == w || w1 == w.(sessions := w.sessions[k := x.(judged := Some(es))])
    ensures var x, es := w.sessions[k], w.nodes[w.sessions[k].server].policy.active;
            DoOffer(w1, k) ==
            if w1 == w then w
            else w.(sessions := w.sessions[k := x.(judged := Some(es), offered := Some(w.nodes[x.server].ring))])
  {
    if w1 != w {
      var x, es := w.sessions[k], w.nodes[w.sessions[k].server].policy.active;
      var x' := x.(judged := Some(es), offered := Some(w.nodes[x.server].ring));
      assert DoOffer(w1, k).sessions == w.sessions[k := x'];
    }
  }

  /** The key turns change nothing but one session and the client's ring. */
  lemma HandOverFrame(c: M.Context, y: Crypto, w: World, k: nat, nonces: nat -> Bytes)
    requires Known(w, k) && w.sessions[k].judged == None && w.sessions[k].offered == None
    ensures var d := HandOver(c, y, w, k, nonces);
            && d.born == w.born && d.maker == w.maker && d.half == w.half && |d.nodes| == |w.nodes|
            && d.nodes[w.sessions[k].client].me == w.nodes[w.sessions[k].client].me
            && forall i :: 0 <= i < |w.nodes| && i != w.sessions[k].client ==> d.nodes[i] == w.nodes[i]
  {
    JudgeAndOffer(c, y, w, k);
    var d := Act(c, y, Act(c, y, w, Judge(k)), OfferKeys(k));
    assert Act(c, y, d, Accept(k, nonces)) == DoAccept(c, y, d, k, nonces);
  }

  lemma RunKeyTurns(c: M.Context, y: Crypto, w: World, k: nat, nonces: nat -> Bytes, rest: seq<Step>)
    ensures Run(c, y, w, KeyTurns(k, nonces, rest)) == Run(c, y, HandOver(c, y, w, k, nonces), rest)
    ensures RunClean(c, y, w, KeyTurns(k, nonces, rest)) ==>
              Clean(Act(c, y, w, Judge(k)), OfferKeys(k)) && RunClean(c, y, HandOver(c, y, w, k, nonces), rest)
  {
    var w1 := Act(c, y, w, Judge(k));
    var w2 := Act(c, y, w1, OfferKeys(k));
    RunStep(c, y, w, Judge(k), w1, [OfferKeys(k)] + ([Accept(k, nonces)] + rest));
    RunStep(c, y, w1, OfferKeys(k), w2, [Accept(k, nonces)] + rest);
    RunStep(c, y, w2, Accept(k, nonces), HandOver(c, y, w, k, nonces), rest);
  }

  /** The world after the two turns that bring keys back. */
  function HandBack(c: M.Context, y: Crypto, w: World, k: nat, nonces: nat -> Bytes): World {
    Act(c, y, Act(c, y, w, OfferBack(k)), AcceptBack(k, nonces))
  }

  lemma RunReturnTurns(c: M.Context, y: Crypto, w: World, k: nat, nonces: nat -> Bytes, rest: seq<Step>)
    ensures Run(c, y, w, ReturnTurns(k, nonces, rest)) == Run(c, y, HandBack(c, y, w, k, nonces), rest)
    ensures RunClean(c, y, w, ReturnTurns(k, nonces, rest)) ==> Clean(w, OfferBack(k))
  {
    var w1 := Act(c, y, w, OfferBack(k));
    RunStep(c, y, w, OfferBack(k), w1, [AcceptBack(k, nonces)] + rest);
    RunStep(c, y, w1, AcceptBack(k, nonces), HandBack(c, y, w, k, nonces), rest);
  }

  /** An open session between members whose keys pass, with both batches within the cap. */
  ghost predicate Passing(
    c: M.Context, y: Crypto, w: World, k: nat, sn: nat -> Bytes, cn: nat -> Bytes)
  {
    && Known(w, k) && w.sessions[k].judged == None && w.sessions[k].offered == None && w.sessions[k].back == None
    && CryptoOk(y) && NoncesOk(sn) && NoncesOk(cn) && Guards(c, y, w, k)
    && RingOk(y, w.nodes[w.sessions[k].client].ring) && RingOk(y, w.nodes[w.sessions[k].server].ring)
    && |Merge(w.nodes[w.sessions[k].client].ring, w.nodes[w.sessions[k].server].ring)| <= MAX_KEY_OFFERS
  }

  /** The key turns towards the client merge the server's keys behind its own. */
  lemma ClientMerges(c: M.Context, y: Crypto, w: World, k: nat, sn: nat -> Bytes, cn: nat -> Bytes)
    requires Passing(c, y, w, k, sn, cn)
    ensures var x, d := w.sessions[k], HandOver(c, y, w, k, sn);
            var client, server := w.nodes[x.client], w.nodes[x.server];
            && d.nodes == w.nodes[x.client := Node(client.me, client.policy, Merge(client.ring, server.ring))]
            && Known(d, k) && d.sessions[k].back == None && d.sessions[k].taken
            && d.sessions[k].client == x.client && d.sessions[k].server == x.server
            && d.sessions[k].clientHad == x.clientHad && d.sessions[k].offered == Some(server.ring)
            && |d.sessions| == |w.sessions| && SameRecords(w, d)
  {
    var x := w.sessions[k];
    var client, server := w.nodes[x.client], w.nodes[x.server];
    JudgeAndOffer(c, y, w, k);
    var d := Act(c, y, Act(c, y, w, Judge(k)), OfferKeys(k));
    assert Act(c, y, d, Accept(k, sn)) == DoAccept(c, y, d, k, sn);
    BatchMerges(y, c.chan, server.me, client.me, client.ring, server.ring, sn);
  }

  /** The two turns back merge the client's keys behind the server's. */
  lemma ServerMerges(c: M.Context, y: Crypto, d: World, k: nat, nonces: nat -> Bytes)
    requires Known(d, k) && d.sessions[k].back == None && d.sessions[k].taken
    requires CryptoOk(y) && NoncesOk(nonces) && RingOk(y, d.nodes[d.sessions[k].client].ring)
    requires y.shared(d.nodes[d.sessions[k].client].me, d.nodes[d.sessions[k].server].me).Some?
    requires |d.nodes[d.sessions[k].client].ring| <= MAX_KEY_OFFERS
    ensures var i, j := d.sessions[k].client, d.sessions[k].server;
            var e := HandBack(c, y, d, k, nonces);
            var s := d.nodes[j];
            && e.nodes == d.nodes[j := Node(s.me, s.policy, Merge(s.ring, d.nodes[i].ring))]
            && |e.sessions| == |d.sessions| && SameRecords(d, e)
  {
    var x := d.sessions[k];
    var client, server := d.nodes[x.client], d.nodes[x.server];
    var d1 := DoOfferBack(d, k);
    assert Act(c, y, d, OfferBack(k)) == d1;
    assert d1.sessions[k] == x.(back := Some(client.ring)) && d1.nodes == d.nodes;
    assert Act(c, y, d1, AcceptBack(k, nonces)) == DoAcceptBack(c, y, d1, k, nonces);
    BatchMerges(y, c.chan, client.me, server.me, server.ring, client.ring, nonces);
  }

  /** All key turns of a session whose keys pass. */
  lemma KeyTurnsMerge(c: M.Context, y: Crypto, w: World, k: nat, sn: nat -> Bytes, cn: nat -> Bytes)
    requires Passing(c, y, w, k, sn, cn)
    ensures var e := Run(c, y, w, KeyTurns(k, sn, ReturnTurns(k, cn, [])));
            var i, j := w.sessions[k].client, w.sessions[k].server;
            var client, server := w.nodes[i], w.nodes[j];
            var grown := Merge(client.ring, server.ring);
            && e.nodes == w.nodes[i := Node(client.me, client.policy, grown)]
                          [j := Node(server.me, server.policy, Merge(server.ring, grown))]
            && |e.sessions| == |w.sessions| && SameRecords(w, e)
  {
    var i, j := w.sessions[k].client, w.sessions[k].server;
    var d := HandOver(c, y, w, k, sn);
    RunKeyTurns(c, y, w, k, sn, ReturnTurns(k, cn, []));
    ClientMerges(c, y, w, k, sn, cn);
    RunReturnTurns(c, y, d, k, cn, []);
    MergeIds(y, w.nodes[i].ring, w.nodes[j].ring);
    assert y.shared(w.nodes[i].me, w.nodes[j].me) == y.shared(w.nodes[j].me, w.nodes[i].me);
    ServerMerges(c, y, d, k, cn);
  }

  // ---------------------------------------------------------------- a whole session

  /** Both may read under the server's history, share a secret, and their rings fit the cap. */
  ghost predicate Ready(c: M.Context, y: Crypto, w: World, i: nat, j: nat, sn: nat -> Bytes, cn: nat -> Bytes) {
    && Behind(c, w, i, j)
    && IsPrivate(c, w.nodes[j].policy.active) && MayRead(c, w.nodes[j].policy.active, w.nodes[j].me)
    && CryptoOk(y) && NoncesOk(sn) && NoncesOk(cn) && y.shared(w.nodes[j].me, w.nodes[i].me).Some?
    && RingOk(y, w.nodes[i].ring) && RingOk(y, w.nodes[j].ring)
    && |w.nodes[j].ring| <= MAX_KEY_OFFERS && |Merge(w.nodes[i].ring, w.nodes[j].ring)| <= MAX_KEY_OFFERS
  }

  /** The nodes after a whole session between `i` and `j`. */
  function Met(w: World, i: nat, j: nat): seq<Node>
    requires i < |w.nodes| && j < |w.nodes|
  {
    var client, server := w.nodes[i], w.nodes[j];
    var grown := Merge(client.ring, server.ring);
    w.nodes[i := Node(client.me, client.policy.(active := server.policy.active), grown)]
    [j := Node(server.me, server.policy, Merge(server.ring, grown))]
  }

  lemma CaughtPasses(c: M.Context, y: Crypto, w: World, i: nat, j: nat, sn: nat -> Bytes, cn: nat -> Bytes)
    requires Ready(c, y, w, i, j, sn, cn)
    ensures Passing(c, y, Caught(w, i, j), |w.sessions|, sn, cn)
  {
  }

  /** A session that nobody disturbs brings the client up to the server's policy and merges the rings. */
  lemma SessionMeets(c: M.Context, y: Crypto, w: World, i: nat, j: nat, sn: nat -> Bytes, cn: nat -> Bytes)
    requires Ready(c, y, w, i, j, sn, cn)
    ensures var e := Run(c, y, w, SessionTurns(i, j, |w.sessions|, sn, cn));
            e.nodes == Met(w, i, j) && |e.sessions| == |w.sessions| + 1 && SameRecords(w, e)
  {
    var k, w1 := |w.sessions|, Caught(w, i, j);
    RunPolicyTurns(c, y, w, i, j, KeyTurns(k, sn, ReturnTurns(k, cn, [])));
    CaughtPasses(c, y, w, i, j, sn, cn);
    KeyTurnsMerge(c, y, w1, k, sn, cn);
  }
}
