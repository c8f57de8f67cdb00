/** The way back: the client reads its keys again long after it put its policy on the wire, so a rotation at the
    client in between hands the server a key before the policy of that key.
 */
module ReturnLeaks {
  import opened Basics
  import opened Chain
  import opened Policy
  import opened Keyring
  import opened KeyExchange
  import opened Reconcile
  import opened Federation
  import opened Sessions
  import opened KeyLeaks
  import A = Admin
  import M = Moderation

  // ---------------------------------------------------------------- when keys are handed back

  /** The branch guards of the two turns back. */
  predicate BackGuards(y: Crypto, w: World, k: nat)
    requires Known(w, k)
  {
    var x := w.sessions[k];
    && x.taken && y.shared(w.nodes[x.client].me, w.nodes[x.server].me).Some?
    && |w.nodes[x.client].ring| <= MAX_KEY_OFFERS
  }

  lemma OfferBackSets(c: M.Context, y: Crypto, w: World, k: nat)
    requires Known(w, k) && w.sessions[k].back == None
    ensures var x := w.sessions[k];
            Act(c, y, w, OfferBack(k)) ==
            if x.taken
            then w.(sessions := w.sessions[k := x.(back := Some(w.nodes[x.client].ring))]) else w
  {
  }

  /** The turns back change nothing but one session and the server's ring. */
  lemma HandBackFrame(c: M.Context, y: Crypto, w: World, k: nat, nonces: nat -> Bytes)
    requires Known(w, k) && w.sessions[k].back == None
    ensures var d := HandBack(c, y, w, k, nonces);
            && |d.nodes| == |w.nodes| && SameRecords(w, d)
            && forall i :: 0 <= i < |w.nodes| ==>
                             d.nodes[i].me == w.nodes[i].me && d.nodes[i].policy == w.nodes[i].policy
  {
    OfferBackSets(c, y, w, k);
    var w1 := Act(c, y, w, OfferBack(k));
    assert Act(c, y, w1, AcceptBack(k, nonces)) == DoAcceptBack(c, y, w1, k, nonces);
  }

  /** The turns back give the server a key of the client exactly if the client took the server's keys, the two
      share a secret and the client's ring fits the cap. Neither side judges again by its policy. */
  lemma HandedBackIff(c: M.Context, y: Crypto, w: World, k: nat, nonces: nat -> Bytes, id: Id)
    requires Known(w, k) && w.sessions[k].back == None && CryptoOk(y) && NoncesOk(nonces)
    requires RingOk(y, w.nodes[w.sessions[k].client].ring) && RingOk(y, w.nodes[w.sessions[k].server].ring)
    requires id in KeyIds(w.nodes[w.sessions[k].client].ring) && id !in KeyIds(w.nodes[w.sessions[k].server].ring)
    ensures var j, d := w.sessions[k].server, HandBack(c, y, w, k, nonces);
            |d.nodes| == |w.nodes| && (id in KeyIds(d.nodes[j].ring) <==> BackGuards(y, w, k))
  {
    OfferBackSets(c, y, w, k);
    var w1 := Act(c, y, w, OfferBack(k));
    assert Act(c, y, w1, AcceptBack(k, nonces)) == DoAcceptBack(c, y, w1, k, nonces);
    var client, server := w.nodes[w.sessions[k].client], w.nodes[w.sessions[k].server];
    if y.shared(client.me, server.me).Some? {
      BatchMerges(y, c.chan, client.me, server.me, server.ring, client.ring, nonces);
      MergeIds(y, server.ring, client.ring);
    }
  }

  /** The client has a key that it neither had settled when it reported its policy nor was offered. */
  ghost predicate RipeBack(y: Crypto, w: World, k: nat, nonces: nat -> Bytes, id: Id) {
    && Known(w, k) && w.sessions[k].back == None && w.sessions[k].offered.Some?
    && CryptoOk(y) && NoncesOk(nonces) && BackGuards(y, w, k)
    && RingOk(y, w.nodes[w.sessions[k].client].ring) && RingOk(y, w.nodes[w.sessions[k].server].ring)
    && id in KeyIds(w.nodes[w.sessions[k].client].ring) && id !in KeyIds(w.nodes[w.sessions[k].server].ring)
    && id !in w.sessions[k].clientHad && id !in RingIds(w.sessions[k].offered.value)
  }

  /** The turns back of such a session are not clean and give the key away. */
  lemma RipeGivesBack(
    c: M.Context, y: Crypto, w: World, k: nat, nonces: nat -> Bytes, id: Id, last: seq<Step>)
    requires RipeBack(y, w, k, nonces, id)
    ensures !RunClean(c, y, w, ReturnTurns(k, nonces, last))
    ensures Run(c, y, w, ReturnTurns(k, nonces, last)) == Run(c, y, HandBack(c, y, w, k, nonces), last)
    ensures Given(w, HandBack(c, y, w, k, nonces), w.sessions[k].server, id)
  {
    RunReturnTurns(c, y, w, k, nonces, last);
    assert id in RingIds(w.nodes[w.sessions[k].client].ring);
    HandedBackIff(c, y, w, k, nonces, id);
    HandBackFrame(c, y, w, k, nonces);
  }

  // ---------------------------------------------------------------- the schedules

  /** Two nodes that can exchange keys, with room for one more, and a key that is new to both. */
  ghost predicate BothReady(
    c: M.Context, y: Crypto, w: World, i: nat, j: nat, raw: Bytes, sn: nat -> Bytes, cn: nat -> Bytes)
  {
    && Sessions.Ready(c, y, w, i, j, sn, cn) && w.nodes[i].policy.active == w.nodes[j].policy.active
    && |Merge(w.nodes[i].ring, w.nodes[j].ring)| < MAX_KEY_OFFERS
    && |raw| == KEY_LENGTH && Fresh(w, y.keyId(raw))
    && y.keyId(raw) !in KeyIds(w.nodes[i].ring) && y.keyId(raw) !in KeyIds(w.nodes[j].ring)
  }

  /** The session after the client took the server's keys, and what the client then has. */
  ghost predicate Midway(
    y: Crypto, w: World, d: World, i: nat, j: nat, k: nat, raw: Bytes)
    requires i < |w.nodes| && j < |w.nodes|
  {
    var grown := Merge(w.nodes[i].ring, w.nodes[j].ring);
    && d.nodes == w.nodes[i := Node(w.nodes[i].me, w.nodes[i].policy, grown)] && SameRecords(w, d)
    && Known(d, k) && d.sessions[k].client == i && d.sessions[k].server == j && d.sessions[k].back == None
    && d.sessions[k].taken && d.sessions[k].clientHad == Settled(w, i)
    && d.sessions[k].offered == Some(w.nodes[j].ring)
    && RingOk(y, grown) && |grown| < MAX_KEY_OFFERS && y.keyId(raw) !in KeyIds(grown)
  }

  lemma MidwayHolds(c: M.Context, y: Crypto, w: World, i: nat, j: nat, raw: Bytes, sn: nat -> Bytes, cn: nat -> Bytes)
    requires BothReady(c, y, w, i, j, raw, sn, cn)
    ensures Midway(y, w, HandOver(c, y, Caught(w, i, j), |w.sessions|, sn), i, j, |w.sessions|, raw)
  {
    CaughtEqual(w, i, j);
    CaughtPasses(c, y, w, i, j, sn, cn);
    ClientMerges(c, y, Caught(w, i, j), |w.sessions|, sn, cn);
    MergeIds(y, w.nodes[i].ring, w.nodes[j].ring);
  }

  /** The first six turns of a session. */
  lemma ComesMidway(
    c: M.Context, y: Crypto, w: World, i: nat, j: nat, raw: Bytes, sn: nat -> Bytes, cn: nat -> Bytes, rest: seq<Step>)
    returns (d: World)
    requires BothReady(c, y, w, i, j, raw, sn, cn)
    ensures Midway(y, w, d, i, j, |w.sessions|, raw)
    ensures Run(c, y, w, PolicyTurns(i, j, |w.sessions|, KeyTurns(|w.sessions|, sn, rest))) == Run(c, y, d, rest)
    ensures RunClean(c, y, w, PolicyTurns(i, j, |w.sessions|, KeyTurns(|w.sessions|, sn, rest))) ==>
              RunClean(c, y, d, rest)
  {
    var k, w1 := |w.sessions|, Caught(w, i, j);
    d := HandOver(c, y, w1, k, sn);
    RunPolicyTurns(c, y, w, i, j, KeyTurns(k, sn, rest));
    RunKeyTurns(c, y, w1, k, sn, rest);
    MidwayHolds(c, y, w, i, j, raw, sn, cn);
  }

  /** Between the turns the client has made the key of a rotation, whatever policy `l` it has now. */
  lemma MidwayIsRipe(
    c: M.Context, y: Crypto, w: World, d: World, d2: World, i: nat, j: nat, k: nat, raw: Bytes,
    sn: nat -> Bytes, cn: nat -> Bytes, l: A.Ledger<PolicyBody>)
    requires BothReady(c, y, w, i, j, raw, sn, cn) && Midway(y, w, d, i, j, k, raw)
    requires d2.nodes == d.nodes[i := Node(d.nodes[i].me, l, Rotated(y, d.nodes[i].ring, raw))]
    requires d2.sessions == d.sessions
    ensures RipeBack(y, d2, k, cn, y.keyId(raw))
  {
    RotatedHasNew(y, d.nodes[i].ring, raw);
    assert y.shared(w.nodes[i].me, w.nodes[j].me) == y.shared(w.nodes[j].me, w.nodes[i].me);
  }

  /** A removal at the client that falls between its report and the turns back. */
  function LateReturn(
    i: nat, j: nat, k: nat, role: Role, gone: Key, raw: Bytes, id: Id, ts: int, sn: nat -> Bytes, cn: nat -> Bytes)
    : seq<Step>
  {
    var rotation := [BeginRotation(i, Revoke(role, gone), raw)] + ([EndRotation(id, ts)] + ReturnTurns(k, cn, []));
    PolicyTurns(i, j, k, KeyTurns(k, sn, rotation))
  }

  /** The client reads its keys again after it reported its policy. If it removes somebody in between, the server
      gets the new key and lacks the policy under which the key was finished. That may be the removal of the
      server itself: the policy shuts the removed identity out unless it owns the channel or has another role. */
  lemma LateReturnLeaks(
    c: M.Context, y: Crypto, w: World, i: nat, j: nat, role: Role, gone: Key, raw: Bytes, ts: int,
    sn: nat -> Bytes, cn: nat -> Bytes)
    requires BothReady(c, y, w, i, j, raw, sn, cn) && SignsOk(c)
    requires Removal(c, w.nodes[i].policy.active, w.nodes[i].me, role, gone, w.nodes[j].me)
    ensures var k, id := |w.sessions|, y.keyId(raw);
            var schedule := LateReturn(i, j, k, role, gone, raw, id, ts, sn, cn);
            var e, p := Run(c, y, w, schedule), Replay(c.policy, c.chan, w.nodes[i].policy.active).value;
            && Leaked(e, j, id) && !RunClean(c, y, w, schedule)
            && (MayRead(c, e.born[id], gone) <==> IsOwner(p, gone) || HasOtherRole(p, role, gone))
  {
    var k, id := |w.sessions|, y.keyId(raw);
    var begin, end, back := BeginRotation(i, Revoke(role, gone), raw), EndRotation(id, ts), ReturnTurns(k, cn, []);
    var d := ComesMidway(c, y, w, i, j, raw, sn, cn, [begin] + ([end] + back));
    var d1 := Act(c, y, d, begin);
    var d2 := Act(c, y, d1, end);
    var l := A.PolicyOp(c, w.nodes[i].policy, A.PolicyLocal(w.nodes[i].me, ts, Revoke(role, gone)));
    WholeRotation(c, y, d, i, role, gone, raw, ts, w.nodes[j].me, l);
    RemovalResult(c, w.nodes[i].policy, w.nodes[i].me, role, gone, w.nodes[j].me, ts);
    MidwayIsRipe(c, y, w, d, d2, i, j, k, raw, sn, cn, l);
    RunStep(c, y, d, begin, d1, [end] + back);
    RunStep(c, y, d1, end, d2, back);
    RipeGivesBack(c, y, d2, k, cn, id, []);
  }
}
