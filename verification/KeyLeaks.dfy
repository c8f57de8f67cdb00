/** The runs that the condition on offers excludes: a rotation that is half done, or that comes between the
    policy turn and the key turn of a session, hands a key to a client that lacks the policy of that key. */
module KeyLeaks {
  import opened Basics
  import opened Chain
  import opened Policy
  import opened Keyring
  import opened KeyExchange
  import opened Reconcile
  import opened Federation
  import opened Sessions
  import A = Admin
  import M = Moderation

  // ---------------------------------------------------------------- when keys are handed over

  /** The key turns hand a key of the server to the client exactly if the session is still open, both policies
      of the moment let keys pass, the two identities share a secret and the ring fits the cap. */
  lemma HandedOverIff(c: M.Context, y: Crypto, w: World, k: nat, nonces: nat -> Bytes, id: Id)
    requires Known(w, k) && w.sessions[k].judged == None && w.sessions[k].offered == None
    requires CryptoOk(y) && NoncesOk(nonces)
    requires RingOk(y, w.nodes[w.sessions[k].client].ring) && RingOk(y, w.nodes[w.sessions[k].server].ring)
    requires id in KeyIds(w.nodes[w.sessions[k].server].ring) && id !in KeyIds(w.nodes[w.sessions[k].client].ring)
    ensures var i, d := w.sessions[k].client, HandOver(c, y, w, k, nonces);
            && |d.nodes| == |w.nodes| && d.nodes[i].policy == w.nodes[i].policy
            && (id in KeyIds(d.nodes[i].ring) <==> Guards(c, y, w, k))
  {
    JudgeAndOffer(c, y, w, k);
    var d := Act(c, y, Act(c, y, w, Judge(k)), OfferKeys(k));
    assert Act(c, y, d, Accept(k, nonces)) == DoAccept(c, y, d, k, nonces);
    if d != w { AcceptBrings(c, y, d, k, nonces, id); }
  }

  /** Of the keys that are offered the client takes all, if it takes any. */
  lemma AcceptBrings(c: M.Context, y: Crypto, d: World, k: nat, nonces: nat -> Bytes, id: Id)
    requires Known(d, k) && CryptoOk(y) && NoncesOk(nonces)
    requires RingOk(y, d.nodes[d.sessions[k].client].ring) && RingOk(y, d.nodes[d.sessions[k].server].ring)
    requires d.sessions[k].offered == Some(d.nodes[d.sessions[k].server].ring)
    requires id in KeyIds(d.nodes[d.sessions[k].server].ring) && id !in KeyIds(d.nodes[d.sessions[k].client].ring)
    ensures var x, r := d.sessions[k], DoAccept(c, y, d, k, nonces);
            && |r.nodes| == |d.nodes| && r.nodes[x.client].policy == d.nodes[x.client].policy
            && (id in KeyIds(r.nodes[x.client].ring) <==>
                ClientTakes(c, d, x) && y.shared(d.nodes[x.server].me, d.nodes[x.client].me).Some?
                && |d.nodes[x.server].ring| <= MAX_KEY_OFFERS)
  {
    var client, server := d.nodes[d.sessions[k].client], d.nodes[d.sessions[k].server];
    if y.shared(server.me, client.me).Some? {
      BatchMerges(y, c.chan, server.me, client.me, client.ring, server.ring, nonces);
      MergeIds(y, client.ring, server.ring);
    }
  }

  // ---------------------------------------------------------------- the two leaks

  /** `remover` may remove `gone` from its role in a private channel, and `reader` reads. */
  ghost predicate Removal(c: M.Context, es: seq<PolicyEvent>, remover: Key, role: Role, gone: Key, reader: Key) {
    && IsPrivate(c, es) && MayRead(c, es, reader) && ValidKey(gone)
    && MayManage(Replay(c.policy, c.chan, es).value, remover, role)
  }

  /** What the removal does to the history. */
  lemma RemovalResult(
    c: M.Context, l: A.Ledger<PolicyBody>, remover: Key, role: Role, gone: Key, reader: Key, ts: int)
    requires SignsOk(c) && Removal(c, l.active, remover, role, gone, reader)
    ensures var p := Replay(c.policy, c.chan, l.active).value;
            var after := A.PolicyOp(c, l, A.PolicyLocal(remover, ts, Revoke(role, gone))).active;
            && |after| == |l.active| + 1 && IsPrivate(c, after)
            && (MayRead(c, after, gone) <==> IsOwner(p, gone) || HasOtherRole(p, role, gone))
            && (reader != gone ==> MayRead(c, after, reader))
            && (remover != gone ==> MayRead(c, after, remover))
  {
    A.LocalAppendIffAllowed(c, l, remover, ts, Revoke(role, gone));
    RevokeShutsOutIff(Replay(c.policy, c.chan, l.active).value, remover, role, gone);
  }

  ghost predicate SignsOk(c: M.Context) {
    SignsCorrectly(c.policy)
  }

  /** The rings of the two nodes can be exchanged, and the new key is new to both. */
  ghost predicate RingsReady(y: Crypto, w: World, i: nat, j: nat, raw: Bytes, nonces: nat -> Bytes)
    requires i < |w.nodes| && j < |w.nodes|
  {
    && CryptoOk(y) && NoncesOk(nonces) && y.shared(w.nodes[j].me, w.nodes[i].me).Some?
    && RingOk(y, w.nodes[i].ring) && RingOk(y, w.nodes[j].ring) && |w.nodes[j].ring| < MAX_KEY_OFFERS
    && |raw| == KEY_LENGTH && Fresh(w, y.keyId(raw))
    && y.keyId(raw) !in KeyIds(w.nodes[i].ring) && y.keyId(raw) !in KeyIds(w.nodes[j].ring)
  }

  lemma RotatedHasNew(y: Crypto, ring: seq<ChannelKey>, raw: Bytes)
    requires RingOk(y, ring) && |raw| == KEY_LENGTH && y.keyId(raw) !in KeyIds(ring)
    ensures RingOk(y, Rotated(y, ring, raw)) && |Rotated(y, ring, raw)| == |ring| + 1
    ensures y.keyId(raw) in KeyIds(Rotated(y, ring, raw))
  {
    RotationKeeps(y, ring, raw);
    RetainedHas(ring, y.keyId(raw));
    KeyIdsPush(ring, ChannelKey(y.keyId(raw), raw));
    assert KeyIds(Rotated(y, ring, raw))[|ring|] == y.keyId(raw);
  }

  /** The first half of a rotation by node `j` that removes `gone`. */
  lemma BeginsRemoval(c: M.Context, y: Crypto, w: World, j: nat, role: Role, gone: Key, raw: Bytes, reader: Key)
    requires j < |w.nodes| && Removal(c, w.nodes[j].policy.active, w.nodes[j].me, role, gone, reader)
    requires Fresh(w, y.keyId(raw))
    ensures var id, n := y.keyId(raw), w.nodes[j];
            Act(c, y, w, BeginRotation(j, Revoke(role, gone), raw))
            == World(w.nodes[j := Node(n.me, n.policy, Rotated(y, n.ring, raw))], w.sessions, w.born,
                     w.maker[id := n.me], w.half[id := Pending(j, Revoke(role, gone))])
  {
  }

  /** A key the server did not have settled when it answered makes its offer unclean. */
  lemma UncleanOffer(c: M.Context, y: Crypto, w: World, k: nat, id: Id)
    requires Known(w, k) && id in KeyIds(w.nodes[w.sessions[k].server].ring) && id !in w.sessions[k].serverHad
    ensures !Clean(Act(c, y, w, Judge(k)), OfferKeys(k))
  {
    var w1 := DoJudge(c, w, k);
    assert Act(c, y, w, Judge(k)) == w1;
    assert w1.nodes == w.nodes && w1.sessions[k].serverHad == w.sessions[k].serverHad;
    assert id in RingIds(w1.nodes[w1.sessions[k].server].ring);
  }

  /** A session that falls into the gap between the two halves of a rotation. */
  function HalfSchedule(
    i: nat, j: nat, k: nat, role: Role, gone: Key, raw: Bytes, nonces: nat -> Bytes, last: seq<Step>): seq<Step>
  {
    [BeginRotation(j, Revoke(role, gone), raw)] + PolicyTurns(i, j, k, KeyTurns(k, nonces, last))
  }

  /** A rotation that falls between the policy turns and the key turns of a session. */
  function LateSchedule(
    i: nat, j: nat, k: nat, role: Role, gone: Key, raw: Bytes, id: Id, ts: int, nonces: nat -> Bytes): seq<Step>
  {
    PolicyTurns(
      i, j, k,
      [BeginRotation(j, Revoke(role, gone), raw)] + ([EndRotation(id, ts)] + KeyTurns(k, nonces, [])))
  }

  /** What both leaks come to: the client has the finished key and lacks its policy. */
  ghost predicate Leaked(e: World, i: nat, id: Id) {
    && i < |e.nodes| && id in KeyIds(e.nodes[i].ring) && id in e.born
    && !IsPrefix(e.born[id], e.nodes[i].policy.active)
  }

  /** The server has the key and did not have it settled; the session is open and everything lets keys pass. */
  ghost predicate Ripe(c: M.Context, y: Crypto, w: World, k: nat, nonces: nat -> Bytes, id: Id) {
    && Known(w, k) && w.sessions[k].judged == None && w.sessions[k].offered == None
    && CryptoOk(y) && NoncesOk(nonces) && Guards(c, y, w, k)
    && RingOk(y, w.nodes[w.sessions[k].client].ring) && RingOk(y, w.nodes[w.sessions[k].server].ring)
    && id in KeyIds(w.nodes[w.sessions[k].server].ring) && id !in KeyIds(w.nodes[w.sessions[k].client].ring)
    && id !in w.sessions[k].serverHad
  }

  /** `e` is `w` but for a session and the ring of node `i`, which has got the key. */
  ghost predicate Given(w: World, e: World, i: nat, id: Id) {
    && |e.nodes| == |w.nodes| && e.born == w.born && e.maker == w.maker && e.half == w.half
    && (forall j :: 0 <= j < |w.nodes| ==> e.nodes[j].me == w.nodes[j].me && e.nodes[j].policy == w.nodes[j].policy)
    && i < |e.nodes| && id in KeyIds(e.nodes[i].ring)
  }

  /** The key turns of such a session are not clean and give the key away. */
  lemma RipeGives(
    c: M.Context, y: Crypto, w: World, k: nat, nonces: nat -> Bytes, id: Id, last: seq<Step>)
    requires Ripe(c, y, w, k, nonces, id)
    ensures !RunClean(c, y, w, KeyTurns(k, nonces, last))
    ensures Run(c, y, w, KeyTurns(k, nonces, last)) == Run(c, y, HandOver(c, y, w, k, nonces), last)
    ensures Given(w, HandOver(c, y, w, k, nonces), w.sessions[k].client, id)
  {
    RunKeyTurns(c, y, w, k, nonces, last);
    UncleanOffer(c, y, w, k, id);
    HandedOverIff(c, y, w, k, nonces, id);
    HandOverFrame(c, y, w, k, nonces);
  }

  /** The session right after the first half of a rotation. */
  lemma HalfIsRipe(
    c: M.Context, y: Crypto, w: World, i: nat, j: nat, role: Role, raw: Bytes, nonces: nat -> Bytes)
    requires i < |w.nodes| && j < |w.nodes| && i != j && w.nodes[i].policy.active == w.nodes[j].policy.active
    requires Removal(c, w.nodes[j].policy.active, w.nodes[j].me, role, w.nodes[i].me, w.nodes[i].me)
    requires RingsReady(y, w, i, j, raw, nonces)
    ensures var id, n := y.keyId(raw), w.nodes[j];
            var w1 := World(w.nodes[j := Node(n.me, n.policy, Rotated(y, n.ring, raw))], w.sessions, w.born,
                            w.maker[id := n.me], w.half[id := Pending(j, Revoke(role, w.nodes[i].me))]);
            Ripe(c, y, w1.(sessions := w1.sessions + [Opened(w1, i, j)]), |w.sessions|, nonces, id)
  {
    RotatedHasNew(y, w.nodes[j].ring, raw);
  }

  /** The code makes the key of a rotation before it appends the removal, and holds no lock in between. If the
      member who is being removed synchronises in the gap, it ends with the new key and without the policy under
      which the key was finished. It is shut out by that policy unless it owns the channel or has another role. */
  lemma HalfRotationLeaks(
    c: M.Context, y: Crypto, w: World, i: nat, j: nat, role: Role, raw: Bytes, nonces: nat -> Bytes, ts: int)
    requires i < |w.nodes| && j < |w.nodes| && i != j && w.nodes[i].policy.active == w.nodes[j].policy.active
    requires Removal(c, w.nodes[j].policy.active, w.nodes[j].me, role, w.nodes[i].me, w.nodes[i].me)
    requires RingsReady(y, w, i, j, raw, nonces) && SignsOk(c)
    ensures var k, id, gone := |w.sessions|, y.keyId(raw), w.nodes[i].me;
            var schedule := HalfSchedule(i, j, k, role, gone, raw, nonces, [EndRotation(id, ts)]);
            var e, p := Run(c, y, w, schedule), Replay(c.policy, c.chan, w.nodes[j].policy.active).value;
            && Leaked(e, i, id) && !RunClean(c, y, w, schedule)
            && (MayRead(c, e.born[id], gone) <==> IsOwner(p, gone) || HasOtherRole(p, role, gone))
  {
    var k, id, gone := |w.sessions|, y.keyId(raw), w.nodes[i].me;
    var last := [EndRotation(id, ts)];
    BeginsRemoval(c, y, w, j, role, gone, raw, gone);
    var w1 := Act(c, y, w, BeginRotation(j, Revoke(role, gone), raw));
    var w2 := w1.(sessions := w1.sessions + [Opened(w1, i, j)]);
    HalfIsRipe(c, y, w, i, j, role, raw, nonces);
    RunStep(c, y, w, BeginRotation(j, Revoke(role, gone), raw), w1, PolicyTurns(i, j, k, KeyTurns(k, nonces, last)));
    RunPolicyTurns(c, y, w1, i, j, KeyTurns(k, nonces, last));
    CaughtEqual(w1, i, j);
    RipeGives(c, y, w2, k, nonces, id, last);
    EndLeaks(c, y, w, HandOver(c, y, w2, k, nonces), i, j, role, id, ts);
  }

  /** The second half, with the key already given away. */
  lemma EndLeaks(c: M.Context, y: Crypto, w: World, d: World, i: nat, j: nat, role: Role, id: Id, ts: int)
    requires i < |w.nodes| && j < |w.nodes| && i != j && w.nodes[i].policy.active == w.nodes[j].policy.active
    requires Removal(c, w.nodes[j].policy.active, w.nodes[j].me, role, w.nodes[i].me, w.nodes[i].me) && SignsOk(c)
    requires |d.nodes| == |w.nodes| && id in KeyIds(d.nodes[i].ring)
    requires d.nodes[i].policy == w.nodes[i].policy
    requires d.nodes[j].policy == w.nodes[j].policy && d.nodes[j].me == w.nodes[j].me
    requires id in d.half && d.half[id] == Pending(j, Revoke(role, w.nodes[i].me))
    ensures var e, gone := Run(c, y, d, [EndRotation(id, ts)]), w.nodes[i].me;
            var p := Replay(c.policy, c.chan, w.nodes[j].policy.active).value;
            && Leaked(e, i, id)
            && (MayRead(c, e.born[id], gone) <==> IsOwner(p, gone) || HasOtherRole(p, role, gone))
  {
    var step := EndRotation(id, ts);
    assert [step] == [step] + [];
    RunStep(c, y, d, step, DoEnd(c, d, id, ts), []);
    RemovalResult(c, w.nodes[j].policy, w.nodes[j].me, role, w.nodes[i].me, w.nodes[i].me, ts);
  }

  /** The session whose policy turns came before a whole rotation. */
  lemma LateIsRipe(
    c: M.Context, y: Crypto, w: World, i: nat, j: nat, role: Role, gone: Key, raw: Bytes, ts: int,
    nonces: nat -> Bytes, l: A.Ledger<PolicyBody>)
    requires i < |w.nodes| && j < |w.nodes| && i != j && w.nodes[i].policy.active == w.nodes[j].policy.active
    requires Removal(c, w.nodes[j].policy.active, w.nodes[j].me, role, gone, w.nodes[i].me) && SignsOk(c)
    requires gone != w.nodes[i].me && gone != w.nodes[j].me && RingsReady(y, w, i, j, raw, nonces)
    requires l == A.PolicyOp(c, w.nodes[j].policy, A.PolicyLocal(w.nodes[j].me, ts, Revoke(role, gone)))
    ensures var id, n := y.keyId(raw), w.nodes[j];
            var d := World(w.nodes[j := Node(n.me, l, Rotated(y, n.ring, raw))], w.sessions + [Opened(w, i, j)],
                           w.born[id := l.active], w.maker[id := n.me], w.half - {id});
            Ripe(c, y, d, |w.sessions|, nonces, id) && |l.active| == |n.policy.active| + 1
  {
    RotatedHasNew(y, w.nodes[j].ring, raw);
    RemovalResult(c, w.nodes[j].policy, w.nodes[j].me, role, gone, w.nodes[i].me, ts);
  }

  /** The two halves of the rotation, one right after the other. */
  lemma WholeRotation(
    c: M.Context, y: Crypto, w: World, j: nat, role: Role, gone: Key, raw: Bytes, ts: int, reader: Key,
    l: A.Ledger<PolicyBody>)
    requires j < |w.nodes| && Removal(c, w.nodes[j].policy.active, w.nodes[j].me, role, gone, reader)
    requires Fresh(w, y.keyId(raw))
    requires l == A.PolicyOp(c, w.nodes[j].policy, A.PolicyLocal(w.nodes[j].me, ts, Revoke(role, gone)))
    ensures var id, n := y.keyId(raw), w.nodes[j];
            Act(c, y, Act(c, y, w, BeginRotation(j, Revoke(role, gone), raw)), EndRotation(id, ts))
            == World(w.nodes[j := Node(n.me, l, Rotated(y, n.ring, raw))], w.sessions,
                     w.born[id := l.active], w.maker[id := n.me], w.half - {id})
  {
    var id, n := y.keyId(raw), w.nodes[j];
    BeginsRemoval(c, y, w, j, role, gone, raw, reader);
    var w1 := Act(c, y, w, BeginRotation(j, Revoke(role, gone), raw));
    assert Act(c, y, w1, EndRotation(id, ts)) == DoEnd(c, w1, id, ts);
    assert w1.half - {id} == w.half - {id};
    var m := Node(n.me, l, Rotated(y, n.ring, raw));
    assert w1.nodes[j := m] == w.nodes[j := m];
  }

  /** The server reads its keys again after it sent its policy. If another of its processes removes somebody
      between the two, the client gets the new key and lacks the policy under which the key was finished. */
  lemma LateRotationLeaks(
    c: M.Context, y: Crypto, w: World, i: nat, j: nat, role: Role, gone: Key, raw: Bytes, ts: int,
    nonces: nat -> Bytes)
    requires i < |w.nodes| && j < |w.nodes| && i != j && w.nodes[i].policy.active == w.nodes[j].policy.active
    requires Removal(c, w.nodes[j].policy.active, w.nodes[j].me, role, gone, w.nodes[i].me) && SignsOk(c)
    requires gone != w.nodes[i].me && gone != w.nodes[j].me && RingsReady(y, w, i, j, raw, nonces)
    ensures var k, id := |w.sessions|, y.keyId(raw);
            var schedule := LateSchedule(i, j, k, role, gone, raw, id, ts, nonces);
            Leaked(Run(c, y, w, schedule), i, id) && !RunClean(c, y, w, schedule)
  {
    var k, id := |w.sessions|, y.keyId(raw);
    var begin, end := BeginRotation(j, Revoke(role, gone), raw), EndRotation(id, ts);
    RunPolicyTurns(c, y, w, i, j, [begin] + ([end] + KeyTurns(k, nonces, [])));
    CaughtEqual(w, i, j);
    RotationThenKeys(c, y, w, i, j, role, gone, raw, ts, nonces);
  }

  /** The part of that schedule after the policy turns. */
  lemma RotationThenKeys(
    c: M.Context, y: Crypto, w: World, i: nat, j: nat, role: Role, gone: Key, raw: Bytes, ts: int,
    nonces: nat -> Bytes)
    requires i < |w.nodes| && j < |w.nodes| && i != j && w.nodes[i].policy.active == w.nodes[j].policy.active
    requires Removal(c, w.nodes[j].policy.active, w.nodes[j].me, role, gone, w.nodes[i].me) && SignsOk(c)
    requires gone != w.nodes[i].me && gone != w.nodes[j].me && RingsReady(y, w, i, j, raw, nonces)
    ensures var k, id, w1 := |w.sessions|, y.keyId(raw), w.(sessions := w.sessions + [Opened(w, i, j)]);
            var rest := [BeginRotation(j, Revoke(role, gone), raw)] + ([EndRotation(id, ts)] + KeyTurns(k, nonces, []));
            Leaked(Run(c, y, w1, rest), i, id) && !RunClean(c, y, w1, rest)
  {
    var k, id := |w.sessions|, y.keyId(raw);
    var l := A.PolicyOp(c, w.nodes[j].policy, A.PolicyLocal(w.nodes[j].me, ts, Revoke(role, gone)));
    var keyTurns := KeyTurns(k, nonces, []);
    var begin, end := BeginRotation(j, Revoke(role, gone), raw), EndRotation(id, ts);
    var w1 := w.(sessions := w.sessions + [Opened(w, i, j)]);
    var w2 := Act(c, y, w1, begin);
    var d := Act(c, y, w2, end);
    WholeRotation(c, y, w1, j, role, gone, raw, ts, w.nodes[i].me, l);
    LateIsRipe(c, y, w, i, j, role, gone, raw, ts, nonces, l);
    RunStep(c, y, w1, begin, w2, [end] + keyTurns);
    RunStep(c, y, w2, end, d, keyTurns);
    RipeGives(c, y, d, k, nonces, id, []);
  }
}
