/** A run after which a removed member reads what is written: a key whose rotation was dropped spreads, and comes
    back to the remover behind the key that it made for the removal.
 */
module OldKeys {
  import opened Basics
  import opened Chain
  import opened Proto
  import opened Policy
  import opened Keyring
  import opened KeyExchange
  import opened Reconcile
  import opened Federation
  import opened Sessions
  import opened KeyLeaks
  import opened KeySafety
  import opened WriteKeys
  import A = Admin
  import M = Moderation

  /** A node makes the key of a rotation and stops before the policy action. */
  lemma DroppedRotation(c: M.Context, y: Crypto, w: World, p: nat, role: Role, gone: Key, raw: Bytes, reader: Key)
    requires p < |w.nodes| && Removal(c, w.nodes[p].policy.active, w.nodes[p].me, role, gone, reader)
    requires Fresh(w, y.keyId(raw))
    ensures var id, n := y.keyId(raw), w.nodes[p];
            Act(c, y, Act(c, y, w, BeginRotation(p, Revoke(role, gone), raw)), DropRotation(id))
            == World(w.nodes[p := Node(n.me, n.policy, Rotated(y, n.ring, raw))], w.sessions,
                     w.born[id := n.policy.active], w.maker[id := n.me], w.half)
  {
    var id := y.keyId(raw);
    BeginsRemoval(c, y, w, p, role, gone, raw, reader);
    var w1 := Act(c, y, w, BeginRotation(p, Revoke(role, gone), raw));
    assert Act(c, y, w1, DropRotation(id)) == DoDrop(w1, id);
    assert w1.half - {id} == w.half;
  }

  lemma TwoSteps(c: M.Context, y: Crypto, w: World, a: Step, b: Step)
    requires Clean(w, a) && Clean(Act(c, y, w, a), b)
    ensures Run(c, y, w, [a] + [b]) == Act(c, y, Act(c, y, w, a), b) && RunClean(c, y, w, [a] + [b])
  {
    var w1, w2 := Act(c, y, w, a), Act(c, y, Act(c, y, w, a), b);
    assert [b] + [] == [b];
    RunStep(c, y, w, a, w1, [b]);
    RunStep(c, y, w1, b, w2, []);
    CleanTurn(c, y, w1, b, w2, []);
    CleanTurn(c, y, w, a, w1, [b]);
  }

  /** Three nodes that agree on everything: the one that will remove, a peer and the one that will be removed. */
  ghost predicate Agreeing(c: M.Context, y: Crypto, w: World, o: nat, p: nat, r: nat, nonces: nat -> Bytes) {
    && o < |w.nodes| && p < |w.nodes| && r < |w.nodes| && o != p && p != r && o != r
    && w.nodes[p].policy.active == w.nodes[o].policy.active && w.nodes[r].policy.active == w.nodes[o].policy.active
    && w.nodes[p].ring == w.nodes[o].ring && w.nodes[r].ring == w.nodes[o].ring
    && w.nodes[p].me != w.nodes[r].me && w.nodes[o].me != w.nodes[r].me
    && CryptoOk(y) && NoncesOk(nonces) && SignsOk(c)
    && RingOk(y, w.nodes[o].ring) && |w.nodes[o].ring| + 2 <= MAX_KEY_OFFERS
    && AllSettled(w, o) && AllSettled(w, p) && AllSettled(w, r)
    && y.shared(w.nodes[p].me, w.nodes[r].me).Some? && y.shared(w.nodes[o].me, w.nodes[p].me).Some?
  }

  /** A key that nobody has. */
  ghost predicate NewKey(y: Crypto, w: World, ring: seq<ChannelKey>, raw: Bytes) {
    |raw| == KEY_LENGTH && Fresh(w, y.keyId(raw)) && y.keyId(raw) !in KeyIds(ring)
  }

  lemma RotatedIsPush(y: Crypto, ring: seq<ChannelKey>, raw: Bytes)
    requires RingOk(y, ring) && |raw| == KEY_LENGTH && y.keyId(raw) !in KeyIds(ring)
    ensures Rotated(y, ring, raw) == ring + [ChannelKey(y.keyId(raw), raw)] && RingOk(y, Rotated(y, ring, raw))
    ensures KeyIds(Rotated(y, ring, raw)) == KeyIds(ring) + [y.keyId(raw)]
  {
    RetainedHas(ring, y.keyId(raw));
    RotationKeeps(y, ring, raw);
    KeyIdsPush(ring, ChannelKey(y.keyId(raw), raw));
  }

  /** The world after the dropped rotation and the session by which the reader gets its key. */
  ghost predicate Spread(y: Crypto, w: World, w2: World, o: nat, p: nat, r: nat, raw: Bytes)
    requires o < |w.nodes| && p < |w.nodes| && r < |w.nodes|
  {
    var id, grown := y.keyId(raw), w.nodes[o].ring + [ChannelKey(y.keyId(raw), raw)];
    && w2.nodes == w.nodes[p := Node(w.nodes[p].me, w.nodes[p].policy, grown)]
                   [r := Node(w.nodes[r].me, w.nodes[r].policy, grown)]
    && w2.born == w.born[id := w.nodes[p].policy.active] && w2.maker == w.maker[id := w.nodes[p].me]
    && w2.half == w.half && |w2.sessions| == |w.sessions| + 1
  }

  function FirstPart(p: nat, r: nat, k: nat, role: Role, gone: Key, raw: Bytes, id: Id, nonces: nat -> Bytes)
    : seq<Step>
  {
    ([BeginRotation(p, Revoke(role, gone), raw)] + [DropRotation(id)]) + SessionTurns(r, p, k, nonces, nonces)
  }

  lemma ReadyToSpread(
    c: M.Context, y: Crypto, w: World, w1: World, o: nat, p: nat, r: nat, raw: Bytes, nonces: nat -> Bytes)
    requires Agreeing(c, y, w, o, p, r, nonces) && NewKey(y, w, w.nodes[o].ring, raw)
    requires IsPrivate(c, w.nodes[o].policy.active) && MayRead(c, w.nodes[o].policy.active, w.nodes[r].me)
    requires MayRead(c, w.nodes[o].policy.active, w.nodes[p].me)
    requires w1.nodes == w.nodes[p := Node(w.nodes[p].me, w.nodes[p].policy, Rotated(y, w.nodes[p].ring, raw))]
    requires w1.half == w.half
    ensures Sessions.Ready(c, y, w1, r, p, nonces, nonces) && AllSettled(w1, r) && AllSettled(w1, p)
    ensures var n, m, grown := w.nodes[p], w.nodes[r], w.nodes[o].ring + [ChannelKey(y.keyId(raw), raw)];
            Met(w1, r, p) == w.nodes[p := Node(n.me, n.policy, grown)][r := Node(m.me, m.policy, grown)]
  {
    var ring := w.nodes[o].ring;
    RotatedIsPush(y, ring, raw);
    var grown := ring + [ChannelKey(y.keyId(raw), raw)];
    MergeExtension(y, ring, grown);
    MergeAbsorbs(grown, grown);
    forall id | id in RingIds(grown) ensures id !in w.half {
      assert id in RingIds(ring) || id == y.keyId(raw);
    }
  }

  lemma KeySpreads(
    c: M.Context, y: Crypto, w: World, o: nat, p: nat, r: nat, role: Role, gone: Key, raw: Bytes, nonces: nat -> Bytes)
    requires Agreeing(c, y, w, o, p, r, nonces) && NewKey(y, w, w.nodes[o].ring, raw)
    requires Removal(c, w.nodes[p].policy.active, w.nodes[p].me, role, gone, w.nodes[r].me)
    requires MayRead(c, w.nodes[o].policy.active, w.nodes[p].me)
    ensures var steps := FirstPart(p, r, |w.sessions|, role, gone, raw, y.keyId(raw), nonces);
            Spread(y, w, Run(c, y, w, steps), o, p, r, raw) && RunClean(c, y, w, steps)
  {
    var id, k := y.keyId(raw), |w.sessions|;
    var begin, drop := BeginRotation(p, Revoke(role, gone), raw), DropRotation(id);
    DroppedRotation(c, y, w, p, role, gone, raw, w.nodes[r].me);
    TwoSteps(c, y, w, begin, drop);
    var w1 := Run(c, y, w, [begin] + [drop]);
    ReadyToSpread(c, y, w, w1, o, p, r, raw, nonces);
    SessionMeets(c, y, w1, r, p, nonces, nonces);
    UndisturbedSessionIsClean(c, y, w1, r, p, nonces, nonces);
    RunSplits(c, y, w, [begin] + [drop], SessionTurns(r, p, k, nonces, nonces));
  }

  function SecondPart(
    o: nat, p: nat, k: nat, role: Role, gone: Key, raw: Bytes, id: Id, ts: int, nonces: nat -> Bytes): seq<Step>
  {
    ([BeginRotation(o, Revoke(role, gone), raw)] + [EndRotation(id, ts)]) + SessionTurns(p, o, k, nonces, nonces)
  }

  /** The two rings between which the last session runs: the same but for their last keys. */
  lemma RingsCross(y: Crypto, ring: seq<ChannelKey>, first: Bytes, second: Bytes)
    requires RingOk(y, ring) && |first| == KEY_LENGTH && |second| == KEY_LENGTH && y.keyId(first) != y.keyId(second)
    requires y.keyId(first) !in KeyIds(ring) && y.keyId(second) !in KeyIds(ring)
    ensures var a, b := ring + [ChannelKey(y.keyId(first), first)], ring + [ChannelKey(y.keyId(second), second)];
            && |Merge(a, b)| == |ring| + 2
            && Current(Merge(b, Merge(a, b))) == Some(ChannelKey(y.keyId(first), first))
  {
    var k, m := ChannelKey(y.keyId(first), first), ChannelKey(y.keyId(second), second);
    var a, b := ring + [k], ring + [m];
    RotatedIsPush(y, ring, first);
    RotatedIsPush(y, ring, second);
    assert b[..|b| - 1] == ring && a[..|a| - 1] == ring;
    MergeAbsorbs(a, ring);
    assert Merge(a, b) == Add(a, m);
    WriteKeyOfUnion(y, b, a);
    assert LastLacking(b, a) == Some(k);
  }

  /** After the removal the peer is behind the remover, and both may read. */
  lemma PeerIsBehind(
    c: M.Context, w: World, w3: World, o: nat, p: nat, role: Role, gone: Key, ts: int, l: A.Ledger<PolicyBody>)
    requires o < |w.nodes| && p < |w.nodes| && o != p && |w3.nodes| == |w.nodes| && SignsOk(c)
    requires w.nodes[p].policy.active == w.nodes[o].policy.active && gone != w.nodes[p].me && gone != w.nodes[o].me
    requires Removal(c, w.nodes[o].policy.active, w.nodes[o].me, role, gone, w.nodes[p].me)
    requires l == A.PolicyOp(c, w.nodes[o].policy, A.PolicyLocal(w.nodes[o].me, ts, Revoke(role, gone)))
    requires w3.nodes[o].policy == l && w3.nodes[o].me == w.nodes[o].me
    requires w3.nodes[p].policy == w.nodes[p].policy && w3.nodes[p].me == w.nodes[p].me
    ensures Behind(c, w3, p, o) && IsPrivate(c, l.active) && MayRead(c, l.active, w.nodes[o].me)
  {
    RemovalResult(c, w.nodes[o].policy, w.nodes[o].me, role, gone, w.nodes[p].me, ts);
  }

  /** What the removal leaves: the remover has the new history and its ring, and has all its keys settled. */
  lemma ReadyToReturn(
    c: M.Context, y: Crypto, w: World, w2: World, w3: World, o: nat, p: nat, r: nat, role: Role, first: Bytes,
    second: Bytes, ts: int, nonces: nat -> Bytes, l: A.Ledger<PolicyBody>)
    requires Agreeing(c, y, w, o, p, r, nonces) && Spread(y, w, w2, o, p, r, first)
    requires NewKey(y, w, w.nodes[o].ring, first) && NewKey(y, w, w.nodes[o].ring, second)
    requires y.keyId(first) != y.keyId(second)
    requires Removal(c, w.nodes[o].policy.active, w.nodes[o].me, role, w.nodes[r].me, w.nodes[p].me)
    requires l == A.PolicyOp(c, w.nodes[o].policy, A.PolicyLocal(w.nodes[o].me, ts, Revoke(role, w.nodes[r].me)))
    requires w3.nodes == w2.nodes[o := Node(w.nodes[o].me, l, Rotated(y, w.nodes[o].ring, second))]
    requires w3.half == w2.half - {y.keyId(second)}
    ensures Sessions.Ready(c, y, w3, p, o, nonces, nonces) && AllSettled(w3, p) && AllSettled(w3, o)
    ensures Current(Met(w3, p, o)[o].ring) == Some(ChannelKey(y.keyId(first), first))
    ensures Met(w3, p, o)[o].policy == l && Met(w3, p, o)[r] == w2.nodes[r]
  {
    var ring := w.nodes[o].ring;
    RotatedIsPush(y, ring, first);
    RotatedIsPush(y, ring, second);
    RingsCross(y, ring, first, second);
    PeerIsBehind(c, w, w3, o, p, role, w.nodes[r].me, ts, l);
    forall id | id in RingIds(w3.nodes[p].ring) || id in RingIds(w3.nodes[o].ring) ensures id !in w3.half {
      assert id in RingIds(ring) || id == y.keyId(first) || id == y.keyId(second);
    }
  }

  lemma KeyReturns(
    c: M.Context, y: Crypto, w: World, w2: World, o: nat, p: nat, r: nat, role: Role, first: Bytes, second: Bytes,
    ts: int, nonces: nat -> Bytes)
    requires Agreeing(c, y, w, o, p, r, nonces) && Spread(y, w, w2, o, p, r, first)
    requires NewKey(y, w, w.nodes[o].ring, first) && NewKey(y, w, w.nodes[o].ring, second)
    requires y.keyId(first) != y.keyId(second)
    requires Removal(c, w.nodes[o].policy.active, w.nodes[o].me, role, w.nodes[r].me, w.nodes[p].me)
    ensures var id, gone := y.keyId(second), w.nodes[r].me;
            var steps := SecondPart(o, p, |w2.sessions|, role, gone, second, id, ts, nonces);
            var e := Run(c, y, w2, steps);
            var l := A.PolicyOp(c, w.nodes[o].policy, A.PolicyLocal(w.nodes[o].me, ts, Revoke(role, gone)));
            && RunClean(c, y, w2, steps) && |e.nodes| == |w.nodes|
            && Current(e.nodes[o].ring) == Some(ChannelKey(y.keyId(first), first))
            && e.nodes[o].policy == l && e.nodes[r] == w2.nodes[r]
            && id in e.born && e.born[id] == l.active
  {
    var id, gone, k := y.keyId(second), w.nodes[r].me, |w2.sessions|;
    var begin, end := BeginRotation(o, Revoke(role, gone), second), EndRotation(id, ts);
    var l := A.PolicyOp(c, w.nodes[o].policy, A.PolicyLocal(w.nodes[o].me, ts, Revoke(role, gone)));
    WholeRotation(c, y, w2, o, role, gone, second, ts, w.nodes[p].me, l);
    TwoSteps(c, y, w2, begin, end);
    var w3 := Run(c, y, w2, [begin] + [end]);
    ReadyToReturn(c, y, w, w2, w3, o, p, r, role, first, second, ts, nonces, l);
    SessionMeets(c, y, w3, p, o, nonces, nonces);
    UndisturbedSessionIsClean(c, y, w3, p, o, nonces, nonces);
    RunSplits(c, y, w2, [begin] + [end], SessionTurns(p, o, k, nonces, nonces));
  }

  /** A clean run. A peer makes the key of a removal and stops before the policy action; a reader gets that key in
      a session. The remover removes the reader by a finished rotation and then synchronises with the peer. Its
      policy now shuts the reader out, unless the reader owns the channel or has another role; but it writes with
      the peer's older key again, and the reader reads what it writes. */
  lemma OlderKeyReturns(
    c: M.Context, y: Crypto, w: World, o: nat, p: nat, r: nat, role: Role, other: Role, somebody: Key, first: Bytes,
    second: Bytes, ts: int, nonces: nat -> Bytes, before: ChannelPolicy, nonce: Bytes, msg: Message, env: Envelope)
    requires Agreeing(c, y, w, o, p, r, nonces)
    requires NewKey(y, w, w.nodes[o].ring, first) && NewKey(y, w, w.nodes[o].ring, second)
    requires y.keyId(first) != y.keyId(second)
    requires Removal(c, w.nodes[p].policy.active, w.nodes[p].me, other, somebody, w.nodes[r].me)
    requires Removal(c, w.nodes[o].policy.active, w.nodes[o].me, role, w.nodes[r].me, w.nodes[p].me)
    requires Replay(c.policy, c.chan, w.nodes[o].policy.active) == Some(before)
    ensures var id, k, reader := y.keyId(second), |w.sessions|, w.nodes[r].me;
            var steps := FirstPart(p, r, k, other, somebody, first, y.keyId(first), nonces)
                         + SecondPart(o, p, k + 1, role, reader, second, id, ts, nonces);
            var e := Run(c, y, w, steps);
            && RunClean(c, y, w, steps) && |e.nodes| == |w.nodes|
            && id in e.born && e.born[id] == e.nodes[o].policy.active
            && (MayRead(c, e.nodes[o].policy.active, reader) <==>
                IsOwner(before, reader) || HasOtherRole(before, role, reader))
            && Current(e.nodes[o].ring) == Some(ChannelKey(y.keyId(first), first))
            && (msg.body.Text? && y.utf8(msg.body.text) && |nonce| == NONCE_LENGTH
                && Encrypt(y, env.channel, e.nodes[o].ring, nonce, msg) == Some(env.msg) ==>
                  Decrypt(y, e.nodes[r].ring, env) == Some(env.(msg := msg)))
  {
    var id, k, reader := y.keyId(second), |w.sessions|, w.nodes[r].me;
    var a := FirstPart(p, r, k, other, somebody, first, y.keyId(first), nonces);
    var b := SecondPart(o, p, k + 1, role, reader, second, id, ts, nonces);
    var w2 := Run(c, y, w, a);
    KeySpreads(c, y, w, o, p, r, other, somebody, first, nonces);
    KeyReturns(c, y, w, w2, o, p, r, role, first, second, ts, nonces);
    RunSplits(c, y, w, a, b);
    var e := Run(c, y, w, a + b);
    RemovalResult(c, w.nodes[o].policy, w.nodes[o].me, role, reader, w.nodes[p].me, ts);
    RotatedIsPush(y, w.nodes[o].ring, first);
    if msg.body.Text? && y.utf8(msg.body.text) && |nonce| == NONCE_LENGTH
       && Encrypt(y, env.channel, e.nodes[o].ring, nonce, msg) == Some(env.msg)
    {
      HolderReads(y, e.nodes[o].ring, e.nodes[r].ring, nonce, msg, env);
    }
  }
}
