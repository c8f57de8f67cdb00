/** When the nodes of a federation change their policy and when they make keys, told by their histories. */
module Rotations {
  import opened Basics
  import opened Chain
  import opened Policy
  import opened Roles
  import opened Authority
  import opened Keyring
  import opened Federation
  import A = Admin
  import M = Moderation

  /** The action needs a new channel key first: a removal or a change of owner on a private channel, and making a
      channel private. */
  ghost predicate NeedsKey(es: seq<PolicyEvent>, a: Policy.Action) {
    match a
    case Revoke(_, _) => MadePrivate(es)
    case TransferOwner(_) => MadePrivate(es)
    case SetVisibility(v) => v == Private
    case _ => false
  }

  lemma IsPrivateIff(c: M.Context, es: seq<PolicyEvent>, key: Key)
    requires A.PolicyOk(c, es)
    ensures IsPrivate(c, es) <==> MadePrivate(es)
    ensures OwnedBy(c, es, key) <==> Owns(es, key)
  {
    PolicyByLastWord(c.policy, c.chan, es, key);
  }

  /** A node makes the key of a rotation exactly if its history permits the action, the action needs one, the key it
      names is well formed, and the new key is new. Then the new key is the last of its ring, and the policy is
      still the old one. */
  lemma BeginsIff(c: M.Context, y: Crypto, w: World, i: nat, action: Policy.Action, raw: Bytes)
    requires i < |w.nodes| && A.PolicyOk(c, w.nodes[i].policy.active)
    ensures var n, id := w.nodes[i], y.keyId(raw);
            var w' := Act(c, y, w, BeginRotation(i, action, raw));
            if Permitted(n.policy.active, n.me, action) && NeedsKey(n.policy.active, action)
               && (action.Revoke? ==> ValidKey(action.publicKey)) && Fresh(w, id)
            then
              && w'.nodes == w.nodes[i := Node(n.me, n.policy, Rotated(y, n.ring, raw))]
              && Current(w'.nodes[i].ring) == Some(ChannelKey(id, raw))
              && w'.half == w.half[id := Pending(i, action)] && w'.maker == w.maker[id := n.me]
              && w'.born == w.born && w'.sessions == w.sessions
            else w' == w
  {
    var n := w.nodes[i];
    PolicyByLastWord(c.policy, c.chan, n.policy.active, n.me);
    GenesisOnlyFirst(c.policy, c.chan, n.policy.active);
    NoRolesAtFirst(n.policy.active, n.me);
  }

  /** The second half appends the action exactly if the history of that moment still permits it, and records the key
      as finished under the history that the node then has. */
  lemma EndsIff(c: M.Context, y: Crypto, w: World, id: Id, ts: int)
    requires IsHalf(w, id) && SignsCorrectly(c.policy) && A.PolicyOk(c, w.nodes[w.half[id].node].policy.active)
    ensures var i := w.half[id].node;
            var n, a := w.nodes[i], w.half[id].action;
            var w' := Act(c, y, w, EndRotation(id, ts));
            && |w'.nodes| == |w.nodes| && (forall j :: 0 <= j < |w.nodes| && j != i ==> w'.nodes[j] == w.nodes[j])
            && w'.nodes[i].me == n.me && w'.nodes[i].ring == n.ring && w'.nodes[i].policy.saved == n.policy.saved
            && Appended(n.policy.active, w'.nodes[i].policy.active, c.chan, n.me, ts, a)
            && w'.half == w.half - {id} && w'.maker == w.maker && w'.sessions == w.sessions
            && w'.born == w.born[id := w'.nodes[i].policy.active]
  {
    var n := w.nodes[w.half[id].node];
    PolicyActionIff(c, n.policy, n.me, ts, w.half[id].action);
  }

  /** A permitted action was appended behind the old history; a refused one was not. */
  ghost predicate Appended(
    before: seq<PolicyEvent>, after: seq<PolicyEvent>, chan: Bytes, me: Key, ts: int, a: Policy.Action)
  {
    if Permitted(before, me, a)
    then |after| == |before| + 1 && after[..|before|] == before
         && after[|before|].content.body == PolicyBody(chan, me, ts, a)
    else after == before
  }

  /** An action without a rotation does nothing but that. */
  lemma AppendsIff(c: M.Context, y: Crypto, w: World, i: nat, ts: int, a: Policy.Action)
    requires i < |w.nodes| && SignsCorrectly(c.policy) && A.PolicyOk(c, w.nodes[i].policy.active)
    ensures var n, w' := w.nodes[i], Act(c, y, w, Append(i, ts, a));
            && |w'.nodes| == |w.nodes| && (forall j :: 0 <= j < |w.nodes| && j != i ==> w'.nodes[j] == w.nodes[j])
            && w'.nodes[i].me == n.me && w'.nodes[i].ring == n.ring && w'.nodes[i].policy.saved == n.policy.saved
            && Appended(n.policy.active, w'.nodes[i].policy.active, c.chan, n.me, ts, a)
            && SameRecords(w, w') && w'.sessions == w.sessions
  {
    PolicyActionIff(c, w.nodes[i].policy, w.nodes[i].me, ts, a);
  }

  /** A first key is made exactly by the owner of a private channel who has none. */
  lemma FirstKeyIff(c: M.Context, y: Crypto, w: World, i: nat, raw: Bytes)
    requires i < |w.nodes| && A.PolicyOk(c, w.nodes[i].policy.active)
    ensures var n, id, w' := w.nodes[i], y.keyId(raw), Act(c, y, w, FirstKey(i, raw));
            if MadePrivate(n.policy.active) && Owns(n.policy.active, n.me) && n.ring == [] && Fresh(w, id)
            then
              && w'.nodes == w.nodes[i := Node(n.me, n.policy, [ChannelKey(id, raw)])]
              && w'.born == w.born[id := n.policy.active] && w'.maker == w.maker[id := n.me]
              && w'.half == w.half && w'.sessions == w.sessions
            else w' == w
  {
    IsPrivateIff(c, w.nodes[i].policy.active, w.nodes[i].me);
    if w.nodes[i].ring == [] {
      assert Rotated(y, w.nodes[i].ring, raw) == [ChannelKey(y.keyId(raw), raw)];
    }
  }
}
