/** Whose actions the two histories of a channel accept, told by the events of the policy history alone. */
module Authority {
  import opened Basics
  import opened Chain
  import opened Policy
  import opened Roles
  import opened Admin
  import M = Moderation
  import T = Proto

  // ---------------------------------------------------------------- policy actions

  /** A node whose history is valid appends the action of its signer exactly if the history permits it; the new
      event holds the action and the signer and follows the old head. */
  lemma PolicyActionIff(c: M.Context, l: Ledger<PolicyBody>, signer: Key, ts: int, action: Policy.Action)
    requires SignsCorrectly(c.policy) && PolicyOk(c, l.active)
    ensures var l' := PolicyOp(c, l, PolicyLocal(signer, ts, action));
            && l'.saved == l.saved
            && (if Permitted(l.active, signer, action)
                then
                  && |l'.active| == |l.active| + 1 && l'.active[..|l.active|] == l.active && PolicyOk(c, l'.active)
                  && l'.active[|l.active|].content.previous == Head(l.active)
                  && l'.active[|l.active|].content.body == PolicyBody(c.chan, signer, ts, action)
                else l'.active == l.active)
  {
    AppliesIffPermitted(c.policy, c.chan, l.active, signer, action);
    LocalAppendIffAllowed(c, l, signer, ts, action);
  }

  /** Without a history the owner of a restricted legacy policy adopts it together with its first action, exactly
      if the adopted policy permits that action. */
  lemma AdoptionIff(
    c: M.Context, l: Ledger<PolicyBody>, signer: Key, ts: int, cached: ChannelPolicy, adoptTs: int,
    action: Policy.Action)
    requires SignsCorrectly(c.policy) && l.active == []
    ensures var adopted := Adoption(c, signer, ts, cached, adoptTs, action);
            var after := PolicyOp(c, l, PolicyAdopt(signer, ts, cached, adoptTs, action)).active;
            && adopted[0].content.body == PolicyBody(c.chan, signer, adoptTs, Adopt(cached))
            && adopted[1].content.body == PolicyBody(c.chan, signer, ts, action)
            && after == if cached.mode == Restricted && cached.owner == Some(signer)
                           && Permitted(adopted[..1], signer, action) then adopted else []
  {
    var adopted := Adoption(c, signer, ts, cached, adoptTs, action);
    if cached.mode == Restricted && IsOwner(cached, signer) {
      assert adopted[..1] == [adopted[0]] && adopted[..1][..0] == [];
      assert Policy.Replay(c.policy, c.chan, adopted[..1]) == Some(cached);
      AppliesIffPermitted(c.policy, c.chan, adopted[..1], signer, action);
    }
  }

  // ---------------------------------------------------------------- moderation

  ghost predicate IsFirst(ps: seq<PolicyEvent>, id: Id, k: nat) {
    k < |ps| && ps[k].id == id && forall j :: 0 <= j < k ==> ps[j].id != id
  }

  /** The events of the policy history up to the first one with this id make `key` owner or moderator. */
  ghost predicate GovernsAt(ps: seq<PolicyEvent>, head: Id, key: Key) {
    exists k: nat ::
      IsFirst(ps, head, k) && (Owns(ps[..k + 1], key) || HasRole(ps[..k + 1], Moderator, key))
  }

  /** The policy at the head that a moderation event cites decides whether its actor is authorised. */
  lemma AuthorisedIff(c: M.Context, ps: seq<PolicyEvent>, e: M.ModerationEvent)
    requires PolicyOk(c, ps)
    ensures M.Authorised(c, ps, e) <==> GovernsAt(ps, e.content.body.policyHead, e.content.body.actor)
  {
    var head, key := e.content.body.policyHead, e.content.body.actor;
    var k := Position(ps, head);
    if k.Some? {
      PositionIsFirst(ps, head);
      GovernsIff(ps, head, key, k.value);
      ValidPrefix(c.policy, c.chan, ps, k.value + 1);
      PolicyByLastWord(c.policy, c.chan, ps[..k.value + 1], key);
    }
  }

  lemma GovernsIff(ps: seq<PolicyEvent>, head: Id, key: Key, k: nat)
    requires IsFirst(ps, head, k)
    ensures GovernsAt(ps, head, key) <==> Owns(ps[..k + 1], key) || HasRole(ps[..k + 1], Moderator, key)
  {
    if GovernsAt(ps, head, key) {
      var i: nat :| IsFirst(ps, head, i) && (Owns(ps[..i + 1], key) || HasRole(ps[..i + 1], Moderator, key));
      M.FirstPosition(ps, head, i);
      M.FirstPosition(ps, head, k);
    }
  }

  lemma {:induction false} PositionIsFirst(ps: seq<PolicyEvent>, id: Id)
    requires Position(ps, id).Some?
    ensures IsFirst(ps, id, Position(ps, id).value)
    decreases |ps|
  {
    if ps[0].id != id {
      PositionIsFirst(ps[1..], id);
      assert forall j :: 1 <= j < |ps| ==> ps[j] == ps[1..][j - 1];
    }
  }

  /** The moderation event at `i` is in order. */
  ghost predicate ModerationInOrder(c: M.Context, ps: seq<PolicyEvent>, es: seq<M.ModerationEvent>, i: nat)
    requires i < |es|
  {
    var e := es[i];
    && e.content.body.channel == c.chan
    && e.content.previous == (if i == 0 then None else Some(es[i - 1].id))
    && e.id == c.moderation.hash(e.content) && c.moderation.verify(e.content.body.actor, e.sig, e.content)
    && |e.content.body.action.target| == 64
    && (forall k :: 0 <= k < 64 ==> IsHexDigit(e.content.body.action.target[k]))
    && GovernsAt(ps, e.content.body.policyHead, e.content.body.actor)
  }

  /** A moderation history is valid under a valid policy history exactly if each of its events is in order. */
  lemma ModerationValidIff(c: M.Context, ps: seq<PolicyEvent>, es: seq<M.ModerationEvent>)
    requires PolicyOk(c, ps)
    ensures M.Valid(c, ps, es) <==> forall i: nat :: i < |es| ==> ModerationInOrder(c, ps, es, i)
  {
    M.ReplayIff(c, ps, es);
    forall i: nat | i < |es| ensures M.OkAt(c, ps, es, i) <==> ModerationInOrder(c, ps, es, i) {
      AuthorisedIff(c, ps, es[i]);
    }
  }

  /** At its head a policy history authorises those whom the whole history makes owner or moderator. */
  lemma HeadAuthorisesIff(c: M.Context, u: set<Payload<PolicyBody>>, ps: seq<PolicyEvent>, e: M.ModerationEvent)
    requires CollisionFree(c.policy, u) && DrawnFrom(ps, u) && PolicyOk(c, ps) && ps != []
    requires e.content.body.policyHead == ps[|ps| - 1].id
    ensures M.Authorised(c, ps, e) <==>
            Owns(ps, e.content.body.actor) || HasRole(ps, Moderator, e.content.body.actor)
  {
    var n := |ps| - 1;
    assert ps[..n + 1] == ps;
    ValidIsLinked(c.policy, c.chan, ps);
    DistinctIds(c.policy, u, ps, Position(ps, ps[n].id).value, n);
    PolicyByLastWord(c.policy, c.chan, ps, e.content.body.actor);
  }

  lemma SignedActionIff(
    c: M.Context, ps: seq<PolicyEvent>, es: seq<M.ModerationEvent>, signer: Key, ts: int, action: M.Action)
    requires SignsCorrectly(c.moderation) && M.Valid(c, ps, es) && ps != []
    ensures var e := SignModeration(c, Head(es), Head(ps).value, signer, ts, action);
            M.Valid(c, ps, es + [e]) <==> ValidKey(action.target) && M.Authorised(c, ps, e)
  {
    var e := SignModeration(c, Head(es), Head(ps).value, signer, ts, action);
    M.ValidSnoc(c, ps, es, e);
  }

  /** A node with valid histories appends the moderation action of its signer exactly if the signer owns the
      channel or is a moderator by its policy history, and the target is well formed. */
  lemma ModerationActionIff(c: M.Context, u: Universe, st: AdminState, signer: Key, ts: int, action: M.Action)
    requires Lawful(c, u) && DrawnFrom(st.policy.active, u.policy) && SignsCorrectly(c.moderation)
    requires st.policy.active != [] && ModerationOk(c, st, st.moderation.active)
    ensures var ps, es := st.policy.active, st.moderation.active;
            var l' := ModerationOp(c, st, ModerationLocal(signer, ts, action));
            && l'.saved == st.moderation.saved
            && (if ValidKey(action.target) && (Owns(ps, signer) || HasRole(ps, Moderator, signer))
                then
                  && |l'.active| == |es| + 1 && l'.active[..|es|] == es && ModerationOk(c, st, l'.active)
                  && l'.active[|es|].content.body
                     == M.ModerationBody(c.chan, signer, ts, ps[|ps| - 1].id, action)
                else l'.active == es)
  {
    var ps, es := st.policy.active, st.moderation.active;
    var e := SignModeration(c, Head(es), Head(ps).value, signer, ts, action);
    HeadAuthorisesIff(c, u.policy, ps, e);
    SignedActionIff(c, ps, es, signer, ts, action);
  }

  // ---------------------------------------------------------------- keys and ids

  lemma {:induction false} ReadsIffDigits(text: Bytes)
    ensures T.Unhex(text).Some? <==> |text| % 2 == 0 && forall i :: 0 <= i < |text| ==> IsHexDigit(text[i])
  {
    if |text| > 1 {
      var rest := text[2..];
      ReadsIffDigits(rest);
      if T.Unhex(text).Some? {
        forall i | 2 <= i < |text| ensures IsHexDigit(text[i]) { assert text[i] == rest[i - 2]; }
      }
    }
  }

  /** Keys and targets are well formed exactly if they read as 32 bytes in hexadecimal. */
  lemma ValidKeyIff(key: Bytes)
    ensures ValidKey(key) <==> T.Unhex(key).Some? && |T.Unhex(key).value| == 32
  {
    ReadsIffDigits(key);
  }
}
