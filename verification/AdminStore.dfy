/** The administrative operations as they run on the files of a channel. */
module AdminStore {
  import opened Basics
  import opened Chain
  import opened Policy
  import opened Admin
  import M = Moderation

  /** The specified operation that appending an action amounts to. */
  function LocalOp(
    local: seq<PolicyEvent>, signer: Key, ts: int, action: Policy.Action, cached: ChannelPolicy, adoptTs: int): Op
  {
    if local == [] && cached.mode == Restricted then PolicyAdopt(signer, ts, cached, adoptTs, action)
    else PolicyLocal(signer, ts, action)
  }

  function Extended(
    c: M.Context, local: seq<PolicyEvent>, signer: Key, ts: int, action: Policy.Action, cached: ChannelPolicy,
    adoptTs: int): (r: Option<seq<PolicyEvent>>)
    ensures r.Some? ==> local <= r.value
                        && |r.value| == |local| + if local == [] && cached.mode == Restricted then 2 else 1
  {
    if local == [] && cached.mode == Restricted then
      if IsOwner(cached, signer) then Some(Adoption(c, signer, ts, cached, adoptTs, action)) else None
    else Some(local + [SignPolicy(c, Head(local), signer, ts, action)])
  }

  lemma ExtendedIsPerformed(
    c: M.Context, st: AdminState, signer: Key, ts: int, action: Policy.Action, cached: ChannelPolicy, adoptTs: int)
    ensures var local := st.policy.active;
            var r := Extended(c, local, signer, ts, action, cached, adoptTs);
            Perform(c, st, LocalOp(local, signer, ts, action, cached, adoptTs)) ==
            if PolicyOk(c, local) && r.Some? && PolicyOk(c, r.value) then st.(policy := st.policy.(active := r.value))
            else st
  {
  }

  class AdminFiles {
    const c: M.Context
    var policy: seq<PolicyEvent>
    var policySaved: map<Id, seq<PolicyEvent>>
    var moderation: seq<M.ModerationEvent>
    var moderationSaved: map<Id, seq<M.ModerationEvent>>

    function View(): AdminState
      reads this
    {
      AdminState(Ledger(policy, policySaved), Ledger(moderation, moderationSaved))
    }

    constructor (c: M.Context)
      ensures this.c == c && View() == EMPTY
    {
      this.c := c;
      policy, policySaved, moderation, moderationSaved := [], map[], [], map[];
    }

    /** Reads the policy history and replays it. */
    method ReadPolicyHistory() returns (r: Option<seq<PolicyEvent>>)
      ensures r == if PolicyOk(c, policy) then Some(policy) else None
    {
      var p := DerivePolicy(c.policy, c.chan, policy);
      r := if p.Some? then Some(policy) else None;
    }

    /** Judges a moderation history against the policy history on disk. */
    method CheckModeration(es: seq<M.ModerationEvent>) returns (ok: bool)
      ensures ok == ModerationOk(c, View(), es)
    {
      var ps := ReadPolicyHistory();
      if ps.None? { return false; }
      var state := M.DeriveModeration(c, ps.value, es);
      ok := state.Some?;
    }

    /** The events that appending an action makes of a valid local history; a restricted legacy policy, as the
        cache file holds it, is adopted first, by its owner only. */
    method Extend(
      local: seq<PolicyEvent>, signer: Key, ts: int, action: Policy.Action, cached: ChannelPolicy, adoptTs: int)
      returns (r: Option<seq<PolicyEvent>>)
      ensures r == Extended(c, local, signer, ts, action, cached, adoptTs)
    {
      var events := local;
      if events == [] && cached.mode == Restricted {
        if cached.owner != Some(signer) { return None; }
        events := [SignPolicy(c, None, signer, adoptTs, Adopt(cached))];
      }
      events := events + [SignPolicy(c, Head(events), signer, ts, action)];
      assert local == [] && cached.mode == Restricted ==> events == Adoption(c, signer, ts, cached, adoptTs, action);
      r := Some(events);
    }

    /** Signs and appends an action; the events of an adoption are written together or not at all. */
    method AppendPolicyAction(signer: Key, ts: int, action: Policy.Action, cached: ChannelPolicy, adoptTs: int)
      returns (ok: bool)
      modifies this
      ensures var adopts := old(policy) == [] && cached.mode == Restricted;
              && View() == Perform(c, old(View()), LocalOp(old(policy), signer, ts, action, cached, adoptTs))
              && (if ok then |policy| == |old(policy)| + (if adopts then 2 else 1) else policy == old(policy))
    {
      ExtendedIsPerformed(c, View(), signer, ts, action, cached, adoptTs);
      var local := ReadPolicyHistory();
      if local.None? { return false; }
      var events := Extend(local.value, signer, ts, action, cached, adoptTs);
      if events.None? { return false; }
      var p := DerivePolicy(c.policy, c.chan, events.value);
      if p.None? { return false; }
      WritePolicyEvents(events.value[|local.value|..]);
      ok := true;
    }

    /** Writes events to the end of the history file, one line each. */
    method WritePolicyEvents(es: seq<PolicyEvent>)
      modifies this`policy
      ensures policy == old(policy) + es
    {
      for i := 0 to |es|
        invariant policy == old(policy) + es[..i]
      {
        policy := policy + [es[i]];
      }
      assert es[..|es|] == es;
    }

    method WriteModerationEvents(es: seq<M.ModerationEvent>)
      modifies this`moderation
      ensures moderation == old(moderation) + es
    {
      for i := 0 to |es|
        invariant moderation == old(moderation) + es[..i]
      {
        moderation := moderation + [es[i]];
      }
      assert es[..|es|] == es;
    }

    /** Accepts a peer's history only as an extension, writing the missing events one by one. */
    method AppendRemotePolicyHistory(remote: seq<PolicyEvent>) returns (ok: bool)
      modifies this
      ensures View() == Perform(c, old(View()), PolicyRemote(remote))
      ensures ok <==> PolicyOk(c, old(policy)) && PolicyOk(c, remote) && IsPrefix(old(policy), remote)
      ensures policy == (if ok then old(policy) + remote[|old(policy)|..] else old(policy))
      ensures policySaved == old(policySaved)
      ensures moderation == old(moderation) && moderationSaved == old(moderationSaved)
    {
      var local := ReadPolicyHistory();
      if local.None? { return false; }
      var p := DerivePolicy(c.policy, c.chan, remote);
      if p.None? || !IsPrefix(local.value, remote) { return false; }
      WritePolicyEvents(remote[|local.value|..]);
      ok := true;
    }

    method SavePolicyConflict(es: seq<PolicyEvent>) returns (ok: bool)
      modifies this
      ensures View() == Perform(c, old(View()), PolicySave(es))
      ensures ok <==> PolicyOk(c, es) && es != []
      ensures policySaved == (if ok then old(policySaved)[es[|es| - 1].id := es] else old(policySaved))
      ensures policy == old(policy)
      ensures moderation == old(moderation) && moderationSaved == old(moderationSaved)
    {
      var p := DerivePolicy(c.policy, c.chan, es);
      if p.None? || es == [] { return false; }
      policySaved := policySaved[es[|es| - 1].id := es];
      ok := true;
    }

    /** Saves the active history unless it has the head of the selected one. */
    method PreservePolicy(es: seq<PolicyEvent>)
      requires PolicyOk(c, policy)
      modifies this
      ensures View() == old(View()).(policy := Displace(old(View().policy), es))
    {
      if policy != [] && Head(policy) != Head(es) {
        var saved := SavePolicyConflict(policy);
        assert saved;
      }
    }

    /** Makes the history filed under `head` the active one, once the displaced history is filed under its own
        head, unless that is the same. */
    method ResolvePolicyConflict(head: Id) returns (ok: bool)
      modifies this
      ensures View() == Perform(c, old(View()), PolicyResolve(head))
      ensures ok ==> Head(policy) == Some(head)
    {
      var filed := Filed(View().policy, head);
      if filed.None? { return false; }
      var es := filed.value;
      var p := DerivePolicy(c.policy, c.chan, es);
      if p.None? { return false; }
      var current := ReadPolicyHistory();
      if current.None? { return false; }
      PreservePolicy(es);
      policy := es;
      ok := true;
    }

    method AppendModerationAction(signer: Key, ts: int, action: M.Action) returns (ok: bool)
      modifies this
      ensures View() == Perform(c, old(View()), ModerationLocal(signer, ts, action))
      ensures ok <==> |moderation| == |old(moderation)| + 1
      ensures old(moderation) <= moderation && (!ok ==> moderation == old(moderation))
      ensures moderationSaved == old(moderationSaved)
      ensures policy == old(policy) && policySaved == old(policySaved)
    {
      var local := CheckModeration(moderation);
      if !local || policy == [] { return false; }
      var grown := moderation + [SignModeration(c, Head(moderation), Head(policy).value, signer, ts, action)];
      var fine := CheckModeration(grown);
      if !fine { return false; }
      moderation := grown;
      ok := true;
    }

    method AppendRemoteModerationHistory(remote: seq<M.ModerationEvent>) returns (ok: bool)
      modifies this
      ensures View() == Perform(c, old(View()), ModerationRemote(remote))
      ensures ok <==> ModerationOk(c, old(View()), old(moderation)) && ModerationOk(c, old(View()), remote)
                      && IsPrefix(old(moderation), remote)
      ensures moderation == (if ok then old(moderation) + remote[|old(moderation)|..] else old(moderation))
      ensures moderationSaved == old(moderationSaved)
      ensures policy == old(policy) && policySaved == old(policySaved)
    {
      var local := CheckModeration(moderation);
      if !local { return false; }
      var fine := CheckModeration(remote);
      if !fine || !IsPrefix(moderation, remote) { return false; }
      WriteModerationEvents(remote[|moderation|..]);
      ok := true;
    }

    method SaveModerationConflict(es: seq<M.ModerationEvent>) returns (ok: bool)
      modifies this
      ensures View() == Perform(c, old(View()), ModerationSave(es))
      ensures ok <==> ModerationOk(c, old(View()), es) && es != []
      ensures moderationSaved == (if ok then old(moderationSaved)[es[|es| - 1].id := es] else old(moderationSaved))
      ensures moderation == old(moderation)
      ensures policy == old(policy) && policySaved == old(policySaved)
    {
      var fine := CheckModeration(es);
      if !fine || es == [] { return false; }
      moderationSaved := moderationSaved[es[|es| - 1].id := es];
      ok := true;
    }

    /** The same for moderation. */
    method PreserveModeration(es: seq<M.ModerationEvent>)
      requires ModerationOk(c, View(), moderation)
      modifies this
      ensures View() == old(View()).(moderation := Displace(old(View().moderation), es))
    {
      if moderation != [] && Head(moderation) != Head(es) {
        var saved := SaveModerationConflict(moderation);
        assert saved;
      }
    }

    method ResolveModerationConflict(head: Id) returns (ok: bool)
      modifies this
      ensures View() == Perform(c, old(View()), ModerationResolve(head))
      ensures ok <==> ValidKey(head) && head in old(moderationSaved) && Head(old(moderationSaved)[head]) == Some(head)
                      && ModerationOk(c, old(View()), old(moderationSaved)[head])
                      && ModerationOk(c, old(View()), old(moderation))
      ensures moderation == (if ok then old(moderationSaved)[head] else old(moderation))
      ensures moderationSaved == (if ok && old(moderation) != [] && Head(old(moderation)) != Some(head)
                                  then old(moderationSaved[moderation[|moderation| - 1].id := moderation])
                                  else old(moderationSaved))
      ensures policy == old(policy) && policySaved == old(policySaved)
    {
      var filed := Filed(View().moderation, head);
      if filed.None? { return false; }
      var es := filed.value;
      var fine := CheckModeration(es);
      if !fine { return false; }
      var current := CheckModeration(moderation);
      if !current { return false; }
      PreserveModeration(es);
      moderation := es;
      ok := true;
    }
  }
}
