/** The administrative part of a sync session: two nodes compare their policy histories and then their
    moderation histories, take over the longer one, or quarantine each other's on a fork.
 */
module Reconcile {
  import opened Basics
  import opened Chain
  import opened Policy
  import opened Roles
  import opened Admin
  import opened AdminStore
  import M = Moderation

  /** What the server sends back; silence when it gives up. */
  datatype Reply<+B> = Silence | Conflict(events: seq<Event<B>>) | Update(events: seq<Event<B>>)

  predicate MayRead(c: M.Context, es: seq<PolicyEvent>, key: Key) {
    match Replay(c.policy, c.chan, es)
    case None => false
    case Some(p) => AllowsRead(p, key)
  }

  predicate Comparable<B>(a: seq<Event<B>>, b: seq<Event<B>>) {
    IsPrefix(a, b) || IsPrefix(b, a)
  }

  /** The server's policy ledger and answer for a requester that reported `remote`. */
  function ServePolicy(c: M.Context, l: Ledger<PolicyBody>, requester: Key, remote: seq<PolicyEvent>)
    : (Ledger<PolicyBody>, Reply<PolicyBody>)
  {
    if !PolicyOk(c, remote) || !MayRead(c, l.active, requester) then (l, Silence)
    else if !Comparable(l.active, remote) then (PolicyOp(c, l, PolicySave(remote)), Conflict(l.active))
    else
      var next := if |remote| > |l.active| then PolicyOp(c, l, PolicyRemote(remote)) else l;
      (next, if MayRead(c, next.active, requester) then Update(next.active) else Silence)
  }

  /** The client's policy ledger after the answer, and whether it goes on. */
  function FollowPolicy(c: M.Context, l: Ledger<PolicyBody>, reply: Reply<PolicyBody>): (Ledger<PolicyBody>, bool) {
    match reply
    case Silence => (l, false)
    case Conflict(es) => (PolicyOp(c, l, PolicySave(es)), false)
    case Update(es) =>
      (PolicyOp(c, l, PolicyRemote(es)), PolicyOk(c, l.active) && PolicyOk(c, es) && IsPrefix(l.active, es))
  }

  function ServeModeration(c: M.Context, st: AdminState, remote: seq<M.ModerationEvent>)
    : (Ledger<M.ModerationBody>, Reply<M.ModerationBody>)
  {
    var l := st.moderation;
    if !ModerationOk(c, st, remote) || !ModerationOk(c, st, l.active) then (l, Silence)
    else if !Comparable(l.active, remote) then (ModerationOp(c, st, ModerationSave(remote)), Conflict(l.active))
    else
      var next := if |remote| > |l.active| then ModerationOp(c, st, ModerationRemote(remote)) else l;
      (next, Update(next.active))
  }

  function FollowModeration(c: M.Context, st: AdminState, reply: Reply<M.ModerationBody>)
    : (Ledger<M.ModerationBody>, bool)
  {
    var l := st.moderation;
    match reply
    case Silence => (l, false)
    case Conflict(es) => (ModerationOp(c, st, ModerationSave(es)), false)
    case Update(es) =>
      (ModerationOp(c, st, ModerationRemote(es)),
       ModerationOk(c, st, l.active) && ModerationOk(c, st, es) && IsPrefix(l.active, es))
  }

  // ---------------------------------------------------------------- the same on the files

  method CheckReader(files: AdminFiles, key: Key) returns (ok: bool)
    ensures ok == MayRead(files.c, files.policy, key)
  {
    var p := DerivePolicy(files.c.policy, files.c.chan, files.policy);
    ok := p.Some? && AllowsRead(p.value, key);
  }

  method CheckPolicy(files: AdminFiles, es: seq<PolicyEvent>) returns (ok: bool)
    ensures ok == PolicyOk(files.c, es)
  {
    var p := DerivePolicy(files.c.policy, files.c.chan, es);
    ok := p.Some?;
  }

  /** Files a fork, or takes over a longer history. */
  method TakeStatus(files: AdminFiles, remote: seq<PolicyEvent>) returns (fork: bool)
    modifies files
    ensures fork == !Comparable(old(files.policy), remote)
    ensures files.View() ==
            if fork then Perform(files.c, old(files.View()), PolicySave(remote))
            else if |remote| > |old(files.policy)| then Perform(files.c, old(files.View()), PolicyRemote(remote))
            else old(files.View())
  {
    var localPrefix, remotePrefix := IsPrefix(files.policy, remote), IsPrefix(remote, files.policy);
    fork := !localPrefix && !remotePrefix;
    if fork {
      var saved := files.SavePolicyConflict(remote);
    } else if localPrefix && |remote| > |files.policy| {
      var extended := files.AppendRemotePolicyHistory(remote);
    }
  }

  /** The server's steps on its files. */
  method AnswerStatus(files: AdminFiles, requester: Key, remote: seq<PolicyEvent>) returns (reply: Reply<PolicyBody>)
    modifies files
    ensures (files.View().policy, reply) == ServePolicy(files.c, old(files.View().policy), requester, remote)
    ensures files.View().moderation == old(files.View().moderation)
  {
    var theirs := CheckPolicy(files, remote);
    if !theirs { return Silence; }
    var admitted := CheckReader(files, requester);
    if !admitted { return Silence; }
    var fork := TakeStatus(files, remote);
    if fork { return Conflict(files.policy); }
    admitted := CheckReader(files, requester);
    reply := if admitted then Update(files.policy) else Silence;
  }

  /** The client's steps on its files. */
  method FollowStatus(files: AdminFiles, reply: Reply<PolicyBody>) returns (goesOn: bool)
    modifies files
    ensures (files.View().policy, goesOn) == FollowPolicy(files.c, old(files.View().policy), reply)
    ensures files.View().moderation == old(files.View().moderation)
  {
    match reply
    case Silence => goesOn := false;
    case Conflict(es) =>
      var saved := files.SavePolicyConflict(es);
      goesOn := false;
    case Update(es) => goesOn := files.AppendRemotePolicyHistory(es);
  }

  // ---------------------------------------------------------------- two policy ledgers

  function Longer<B>(a: seq<Event<B>>, b: seq<Event<B>>): seq<Event<B>> {
    if |b| > |a| then b else a
  }

  ghost predicate PolicyReady(c: M.Context, u: Universe, l: Ledger<PolicyBody>) {
    Lawful(c, u) && DrawnFrom(l.active, u.policy) && PolicyOk(c, l.active)
  }

  lemma PrefixTransitive<B>(a: seq<Event<B>>, b: seq<Event<B>>, d: seq<Event<B>>)
    requires IsPrefix(a, b) && IsPrefix(b, d)
    ensures IsPrefix(a, d)
  {
  }

  lemma SameReaders(c: M.Context, u: Universe, a: seq<PolicyEvent>, b: seq<PolicyEvent>, key: Key)
    requires Lawful(c, u) && DrawnFrom(a, u.policy) && DrawnFrom(b, u.policy) && PolicyOk(c, a) && PolicyOk(c, b)
    requires Agree(a, b)
    ensures MayRead(c, a, key) == MayRead(c, b, key)
  {
    AgreeingReplay(c.policy, c.chan, a, b);
  }

  /** Taking over an extension keeps the own events in front and ends in agreement with the extension. */
  lemma TakesOver(c: M.Context, u: Universe, l: Ledger<PolicyBody>, remote: seq<PolicyEvent>)
    requires PolicyReady(c, u, l) && DrawnFrom(remote, u.policy) && PolicyOk(c, remote) && IsPrefix(l.active, remote)
    ensures var l' := PolicyOp(c, l, PolicyRemote(remote));
            && PolicyReady(c, u, l') && l.active <= l'.active && Agree(l'.active, remote) && l'.saved == l.saved
  {
    SpliceValid(c.policy, u.policy, c.chan, l.active, remote);
    var l' := PolicyOp(c, l, PolicyRemote(remote));
    assert l'.active[..|l.active|] == l.active;
  }

  /** On a fork neither active history changes, and each side files the other's history under its head. */
  lemma ForkIsQuarantined(
    c: M.Context, u: Universe, client: Ledger<PolicyBody>, server: Ledger<PolicyBody>, requester: Key)
    requires PolicyReady(c, u, client) && PolicyReady(c, u, server) && MayRead(c, server.active, requester)
    requires !Comparable(server.active, client.active)
    ensures var (s, reply) := ServePolicy(c, server, requester, client.active);
            var (k, goesOn) := FollowPolicy(c, client, reply);
            && !goesOn && s.active == server.active && k.active == client.active
            && client.active != [] && s.saved == server.saved[client.active[|client.active| - 1].id := client.active]
            && server.active != [] && k.saved == client.saved[server.active[|server.active| - 1].id := server.active]
  {
  }

  /** Otherwise both sides end with the longer history, even when that very history shuts the requester out
      and the server falls silent after taking it over. */
  lemma LongerHistoryWins(
    c: M.Context, u: Universe, client: Ledger<PolicyBody>, server: Ledger<PolicyBody>, requester: Key)
    requires PolicyReady(c, u, client) && PolicyReady(c, u, server) && MayRead(c, server.active, requester)
    requires Comparable(server.active, client.active)
    ensures var longer := Longer(server.active, client.active);
            var (s, reply) := ServePolicy(c, server, requester, client.active);
            var (k, goesOn) := FollowPolicy(c, client, reply);
            && Agree(s.active, longer) && Agree(k.active, longer)
            && server.active <= s.active && client.active <= k.active
            && s.saved == server.saved && k.saved == client.saved
            && PolicyReady(c, u, s) && PolicyReady(c, u, k)
            && (goesOn <==> MayRead(c, longer, requester))
  {
    var (s, reply) := ServePolicy(c, server, requester, client.active);
    if |client.active| > |server.active| {
      TakesOver(c, u, server, client.active);
      SameReaders(c, u, s.active, client.active, requester);
      if reply.Update? { TakesOver(c, u, client, s.active); }
    } else {
      TakesOver(c, u, client, server.active);
    }
  }

  // ---------------------------------------------------------------- two moderation ledgers

  ghost predicate ModerationReady(c: M.Context, u: Universe, st: AdminState) {
    && PolicyReady(c, u, st.policy)
    && DrawnFrom(st.moderation.active, u.moderation) && ModerationOk(c, st, st.moderation.active)
  }

  /** Once the policies agree, each node accepts exactly the moderation histories that the other accepts. */
  lemma SameModeration(c: M.Context, u: Universe, a: AdminState, b: AdminState, es: seq<M.ModerationEvent>)
    requires PolicyReady(c, u, a.policy) && PolicyReady(c, u, b.policy) && Agree(a.policy.active, b.policy.active)
    ensures ModerationOk(c, a, es) == ModerationOk(c, b, es)
  {
    if ModerationOk(c, a, es) { M.PolicyExtension(c, u.policy, a.policy.active, b.policy.active, es); }
    if ModerationOk(c, b, es) { M.PolicyExtension(c, u.policy, b.policy.active, a.policy.active, es); }
  }

  /** Taking over a longer moderation history keeps the own events in front and stays valid. */
  lemma ModerationTakesOver(c: M.Context, u: Universe, st: AdminState, remote: seq<M.ModerationEvent>)
    requires ModerationReady(c, u, st) && DrawnFrom(remote, u.moderation) && ModerationOk(c, st, remote)
    requires IsPrefix(st.moderation.active, remote)
    ensures var l' := ModerationOp(c, st, ModerationRemote(remote));
            && ModerationReady(c, u, st.(moderation := l')) && st.moderation.active <= l'.active
            && Agree(l'.active, remote) && l'.saved == st.moderation.saved
  {
    var mine := st.moderation.active;
    M.ValidIsLinked(c, st.policy.active, mine);
    M.ValidIsLinked(c, st.policy.active, remote);
    SpliceAgrees(c.moderation, u.moderation, mine, remote);
    SplicedValid(c, st.policy.active, mine, remote);
  }

  lemma SplicedValid(c: M.Context, ps: seq<PolicyEvent>, mine: seq<M.ModerationEvent>, remote: seq<M.ModerationEvent>)
    requires M.Valid(c, ps, mine) && M.Valid(c, ps, remote) && IsPrefix(mine, remote)
    ensures M.Valid(c, ps, mine + remote[|mine|..])
  {
    M.ReplayIff(c, ps, mine);
    M.ReplayIff(c, ps, remote);
    SplicedEach(c, ps, mine, remote);
    M.ReplayIff(c, ps, mine + remote[|mine|..]);
  }

  lemma SplicedEach(c: M.Context, ps: seq<PolicyEvent>, mine: seq<M.ModerationEvent>, remote: seq<M.ModerationEvent>)
    requires M.EachOk(c, ps, mine) && M.EachOk(c, ps, remote) && IsPrefix(mine, remote)
    ensures M.EachOk(c, ps, mine + remote[|mine|..])
  {
    var spliced := mine + remote[|mine|..];
    forall i: nat | i < |spliced| ensures M.OkAt(c, ps, spliced, i) {
      if i < |mine| { assert M.OkAt(c, ps, mine, i); } else { assert M.OkAt(c, ps, remote, i); }
    }
  }

  /** With agreeing policies a moderation fork changes neither history and is quarantined on both sides. */
  lemma ModerationForkIsQuarantined(c: M.Context, u: Universe, client: AdminState, server: AdminState)
    requires ModerationReady(c, u, client) && ModerationReady(c, u, server)
    requires Agree(client.policy.active, server.policy.active)
    requires !Comparable(server.moderation.active, client.moderation.active)
    ensures server.moderation.active != [] && client.moderation.active != []
    ensures var mine, theirs := server.moderation.active, client.moderation.active;
            && ServeModeration(c, server, theirs)
               == (Ledger(mine, server.moderation.saved[theirs[|theirs| - 1].id := theirs]), Conflict(mine))
            && FollowModeration(c, client, Conflict(mine))
               == (Ledger(theirs, client.moderation.saved[mine[|mine| - 1].id := mine]), false)
  {
    SameModeration(c, u, client, server, client.moderation.active);
    SameModeration(c, u, client, server, server.moderation.active);
    ServesFork(c, server, client.moderation.active);
    FollowsConflict(c, client, server.moderation.active);
  }

  lemma ServesFork(c: M.Context, st: AdminState, remote: seq<M.ModerationEvent>)
    requires ModerationOk(c, st, remote) && ModerationOk(c, st, st.moderation.active)
    requires !Comparable(st.moderation.active, remote)
    ensures st.moderation.active != [] && remote != []
    ensures ServeModeration(c, st, remote)
         == (Ledger(st.moderation.active, st.moderation.saved[remote[|remote| - 1].id := remote]),
             Conflict(st.moderation.active))
  {
  }

  lemma FollowsConflict(c: M.Context, st: AdminState, es: seq<M.ModerationEvent>)
    requires ModerationOk(c, st, es) && es != []
    ensures FollowModeration(c, st, Conflict(es))
         == (Ledger(st.moderation.active, st.moderation.saved[es[|es| - 1].id := es]), false)
  {
  }

  /** Otherwise the longer moderation history wins on both sides. */
  lemma LongerModerationWins(c: M.Context, u: Universe, client: AdminState, server: AdminState)
    requires ModerationReady(c, u, client) && ModerationReady(c, u, server)
    requires Agree(client.policy.active, server.policy.active)
    requires Comparable(server.moderation.active, client.moderation.active)
    ensures var longer := Longer(server.moderation.active, client.moderation.active);
            var (s, reply) := ServeModeration(c, server, client.moderation.active);
            var (k, goesOn) := FollowModeration(c, client, reply);
            && goesOn && Agree(s.active, longer) && Agree(k.active, longer)
            && server.moderation.active <= s.active && client.moderation.active <= k.active
            && s.saved == server.moderation.saved && k.saved == client.moderation.saved
  {
    var mine, theirs := server.moderation.active, client.moderation.active;
    SameModeration(c, u, client, server, theirs);
    SameModeration(c, u, client, server, mine);
    var (s, reply) := ServeModeration(c, server, theirs);
    if |theirs| > |mine| {
      ModerationTakesOver(c, u, server, theirs);
      SameModeration(c, u, client, server.(moderation := s), s.active);
      FollowsUpdate(c, u, client, s.active);
    } else {
      FollowsUpdate(c, u, client, mine);
    }
  }

  lemma FollowsUpdate(c: M.Context, u: Universe, client: AdminState, es: seq<M.ModerationEvent>)
    requires ModerationReady(c, u, client) && DrawnFrom(es, u.moderation) && ModerationOk(c, client, es)
    requires IsPrefix(client.moderation.active, es)
    ensures var (k, goesOn) := FollowModeration(c, client, Update(es));
            && goesOn && Agree(k.active, es) && client.moderation.active <= k.active
            && k.saved == client.moderation.saved
  {
    ModerationTakesOver(c, u, client, es);
  }

  // ---------------------------------------------------------------- what is refused

  /** A requester whom the policy history shuts out gets no answer and changes nothing, and neither does one that
      reports an invalid history. */
  lemma StrangersGetNothing(
    c: M.Context, client: Ledger<PolicyBody>, server: Ledger<PolicyBody>, requester: Key, remote: seq<PolicyEvent>)
    requires PolicyOk(c, server.active)
    requires !PolicyOk(c, remote)
             || (MadePrivate(server.active) && !Owns(server.active, requester)
                 && !HasRole(server.active, Moderator, requester) && !HasRole(server.active, Writer, requester)
                 && !HasRole(server.active, Reader, requester))
    ensures ServePolicy(c, server, requester, remote) == (server, Silence)
    ensures FollowPolicy(c, client, Silence) == (client, false)
  {
    ReadsIff(c.policy, c.chan, server.active, requester);
  }

  /** An answer that is invalid, or that does not extend the own history, changes nothing and ends the session; an
      invalid conflict is not filed. */
  lemma BadAnswersChangeNothing(c: M.Context, l: Ledger<PolicyBody>, es: seq<PolicyEvent>)
    ensures !PolicyOk(c, es) || !PolicyOk(c, l.active) || !IsPrefix(l.active, es) ==>
              FollowPolicy(c, l, Update(es)) == (l, false)
    ensures !PolicyOk(c, es) || es == [] ==> FollowPolicy(c, l, Conflict(es)) == (l, false)
  {
  }

  /** The same for moderation: what either side cannot accept changes nothing. */
  lemma BadModerationChangesNothing(c: M.Context, st: AdminState, es: seq<M.ModerationEvent>)
    ensures !ModerationOk(c, st, es) ==> ServeModeration(c, st, es) == (st.moderation, Silence)
    ensures !ModerationOk(c, st, es) || !ModerationOk(c, st, st.moderation.active)
            || !IsPrefix(st.moderation.active, es) ==>
              FollowModeration(c, st, Update(es)) == (st.moderation, false)
    ensures !ModerationOk(c, st, es) || es == [] ==> FollowModeration(c, st, Conflict(es)) == (st.moderation, false)
    ensures FollowModeration(c, st, Silence) == (st.moderation, false)
  {
  }
}
