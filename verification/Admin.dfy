/** The administrative files of one channel: the active policy and moderation histories and the
    quarantined histories saved beside them under their head ids.
 */
module Admin {
  import opened Basics
  import opened Chain
  import opened Policy
  import M = Moderation

  /** An active history and the conflicting ones, each filed under its head. */
  datatype Ledger<+B> = Ledger(active: seq<Event<B>>, saved: map<Id, seq<Event<B>>>)

  datatype AdminState = AdminState(policy: Ledger<PolicyBody>, moderation: Ledger<M.ModerationBody>)

  const EMPTY := AdminState(Ledger([], map[]), Ledger([], map[]))

  // ---------------------------------------------------------------- one ledger

  /** Files a conflicting history under its head, replacing a file of the same name. */
  function Save<B>(l: Ledger<B>, es: seq<Event<B>>): Ledger<B>
    requires es != []
  {
    l.(saved := l.saved[es[|es| - 1].id := es])
  }

  /** Keeps the local copy of the shared part and appends what the peer has beyond it. */
  function Splice<B>(l: Ledger<B>, remote: seq<Event<B>>): Ledger<B>
    requires |l.active| <= |remote|
  {
    l.(active := l.active + remote[|l.active|..])
  }

  /** Preserves the displaced history unless it has the selected head already. */
  function Displace<B>(l: Ledger<B>, es: seq<Event<B>>): Ledger<B> {
    if l.active != [] && Head(l.active) != Head(es) then Save(l, l.active) else l
  }

  function Select<B>(l: Ledger<B>, es: seq<Event<B>>): Ledger<B> {
    Displace(l, es).(active := es)
  }

  /** The history filed under `head`, if the file exists and ends in that head. */
  function Filed<B>(l: Ledger<B>, head: Id): Option<seq<Event<B>>> {
    if ValidKey(head) && head in l.saved && Head(l.saved[head]) == Some(head)
    then Some(l.saved[head]) else None
  }

  // ---------------------------------------------------------------- operations

  datatype Op =
    | PolicyLocal(signer: Key, ts: int, policyAction: Policy.Action)
    | PolicyAdopt(signer: Key, ts: int, cached: ChannelPolicy, adoptTs: int, policyAction: Policy.Action)
    | PolicyRemote(policyEvents: seq<PolicyEvent>)
    | PolicySave(policyEvents: seq<PolicyEvent>)
    | PolicyResolve(head: Id)
    | PolicyResolveCut(head: Id)
    | ModerationLocal(signer: Key, ts: int, moderationAction: M.Action)
    | ModerationRemote(moderationEvents: seq<M.ModerationEvent>)
    | ModerationSave(moderationEvents: seq<M.ModerationEvent>)
    | ModerationResolve(head: Id)
    | ModerationResolveCut(head: Id)

  function SignPolicy(c: M.Context, previous: Option<Id>, signer: Key, ts: int, action: Policy.Action): PolicyEvent {
    var content := Payload(previous, PolicyBody(c.chan, signer, ts, action));
    Event(c.policy.hash(content), content, c.policy.sign(signer, content))
  }

  function SignModeration(c: M.Context, previous: Option<Id>, head: Id, signer: Key, ts: int, action: M.Action)
    : M.ModerationEvent
  {
    var content := Payload(previous, M.ModerationBody(c.chan, signer, ts, head, action));
    Event(c.moderation.hash(content), content, c.moderation.sign(signer, content))
  }

  predicate PolicyOk(c: M.Context, es: seq<PolicyEvent>) {
    Policy.Valid(c.policy, c.chan, es)
  }

  /** Moderation is always judged against the active policy history. */
  predicate ModerationOk(c: M.Context, st: AdminState, es: seq<M.ModerationEvent>) {
    PolicyOk(c, st.policy.active) && M.Valid(c, st.policy.active, es)
  }

  /** The history by which the owner of an unsigned legacy policy adopts it and acts at once. */
  function Adoption(c: M.Context, signer: Key, ts: int, cached: ChannelPolicy, adoptTs: int, action: Policy.Action)
    : seq<PolicyEvent>
  {
    var opening := SignPolicy(c, None, signer, adoptTs, Adopt(cached));
    [opening, SignPolicy(c, Some(opening.id), signer, ts, action)]
  }

  function PolicyOp(c: M.Context, l: Ledger<PolicyBody>, op: Op): Ledger<PolicyBody> {
    match op
    case PolicyLocal(signer, ts, action) =>
      var grown := l.active + [SignPolicy(c, Head(l.active), signer, ts, action)];
      if PolicyOk(c, l.active) && PolicyOk(c, grown) then l.(active := grown) else l
    case PolicyAdopt(signer, ts, cached, adoptTs, action) =>
      var adopted := Adoption(c, signer, ts, cached, adoptTs, action);
      if l.active == [] && cached.mode == Restricted && IsOwner(cached, signer) && PolicyOk(c, adopted)
      then l.(active := adopted) else l
    case PolicyRemote(remote) =>
      if PolicyOk(c, l.active) && PolicyOk(c, remote) && IsPrefix(l.active, remote) then Splice(l, remote) else l
    case PolicySave(es) =>
      if PolicyOk(c, es) && es != [] then Save(l, es) else l
    case PolicyResolve(head) =>
      (match Filed(l, head)
       case None => l
       case Some(es) => if PolicyOk(c, es) && PolicyOk(c, l.active) then Select(l, es) else l)
    case PolicyResolveCut(head) =>
      (match Filed(l, head)
       case None => l
       case Some(es) => if PolicyOk(c, es) && PolicyOk(c, l.active) then Displace(l, es) else l)
    case _ => l
  }

  function ModerationOp(c: M.Context, st: AdminState, op: Op): Ledger<M.ModerationBody> {
    var l := st.moderation;
    match op
    case ModerationLocal(signer, ts, action) =>
      if st.policy.active == [] || !ModerationOk(c, st, l.active) then l else
      var grown := l.active + [SignModeration(c, Head(l.active), Head(st.policy.active).value, signer, ts, action)];
      if ModerationOk(c, st, grown) then l.(active := grown) else l
    case ModerationRemote(remote) =>
      if ModerationOk(c, st, l.active) && ModerationOk(c, st, remote) && IsPrefix(l.active, remote)
      then Splice(l, remote) else l
    case ModerationSave(es) =>
      if ModerationOk(c, st, es) && es != [] then Save(l, es) else l
    case ModerationResolve(head) =>
      (match Filed(l, head)
       case None => l
       case Some(es) => if ModerationOk(c, st, es) && ModerationOk(c, st, l.active) then Select(l, es) else l)
    case ModerationResolveCut(head) =>
      (match Filed(l, head)
       case None => l
       case Some(es) => if ModerationOk(c, st, es) && ModerationOk(c, st, l.active) then Displace(l, es) else l)
    case _ => l
  }

  /** The files after one operation; a refused operation leaves them as they were. A `Cut` resolve is
      one that stops after preserving the displaced history and before replacing the active file. */
  function Perform(c: M.Context, st: AdminState, op: Op): AdminState {
    AdminState(PolicyOp(c, st.policy, op), ModerationOp(c, st, op))
  }

  function Run(c: M.Context, st: AdminState, ops: seq<Op>): AdminState
    decreases |ops|
  {
    if ops == [] then st else Run(c, Perform(c, st, ops[0]), ops[1..])
  }

  // ---------------------------------------------------------------- invariants

  /** The payloads that may be hashed: one finite, collision-free universe per chain. */
  datatype Universe = Universe(policy: set<Payload<PolicyBody>>, moderation: set<Payload<M.ModerationBody>>)

  ghost predicate Lawful(c: M.Context, u: Universe) {
    CollisionFree(c.policy, u.policy) && CollisionFree(c.moderation, u.moderation)
  }

  /** Every history of the ledger is linked, drawn from the universe and filed under its own head. */
  ghost predicate LedgerOk<B>(s: Scheme<B>, u: set<Payload<B>>, l: Ledger<B>) {
    && Linked(s, l.active) && DrawnFrom(l.active, u)
    && (forall h :: h in l.saved ==>
                      Linked(s, l.saved[h]) && DrawnFrom(l.saved[h], u) && Head(l.saved[h]) == Some(h))
  }

  ghost predicate StateOk(c: M.Context, u: Universe, st: AdminState) {
    && LedgerOk(c.policy, u.policy, st.policy)
    && PolicyOk(c, st.policy.active)
    && (forall h :: h in st.policy.saved ==> PolicyOk(c, st.policy.saved[h]))
    && LedgerOk(c.moderation, u.moderation, st.moderation)
  }

  /** The payloads an operation hashes lie in the universe. */
  ghost predicate OpWithin(c: M.Context, u: Universe, st: AdminState, op: Op) {
    match op
    case PolicyLocal(signer, ts, action) =>
      SignPolicy(c, Head(st.policy.active), signer, ts, action).content in u.policy
    case PolicyAdopt(signer, ts, cached, adoptTs, action) =>
      DrawnFrom(Adoption(c, signer, ts, cached, adoptTs, action), u.policy)
    case PolicyRemote(es) => DrawnFrom(es, u.policy)
    case PolicySave(es) => DrawnFrom(es, u.policy)
    case ModerationLocal(signer, ts, action) =>
      st.policy.active != [] ==>
        SignModeration(c, Head(st.moderation.active), Head(st.policy.active).value, signer, ts, action).content
        in u.moderation
    case ModerationRemote(es) => DrawnFrom(es, u.moderation)
    case ModerationSave(es) => DrawnFrom(es, u.moderation)
    case _ => true
  }

  ghost predicate RunWithin(c: M.Context, u: Universe, st: AdminState, ops: seq<Op>)
    decreases |ops|
  {
    ops == [] || (OpWithin(c, u, st, ops[0]) && RunWithin(c, u, Perform(c, st, ops[0]), ops[1..]))
  }

  /** `es` has an event with this id and this payload, under whatever signature. */
  ghost predicate Holds<B>(es: seq<Event<B>>, id: Id, content: Payload<B>) {
    exists i :: 0 <= i < |es| && es[i].id == id && es[i].content == content
  }

  /** The event is in the active history or in a saved one. */
  ghost predicate Kept<B>(l: Ledger<B>, id: Id, content: Payload<B>) {
    Holds(l.active, id, content) || exists h :: h in l.saved && Holds(l.saved[h], id, content)
  }

  ghost predicate NothingLost<B(!new)>(l: Ledger<B>, l': Ledger<B>) {
    forall id, content :: Kept(l, id, content) ==> Kept(l', id, content)
  }

  /** Overwriting a file of the same name loses nothing: the head fixes what the file held. */
  lemma SaveKeeps<B(!new)>(s: Scheme<B>, u: set<Payload<B>>, l: Ledger<B>, es: seq<Event<B>>)
    requires CollisionFree(s, u) && LedgerOk(s, u, l)
    requires es != [] && Linked(s, es) && DrawnFrom(es, u)
    ensures LedgerOk(s, u, Save(l, es))
    ensures NothingLost(l, Save(l, es))
    ensures forall id, content :: Holds(es, id, content) ==> Kept(Save(l, es), id, content)
  {
    var head := es[|es| - 1].id;
    var l' := Save(l, es);
    assert head in l'.saved && l'.saved[head] == es;
    forall id, content | Kept(l, id, content) ensures Kept(l', id, content) {
      if !Holds(l.active, id, content) {
        var h :| h in l.saved && Holds(l.saved[h], id, content);
        assert h in l'.saved;
        if h == head {
          HeadCommitment(s, u, l.saved[h], es);
        }
      }
    }
  }

  lemma SelectKeeps<B(!new)>(s: Scheme<B>, u: set<Payload<B>>, l: Ledger<B>, head: Id)
    requires CollisionFree(s, u) && LedgerOk(s, u, l) && Filed(l, head).Some?
    ensures LedgerOk(s, u, Displace(l, l.saved[head])) && LedgerOk(s, u, Select(l, l.saved[head]))
    ensures NothingLost(l, Displace(l, l.saved[head])) && NothingLost(l, Select(l, l.saved[head]))
  {
    var es := l.saved[head];
    var mid := Displace(l, es);
    if l.active != [] && Head(l.active) != Head(es) {
      SaveKeeps(s, u, l, l.active);
    }
    var l' := Select(l, es);
    forall id, content | Kept(l, id, content) ensures Kept(l', id, content) {
      assert Kept(mid, id, content);
      if h :| h in mid.saved && Holds(mid.saved[h], id, content) {
        assert h in l'.saved;
      } else {
        assert Holds(l.active, id, content);
        HeadCommitment(s, u, l.active, es);
      }
    }
  }

  lemma SpliceKeeps<B(!new)>(s: Scheme<B>, u: set<Payload<B>>, l: Ledger<B>, remote: seq<Event<B>>)
    requires LedgerOk(s, u, l) && Linked(s, remote) && DrawnFrom(remote, u) && IsPrefix(l.active, remote)
    ensures LedgerOk(s, u, Splice(l, remote)) && NothingLost(l, Splice(l, remote))
  {
    SpliceLinked(s, l.active, remote);
    assert Splice(l, remote).active[..|l.active|] == l.active;
  }

  lemma GrowFromNothing(c: M.Context, u: Universe, l: Ledger<PolicyBody>, es: seq<PolicyEvent>)
    requires LedgerOk(c.policy, u.policy, l) && DrawnFrom(es, u.policy)
    ensures PolicyOk(c, es) ==> LedgerOk(c.policy, u.policy, l.(active := es))
    ensures l.active == [] ==> NothingLost(l, l.(active := es))
  {
    if PolicyOk(c, es) { ValidIsLinked(c.policy, c.chan, es); }
  }

  /** Each policy operation keeps the active history valid and loses no event. */
  lemma PolicyStep(c: M.Context, u: Universe, st: AdminState, op: Op)
    requires Lawful(c, u) && StateOk(c, u, st) && OpWithin(c, u, st, op)
    ensures var l' := PolicyOp(c, st.policy, op);
            && LedgerOk(c.policy, u.policy, l') && PolicyOk(c, l'.active)
            && (forall h :: h in l'.saved ==> PolicyOk(c, l'.saved[h]))
            && NothingLost(st.policy, l')
  {
    var l := st.policy;
    match op
    case PolicyLocal(signer, ts, action) =>
      var grown := l.active + [SignPolicy(c, Head(l.active), signer, ts, action)];
      if PolicyOk(c, grown) {
        ValidIsLinked(c.policy, c.chan, grown);
      }
    case PolicyAdopt(signer, ts, cached, adoptTs, action) =>
      GrowFromNothing(c, u, l, Adoption(c, signer, ts, cached, adoptTs, action));
    case PolicyRemote(remote) =>
      if PolicyOk(c, remote) && IsPrefix(l.active, remote) {
        ValidIsLinked(c.policy, c.chan, remote);
        SpliceKeeps(c.policy, u.policy, l, remote);
        SpliceValid(c.policy, u.policy, c.chan, l.active, remote);
      }
    case PolicySave(es) =>
      if PolicyOk(c, es) && es != [] {
        ValidIsLinked(c.policy, c.chan, es);
        SaveKeeps(c.policy, u.policy, l, es);
      }
    case PolicyResolve(head) =>
      if Filed(l, head).Some? { SelectKeeps(c.policy, u.policy, l, head); }
    case PolicyResolveCut(head) =>
      if Filed(l, head).Some? { SelectKeeps(c.policy, u.policy, l, head); }
    case _ =>
  }

  lemma ModerationStep(c: M.Context, u: Universe, st: AdminState, op: Op)
    requires Lawful(c, u) && StateOk(c, u, st) && OpWithin(c, u, st, op)
    ensures var l' := ModerationOp(c, st, op);
            LedgerOk(c.moderation, u.moderation, l') && NothingLost(st.moderation, l')
  {
    var l := st.moderation;
    match op
    case ModerationLocal(signer, ts, action) =>
      if st.policy.active != [] {
        var grown := l.active + [SignModeration(c, Head(l.active), Head(st.policy.active).value, signer, ts, action)];
        if ModerationOk(c, st, grown) {
          M.ValidIsLinked(c, st.policy.active, grown);
        }
      }
    case ModerationRemote(remote) =>
      if ModerationOk(c, st, remote) && IsPrefix(l.active, remote) {
        M.ValidIsLinked(c, st.policy.active, remote);
        SpliceKeeps(c.moderation, u.moderation, l, remote);
      }
    case ModerationSave(es) =>
      if ModerationOk(c, st, es) && es != [] {
        M.ValidIsLinked(c, st.policy.active, es);
        SaveKeeps(c.moderation, u.moderation, l, es);
      }
    case ModerationResolve(head) =>
      if Filed(l, head).Some? { SelectKeeps(c.moderation, u.moderation, l, head); }
    case ModerationResolveCut(head) =>
      if Filed(l, head).Some? { SelectKeeps(c.moderation, u.moderation, l, head); }
    case _ =>
  }

  /** Over every run of appends, remote appends, saves, resolutions and interrupted resolutions, the
      active policy history stays valid and no administrative event is ever lost. */
  lemma {:induction false} NoEventIsEverLost(c: M.Context, u: Universe, st: AdminState, ops: seq<Op>)
    requires Lawful(c, u) && StateOk(c, u, st) && RunWithin(c, u, st, ops)
    ensures StateOk(c, u, Run(c, st, ops))
    ensures NothingLost(st.policy, Run(c, st, ops).policy)
    ensures NothingLost(st.moderation, Run(c, st, ops).moderation)
    decreases |ops|
  {
    if ops != [] {
      var next := Perform(c, st, ops[0]);
      PolicyStep(c, u, st, ops[0]);
      ModerationStep(c, u, st, ops[0]);
      NoEventIsEverLost(c, u, next, ops[1..]);
    }
  }

  lemma {:induction false} RunSplits(c: M.Context, u: Universe, st: AdminState, a: seq<Op>, b: seq<Op>)
    ensures Run(c, st, a + b) == Run(c, Run(c, st, a), b)
    ensures RunWithin(c, u, st, a + b) ==> RunWithin(c, u, st, a) && RunWithin(c, u, Run(c, st, a), b)
    decreases |a|
  {
    if a == [] {
      assert a + b == b;
    } else {
      assert (a + b)[1..] == a[1..] + b;
      RunSplits(c, u, Perform(c, st, a[0]), a[1..], b);
    }
  }

  /** What was active at any moment of a run that started with empty files is kept at the end of it. */
  lemma OnceActiveAlwaysKept(c: M.Context, u: Universe, ops: seq<Op>, n: nat)
    requires Lawful(c, u) && RunWithin(c, u, EMPTY, ops) && n <= |ops|
    ensures var earlier, now := Run(c, EMPTY, ops[..n]), Run(c, EMPTY, ops);
            && (forall e :: e in earlier.policy.active ==> Kept(now.policy, e.id, e.content))
            && (forall e :: e in earlier.moderation.active ==> Kept(now.moderation, e.id, e.content))
            && PolicyOk(c, now.policy.active)
  {
    var earlier := Run(c, EMPTY, ops[..n]);
    assert ops == ops[..n] + ops[n..];
    RunSplits(c, u, EMPTY, ops[..n], ops[n..]);
    NoEventIsEverLost(c, u, EMPTY, ops[..n]);
    NoEventIsEverLost(c, u, earlier, ops[n..]);
    forall e | e in earlier.policy.active ensures Kept(earlier.policy, e.id, e.content) {
      assert Holds(earlier.policy.active, e.id, e.content);
    }
    forall e | e in earlier.moderation.active ensures Kept(earlier.moderation, e.id, e.content) {
      assert Holds(earlier.moderation.active, e.id, e.content);
    }
  }

  // ---------------------------------------------------------------- when a local append succeeds

  /** A locally signed action is appended exactly when the current policy lets its signer do it. */
  lemma LocalAppendIffAllowed(c: M.Context, l: Ledger<PolicyBody>, signer: Key, ts: int, action: Policy.Action)
    requires SignsCorrectly(c.policy) && PolicyOk(c, l.active)
    ensures var p := Policy.Replay(c.policy, c.chan, l.active).value;
            var after := PolicyOp(c, l, PolicyLocal(signer, ts, action)).active;
            if Policy.Apply(p, signer, action).Some?
            then |after| == |l.active| + 1 && Policy.Replay(c.policy, c.chan, after) == Policy.Apply(p, signer, action)
            else after == l.active
  {
    var e := SignPolicy(c, Head(l.active), signer, ts, action);
    assert (l.active + [e])[..|l.active|] == l.active;
  }

  /** The owner of a restricted legacy policy takes it over, and its first action starts from that policy. */
  lemma AdoptionIffAllowed(
    c: M.Context, l: Ledger<PolicyBody>, signer: Key, ts: int, cached: ChannelPolicy, adoptTs: int,
    action: Policy.Action)
    requires SignsCorrectly(c.policy) && l.active == []
    requires cached.mode == Restricted && IsOwner(cached, signer)
    ensures var after := PolicyOp(c, l, PolicyAdopt(signer, ts, cached, adoptTs, action)).active;
            if Policy.Apply(cached, signer, action).Some?
            then |after| == 2 && Policy.Replay(c.policy, c.chan, after) == Policy.Apply(cached, signer, action)
            else after == []
  {
    var adopted := Adoption(c, signer, ts, cached, adoptTs, action);
    assert adopted[..1] == [adopted[0]] && adopted[..1][..0] == [];
    assert Policy.Replay(c.policy, c.chan, adopted[..1]) == Some(cached);
  }

  // ---------------------------------------------------------------- what resolutions leave

  /** A resolution that is interrupted before the active file is replaced has done everything else. */
  lemma CutResolutions(c: M.Context, st: AdminState, head: Id)
    ensures PolicyOp(c, st.policy, PolicyResolveCut(head))
         == PolicyOp(c, st.policy, PolicyResolve(head)).(active := st.policy.active)
    ensures ModerationOp(c, st, ModerationResolveCut(head))
         == ModerationOp(c, st, ModerationResolve(head)).(active := st.moderation.active)
  {
  }

  /** A displaced history can be selected again: resolving there and back restores the active history, and every
      history that was filed is still filed. */
  lemma ResolvingBack(c: M.Context, l: Ledger<PolicyBody>, there: Id)
    requires PolicyOk(c, l.active) && l.active != []
    requires ValidKey(there) && there in l.saved && Head(l.saved[there]) == Some(there) && PolicyOk(c, l.saved[there])
    requires ValidKey(Head(l.active).value) && Head(l.active) != Some(there)
    ensures var moved := PolicyOp(c, l, PolicyResolve(there));
            var back := PolicyOp(c, moved, PolicyResolve(Head(l.active).value));
            && moved.active == l.saved[there] && back.active == l.active
            && forall h :: h in l.saved && h != Head(l.active).value ==> h in back.saved && back.saved[h] == l.saved[h]
  {
  }

  // ---------------------------------------------------------------- when moderation is frozen

  /** No operation whatever changes the active moderation history. */
  ghost predicate Frozen(c: M.Context, st: AdminState) {
    forall op :: ModerationOp(c, st, op).active == st.moderation.active
  }

  /** A well-formed target for a tombstone. */
  const ZEROS: Id := seq(64, _ => 48 as byte)

  /** A valid policy history has an owner, and a tombstone of the owner is accepted. */
  lemma OwnerMayHide(c: M.Context, u: Universe, st: AdminState, ts: int)
    requires Lawful(c, u) && DrawnFrom(st.policy.active, u.policy) && SignsCorrectly(c.moderation)
    requires st.policy.active != [] && ModerationOk(c, st, st.moderation.active)
    ensures exists owner :: ModerationOp(c, st, ModerationLocal(owner, ts, M.Tombstone(ZEROS, None))).active
                            != st.moderation.active
  {
    var q, es := st.policy.active, st.moderation.active;
    var n := |q| - 1;
    assert q[..n + 1] == q;
    Policy.GenesisOnlyFirst(c.policy, c.chan, q);
    var owner := Policy.Replay(c.policy, c.chan, q).value.owner.value;
    var e := SignModeration(c, Head(es), Head(q).value, owner, ts, M.Tombstone(ZEROS, None));
    Policy.ValidIsLinked(c.policy, c.chan, q);
    DistinctIds(c.policy, u.policy, q, Position(q, q[n].id).value, n);
    assert M.Authorised(c, q, e);
    assert (es + [e])[..|es|] == es;
    assert M.Valid(c, q, es + [e]);
    assert ModerationOp(c, st, ModerationLocal(owner, ts, M.Tombstone(ZEROS, None))).active == es + [e];
  }

  /** Once the policy `q` has replaced `p`, under which the moderation history was valid, that history can
      change exactly if there is a policy and every head the history cites occurs in it. */
  lemma FrozenIff(c: M.Context, u: Universe, p: seq<PolicyEvent>, st: AdminState)
    requires Lawful(c, u) && SignsCorrectly(c.moderation)
    requires PolicyOk(c, p) && DrawnFrom(p, u.policy) && M.Valid(c, p, st.moderation.active)
    requires PolicyOk(c, st.policy.active) && DrawnFrom(st.policy.active, u.policy)
    ensures Frozen(c, st) <==> st.policy.active == [] || !M.HeadsOccur(st.policy.active, st.moderation.active)
  {
    var q, es := st.policy.active, st.moderation.active;
    M.PolicySwitch(c, u.policy, p, q, es);
    if q != [] && M.HeadsOccur(q, es) {
      OwnerMayHide(c, u, st, 0);
    }
  }

  /** The moderation history cites, with the event at `i`, a head of `p` whose place `q` has filled with
      another event. */
  ghost predicate Ousted(p: seq<PolicyEvent>, q: seq<PolicyEvent>, es: seq<M.ModerationEvent>, i: nat, k: nat) {
    i < |es| && k < |p| && k < |q| && p[k].id == es[i].content.body.policyHead && q[k].id != p[k].id
  }

  lemma OustedIsMissing(
    c: M.Context, u: Universe, p: seq<PolicyEvent>, q: seq<PolicyEvent>, es: seq<M.ModerationEvent>, i: nat, k: nat)
    requires Lawful(c, u) && PolicyOk(c, p) && DrawnFrom(p, u.policy) && PolicyOk(c, q) && DrawnFrom(q, u.policy)
    requires Ousted(p, q, es, i, k)
    ensures !M.HeadsOccur(q, es)
  {
    Policy.ValidIsLinked(c.policy, c.chan, p);
    Policy.ValidIsLinked(c.policy, c.chan, q);
    var j := Position(q, p[k].id);
    if j.Some? { SharedIdSharedPast(c.policy, u.policy, q, j.value, p, k); }
  }

  /** A head that was ousted stays ousted until the policy is resolved again: whatever else is appended,
      received or saved, the moderation history does not change. */
  lemma {:induction false} FrozenUntilResolved(
    c: M.Context, u: Universe, p: seq<PolicyEvent>, st: AdminState, ops: seq<Op>, i: nat, k: nat)
    requires Lawful(c, u) && SignsCorrectly(c.moderation) && StateOk(c, u, st) && RunWithin(c, u, st, ops)
    requires PolicyOk(c, p) && DrawnFrom(p, u.policy) && M.Valid(c, p, st.moderation.active)
    requires Ousted(p, st.policy.active, st.moderation.active, i, k)
    requires forall op :: op in ops ==> !op.PolicyResolve?
    ensures Run(c, st, ops).moderation.active == st.moderation.active
    decreases |ops|
  {
    if ops != [] {
      var next := Perform(c, st, ops[0]);
      OustedIsMissing(c, u, p, st.policy.active, st.moderation.active, i, k);
      FrozenIff(c, u, p, st);
      PolicyStep(c, u, st, ops[0]);
      ModerationStep(c, u, st, ops[0]);
      FrozenUntilResolved(c, u, p, next, ops[1..], i, k);
    }
  }
}
