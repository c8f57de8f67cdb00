/** Channel policy: signed events replayed into owner, roles, mode and visibility. */
module Policy {
  import opened Basics
  import opened Chain

  datatype Mode = Open | Restricted
  datatype Visibility = Public | Private
  datatype Role = Moderator | Writer | Reader

  datatype ChannelPolicy = ChannelPolicy(
    version: nat,
    mode: Mode,
    visibility: Visibility,
    owner: Option<Key>,
    moderators: seq<Key>,
    writers: seq<Key>,
    readers: seq<Key>)

  const DEFAULT := ChannelPolicy(1, Open, Public, None, [], [], [])

  datatype Action =
    | Restrict(owner: Key)
    | Adopt(policy: ChannelPolicy)
    | Grant(role: Role, publicKey: Key)
    | Revoke(role: Role, publicKey: Key)
    | TransferOwner(newOwner: Key)
    | SetVisibility(visibility: Visibility)

  datatype PolicyBody = PolicyBody(channel: Bytes, actor: Key, ts: int, action: Action)
  type PolicyEvent = Event<PolicyBody>
  type PolicyScheme = Scheme<PolicyBody>

  predicate IsHexDigit(b: byte) {
    48 <= b <= 57 || 65 <= b <= 70 || 97 <= b <= 102
  }

  /** 64 hexadecimal digits, in either case: the shape of a public key and of an event id. */
  predicate ValidKey(key: Bytes) {
    |key| == 64 && forall i :: 0 <= i < 64 ==> IsHexDigit(key[i])
  }

  function Without(members: seq<Key>, key: Key): (r: seq<Key>)
    ensures forall k :: k in r <==> k in members && k != key
  {
    if members == [] then []
    else if members[0] == key then Without(members[1..], key)
    else [members[0]] + Without(members[1..], key)
  }

  function Members(p: ChannelPolicy, role: Role): seq<Key> {
    match role
    case Moderator => p.moderators
    case Writer => p.writers
    case Reader => p.readers
  }

  function WithMembers(p: ChannelPolicy, role: Role, members: seq<Key>): ChannelPolicy {
    match role
    case Moderator => p.(moderators := members)
    case Writer => p.(writers := members)
    case Reader => p.(readers := members)
  }

  predicate IsOwner(p: ChannelPolicy, actor: Key) {
    p.owner == Some(actor)
  }

  predicate Governs(p: ChannelPolicy, actor: Key) {
    IsOwner(p, actor) || actor in p.moderators
  }

  predicate AllowsRead(p: ChannelPolicy, key: Key) {
    p.visibility == Public || Governs(p, key) || key in p.writers || key in p.readers
  }

  predicate AllowsAppend(p: ChannelPolicy, author: Key) {
    p.mode == Open || Governs(p, author) || author in p.writers
  }

  /** Only a restricted channel has roles; only its owner manages moderators. */
  predicate MayManage(p: ChannelPolicy, actor: Key, role: Role) {
    p.mode == Restricted && (IsOwner(p, actor) || (role != Moderator && actor in p.moderators))
  }

  /** The policy after one action, or `None` when the action is refused. */
  function Apply(p: ChannelPolicy, actor: Key, action: Action): Option<ChannelPolicy> {
    match action
    case Restrict(owner) =>
      if p.mode == Open && owner == actor && ValidKey(owner)
      then Some(p.(mode := Restricted, owner := Some(owner))) else None
    case Adopt(adopted) =>
      if p.mode == Open && adopted.mode == Restricted && IsOwner(adopted, actor)
      then Some(adopted) else None
    case Grant(role, key) =>
      if !ValidKey(key) || !MayManage(p, actor, role) then None
      else if key in Members(p, role) then Some(p)
      else Some(WithMembers(p, role, Sort(LexLeq, Members(p, role) + [key])))
    case Revoke(role, key) =>
      if MayManage(p, actor, role)
      then Some(WithMembers(p, role, Without(Members(p, role), key))) else None
    case TransferOwner(newOwner) =>
      if ValidKey(newOwner) && IsOwner(p, actor)
      then Some(p.(owner := Some(newOwner), moderators := Without(p.moderators, newOwner),
                writers := Without(p.writers, newOwner), readers := Without(p.readers, newOwner)))
      else None
    case SetVisibility(v) =>
      if p.mode == Restricted && IsOwner(p, actor) then Some(p.(visibility := v)) else None
  }

  /** The event belongs to the channel, follows `previous`, and its id and signature check out. */
  predicate EventOk(s: PolicyScheme, chan: Bytes, previous: Option<Id>, e: PolicyEvent) {
    && e.content.body.channel == chan
    && e.content.previous == previous
    && e.id == s.hash(e.content)
    && s.verify(e.content.body.actor, e.sig, e.content)
  }

  function Step(s: PolicyScheme, chan: Bytes, p: ChannelPolicy, previous: Option<Id>, e: PolicyEvent)
    : Option<ChannelPolicy>
  {
    if EventOk(s, chan, previous, e) then Apply(p, e.content.body.actor, e.content.body.action) else None
  }

  /** The policy a history derives, or `None` when the history is invalid. */
  function Replay(s: PolicyScheme, chan: Bytes, es: seq<PolicyEvent>): Option<ChannelPolicy> {
    if es == [] then Some(DEFAULT) else
    var n := |es| - 1;
    match Replay(s, chan, es[..n])
    case None => None
    case Some(p) => Step(s, chan, p, Head(es[..n]), es[n])
  }

  predicate Valid(s: PolicyScheme, chan: Bytes, es: seq<PolicyEvent>) {
    Replay(s, chan, es).Some?
  }

  /** Replay that starts from the policy and head left by an earlier part. */
  function ReplayFrom(s: PolicyScheme, chan: Bytes, p: ChannelPolicy, previous: Option<Id>, es: seq<PolicyEvent>)
    : Option<ChannelPolicy>
    decreases |es|
  {
    if es == [] then Some(p) else
    match Step(s, chan, p, previous, es[0])
    case None => None
    case Some(q) => ReplayFrom(s, chan, q, Some(es[0].id), es[1..])
  }

  /** A policy whose fields are updated in place while a history is replayed. */
  class PolicyCell {
    var mode: Mode
    var visibility: Visibility
    var version: nat
    var owner: Option<Key>
    var moderators: seq<Key>
    var writers: seq<Key>
    var readers: seq<Key>

    function View(): ChannelPolicy
      reads this
    {
      ChannelPolicy(version, mode, visibility, owner, moderators, writers, readers)
    }

    constructor ()
      ensures View() == DEFAULT
    {
      version, mode, visibility, owner := 1, Open, Public, None;
      moderators, writers, readers := [], [], [];
    }

    /** Replaces the list of one role. */
    method SetMembers(role: Role, members: seq<Key>)
      modifies this
      ensures View() == WithMembers(old(View()), role, members)
    {
      match role
      case Moderator => moderators := members;
      case Writer => writers := members;
      case Reader => readers := members;
    }

    /** Applies one action; a refused action leaves every field as it was. */
    method ApplyAction(actor: Key, action: Action) returns (ok: bool)
      modifies this
      ensures ok == Apply(old(View()), actor, action).Some?
      ensures View() == if ok then Apply(old(View()), actor, action).value else old(View())
    {
      ok := false;
      match action {
        case Restrict(newOwner) =>
          if mode == Restricted || newOwner != actor || !ValidKey(newOwner) { return; }
          mode, owner := Restricted, Some(newOwner);
        case Adopt(adopted) =>
          if mode == Restricted || adopted.mode == Open || !IsOwner(adopted, actor) { return; }
          version, mode, visibility, owner := adopted.version, adopted.mode, adopted.visibility, adopted.owner;
          moderators, writers, readers := adopted.moderators, adopted.writers, adopted.readers;
        case Grant(role, key) =>
          if !ValidKey(key) || !MayManage(View(), actor, role) { return; }
          var members := Members(View(), role);
          if key !in members {
            SetMembers(role, Sort(LexLeq, members + [key]));
          }
        case Revoke(role, key) =>
          if !MayManage(View(), actor, role) { return; }
          SetMembers(role, Without(Members(View(), role), key));
        case TransferOwner(newOwner) =>
          if !ValidKey(newOwner) || owner != Some(actor) { return; }
          owner := Some(newOwner);
          moderators := Without(moderators, newOwner);
          writers := Without(writers, newOwner);
          readers := Without(readers, newOwner);
        case SetVisibility(v) =>
          if mode == Open || owner != Some(actor) { return; }
          visibility := v;
      }
      ok := true;
    }
  }

  /** The replay loop computes `Replay`. */
  method DerivePolicy(s: PolicyScheme, chan: Bytes, es: seq<PolicyEvent>) returns (r: Option<ChannelPolicy>)
    ensures r == Replay(s, chan, es)
  {
    var cell := new PolicyCell();
    var previous: Option<Id> := None;
    for i := 0 to |es|
      invariant Replay(s, chan, es[..i]) == Some(cell.View())
      invariant previous == Head(es[..i])
    {
      var e := es[i];
      assert es[..i + 1][..i] == es[..i];
      var ok := EventOk(s, chan, previous, e);
      if ok {
        ok := cell.ApplyAction(e.content.body.actor, e.content.body.action);
      }
      if !ok {
        assert !Valid(s, chan, es[..i + 1]);
        if Valid(s, chan, es) { ValidPrefix(s, chan, es, i + 1); }
        return None;
      }
      previous := Some(e.id);
    }
    assert es[..|es|] == es;
    return Some(cell.View());
  }

  /** Every prefix of a valid history is valid. */
  lemma {:induction false} ValidPrefix(s: PolicyScheme, chan: Bytes, es: seq<PolicyEvent>, n: nat)
    requires Valid(s, chan, es) && n <= |es|
    ensures Valid(s, chan, es[..n])
    decreases |es|
  {
    if n < |es| {
      ValidPrefix(s, chan, es[..|es| - 1], n);
      assert es[..|es| - 1][..n] == es[..n];
    } else {
      assert es[..n] == es;
    }
  }

  /** What validity says about the event at position `i`. */
  lemma ValidStep(s: PolicyScheme, chan: Bytes, es: seq<PolicyEvent>, i: nat)
    requires Valid(s, chan, es) && i < |es|
    ensures Valid(s, chan, es[..i]) && Valid(s, chan, es[..i + 1])
    ensures EventOk(s, chan, PreviousId(es, i), es[i])
    ensures Replay(s, chan, es[..i + 1])
         == Apply(Replay(s, chan, es[..i]).value, es[i].content.body.actor, es[i].content.body.action)
  {
    ValidPrefix(s, chan, es, i);
    ValidPrefix(s, chan, es, i + 1);
    assert es[..i + 1][..i] == es[..i];
    assert Head(es[..i]) == PreviousId(es, i);
  }

  lemma ValidIsLinked(s: PolicyScheme, chan: Bytes, es: seq<PolicyEvent>)
    requires Valid(s, chan, es)
    ensures Linked(s, es)
  {
    forall i: nat | i < |es| ensures LinkedAt(s, es, i) {
      ValidStep(s, chan, es, i);
    }
  }

  /** Replay that goes on from the result and the head of an earlier part. */
  function Continue(s: PolicyScheme, chan: Bytes, p: Option<ChannelPolicy>, previous: Option<Id>, es: seq<PolicyEvent>)
    : Option<ChannelPolicy>
  {
    match p
    case None => None
    case Some(q) => ReplayFrom(s, chan, q, previous, es)
  }

  /** Replay is compositional: a history can be replayed from any checkpoint. */
  lemma {:induction false} ReplayComposes(s: PolicyScheme, chan: Bytes, a: seq<PolicyEvent>, b: seq<PolicyEvent>)
    ensures Replay(s, chan, a + b) == Continue(s, chan, Replay(s, chan, a), Head(a), b)
    decreases |b|
  {
    if b == [] {
      assert a + b == a;
    } else {
      var c := a + [b[0]];
      assert c[..|a|] == a && a + b == c + b[1..];
      ReplayComposes(s, chan, c, b[1..]);
    }
  }

  /** Signatures aside, equal histories derive equal policies. */
  lemma {:induction false} AgreeingReplay(s: PolicyScheme, chan: Bytes, a: seq<PolicyEvent>, b: seq<PolicyEvent>)
    requires Valid(s, chan, a) && Valid(s, chan, b) && Agree(a, b)
    ensures Replay(s, chan, a) == Replay(s, chan, b)
    decreases |a|
  {
    if a != [] {
      var n := |a| - 1;
      ValidStep(s, chan, a, n);
      ValidStep(s, chan, b, n);
      assert a[..n + 1] == a && b[..n + 1] == b;
      AgreeingReplay(s, chan, a[..n], b[..n]);
    }
  }

  // ---------------------------------------------------------------- whole-history properties

  /** What every derivable policy satisfies. */
  ghost predicate Coherent(p: ChannelPolicy) {
    && (p.mode == Restricted <==> p.owner.Some?)
    && (p.visibility == Private ==> p.mode == Restricted)
  }

  predicate IsGenesis(a: Action) {
    a.Restrict? || a.Adopt?
  }

  /** A history is opened by exactly one genesis event; after it the channel stays restricted. */
  lemma {:induction false} GenesisOnlyFirst(s: PolicyScheme, chan: Bytes, es: seq<PolicyEvent>)
    requires Valid(s, chan, es)
    ensures Coherent(Replay(s, chan, es).value)
    ensures Replay(s, chan, es).value.mode == Restricted <==> es != []
    ensures forall i :: 0 <= i < |es| ==> (IsGenesis(es[i].content.body.action) <==> i == 0)
    decreases |es|
  {
    if es != [] {
      var n := |es| - 1;
      ValidStep(s, chan, es, n);
      assert es[..n + 1] == es;
      GenesisOnlyFirst(s, chan, es[..n]);
      assert forall i :: 0 <= i < n ==> es[i] == es[..n][i];
    }
  }

  /** After the genesis event every actor governed the channel at the moment it acted. */
  lemma ActorsGovern(s: PolicyScheme, chan: Bytes, es: seq<PolicyEvent>, i: nat)
    requires Valid(s, chan, es) && 0 < i < |es|
    ensures Valid(s, chan, es[..i])
    ensures Governs(Replay(s, chan, es[..i]).value, es[i].content.body.actor)
  {
    ValidStep(s, chan, es, i);
    GenesisOnlyFirst(s, chan, es);
  }

  /** Both histories are valid, with the same owner, moderators, mode and visibility. */
  ghost predicate SameRule(p: Option<ChannelPolicy>, q: Option<ChannelPolicy>) {
    && p.Some? && q.Some?
    && p.value.owner == q.value.owner && p.value.moderators == q.value.moderators
    && p.value.mode == q.value.mode && p.value.visibility == q.value.visibility
  }

  ghost predicate SameRuleAt(f: nat -> Option<ChannelPolicy>, k: nat) {
    SameRule(f(k), f(k + 1))
  }

  lemma {:induction false} StepByStep(f: nat -> Option<ChannelPolicy>, i: nat, j: nat)
    requires i <= j && f(i).Some? && forall k: nat :: i <= k < j ==> SameRuleAt(f, k)
    ensures SameRule(f(i), f(j))
    decreases j
  {
    if i < j {
      StepByStep(f, i, j - 1);
      assert SameRuleAt(f, j - 1);
    }
  }

  /** Some event at a position in `[i, j)` is signed by whoever owns the channel at that point. */
  ghost predicate OwnerActs(s: PolicyScheme, chan: Bytes, es: seq<PolicyEvent>, i: nat, j: nat)
    requires Valid(s, chan, es) && i <= j <= |es|
  {
    exists k :: i <= k < j && OwnedAt(s, chan, es, k)
  }

  ghost predicate OwnedAt(s: PolicyScheme, chan: Bytes, es: seq<PolicyEvent>, k: nat)
    requires Valid(s, chan, es) && k < |es|
  {
    ValidPrefix(s, chan, es, k);
    IsOwner(Replay(s, chan, es[..k]).value, es[k].content.body.actor)
  }

  lemma OthersKeepRule(s: PolicyScheme, chan: Bytes, es: seq<PolicyEvent>, k: nat)
    requires Valid(s, chan, es) && 0 < k < |es| && !OwnedAt(s, chan, es, k)
    ensures SameRule(Replay(s, chan, es[..k]), Replay(s, chan, es[..k + 1]))
  {
    ValidStep(s, chan, es, k);
    GenesisOnlyFirst(s, chan, es);
  }

  /** The policies along a history. */
  ghost function Policies(s: PolicyScheme, chan: Bytes, es: seq<PolicyEvent>): nat -> Option<ChannelPolicy> {
    (k: nat) => if k <= |es| then Replay(s, chan, es[..k]) else None
  }

  lemma OthersKeepRuleAt(s: PolicyScheme, chan: Bytes, es: seq<PolicyEvent>, i: nat, j: nat, k: nat)
    requires Valid(s, chan, es) && 0 < i <= k < j <= |es| && !OwnerActs(s, chan, es, i, j)
    ensures SameRuleAt(Policies(s, chan, es), k)
  {
    assert !OwnedAt(s, chan, es, k);
    OthersKeepRule(s, chan, es, k);
  }

  /** Owner, moderators, mode and visibility are the owner's alone: over any stretch of a history
      without an event of the then-current owner they do not change. */
  lemma OnlyOwnerChangesRule(s: PolicyScheme, chan: Bytes, es: seq<PolicyEvent>, i: nat, j: nat)
    requires Valid(s, chan, es) && 0 < i <= j <= |es|
    requires !OwnerActs(s, chan, es, i, j)
    ensures SameRule(Replay(s, chan, es[..i]), Replay(s, chan, es[..j]))
  {
    ValidPrefix(s, chan, es, i);
    forall k: nat | i <= k < j ensures SameRuleAt(Policies(s, chan, es), k) {
      OthersKeepRuleAt(s, chan, es, i, j, k);
    }
    StepByStep(Policies(s, chan, es), i, j);
  }

  /** Removing a role shuts an identity out exactly if the channel is private, the identity does not own it and
      has no other role. */
  lemma RevokeShutsOutIff(p: ChannelPolicy, actor: Key, role: Role, key: Key)
    requires Apply(p, actor, Revoke(role, key)).Some?
    ensures AllowsRead(Apply(p, actor, Revoke(role, key)).value, key) <==>
            p.visibility == Public || IsOwner(p, key) || HasOtherRole(p, role, key)
  {
  }

  predicate HasOtherRole(p: ChannelPolicy, role: Role, key: Key) {
    || (role != Moderator && key in p.moderators)
    || (role != Writer && key in p.writers)
    || (role != Reader && key in p.readers)
  }

  ghost predicate TidyList(members: seq<Key>) {
    SortedBy(LexLeq, members) && Distinct(members) && forall k :: k in members ==> ValidKey(k)
  }

  /** Role lists are sorted, free of repetitions, and hold well-formed keys. */
  ghost predicate Tidy(p: ChannelPolicy) {
    TidyList(p.moderators) && TidyList(p.writers) && TidyList(p.readers)
  }

  lemma {:induction false} WithoutTidy(members: seq<Key>, key: Key)
    requires TidyList(members)
    ensures TidyList(Without(members, key))
  {
    if members != [] {
      var rest := members[1..];
      assert forall i :: 0 <= i < |rest| ==> rest[i] == members[i + 1];
      WithoutTidy(rest, key);
      var r := Without(rest, key);
      forall i | 0 <= i < |r| ensures LexLeq(members[0], r[i]) && members[0] != r[i] {
        assert r[i] in rest;
      }
    }
  }

  lemma GrantTidy(members: seq<Key>, key: Key)
    requires TidyList(members) && ValidKey(key) && key !in members
    ensures TidyList(Sort(LexLeq, members + [key]))
  {
    var grown := members + [key];
    var r := Sort(LexLeq, grown);
    LexIsTotalOrder();
    SortSorts(LexLeq, grown);
    forall i, j | 0 <= i < j < |r| ensures r[i] != r[j] {
      DistinctCount(grown, r[i]);
      if r[i] == r[j] { RepeatCounts(r, i, j); }
    }
  }

  /** If adopted legacy policies are tidy, so is every derived policy. */
  lemma {:induction false} RolesStayTidy(s: PolicyScheme, chan: Bytes, es: seq<PolicyEvent>)
    requires Valid(s, chan, es)
    requires forall i :: 0 <= i < |es| && es[i].content.body.action.Adopt? ==> Tidy(es[i].content.body.action.policy)
    ensures Tidy(Replay(s, chan, es).value)
    decreases |es|
  {
    if es != [] {
      var n := |es| - 1;
      ValidStep(s, chan, es, n);
      assert es[..n + 1] == es;
      assert es[n] in es;
      RolesStayTidy(s, chan, es[..n]);
      TidyStep(Replay(s, chan, es[..n]).value, es[n].content.body.actor, es[n].content.body.action);
    }
  }

  ghost predicate TidyAt(s: PolicyScheme, chan: Bytes, es: seq<PolicyEvent>, n: nat)
    requires n <= |es|
  {
    var p := Replay(s, chan, es[..n]);
    p.Some? && Tidy(p.value)
  }

  /** The policy was tidy at every point of the history. */
  ghost predicate AlwaysTidy(s: PolicyScheme, chan: Bytes, es: seq<PolicyEvent>) {
    forall n: nat :: n <= |es| ==> TidyAt(s, chan, es, n)
  }

  /** An adopted policy is taken over as it is: along a history the role lists are tidy throughout exactly if
      the adoption that opened it, if one did, was tidy. */
  lemma TidyIffOpeningTidy(s: PolicyScheme, chan: Bytes, es: seq<PolicyEvent>)
    requires Valid(s, chan, es)
    ensures AlwaysTidy(s, chan, es) <==>
            (es != [] && es[0].content.body.action.Adopt? ==> Tidy(es[0].content.body.action.policy))
  {
    GenesisOnlyFirst(s, chan, es);
    if es != [] && es[0].content.body.action.Adopt? {
      ValidStep(s, chan, es, 0);
      assert Replay(s, chan, es[..1]) == Some(es[0].content.body.action.policy);
      assert AlwaysTidy(s, chan, es) ==> TidyAt(s, chan, es, 1);
    }
    if es != [] && es[0].content.body.action.Adopt? ==> Tidy(es[0].content.body.action.policy) {
      forall n: nat | n <= |es| ensures TidyAt(s, chan, es, n) {
        ValidPrefix(s, chan, es, n);
        RolesStayTidy(s, chan, es[..n]);
      }
    }
  }

  /** The opening event by which `owner` adopts a policy that lists it twice as a moderator. */
  function UntidyAdoption(s: PolicyScheme, chan: Bytes, owner: Key, ts: int): PolicyEvent {
    var adopted := ChannelPolicy(1, Restricted, Public, Some(owner), [owner, owner], [], []);
    var content := Payload(None, PolicyBody(chan, owner, ts, Adopt(adopted)));
    Event(s.hash(content), content, s.sign(owner, content))
  }

  /** Nothing refuses it, under any scheme whose signatures verify. */
  lemma UntidyAdoptionIsValid(s: PolicyScheme, chan: Bytes, owner: Key, ts: int)
    requires SignsCorrectly(s)
    ensures Valid(s, chan, [UntidyAdoption(s, chan, owner, ts)])
    ensures !AlwaysTidy(s, chan, [UntidyAdoption(s, chan, owner, ts)])
  {
    var e := UntidyAdoption(s, chan, owner, ts);
    var adopted := e.content.body.action.policy;
    assert [e][..0] == [];
    assert adopted.moderators[0] == adopted.moderators[1];
    TidyIffOpeningTidy(s, chan, [e]);
  }

  lemma TidyStep(p: ChannelPolicy, actor: Key, action: Action)
    requires Tidy(p) && Apply(p, actor, action).Some?
    requires action.Adopt? ==> Tidy(action.policy)
    ensures Tidy(Apply(p, actor, action).value)
  {
    match action
    case Grant(role, key) =>
      if key !in Members(p, role) { GrantTidy(Members(p, role), key); }
    case Revoke(role, key) => WithoutTidy(Members(p, role), key);
    case TransferOwner(k) =>
      WithoutTidy(p.moderators, k);
      WithoutTidy(p.writers, k);
      WithoutTidy(p.readers, k);
    case _ =>
  }

  /** Keeping the local copy of a shared part and appending the peer's remainder yields a valid
      history that derives exactly the peer's policy. */
  lemma SpliceValid(s: PolicyScheme, u: set<Payload<PolicyBody>>, chan: Bytes, a: seq<PolicyEvent>, b: seq<PolicyEvent>)
    requires CollisionFree(s, u) && DrawnFrom(a, u) && DrawnFrom(b, u)
    requires Valid(s, chan, a) && Valid(s, chan, b) && IsPrefix(a, b)
    ensures Agree(a + b[|a|..], b) && DrawnFrom(a + b[|a|..], u)
    ensures Replay(s, chan, a + b[|a|..]) == Replay(s, chan, b)
    ensures Valid(s, chan, a + b[|a|..])
  {
    ValidIsLinked(s, chan, a);
    ValidIsLinked(s, chan, b);
    PrefixAgrees(s, u, a, b);
    SpliceAgrees(s, u, a, b);
    SpliceReplays(s, chan, a, b);
  }

  lemma SpliceReplays(s: PolicyScheme, chan: Bytes, a: seq<PolicyEvent>, b: seq<PolicyEvent>)
    requires Valid(s, chan, a) && Valid(s, chan, b) && |a| <= |b| && Agree(a, b[..|a|])
    ensures Replay(s, chan, a + b[|a|..]) == Replay(s, chan, b)
  {
    ValidPrefix(s, chan, b, |a|);
    AgreeingReplay(s, chan, a, b[..|a|]);
    ReplayComposes(s, chan, a, b[|a|..]);
    ReplayComposes(s, chan, b[..|a|], b[|a|..]);
    assert b[..|a|] + b[|a|..] == b;
  }
}
