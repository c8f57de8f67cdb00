/** Moderation: a second signed history whose events cite the policy head that authorises them. */
module Moderation {
  import opened Basics
  import opened Chain
  import Policy

  datatype Action =
    | Tombstone(target: Id, reason: Option<Bytes>)
    | Restore(target: Id)

  datatype ModerationBody = ModerationBody(channel: Bytes, actor: Key, ts: int, policyHead: Id, action: Action)
  type ModerationEvent = Event<ModerationBody>
  type ModerationScheme = Scheme<ModerationBody>

  /** Hidden message ids, each with the reason given. */
  type State = map<Id, Option<Bytes>>

  /** The schemes of both chains and the channel they belong to. */
  datatype Context = Context(policy: Policy.PolicyScheme, moderation: ModerationScheme, chan: Bytes)

  /** The actor governed the channel under the policy history up to the head the event cites. */
  predicate Authorised(c: Context, ps: seq<Policy.PolicyEvent>, e: ModerationEvent) {
    match Position(ps, e.content.body.policyHead)
    case None => false
    case Some(k) =>
      match Policy.Replay(c.policy, c.chan, ps[..k + 1])
      case None => false
      case Some(p) => Policy.Governs(p, e.content.body.actor)
  }

  /** The checks that do not look at the policy history. */
  predicate EventOk(c: Context, previous: Option<Id>, e: ModerationEvent) {
    && e.content.body.channel == c.chan
    && e.content.previous == previous
    && e.id == c.moderation.hash(e.content)
    && c.moderation.verify(e.content.body.actor, e.sig, e.content)
    && Policy.ValidKey(e.content.body.action.target)
  }

  function Apply(state: State, action: Action): State {
    match action
    case Tombstone(target, reason) => state[target := reason]
    case Restore(target) => state - {target}
  }

  /** The state a moderation history derives against a policy history. */
  function Replay(c: Context, ps: seq<Policy.PolicyEvent>, es: seq<ModerationEvent>): Option<State> {
    if es == [] then Some(map[]) else
    var n := |es| - 1;
    match Replay(c, ps, es[..n])
    case None => None
    case Some(state) =>
      if EventOk(c, Head(es[..n]), es[n]) && Authorised(c, ps, es[n])
      then Some(Apply(state, es[n].content.body.action)) else None
  }

  predicate Valid(c: Context, ps: seq<Policy.PolicyEvent>, es: seq<ModerationEvent>) {
    Replay(c, ps, es).Some?
  }

  /** The search for a cited head. */
  method FindHead(ps: seq<Policy.PolicyEvent>, id: Id) returns (r: Option<nat>)
    ensures r == Position(ps, id)
  {
    for i := 0 to |ps|
      invariant forall j :: 0 <= j < i ==> ps[j].id != id
    {
      if ps[i].id == id {
        FirstPosition(ps, id, i);
        return Some(i);
      }
    }
    return None;
  }

  lemma {:induction false} FirstPosition(ps: seq<Policy.PolicyEvent>, id: Id, i: nat)
    requires i < |ps| && ps[i].id == id && forall j :: 0 <= j < i ==> ps[j].id != id
    ensures Position(ps, id) == Some(i)
  {
    if i > 0 { FirstPosition(ps[1..], id, i - 1); }
  }

  /** The replay loop computes `Replay`. The policy history it is given has itself been replayed. */
  method DeriveModeration(c: Context, ps: seq<Policy.PolicyEvent>, es: seq<ModerationEvent>)
    returns (r: Option<State>)
    ensures r == Replay(c, ps, es)
  {
    var state: State := map[];
    var previous: Option<Id> := None;
    for i := 0 to |es|
      invariant Replay(c, ps, es[..i]) == Some(state)
      invariant previous == Head(es[..i])
    {
      var e := es[i];
      assert es[..i + 1][..i] == es[..i];
      var ok := false;
      var k := FindHead(ps, e.content.body.policyHead);
      if k.Some? {
        var policy := Policy.DerivePolicy(c.policy, c.chan, ps[..k.value + 1]);
        ok := policy.Some? && Policy.Governs(policy.value, e.content.body.actor) && EventOk(c, previous, e);
      }
      if !ok {
        assert !Valid(c, ps, es[..i + 1]);
        if Valid(c, ps, es) { ValidPrefix(c, ps, es, i + 1); }
        return None;
      }
      match e.content.body.action {
        case Tombstone(target, reason) => state := state[target := reason];
        case Restore(target) => state := state - {target};
      }
      previous := Some(e.id);
    }
    assert es[..|es|] == es;
    return Some(state);
  }

  lemma {:induction false} ValidPrefix(c: Context, ps: seq<Policy.PolicyEvent>, es: seq<ModerationEvent>, n: nat)
    requires Valid(c, ps, es) && n <= |es|
    ensures Valid(c, ps, es[..n])
    decreases |es|
  {
    if n < |es| {
      ValidPrefix(c, ps, es[..|es| - 1], n);
      assert es[..|es| - 1][..n] == es[..n];
    } else {
      assert es[..n] == es;
    }
  }

  lemma ValidSnoc(c: Context, ps: seq<Policy.PolicyEvent>, es: seq<ModerationEvent>, e: ModerationEvent)
    requires Valid(c, ps, es)
    ensures Valid(c, ps, es + [e]) <==> EventOk(c, Head(es), e) && Authorised(c, ps, e)
  {
    assert (es + [e])[..|es|] == es;
  }

  /** What the actions of a history amount to, whoever signed them. */
  function Effects(es: seq<ModerationEvent>): State {
    if es == [] then map[] else Apply(Effects(es[..|es| - 1]), es[|es| - 1].content.body.action)
  }

  /** The event at `i` is in order. */
  ghost predicate OkAt(c: Context, ps: seq<Policy.PolicyEvent>, es: seq<ModerationEvent>, i: nat)
    requires i < |es|
  {
    EventOk(c, PreviousId(es, i), es[i]) && Authorised(c, ps, es[i])
  }

  /** Validity, event by event. */
  ghost predicate EachOk(c: Context, ps: seq<Policy.PolicyEvent>, es: seq<ModerationEvent>) {
    forall i: nat {:trigger OkAt(c, ps, es, i)} :: i < |es| ==> OkAt(c, ps, es, i)
  }

  lemma EachOkSnoc(c: Context, ps: seq<Policy.PolicyEvent>, es: seq<ModerationEvent>, n: nat)
    requires |es| == n + 1
    ensures EachOk(c, ps, es) <==>
            EachOk(c, ps, es[..n]) && EventOk(c, Head(es[..n]), es[n]) && Authorised(c, ps, es[n])
  {
    var rest := es[..n];
    assert OkAt(c, ps, es, n) <==> EventOk(c, Head(rest), es[n]) && Authorised(c, ps, es[n]);
    forall i: nat | i < n ensures OkAt(c, ps, es, i) <==> OkAt(c, ps, rest, i) {
      assert PreviousId(es, i) == PreviousId(rest, i);
    }
  }

  lemma {:induction false} ReplayIff(c: Context, ps: seq<Policy.PolicyEvent>, es: seq<ModerationEvent>)
    ensures Valid(c, ps, es) <==> EachOk(c, ps, es)
    ensures Valid(c, ps, es) ==> Replay(c, ps, es) == Some(Effects(es))
    decreases |es|
  {
    if es != [] {
      ReplayIff(c, ps, es[..|es| - 1]);
      EachOkSnoc(c, ps, es, |es| - 1);
    }
  }

  lemma ValidIsLinked(c: Context, ps: seq<Policy.PolicyEvent>, es: seq<ModerationEvent>)
    requires Valid(c, ps, es)
    ensures Linked(c.moderation, es)
  {
    ReplayIff(c, ps, es);
    forall i: nat | i < |es| ensures LinkedAt(c.moderation, es, i) {
      assert OkAt(c, ps, es, i);
    }
  }

  /** The event at `i` is the last word on `target`. */
  ghost predicate LastWord(es: seq<ModerationEvent>, target: Id, i: nat) {
    && i < |es| && es[i].content.body.action.target == target
    && forall j :: i < j < |es| ==> es[j].content.body.action.target != target
  }

  /** A message is hidden exactly when the last event about it is a tombstone, with that event's reason. */
  lemma {:induction false} HiddenIffLastIsTombstone(
    c: Context, ps: seq<Policy.PolicyEvent>, es: seq<ModerationEvent>, target: Id)
    requires Valid(c, ps, es)
    ensures target in Replay(c, ps, es).value <==>
            exists i: nat :: LastWord(es, target, i) && es[i].content.body.action.Tombstone?
    ensures forall i: nat :: LastWord(es, target, i) && es[i].content.body.action.Tombstone? ==>
                               target in Replay(c, ps, es).value
                               && Replay(c, ps, es).value[target] == es[i].content.body.action.reason
  {
    ReplayIff(c, ps, es);
    EffectsByLastWord(es, target);
  }

  lemma {:induction false} EffectsByLastWord(es: seq<ModerationEvent>, target: Id)
    ensures target in Effects(es) <==>
            exists i: nat :: LastWord(es, target, i) && es[i].content.body.action.Tombstone?
    ensures forall i: nat :: LastWord(es, target, i) && es[i].content.body.action.Tombstone? ==>
                               target in Effects(es) && Effects(es)[target] == es[i].content.body.action.reason
    decreases |es|
  {
    if es != [] {
      var n := |es| - 1;
      var rest := es[..n];
      EffectsByLastWord(rest, target);
      if es[n].content.body.action.target == target {
        assert LastWord(es, target, n);
        assert forall i: nat :: LastWord(es, target, i) ==> i == n;
      } else {
        assert forall i: nat :: LastWord(rest, target, i) ==> LastWord(es, target, i) && es[i] == rest[i];
        assert forall i: nat :: LastWord(es, target, i) ==> LastWord(rest, target, i) && es[i] == rest[i];
      }
    }
  }

  /** Every policy head the moderation history cites occurs in `ps`. */
  ghost predicate HeadsOccur(ps: seq<Policy.PolicyEvent>, es: seq<ModerationEvent>) {
    forall i :: 0 <= i < |es| ==> Position(ps, es[i].content.body.policyHead).Some?
  }

  lemma SameHeadSamePolicy(
    c: Context, u: set<Payload<Policy.PolicyBody>>,
    p: seq<Policy.PolicyEvent>, i: nat, q: seq<Policy.PolicyEvent>, j: nat)
    requires CollisionFree(c.policy, u) && DrawnFrom(p, u) && DrawnFrom(q, u)
    requires Policy.Valid(c.policy, c.chan, p) && Policy.Valid(c.policy, c.chan, q)
    requires i < |p| && j < |q| && p[i].id == q[j].id
    ensures Policy.Replay(c.policy, c.chan, p[..i + 1]) == Policy.Replay(c.policy, c.chan, q[..j + 1])
  {
    Policy.ValidIsLinked(c.policy, c.chan, p);
    Policy.ValidIsLinked(c.policy, c.chan, q);
    SharedIdSharedPast(c.policy, u, p, i, q, j);
    Policy.ValidPrefix(c.policy, c.chan, p, i + 1);
    Policy.ValidPrefix(c.policy, c.chan, q, j + 1);
    Policy.AgreeingReplay(c.policy, c.chan, p[..i + 1], q[..j + 1]);
  }

  /** A head that occurs in two valid policy histories authorises the same actors in both. */
  lemma SameHeadSameAuthority(
    c: Context, u: set<Payload<Policy.PolicyBody>>,
    p: seq<Policy.PolicyEvent>, q: seq<Policy.PolicyEvent>, e: ModerationEvent)
    requires CollisionFree(c.policy, u) && DrawnFrom(p, u) && DrawnFrom(q, u)
    requires Policy.Valid(c.policy, c.chan, p) && Policy.Valid(c.policy, c.chan, q)
    requires Position(p, e.content.body.policyHead).Some? && Position(q, e.content.body.policyHead).Some?
    ensures Authorised(c, p, e) == Authorised(c, q, e)
  {
    var i := Position(p, e.content.body.policyHead).value;
    var j := Position(q, e.content.body.policyHead).value;
    SameHeadSamePolicy(c, u, p, i, q, j);
  }

  /** Replacing the policy history `p` by `q` keeps a moderation history valid exactly when every head
      it cites occurs in `q`, and then the derived state is the same. */
  lemma PolicySwitch(
    c: Context, u: set<Payload<Policy.PolicyBody>>,
    p: seq<Policy.PolicyEvent>, q: seq<Policy.PolicyEvent>, es: seq<ModerationEvent>)
    requires CollisionFree(c.policy, u) && DrawnFrom(p, u) && DrawnFrom(q, u)
    requires Policy.Valid(c.policy, c.chan, p) && Policy.Valid(c.policy, c.chan, q)
    requires Valid(c, p, es)
    ensures Valid(c, q, es) <==> HeadsOccur(q, es)
    ensures Valid(c, q, es) ==> Replay(c, q, es) == Replay(c, p, es)
  {
    ReplayIff(c, p, es);
    ReplayIff(c, q, es);
    forall i: nat | i < |es| ensures OkAt(c, q, es, i) <==> Position(q, es[i].content.body.policyHead).Some? {
      assert OkAt(c, p, es, i);
      if Position(q, es[i].content.body.policyHead).Some? { SameHeadSameAuthority(c, u, p, q, es[i]); }
    }
    assert HeadsOccur(q, es) <==> EachOk(c, q, es);
  }

  /** Extending the policy history changes nothing. */
  lemma PolicyExtension(
    c: Context, u: set<Payload<Policy.PolicyBody>>,
    p: seq<Policy.PolicyEvent>, q: seq<Policy.PolicyEvent>, es: seq<ModerationEvent>)
    requires CollisionFree(c.policy, u) && DrawnFrom(p, u) && DrawnFrom(q, u)
    requires Policy.Valid(c.policy, c.chan, p) && Policy.Valid(c.policy, c.chan, q)
    requires Valid(c, p, es) && IsPrefix(p, q)
    ensures Replay(c, q, es) == Replay(c, p, es)
  {
    ReplayIff(c, p, es);
    forall i: nat | i < |es| ensures Position(q, es[i].content.body.policyHead).Some? {
      assert OkAt(c, p, es, i);
      var k := Position(p, es[i].content.body.policyHead).value;
      assert q[k].id == es[i].content.body.policyHead;
    }
    PolicySwitch(c, u, p, q, es);
  }
}
