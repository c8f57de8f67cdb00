/** What a policy history means: who has which role, who owns the channel and what is valid, told by the events of
    the history alone, without replaying it.
 */
module Roles {
  import opened Basics
  import opened Chain
  import opened Policy

  // ---------------------------------------------------------------- the last word

  /** The event decides whether `key` has the role. */
  predicate Concerns(a: Action, role: Role, key: Key) {
    match a
    case Restrict(_) => true
    case Adopt(_) => true
    case Grant(r, k) => r == role && k == key
    case Revoke(r, k) => r == role && k == key
    case TransferOwner(k) => k == key
    case SetVisibility(_) => false
  }

  /** It decides that `key` has it: a grant, or an adopted policy that lists the key. */
  predicate Gives(a: Action, role: Role, key: Key) {
    match a
    case Grant(_, _) => true
    case Adopt(p) =>
      (match role
       case Moderator => key in p.moderators
       case Writer => key in p.writers
       case Reader => key in p.readers)
    case _ => false
  }

  ghost predicate LastWord(es: seq<PolicyEvent>, role: Role, key: Key, i: nat) {
    && i < |es| && Concerns(es[i].content.body.action, role, key)
    && forall j :: i < j < |es| ==> !Concerns(es[j].content.body.action, role, key)
  }

  /** The last event about the role and the key gives it. */
  ghost predicate HasRole(es: seq<PolicyEvent>, role: Role, key: Key) {
    exists i: nat :: LastWord(es, role, key, i) && Gives(es[i].content.body.action, role, key)
  }

  /** The owner an event names. */
  function NamedOwner(a: Action): Option<Key> {
    match a
    case Restrict(k) => Some(k)
    case Adopt(p) => p.owner
    case TransferOwner(k) => Some(k)
    case _ => None
  }

  /** The last event that names an owner names `key`. */
  ghost predicate Owns(es: seq<PolicyEvent>, key: Key) {
    exists i: nat ::
      && i < |es| && NamedOwner(es[i].content.body.action) == Some(key)
      && forall j :: i < j < |es| ==> NamedOwner(es[j].content.body.action) == None
  }

  /** The visibility an event sets. */
  function NamedVisibility(a: Action): Option<Visibility> {
    match a
    case Restrict(_) => Some(Public)
    case Adopt(p) => Some(p.visibility)
    case SetVisibility(v) => Some(v)
    case _ => None
  }

  /** The last event that sets the visibility makes the channel private. */
  ghost predicate MadePrivate(es: seq<PolicyEvent>) {
    exists i: nat ::
      && i < |es| && NamedVisibility(es[i].content.body.action) == Some(Private)
      && forall j :: i < j < |es| ==> NamedVisibility(es[j].content.body.action) == None
  }

  /** The version is 1 unless the history was opened by an adoption. */
  function OpeningVersion(es: seq<PolicyEvent>): nat {
    if es != [] && es[0].content.body.action.Adopt? then es[0].content.body.action.policy.version else 1
  }

  lemma HasRoleSnoc(es: seq<PolicyEvent>, n: nat, role: Role, key: Key)
    requires |es| == n + 1
    ensures var a := es[n].content.body.action;
            HasRole(es, role, key)
            <==> if Concerns(a, role, key) then Gives(a, role, key) else HasRole(es[..n], role, key)
  {
    var a, init := es[n].content.body.action, es[..n];
    if Concerns(a, role, key) {
      assert LastWord(es, role, key, n);
      assert forall i: nat :: LastWord(es, role, key, i) ==> i == n;
    } else {
      assert forall i: nat :: LastWord(es, role, key, i) <==> LastWord(init, role, key, i);
    }
  }

  lemma OwnsSnoc(es: seq<PolicyEvent>, n: nat, key: Key)
    requires |es| == n + 1
    ensures var o := NamedOwner(es[n].content.body.action);
            Owns(es, key) <==> if o.Some? then o == Some(key) else Owns(es[..n], key)
  {
    var o, init := NamedOwner(es[n].content.body.action), es[..n];
    if Owns(init, key) {
      var i: nat :| i < n && NamedOwner(init[i].content.body.action) == Some(key)
                    && forall j :: i < j < n ==> NamedOwner(init[j].content.body.action) == None;
      assert es[i] == init[i];
      assert forall j :: i < j < n ==> es[j] == init[j];
    }
    if Owns(es, key) && o.None? {
      var i: nat :| i < |es| && NamedOwner(es[i].content.body.action) == Some(key)
                    && forall j :: i < j < |es| ==> NamedOwner(es[j].content.body.action) == None;
      assert init[i] == es[i];
      assert forall j :: i < j < n ==> init[j] == es[j];
    }
  }

  lemma MadePrivateSnoc(es: seq<PolicyEvent>, n: nat)
    requires |es| == n + 1
    ensures var v := NamedVisibility(es[n].content.body.action);
            MadePrivate(es) <==> if v.Some? then v == Some(Private) else MadePrivate(es[..n])
  {
    var v, init := NamedVisibility(es[n].content.body.action), es[..n];
    if MadePrivate(init) {
      var i: nat :| i < n && NamedVisibility(init[i].content.body.action) == Some(Private)
                    && forall j :: i < j < n ==> NamedVisibility(init[j].content.body.action) == None;
      assert es[i] == init[i];
      assert forall j :: i < j < n ==> es[j] == init[j];
    }
    if MadePrivate(es) && v.None? {
      var i: nat :| i < |es| && NamedVisibility(es[i].content.body.action) == Some(Private)
                    && forall j :: i < j < |es| ==> NamedVisibility(es[j].content.body.action) == None;
      assert init[i] == es[i];
      assert forall j :: i < j < n ==> init[j] == es[j];
    }
  }

  // ---------------------------------------------------------------- what the derived policy says

  ghost predicate ListsAgree(p: ChannelPolicy, es: seq<PolicyEvent>, key: Key) {
    && (key in p.moderators <==> HasRole(es, Moderator, key))
    && (key in p.writers <==> HasRole(es, Writer, key))
    && (key in p.readers <==> HasRole(es, Reader, key))
  }

  ghost predicate HeadAgrees(p: ChannelPolicy, es: seq<PolicyEvent>, key: Key) {
    && (p.owner == Some(key) <==> Owns(es, key))
    && (p.visibility == Private <==> MadePrivate(es))
    && (p.mode == Restricted <==> es != [])
    && p.version == OpeningVersion(es)
  }

  lemma SortedMembers(members: seq<Key>, key: Key, k: Key)
    ensures k in Sort(LexLeq, members + [key]) <==> k in members || k == key
  {
    LexIsTotalOrder();
    SortSorts(LexLeq, members + [key]);
    assert k in Sort(LexLeq, members + [key]) <==> k in multiset(members + [key]);
  }

  lemma ListsStep(p: ChannelPolicy, es: seq<PolicyEvent>, n: nat, key: Key)
    requires |es| == n + 1 && ListsAgree(p, es[..n], key)
    requires IsGenesis(es[n].content.body.action) ==> p == DEFAULT
    requires Apply(p, es[n].content.body.actor, es[n].content.body.action).Some?
    ensures ListsAgree(Apply(p, es[n].content.body.actor, es[n].content.body.action).value, es, key)
  {
    HasRoleSnoc(es, n, Moderator, key);
    HasRoleSnoc(es, n, Writer, key);
    HasRoleSnoc(es, n, Reader, key);
    match es[n].content.body.action
    case Grant(role, k) =>
      SortedMembers(p.moderators, k, key);
      SortedMembers(p.writers, k, key);
      SortedMembers(p.readers, k, key);
    case _ =>
  }

  lemma HeadStep(p: ChannelPolicy, es: seq<PolicyEvent>, n: nat, key: Key)
    requires |es| == n + 1 && HeadAgrees(p, es[..n], key) && Coherent(p)
    requires IsGenesis(es[n].content.body.action) <==> n == 0
    requires n == 0 ==> p == DEFAULT
    requires Apply(p, es[n].content.body.actor, es[n].content.body.action).Some?
    ensures HeadAgrees(Apply(p, es[n].content.body.actor, es[n].content.body.action).value, es, key)
  {
    OwnsSnoc(es, n, key);
    MadePrivateSnoc(es, n);
  }

  /** In the policy that a valid history derives, a key is in the list of a role exactly if the last event about
      the two gives it; the owner is the one named last, and the visibility the one set last. */
  lemma {:induction false} PolicyByLastWord(s: PolicyScheme, chan: Bytes, es: seq<PolicyEvent>, key: Key)
    requires Valid(s, chan, es)
    ensures var p := Replay(s, chan, es).value;
            && (key in p.moderators <==> HasRole(es, Moderator, key))
            && (key in p.writers <==> HasRole(es, Writer, key))
            && (key in p.readers <==> HasRole(es, Reader, key))
            && (p.owner == Some(key) <==> Owns(es, key))
            && (p.visibility == Private <==> MadePrivate(es))
            && (p.mode == Restricted <==> es != [])
            && p.version == OpeningVersion(es)
    decreases |es|
  {
    if es != [] {
      var n := |es| - 1;
      ValidStep(s, chan, es, n);
      assert es[..n + 1] == es;
      PolicyByLastWord(s, chan, es[..n], key);
      GenesisOnlyFirst(s, chan, es[..n]);
      GenesisOnlyFirst(s, chan, es);
      var p := Replay(s, chan, es[..n]).value;
      ListsStep(p, es, n, key);
      HeadStep(p, es, n, key);
    }
  }

  // ---------------------------------------------------------------- which histories are valid

  /** Who may do what after the events `es`. */
  ghost predicate Permitted(es: seq<PolicyEvent>, actor: Key, a: Action) {
    match a
    case Restrict(k) => es == [] && k == actor && ValidKey(k)
    case Adopt(p) => es == [] && p.mode == Restricted && p.owner == Some(actor)
    case Grant(role, k) => ValidKey(k) && (Owns(es, actor) || (role != Moderator && HasRole(es, Moderator, actor)))
    case Revoke(role, _) => Owns(es, actor) || (role != Moderator && HasRole(es, Moderator, actor))
    case TransferOwner(k) => ValidKey(k) && Owns(es, actor)
    case SetVisibility(_) => Owns(es, actor)
  }

  /** An action is accepted after a valid history exactly if its events permit it. */
  lemma AppliesIffPermitted(s: PolicyScheme, chan: Bytes, es: seq<PolicyEvent>, actor: Key, a: Action)
    requires Valid(s, chan, es)
    ensures Apply(Replay(s, chan, es).value, actor, a).Some? <==> Permitted(es, actor, a)
  {
    PolicyByLastWord(s, chan, es, actor);
    GenesisOnlyFirst(s, chan, es);
    NoRolesAtFirst(es, actor);
  }

  lemma NoRolesAtFirst(es: seq<PolicyEvent>, key: Key)
    ensures Owns(es, key) || HasRole(es, Moderator, key) ==> es != []
  {
  }

  /** The event at `i` is in order: it belongs to the channel, names its predecessor, carries the hash and a
      signature of its content, and the events before it permit it. */
  ghost predicate InOrder(s: PolicyScheme, chan: Bytes, es: seq<PolicyEvent>, i: nat)
    requires i < |es|
  {
    var e := es[i];
    && e.content.body.channel == chan
    && e.content.previous == (if i == 0 then None else Some(es[i - 1].id))
    && e.id == s.hash(e.content) && s.verify(e.content.body.actor, e.sig, e.content)
    && Permitted(es[..i], e.content.body.actor, e.content.body.action)
  }

  ghost predicate AllInOrder(s: PolicyScheme, chan: Bytes, es: seq<PolicyEvent>) {
    forall i: nat {:trigger InOrder(s, chan, es, i)} :: i < |es| ==> InOrder(s, chan, es, i)
  }

  lemma InOrderEarlier(s: PolicyScheme, chan: Bytes, es: seq<PolicyEvent>, n: nat, i: nat)
    requires i < n <= |es|
    ensures InOrder(s, chan, es, i) <==> InOrder(s, chan, es[..n], i)
  {
    assert es[..n][..i] == es[..i];
  }

  /** A history is valid exactly if each of its events is in order. */
  lemma {:induction false} ValidIffAllInOrder(s: PolicyScheme, chan: Bytes, es: seq<PolicyEvent>)
    ensures Valid(s, chan, es) <==> AllInOrder(s, chan, es)
    decreases |es|
  {
    if es != [] {
      var n := |es| - 1;
      var init := es[..n];
      ValidIffAllInOrder(s, chan, init);
      forall i: nat | i < n ensures InOrder(s, chan, es, i) <==> InOrder(s, chan, init, i) {
        InOrderEarlier(s, chan, es, n, i);
      }
      if Valid(s, chan, init) {
        AppliesIffPermitted(s, chan, init, es[n].content.body.actor, es[n].content.body.action);
        LastInOrder(s, chan, es, n);
      } else {
        assert !AllInOrder(s, chan, init);
      }
    }
  }

  lemma LastInOrder(s: PolicyScheme, chan: Bytes, es: seq<PolicyEvent>, n: nat)
    requires |es| == n + 1 && Valid(s, chan, es[..n])
    requires Apply(Replay(s, chan, es[..n]).value, es[n].content.body.actor, es[n].content.body.action).Some?
        <==> Permitted(es[..n], es[n].content.body.actor, es[n].content.body.action)
    ensures Valid(s, chan, es) <==> InOrder(s, chan, es, n)
  {
  }

  // ---------------------------------------------------------------- who reads and who writes

  /** Under the policy of a valid history a key may write exactly if there is no history, or it owns the channel,
      or it is a moderator or a writer. Readers may not. */
  lemma WritesIff(s: PolicyScheme, chan: Bytes, es: seq<PolicyEvent>, key: Key)
    requires Valid(s, chan, es)
    ensures AllowsAppend(Replay(s, chan, es).value, key) <==>
            es == [] || Owns(es, key) || HasRole(es, Moderator, key) || HasRole(es, Writer, key)
  {
    PolicyByLastWord(s, chan, es, key);
    GenesisOnlyFirst(s, chan, es);
  }

  /** It may read exactly if the channel was not made private, or it owns the channel or has any role. */
  lemma ReadsIff(s: PolicyScheme, chan: Bytes, es: seq<PolicyEvent>, key: Key)
    requires Valid(s, chan, es)
    ensures AllowsRead(Replay(s, chan, es).value, key) <==>
            || !MadePrivate(es) || Owns(es, key)
            || HasRole(es, Moderator, key) || HasRole(es, Writer, key) || HasRole(es, Reader, key)
  {
    PolicyByLastWord(s, chan, es, key);
  }

  /** Removing a role ends writing exactly if the key does not own the channel and is neither a moderator nor a
      writer otherwise. */
  lemma RevokeEndsWritingIff(p: ChannelPolicy, actor: Key, role: Role, key: Key)
    requires Apply(p, actor, Revoke(role, key)).Some?
    ensures AllowsAppend(Apply(p, actor, Revoke(role, key)).value, key) <==>
            || p.owner == Some(key)
            || (role != Moderator && key in p.moderators) || (role != Writer && key in p.writers)
  {
  }
}
