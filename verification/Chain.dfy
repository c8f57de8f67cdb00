/** Hash-linked event histories, the shape shared by the policy and the moderation log.
    An event's id is the hash of its payload; the payload names the previous event.
 */
module Chain {
  import opened Basics

  type Id = Bytes
  type Key = Bytes

  /** What is hashed and signed: the link plus the event's own fields. */
  datatype Payload<+B> = Payload(previous: Option<Id>, body: B)

  datatype Event<+B> = Event(id: Id, content: Payload<B>, sig: Bytes)

  /** Hashing and signing of serialised payloads. A signer is named by its public key. */
  datatype Scheme<!B> = Scheme(
    hash: Payload<B> -> Id,
    sign: (Key, Payload<B>) -> Bytes,
    verify: (Key, Bytes, Payload<B>) -> bool)

  function Head<B>(es: seq<Event<B>>): Option<Id> {
    if es == [] then None else Some(es[|es| - 1].id)
  }

  function PreviousId<B>(es: seq<Event<B>>, i: nat): Option<Id>
    requires i <= |es|
  {
    if i == 0 then None else Some(es[i - 1].id)
  }

  /** The event at `i` names its predecessor and carries the hash of its payload. */
  ghost predicate LinkedAt<B>(s: Scheme<B>, es: seq<Event<B>>, i: nat)
    requires i < |es|
  {
    es[i].content.previous == PreviousId(es, i) && es[i].id == s.hash(es[i].content)
  }

  ghost predicate Linked<B>(s: Scheme<B>, es: seq<Event<B>>) {
    forall i: nat {:trigger LinkedAt(s, es, i)} :: i < |es| ==> LinkedAt(s, es, i)
  }

  ghost predicate SignsCorrectly<B(!new)>(s: Scheme<B>) {
    forall key, p :: s.verify(key, s.sign(key, p), p)
  }

  /** The payloads that are hashed in some run contain no collision. The universe is finite,
      so this is satisfiable for a hash of bounded length. */
  ghost predicate CollisionFree<B>(s: Scheme<B>, u: set<Payload<B>>) {
    forall p, q {:trigger Apart(s, p, q)} :: p in u && q in u ==> Apart(s, p, q)
  }

  ghost predicate Apart<B>(s: Scheme<B>, p: Payload<B>, q: Payload<B>) {
    s.hash(p) == s.hash(q) ==> p == q
  }

  ghost predicate DrawnFrom<B>(es: seq<Event<B>>, u: set<Payload<B>>) {
    forall i :: 0 <= i < |es| ==> es[i].content in u
  }

  /** Equal event by event in everything but the signature. */
  ghost predicate Agree<B>(a: seq<Event<B>>, b: seq<Event<B>>) {
    |a| == |b| && forall i :: 0 <= i < |a| ==> a[i].id == b[i].id && a[i].content == b[i].content
  }

  /** `prefix` is an initial part of `history`, compared by event id. */
  predicate IsPrefix<B>(prefix: seq<Event<B>>, history: seq<Event<B>>) {
    |prefix| <= |history| && forall i :: 0 <= i < |prefix| ==> prefix[i].id == history[i].id
  }

  /** The first position that carries `id`. */
  function Position<B>(es: seq<Event<B>>, id: Id): (r: Option<nat>)
    ensures r.Some? ==> r.value < |es| && es[r.value].id == id
    ensures r.None? <==> forall i :: 0 <= i < |es| ==> es[i].id != id
  {
    if es == [] then None
    else if es[0].id == id then Some(0)
    else match Position(es[1..], id)
         case None => assert forall i :: 1 <= i < |es| ==> es[i] == es[1..][i - 1]; None
         case Some(k) => Some(k + 1)
  }

  /** Events of the same id have the same payload and the same predecessor. */
  lemma SameIdSameLink<B>(s: Scheme<B>, u: set<Payload<B>>, a: seq<Event<B>>, i: nat, b: seq<Event<B>>, j: nat)
    requires CollisionFree(s, u)
    requires Linked(s, a) && DrawnFrom(a, u) && Linked(s, b) && DrawnFrom(b, u)
    requires i < |a| && j < |b| && a[i].id == b[j].id
    ensures a[i].content == b[j].content && PreviousId(a, i) == PreviousId(b, j)
  {
    assert LinkedAt(s, a, i) && LinkedAt(s, b, j);
    assert Apart(s, a[i].content, b[j].content);
  }

  /** `a` up to position `i` and `b` at the same positions are equal but for the signatures. */
  ghost predicate SamePast<B>(a: seq<Event<B>>, b: seq<Event<B>>, i: nat)
    requires i < |a| && i < |b|
  {
    forall k :: 0 <= k <= i ==> a[k].id == b[k].id && a[k].content == b[k].content
  }

  /** Wherever two linked histories share an id, they share everything up to it. */
  lemma {:induction false} SharedIdSharedPast<B>(
    s: Scheme<B>, u: set<Payload<B>>, a: seq<Event<B>>, i: nat, b: seq<Event<B>>, j: nat)
    requires CollisionFree(s, u)
    requires Linked(s, a) && DrawnFrom(a, u) && Linked(s, b) && DrawnFrom(b, u)
    requires i < |a| && j < |b| && a[i].id == b[j].id
    ensures i == j && SamePast(a, b, i)
    decreases i
  {
    SameIdSameLink(s, u, a, i, b, j);
    if i > 0 {
      SharedIdSharedPast(s, u, a, i - 1, b, j - 1);
    }
  }

  /** Head commitment: a head id fixes the length and, signatures aside, every event before it. */
  lemma HeadCommitment<B>(s: Scheme<B>, u: set<Payload<B>>, a: seq<Event<B>>, b: seq<Event<B>>)
    requires CollisionFree(s, u)
    requires Linked(s, a) && DrawnFrom(a, u) && Linked(s, b) && DrawnFrom(b, u)
    requires Head(a) == Head(b)
    ensures Agree(a, b)
  {
    if a != [] {
      SharedIdSharedPast(s, u, a, |a| - 1, b, |b| - 1);
    }
  }

  /** Ids never repeat in a linked history, so `Position` is unambiguous. */
  lemma DistinctIds<B>(s: Scheme<B>, u: set<Payload<B>>, es: seq<Event<B>>, i: nat, j: nat)
    requires CollisionFree(s, u) && Linked(s, es) && DrawnFrom(es, u)
    requires i < |es| && j < |es| && es[i].id == es[j].id
    ensures i == j
  {
    SharedIdSharedPast(s, u, es, i, es, j);
  }

  lemma PrefixAgrees<B>(s: Scheme<B>, u: set<Payload<B>>, a: seq<Event<B>>, b: seq<Event<B>>)
    requires CollisionFree(s, u)
    requires Linked(s, a) && DrawnFrom(a, u) && Linked(s, b) && DrawnFrom(b, u)
    requires IsPrefix(a, b)
    ensures Agree(a, b[..|a|])
  {
    forall i: nat | i < |a| ensures a[i].content == b[i].content {
      assert LinkedAt(s, a, i) && LinkedAt(s, b, i);
      assert Apart(s, a[i].content, b[i].content);
    }
  }

  /** A history whose local part was kept and whose remainder came from a peer is still linked. */
  lemma SpliceLinked<B>(s: Scheme<B>, a: seq<Event<B>>, b: seq<Event<B>>)
    requires Linked(s, a) && Linked(s, b) && IsPrefix(a, b)
    ensures Linked(s, a + b[|a|..])
  {
    var c := a + b[|a|..];
    forall i: nat | i < |c| ensures LinkedAt(s, c, i) {
      if i < |a| { assert LinkedAt(s, a, i); } else { assert LinkedAt(s, b, i); }
    }
  }

  /** It keeps the local events in front and agrees with the peer's history. */
  lemma SpliceAgrees<B>(s: Scheme<B>, u: set<Payload<B>>, a: seq<Event<B>>, b: seq<Event<B>>)
    requires CollisionFree(s, u)
    requires Linked(s, a) && DrawnFrom(a, u) && Linked(s, b) && DrawnFrom(b, u)
    requires IsPrefix(a, b)
    ensures Agree(a + b[|a|..], b) && DrawnFrom(a + b[|a|..], u)
    ensures a <= a + b[|a|..]
  {
    PrefixAgrees(s, u, a, b);
    assert forall i :: 0 <= i < |a| ==> b[..|a|][i] == b[i];
  }
}
