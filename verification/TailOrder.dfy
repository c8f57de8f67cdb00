/** Reading a log from its end through the index, and what the result should be. */
module TailOrder {
  import opened Basics
  import opened Chain
  import opened Proto
  import opened LogFormat
  import opened LogIndex
  import opened LogStore
  import M = Moderation
  import Policy

  datatype Entry = Entry(offset: nat, length: nat, id: Id)

  predicate LaterFirst(a: Entry, b: Entry) {
    a.offset >= b.offset
  }

  /** The messages that are not hidden, in log order. */
  function Visible(es: seq<Envelope>, hidden: M.State): seq<Envelope> {
    if es == [] then [] else (if es[0].id in hidden then [] else [es[0]]) + Visible(es[1..], hidden)
  }

  function LastN<T>(s: seq<T>, n: nat): seq<T> {
    if |s| <= n then s else s[|s| - n..]
  }

  function Reverse<T>(s: seq<T>): seq<T> {
    if s == [] then [] else Reverse(s[1..]) + [s[0]]
  }

  lemma {:induction false} ReverseAppend<T>(s: seq<T>, x: T)
    ensures Reverse(s + [x]) == [x] + Reverse(s)
  {
    if s == [] {
      assert s + [x] == [x];
      assert Reverse([x]) == Reverse<T>([]) + [x];
    } else {
      ReverseAppend(s[1..], x);
      assert (s + [x])[1..] == s[1..] + [x];
    }
  }

  lemma {:induction false} ReverseLength<T>(s: seq<T>)
    ensures |Reverse(s)| == |s|
  {
    if s != [] { ReverseLength(s[1..]); }
  }

  lemma {:induction false} VisibleSplit(a: seq<Envelope>, b: seq<Envelope>, hidden: M.State)
    ensures Visible(a + b, hidden) == Visible(a, hidden) + Visible(b, hidden)
    decreases |a|
  {
    if a == [] {
      assert a + b == b;
    } else {
      assert (a + b)[1..] == a[1..] + b && (a + b)[0] == a[0];
      VisibleSplit(a[1..], b, hidden);
    }
  }

  /** What was read so far, last record first, is the visible part of the log from position `k` on. */
  ghost predicate Gathered(found: seq<Envelope>, es: seq<Envelope>, k: nat, hidden: M.State)
    requires k <= |es|
  {
    Reverse(found) == Visible(es[k..], hidden)
  }

  lemma GatherStep(found: seq<Envelope>, es: seq<Envelope>, k: nat, hidden: M.State)
    requires k < |es| && Gathered(found, es, k + 1, hidden)
    ensures Gathered(if es[k].id in hidden then found else found + [es[k]], es, k, hidden)
  {
    ReverseAppend(found, es[k]);
  }

  lemma GatherEnd(found: seq<Envelope>, es: seq<Envelope>, k: nat, hidden: M.State, n: nat)
    requires k <= |es| && Gathered(found, es, k, hidden)
    requires |found| == n || (|found| <= n && k == 0)
    ensures Reverse(found) == LastN(Visible(es, hidden), n)
  {
    VisibleSplit(es[..k], es[k..], hidden);
    assert es[..k] + es[k..] == es;
    ReverseLength(found);
    assert k == 0 ==> es[..k] == [];
  }

  ghost predicate RecordAt(c: Codec, log: Bytes, offset: nat, length: nat, e: Envelope) {
    offset + length <= |log| && log[offset..offset + length] == Record(c, e)
  }

  lemma PlacedAt(c: Codec, log: Bytes, es: seq<Envelope>, i: nat)
    requires Shape(c, log, es, []) && i < |es|
    ensures RecordAt(c, log, PlaceOf(c, es, i).offset, PlaceOf(c, es, i).length, es[i])
  {
    assert [] + Render(c, es) + [] == log;
    RenderHolds(c, [], es, []);
    PlacedRecord(c, log, 0, es, i);
  }

  lemma IndexedAt(c: Codec, es: seq<Envelope>, i: nat)
    requires Distinct(Ids(es)) && i < |es|
    ensures es[i].id in FullIndex(c, es).messages
    ensures FullIndex(c, es).messages[es[i].id] == PlaceOf(c, es, i)
  {
    PlaceOrdered(c, es, 0);
    PlacedIds(c, es, 0);
    MessagesLocate(Place(c, es, 0), i);
  }

  /** The index leads to the record of every message. */
  lemma LocatedRecord(c: Codec, log: Bytes, es: seq<Envelope>, i: nat)
    requires Shape(c, log, es, []) && i < |es|
    ensures es[i].id in FullIndex(c, es).messages
    ensures var at := FullIndex(c, es).messages[es[i].id];
            at == PlaceOf(c, es, i) && RecordAt(c, log, at.offset, at.length, es[i])
  {
    IndexedAt(c, es, i);
    PlacedAt(c, log, es, i);
  }

  /** Where the `i`-th message lies. */
  function PlaceOf(c: Codec, es: seq<Envelope>, i: nat): Location
    requires i < |es|
  {
    PlaceLength(c, es, 0);
    var p := Place(c, es, 0)[i];
    Location(p.offset, p.length)
  }

  function EntryOf(c: Codec, es: seq<Envelope>, i: nat): Entry
    requires i < |es|
  {
    Entry(PlaceOf(c, es, i).offset, PlaceOf(c, es, i).length, es[i].id)
  }

  /** Collects the index's entries in no particular order. */
  method Entries(messages: map<Id, Location>) returns (s: seq<Entry>)
    ensures ListsIndex(messages, s)
  {
    s := [];
    var rest := messages.Keys;
    while rest != {}
      invariant rest <= messages.Keys
      invariant Distinct(s)
      invariant forall e :: e in s <==>
                            e.id in messages && e.id !in rest && messages[e.id] == Location(e.offset, e.length)
      decreases |rest|
    {
      var id :| id in rest;
      var at := messages[id];
      assert forall i :: 0 <= i < |s| ==> s[i] in s;
      s := s + [Entry(at.offset, at.length, id)];
      rest := rest - {id};
    }
  }

  /** The entries of the index, last record first. */
  function Backwards(c: Codec, es: seq<Envelope>): (s: seq<Entry>)
    ensures |s| == |es| && forall i :: 0 <= i < |es| ==> s[i] == EntryOf(c, es, |es| - 1 - i)
  {
    seq(|es|, i requires 0 <= i < |es| => EntryOf(c, es, |es| - 1 - i))
  }

  lemma OffsetsIncrease(c: Codec, es: seq<Envelope>, i: nat, j: nat)
    requires i < j < |es|
    ensures EntryOf(c, es, i).offset < EntryOf(c, es, j).offset
  {
    PlaceOrdered(c, es, 0);
  }

  lemma BackwardsSorted(c: Codec, es: seq<Envelope>)
    ensures SortedBy(LaterFirst, Backwards(c, es)) && Distinct(Backwards(c, es))
  {
    var s := Backwards(c, es);
    forall i, j | 0 <= i < j < |s| ensures LaterFirst(s[i], s[j]) && s[i] != s[j] {
      OffsetsIncrease(c, es, |es| - 1 - j, |es| - 1 - i);
    }
  }

  lemma BackwardsHas(c: Codec, es: seq<Envelope>, e: Entry)
    requires Distinct(Ids(es))
    ensures e in Backwards(c, es) <==>
            e.id in FullIndex(c, es).messages && FullIndex(c, es).messages[e.id] == Location(e.offset, e.length)
  {
    var s := Backwards(c, es);
    IndexedIds(c, es);
    if e in s {
      var i :| 0 <= i < |s| && s[i] == e;
      IndexedAt(c, es, |es| - 1 - i);
    }
    if e.id in Ids(es) && FullIndex(c, es).messages[e.id] == Location(e.offset, e.length) {
      var k :| 0 <= k < |es| && Ids(es)[k] == e.id;
      IndexedAt(c, es, k);
      assert s[|es| - 1 - k] == EntryOf(c, es, k);
    }
  }

  lemma BackwardsAntisymmetric(c: Codec, es: seq<Envelope>, x: Entry, y: Entry)
    requires x in Backwards(c, es) && y in Backwards(c, es) && x.offset == y.offset
    ensures x == y
  {
    var want := Backwards(c, es);
    var i :| 0 <= i < |want| && want[i] == x;
    var j :| 0 <= j < |want| && want[j] == y;
    SameOffsetSameEntry(c, es, |es| - 1 - i, |es| - 1 - j);
  }

  ghost predicate ListsIndex(messages: map<Id, Location>, s: seq<Entry>) {
    && Distinct(s)
    && forall e :: e in s <==> e.id in messages && messages[e.id] == Location(e.offset, e.length)
  }

  lemma SameEntries(c: Codec, es: seq<Envelope>, s: seq<Entry>)
    requires Distinct(Ids(es)) && ListsIndex(FullIndex(c, es).messages, s)
    ensures multiset(s) == multiset(Backwards(c, es))
  {
    BackwardsSorted(c, es);
    forall e ensures e in s <==> e in Backwards(c, es) { BackwardsHas(c, es, e); }
    DistinctMultiset(s, Backwards(c, es));
  }

  /** Sorting the index's entries by descending offset puts the messages in reverse log order. */
  lemma EntriesInOrder(c: Codec, es: seq<Envelope>, s: seq<Entry>)
    requires Distinct(Ids(es)) && ListsIndex(FullIndex(c, es).messages, s)
    ensures Sort(LaterFirst, s) == Backwards(c, es)
  {
    var want := Backwards(c, es);
    SameEntries(c, es, s);
    SortSorts(LaterFirst, s);
    BackwardsSorted(c, es);
    forall x, y | x in want && y in want && LaterFirst(x, y) && LaterFirst(y, x) ensures x == y {
      BackwardsAntisymmetric(c, es, x, y);
    }
    SortedUnique(LaterFirst, want, Sort(LaterFirst, s));
  }

  lemma SameOffsetSameEntry(c: Codec, es: seq<Envelope>, i: nat, j: nat)
    requires i < |es| && j < |es| && EntryOf(c, es, i).offset == EntryOf(c, es, j).offset
    ensures i == j
  {
    if i < j { OffsetsIncrease(c, es, i, j); }
    if j < i { OffsetsIncrease(c, es, j, i); }
  }

  // ---------------------------------------------------------------- what is shown

  /** Every envelope is either shown or hidden, by its id alone. With `VisibleSplit` this determines what is shown,
      and in which order. */
  lemma VisibleOne(e: Envelope, hidden: M.State)
    ensures Visible([e], hidden) == if e.id in hidden then [] else [e]
  {
    assert [e][1..] == [];
  }

  lemma {:induction false} VisibleHas(es: seq<Envelope>, hidden: M.State, e: Envelope)
    ensures e in Visible(es, hidden) <==> e in es && e.id !in hidden
    decreases |es|
  {
    if es != [] {
      VisibleHas(es[1..], hidden, e);
      assert es == [es[0]] + es[1..];
    }
  }

  /** The last `n` are the end of the list, and all of it if it has no more. */
  lemma LastNIsEnd<T>(s: seq<T>, n: nat)
    ensures |LastN(s, n)| == if |s| <= n then |s| else n
    ensures s == s[..|s| - |LastN(s, n)|] + LastN(s, n)
  {
  }

  /** A reader sees a logged message exactly if it is not the case that the last moderation event about it is a
      tombstone. */
  lemma ShownIff(
    mc: M.Context, ps: seq<Policy.PolicyEvent>, ms: seq<M.ModerationEvent>, es: seq<Envelope>, e: Envelope)
    requires M.Valid(mc, ps, ms)
    ensures e in Visible(es, M.Replay(mc, ps, ms).value) <==>
            e in es && !exists i: nat :: M.LastWord(ms, e.id, i) && ms[i].content.body.action.Tombstone?
  {
    VisibleHas(es, M.Replay(mc, ps, ms).value, e);
    M.HiddenIffLastIsTombstone(mc, ps, ms, e.id);
  }
}
