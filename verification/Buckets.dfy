/** What locations, buckets and summaries stand for, in terms of what is logged. */
module Buckets {
  import opened Basics
  import opened Chain
  import opened Proto
  import opened LogFormat
  import opened LogIndex
  import opened ChannelLog

  /** The last record with this id lies there. */
  ghost predicate LiesAt(sc: seq<Scanned>, id: Id, at: Location) {
    exists i :: 0 <= i < |sc| && sc[i].envelope.id == id && at == Location(sc[i].offset, sc[i].length)
                && forall j :: i < j < |sc| ==> sc[j].envelope.id != id
  }

  /** The table of messages has the place of the last record of each id, and no other place. */
  lemma {:induction false} MessagesIff(sc: seq<Scanned>, id: Id, at: Location)
    ensures (id in MessagesOf(sc) && MessagesOf(sc)[id] == at) <==> LiesAt(sc, id, at)
  {
    if sc != [] {
      var n := |sc| - 1;
      MessagesIff(sc[..n], id, at);
      if sc[n].envelope.id == id {
        assert LiesAt(sc, id, Location(sc[n].offset, sc[n].length));
      } else if LiesAt(sc[..n], id, at) {
        var i :| 0 <= i < n && sc[..n][i].envelope.id == id && at == Location(sc[i].offset, sc[i].length)
                 && forall j :: i < j < n ==> sc[..n][j].envelope.id != id;
        assert sc[i].envelope.id == id && forall j :: i < j < n ==> sc[j] == sc[..n][j];
      }
    }
  }

  /** The bucket of an id is the number that its first two hexadecimal digits write. */
  lemma BucketByText(id: Id, b: nat)
    requires CanonicalId(id)
    ensures InBucket(id, b) <==> b < 256 && id[..2] == Hex([b as byte])
  {
    var raw := Raw(id);
    assert id[..2] == [HexDigit(raw[0] / 16), HexDigit(raw[0] % 16)];
    if b < 256 {
      var d := b as byte;
      assert Hex([d]) == [HexDigit(d / 16), HexDigit(d % 16)] + Hex([]);
      DigitsDiffer(raw[0] / 16, d / 16);
      DigitsDiffer(raw[0] % 16, d % 16);
      assert raw[0] == d <==> raw[0] / 16 == d / 16 && raw[0] % 16 == d % 16;
    }
  }

  lemma DigitsDiffer(a: byte, b: byte)
    requires a < 16 && b < 16
    ensures HexDigit(a) == HexDigit(b) <==> a == b
  {
  }

  /** The stored members of a bucket are its raw ids in ascending order, one behind the other. */
  lemma MembersSorted(ids: seq<Id>, b: nat)
    requires AllCanonical(ids)
    ensures SortedBy(LexLeq, ChunksExact(Members(ids, b)))
    ensures multiset(ChunksExact(Members(ids, b))) == multiset(BucketIds(ids, b))
  {
    var raws := BucketIds(ids, b);
    BucketIdsRaw(ids, b);
    SortedRaw(raws);
    LexIsTotalOrder();
    SortSorts(LexLeq, raws);
    ChunksOfFlatten(Sort(LexLeq, raws));
  }

  ghost predicate Summarised(s: seq<ChunkSummary>, b: nat) {
    exists i :: 0 <= i < |s| && s[i].index == b
  }

  /** Each summary is of a bucket that holds something, and says how much and with which hash. */
  ghost predicate EachMeans(c: Codec, ids: seq<Id>, s: seq<ChunkSummary>, n: nat) {
    forall i :: 0 <= i < |s| ==>
                  && s[i].index < n && s[i].count == |BucketIds(ids, s[i].index)| && s[i].count > 0
                  && s[i].hash == c.bucketHash(Members(ids, s[i].index))
  }

  ghost predicate Ascending(s: seq<ChunkSummary>) {
    forall i, j :: 0 <= i < j < |s| ==> s[i].index < s[j].index
  }

  /** Every bucket that holds something has one. */
  ghost predicate AllSummarised(ids: seq<Id>, s: seq<ChunkSummary>, n: nat) {
    forall b: nat {:trigger Summarised(s, b)} :: b < n ==> (Summarised(s, b) <==> BucketIds(ids, b) != [])
  }

  lemma {:induction false} EachSummary(c: Codec, ids: seq<Id>, h: map<nat, Bytes>, n: nat)
    requires forall b: nat :: b in h ==> BucketIds(ids, b) != [] && h[b] == c.bucketHash(Members(ids, b))
    ensures EachMeans(c, ids, Summaries(ids, h, n), n) && Ascending(Summaries(ids, h, n))
  {
    if n > 0 { EachSummary(c, ids, h, n - 1); }
  }

  lemma {:induction false} SummarisedIff(ids: seq<Id>, h: map<nat, Bytes>, n: nat, b: nat)
    ensures Summarised(Summaries(ids, h, n), b) <==> b < n && b in h
  {
    if n > 0 {
      SummarisedIff(ids, h, n - 1, b);
      if n - 1 in h {
        LastSummarised(Summaries(ids, h, n - 1), ChunkSummary(n - 1, |BucketIds(ids, n - 1)|, h[n - 1]), b);
      } else {
        assert Summaries(ids, h, n - 1) + [] == Summaries(ids, h, n - 1);
      }
    }
  }

  lemma LastSummarised(s: seq<ChunkSummary>, x: ChunkSummary, b: nat)
    ensures Summarised(s + [x], b) <==> Summarised(s, b) || x.index == b
  {
    assert (s + [x])[|s|] == x;
    if Summarised(s, b) {
      var i :| 0 <= i < |s| && s[i].index == b;
      assert (s + [x])[i] == s[i];
    }
  }

  /** What the summaries of a log say, in ascending order of the buckets. */
  lemma SummariesMean(c: Codec, ids: seq<Id>, n: nat)
    requires n <= BUCKET_COUNT
    ensures var s := Summaries(ids, HashesOf(c, ids), n);
            EachMeans(c, ids, s, n) && Ascending(s) && AllSummarised(ids, s, n)
  {
    var h := HashesOf(c, ids);
    EachSummary(c, ids, h, n);
    forall b: nat | b < n ensures Summarised(Summaries(ids, h, n), b) <==> BucketIds(ids, b) != [] {
      SummarisedIff(ids, h, n, b);
    }
  }
}
