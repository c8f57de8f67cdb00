/** The index kept beside a log: where each message lies, and the 256 prefix buckets of sorted raw ids
    with their hashes. It can be rebuilt from the log or maintained one append at a time.
 */
module LogIndex {
  import opened Basics
  import opened Chain
  import opened Proto
  import opened LogFormat

  const SCHEMA_VERSION: nat := 2
  const BUCKET_COUNT: nat := 256
  const ID_LENGTH: nat := 32

  datatype Location = Location(offset: nat, length: nat)

  datatype Index = Index(
    messages: map<Id, Location>,
    chunks: map<nat, Bytes>,
    hashes: map<nat, Bytes>,
    logLen: nat,
    count: nat,
    schema: nat)

  function Flatten(ids: seq<Bytes>): Bytes {
    if ids == [] then [] else ids[0] + Flatten(ids[1..])
  }

  /** Cuts bytes into raw ids, ignoring an incomplete rest. */
  function ChunksExact(members: Bytes): seq<Bytes> {
    if |members| < ID_LENGTH then []
    else [members[..ID_LENGTH]] + ChunksExact(members[ID_LENGTH..])
  }

  ghost predicate AllRaw(raws: seq<Bytes>) {
    forall i :: 0 <= i < |raws| ==> |raws[i]| == ID_LENGTH
  }

  lemma {:induction false} ChunksOfFlatten(raws: seq<Bytes>)
    requires AllRaw(raws)
    ensures ChunksExact(Flatten(raws)) == raws
    ensures |Flatten(raws)| == ID_LENGTH * |raws|
  {
    if raws != [] {
      ChunksOfFlatten(raws[1..]);
      var all := Flatten(raws);
      assert all[..ID_LENGTH] == raws[0] && all[ID_LENGTH..] == Flatten(raws[1..]);
    }
  }

  lemma {:induction false} FlattenAppend(raws: seq<Bytes>, raw: Bytes)
    ensures Flatten(raws + [raw]) == Flatten(raws) + raw
  {
    if raws == [] {
      assert raws + [raw] == [raw];
    } else {
      FlattenAppend(raws[1..], raw);
      assert (raws + [raw])[1..] == raws[1..] + [raw];
    }
  }

  function Ids(es: seq<Envelope>): (ids: seq<Id>)
    ensures |ids| == |es| && forall i :: 0 <= i < |es| ==> ids[i] == es[i].id
  {
    seq(|es|, i requires 0 <= i < |es| => es[i].id)
  }

  function ScannedIds(sc: seq<Scanned>): (ids: seq<Id>)
    ensures |ids| == |sc| && forall i :: 0 <= i < |sc| ==> ids[i] == sc[i].envelope.id
  {
    seq(|sc|, i requires 0 <= i < |sc| => sc[i].envelope.id)
  }

  ghost predicate AllCanonical(ids: seq<Id>) {
    forall i :: 0 <= i < |ids| ==> CanonicalId(ids[i])
  }

  /** The bucket of an id: the first byte of its raw form. */
  predicate InBucket(id: Id, b: nat) {
    Raw(id) != [] && Raw(id)[0] as nat == b
  }

  /** The raw ids of bucket `b`, in log order. */
  function BucketIds(ids: seq<Id>, b: nat): seq<Bytes> {
    if ids == [] then [] else
    var n := |ids| - 1;
    BucketIds(ids[..n], b) + if InBucket(ids[n], b) then [Raw(ids[n])] else []
  }

  /** How a bucket is stored: sorted and concatenated. */
  function Pack(raws: seq<Bytes>): Bytes {
    Flatten(Sort(LexLeq, raws))
  }

  /** The stored members of bucket `b`: its raw ids sorted and concatenated. */
  function Members(ids: seq<Id>, b: nat): Bytes {
    Pack(BucketIds(ids, b))
  }

  function ChunksOf(ids: seq<Id>): map<nat, Bytes> {
    map b: nat | b < BUCKET_COUNT && BucketIds(ids, b) != [] :: Members(ids, b)
  }

  function HashAll(c: Codec, chunks: map<nat, Bytes>): map<nat, Bytes> {
    map b | b in chunks :: c.bucketHash(chunks[b])
  }

  function HashesOf(c: Codec, ids: seq<Id>): map<nat, Bytes> {
    HashAll(c, ChunksOf(ids))
  }

  /** Each id's location; the last record of an id wins. */
  function MessagesOf(sc: seq<Scanned>): map<Id, Location> {
    if sc == [] then map[] else
    var last := sc[|sc| - 1];
    MessagesOf(sc[..|sc| - 1])[last.envelope.id := Location(last.offset, last.length)]
  }

  /** The index rebuilt from a scanned log of length `logLen`. */
  function IndexOf(c: Codec, sc: seq<Scanned>, logLen: nat): Index {
    var ids := ScannedIds(sc);
    Index(MessagesOf(sc), ChunksOf(ids), HashesOf(c, ids), logLen, |sc|, SCHEMA_VERSION)
  }

  /** The index after one append. */
  function InsertEntry(c: Codec, index: Index, id: Id, offset: nat, length: nat, logLen: nat): Option<Index> {
    match Unhex(id)
    case None => None
    case Some(raw) =>
      if |raw| != ID_LENGTH then None else
      var b := raw[0] as nat;
      var stored := if b in index.chunks then index.chunks[b] else [];
      var members := Pack(ChunksExact(stored + raw));
      Some(Index(index.messages[id := Location(offset, length)],
                 index.chunks[b := members],
                 index.hashes[b := c.bucketHash(members)],
                 logLen, index.count + 1, SCHEMA_VERSION))
  }

  // ---------------------------------------------------------------- the loops

  method RebuildIndex(c: Codec, sc: seq<Scanned>, logLen: nat) returns (index: Index)
    ensures index == IndexOf(c, sc, logLen)
  {
    var messages: map<Id, Location> := map[];
    for i := 0 to |sc|
      invariant messages == MessagesOf(sc[..i])
    {
      assert sc[..i + 1][..i] == sc[..i];
      messages := messages[sc[i].envelope.id := Location(sc[i].offset, sc[i].length)];
    }
    assert sc[..|sc|] == sc;
    var chunks, hashes := FillTables(c, ScannedIds(sc));
    index := Index(messages, chunks, hashes, logLen, |sc|, SCHEMA_VERSION);
  }

  /** The part of a table below bucket `b`. */
  function Below(all: map<nat, Bytes>, b: nat): map<nat, Bytes> {
    map k | k in all && k < b :: all[k]
  }

  lemma BelowNext(all: map<nat, Bytes>, b: nat)
    ensures Below(all, b + 1) == if b in all then Below(all, b)[b := all[b]] else Below(all, b)
  {
  }

  /** Sorts, concatenates and hashes each non-empty bucket. */
  method FillTables(c: Codec, ids: seq<Id>) returns (chunks: map<nat, Bytes>, hashes: map<nat, Bytes>)
    ensures chunks == ChunksOf(ids) && hashes == HashesOf(c, ids)
  {
    var buckets := FillBuckets(ids);
    chunks, hashes := map[], map[];
    ghost var all := ChunksOf(ids);
    for b := 0 to BUCKET_COUNT
      invariant chunks == Below(all, b)
      invariant hashes == HashAll(c, chunks)
    {
      BelowNext(all, b);
      if buckets[b] != [] {
        var members := Pack(buckets[b]);
        HashOneMore(c, chunks, b, members);
        chunks := chunks[b := members];
        hashes := hashes[b := c.bucketHash(members)];
      }
    }
    assert Below(all, BUCKET_COUNT) == all;
  }

  lemma HashOneMore(c: Codec, chunks: map<nat, Bytes>, b: nat, members: Bytes)
    ensures HashAll(c, chunks[b := members]) == HashAll(c, chunks)[b := c.bucketHash(members)]
  {
  }

  /** Distributes raw ids over the buckets. */
  method FillBuckets(ids: seq<Id>) returns (buckets: seq<seq<Bytes>>)
    ensures |buckets| == BUCKET_COUNT
    ensures forall b :: 0 <= b < BUCKET_COUNT ==> buckets[b] == BucketIds(ids, b)
  {
    buckets := seq(BUCKET_COUNT, _ => []);
    for i := 0 to |ids|
      invariant |buckets| == BUCKET_COUNT
      invariant forall b :: 0 <= b < BUCKET_COUNT ==> buckets[b] == BucketIds(ids[..i], b)
    {
      assert ids[..i + 1][..i] == ids[..i];
      var raw := Raw(ids[i]);
      if raw != [] {
        var b := raw[0] as nat;
        buckets := buckets[b := buckets[b] + [raw]];
      }
    }
    assert ids[..|ids|] == ids;
  }

  /** Updates the four tables for one appended record. */
  method IndexInsert(c: Codec, index: Index, id: Id, offset: nat, length: nat, logLen: nat)
    returns (r: Option<Index>)
    ensures r == InsertEntry(c, index, id, offset, length, logLen)
  {
    var raw := Unhex(id);
    if raw.None? || |raw.value| != ID_LENGTH { return None; }
    var b := raw.value[0] as nat;
    var members := if b in index.chunks then index.chunks[b] else [];
    members := members + raw.value;
    var ids := ChunksExact(members);
    ids := Sort(LexLeq, ids);
    members := Flatten(ids);
    var next := index;
    next := next.(messages := next.messages[id := Location(offset, length)]);
    next := next.(chunks := next.chunks[b := members]);
    next := next.(hashes := next.hashes[b := c.bucketHash(members)]);
    next := next.(logLen := logLen, count := next.count + 1, schema := SCHEMA_VERSION);
    return Some(next);
  }

  // ---------------------------------------------------------------- incremental equals rebuilt

  lemma {:induction false} BucketIdsRaw(ids: seq<Id>, b: nat)
    requires AllCanonical(ids)
    ensures AllRaw(BucketIds(ids, b))
    decreases |ids|
  {
    if ids != [] {
      var n := |ids| - 1;
      assert CanonicalId(ids[n]);
      assert AllCanonical(ids[..n]);
      BucketIdsRaw(ids[..n], b);
    }
  }

  lemma SortedRaw(raws: seq<Bytes>)
    requires AllRaw(raws)
    ensures AllRaw(Sort(LexLeq, raws)) && |Sort(LexLeq, raws)| == |raws|
    ensures multiset(Sort(LexLeq, raws)) == multiset(raws)
  {
    LexIsTotalOrder();
    SortSorts(LexLeq, raws);
    forall i | 0 <= i < |Sort(LexLeq, raws)| ensures |Sort(LexLeq, raws)[i]| == ID_LENGTH {
      assert Sort(LexLeq, raws)[i] in raws;
    }
  }

  /** Adding one raw id to a stored bucket gives the bucket of the extended list. */
  lemma BucketGrows(raws: seq<Bytes>, raw: Bytes)
    requires AllRaw(raws) && |raw| == ID_LENGTH
    ensures Pack(ChunksExact(Pack(raws) + raw))
         == Pack(raws + [raw])
  {
    var s := Sort(LexLeq, raws);
    SortedRaw(raws);
    FlattenAppend(s, raw);
    ChunksOfFlatten(s + [raw]);
    SortCanonical(s + [raw], raws + [raw]);
  }

  /** Appending an id changes its own bucket only. */
  lemma OneBucketChanges(ids: seq<Id>, id: Id)
    requires AllCanonical(ids) && CanonicalId(id)
    ensures var b := Raw(id)[0] as nat;
            var stored := if b in ChunksOf(ids) then ChunksOf(ids)[b] else [];
            ChunksOf(ids + [id]) == ChunksOf(ids)[b := Pack(ChunksExact(stored + Raw(id)))]
  {
    var longer, raw := ids + [id], Raw(id);
    var b := raw[0] as nat;
    assert longer[..|ids|] == ids;
    BucketIdsRaw(ids, b);
    BucketGrows(BucketIds(ids, b), raw);
    assert BucketIds(longer, b) == BucketIds(ids, b) + [raw];
    forall k: nat | k != b ensures BucketIds(longer, k) == BucketIds(ids, k) {
      assert BucketIds(ids, k) + [] == BucketIds(ids, k);
    }
  }

  /** Maintaining the index over one append gives exactly the index rebuilt from the longer log. */
  lemma InsertIsRebuild(c: Codec, sc: seq<Scanned>, logLen: nat, next: Scanned, newLen: nat)
    requires AllCanonical(ScannedIds(sc)) && CanonicalId(next.envelope.id)
    ensures InsertEntry(c, IndexOf(c, sc, logLen), next.envelope.id, next.offset, next.length, newLen)
         == Some(IndexOf(c, sc + [next], newLen))
  {
    var ids, id := ScannedIds(sc), next.envelope.id;
    assert ScannedIds(sc + [next]) == ids + [id];
    assert (sc + [next])[..|sc|] == sc;
    OneBucketChanges(ids, id);
    var b := Raw(id)[0] as nat;
    HashOneMore(c, ChunksOf(ids), b, ChunksOf(ids + [id])[b]);
  }

  // ---------------------------------------------------------------- buckets forget arrival order

  ghost predicate HasRaw(ids: seq<Id>, b: nat, raw: Bytes) {
    exists i :: 0 <= i < |ids| && Raw(ids[i]) == raw && InBucket(ids[i], b)
  }

  lemma HasRawSplits(ids: seq<Id>, n: nat, b: nat, raw: Bytes)
    requires |ids| == n + 1
    ensures HasRaw(ids, b, raw) <==> HasRaw(ids[..n], b, raw) || (Raw(ids[n]) == raw && InBucket(ids[n], b))
  {
    if i :| 0 <= i < |ids| && Raw(ids[i]) == raw && InBucket(ids[i], b) {
      assert i < n ==> ids[..n][i] == ids[i];
    }
    if i :| 0 <= i < n && Raw(ids[..n][i]) == raw && InBucket(ids[..n][i], b) {
      assert ids[i] == ids[..n][i];
    }
  }

  lemma {:induction false} BucketHas(ids: seq<Id>, b: nat, raw: Bytes)
    ensures raw in BucketIds(ids, b) <==> HasRaw(ids, b, raw)
    decreases |ids|
  {
    if ids != [] {
      var n := |ids| - 1;
      BucketHas(ids[..n], b, raw);
      HasRawSplits(ids, n, b, raw);
    }
  }

  lemma {:induction false} BucketDistinct(ids: seq<Id>, b: nat)
    requires AllCanonical(ids) && Distinct(ids)
    ensures Distinct(BucketIds(ids, b))
    decreases |ids|
  {
    if ids != [] {
      var n := |ids| - 1;
      var rest := ids[..n];
      BucketDistinct(rest, b);
      if InBucket(ids[n], b) {
        BucketHas(rest, b, Raw(ids[n]));
      }
    }
  }

  /** Two logs with the same set of ids have the same bucket contents, whatever order they came in. */
  lemma ArrivalOrderIrrelevant(c: Codec, a: seq<Id>, b: seq<Id>)
    requires AllCanonical(a) && AllCanonical(b) && Distinct(a) && Distinct(b)
    requires forall id :: id in a <==> id in b
    ensures ChunksOf(a) == ChunksOf(b) && HashesOf(c, a) == HashesOf(c, b)
  {
    forall k: nat ensures multiset(BucketIds(a, k)) == multiset(BucketIds(b, k)) && Members(a, k) == Members(b, k) {
      BucketDistinct(a, k);
      BucketDistinct(b, k);
      forall raw ensures raw in BucketIds(a, k) <==> raw in BucketIds(b, k) {
        BucketHas(a, k, raw);
        BucketHas(b, k, raw);
        SameMembership(a, b, k, raw);
      }
      DistinctMultiset(BucketIds(a, k), BucketIds(b, k));
      SortCanonical(BucketIds(a, k), BucketIds(b, k));
    }
    forall k: nat ensures BucketIds(a, k) == [] <==> BucketIds(b, k) == [] {
      assert |multiset(BucketIds(a, k))| == |multiset(BucketIds(b, k))|;
    }
  }

  lemma SameMembership(a: seq<Id>, b: seq<Id>, k: nat, raw: Bytes)
    requires forall id :: id in a <==> id in b
    ensures HasRaw(a, k, raw) <==> HasRaw(b, k, raw)
  {
    if i :| 0 <= i < |a| && Raw(a[i]) == raw && InBucket(a[i], k) {
      assert a[i] in b;
    }
    if i :| 0 <= i < |b| && Raw(b[i]) == raw && InBucket(b[i], k) {
      assert b[i] in a;
    }
  }

  /** The stored members determine which ids a bucket holds. */
  lemma MembersDetermineBucket(a: seq<Id>, b: seq<Id>, k: nat)
    requires AllCanonical(a) && AllCanonical(b) && Members(a, k) == Members(b, k)
    ensures multiset(BucketIds(a, k)) == multiset(BucketIds(b, k))
  {
    BucketIdsRaw(a, k);
    BucketIdsRaw(b, k);
    SortedRaw(BucketIds(a, k));
    SortedRaw(BucketIds(b, k));
    ChunksOfFlatten(Sort(LexLeq, BucketIds(a, k)));
    ChunksOfFlatten(Sort(LexLeq, BucketIds(b, k)));
  }
}
