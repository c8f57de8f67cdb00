/** The log and its index on disk, and what makes a stale index recognisable. */
module LogStore {
  import opened Basics
  import opened Chain
  import opened Proto
  import opened LogFormat
  import opened LogIndex

  datatype Disk = Disk(log: Bytes, index: Option<Index>)

  /** The index of a log that holds exactly `es`. */
  function FullIndex(c: Codec, es: seq<Envelope>): Index {
    IndexOf(c, Place(c, es, 0), |Render(c, es)|)
  }

  /** Opens the index: a current stamp is believed, anything else is rebuilt from the verified log. */
  function Ensure(c: Codec, d: Disk): Option<Disk> {
    if d.index.Some? && d.index.value.logLen == |d.log| && d.index.value.schema == SCHEMA_VERSION then Some(d)
    else match Scan(c, d.log, 0)
         case None => None
         case Some(sc) => Some(d.(index := Some(IndexOf(c, sc, |d.log|))))
  }

  /** The unfinished beginning of some record, possibly nothing. */
  ghost predicate IsTorn(c: Codec, torn: Bytes) {
    torn == [] || exists e :: torn <= c.encode(e)
  }

  /** The log is whole genuine records with distinct ids and at most one torn record after them. */
  ghost predicate Shape(c: Codec, log: Bytes, es: seq<Envelope>, torn: Bytes) {
    && log == Render(c, es) + torn
    && IsTorn(c, torn)
    && AllGenuine(c, es)
    && Distinct(Ids(es))
  }

  /** An index stamped no longer than the log is the index of an initial part of it. */
  ghost predicate StampSound(c: Codec, d: Disk, es: seq<Envelope>) {
    d.index.Some? && d.index.value.logLen <= |d.log| ==>
      exists k: nat :: k <= |es| && d.index == Some(FullIndex(c, es[..k]))
  }

  ghost predicate Sound(c: Codec, d: Disk, es: seq<Envelope>, torn: Bytes) {
    Shape(c, d.log, es, torn) && StampSound(c, d, es)
  }

  lemma TornHasNoNewline(c: Codec, torn: Bytes)
    requires CodecOk(c) && IsTorn(c, torn)
    ensures NewlineFree(torn)
  {
    if torn != [] {
      var e :| torn <= c.encode(e);
      assert RoundTrips(c, e);
      forall i | 0 <= i < |torn| ensures torn[i] != NEWLINE {
        assert torn[i] == c.encode(e)[i];
      }
    }
  }

  lemma {:induction false} RenderPrefix(c: Codec, es: seq<Envelope>, k: nat)
    requires k <= |es|
    ensures Render(c, es[..k]) <= Render(c, es)
    ensures |Render(c, es[..k])| == |Render(c, es)| ==> k == |es|
    decreases |es|
  {
    if k > 0 {
      RenderPrefix(c, es[1..], k - 1);
      assert es[..k][1..] == es[1..][..k - 1];
    }
  }

  lemma PlacedIds(c: Codec, es: seq<Envelope>, at: nat)
    ensures ScannedIds(Place(c, es, at)) == Ids(es)
  {
  }

  lemma GenuineIds(c: Codec, es: seq<Envelope>)
    requires CodecOk(c) && AllGenuine(c, es)
    ensures AllCanonical(Ids(es))
  {
    forall i | 0 <= i < |es| ensures CanonicalId(Ids(es)[i]) {
      GenuineIdIsCanonical(c.prims, es[i]);
    }
  }

  /** Opening the index succeeds exactly when nothing is torn, and then it is the index of the whole log:
      the length stamp cannot deceive. */
  lemma EnsureExact(c: Codec, d: Disk, es: seq<Envelope>, torn: Bytes)
    requires CodecOk(c) && Sound(c, d, es, torn)
    ensures Ensure(c, d) == if torn == [] then Some(Disk(d.log, Some(FullIndex(c, es)))) else None
  {
    assert torn == [] ==> d.log == Render(c, es);
    if d.index.Some? && d.index.value.logLen == |d.log| && d.index.value.schema == SCHEMA_VERSION {
      var k: nat :| k <= |es| && d.index == Some(FullIndex(c, es[..k]));
      RenderPrefix(c, es, k);
      assert es[..|es|] == es;
    } else {
      TornHasNoNewline(c, torn);
      ScanRendered(c, es, torn);
    }
  }

  function NextPlace(c: Codec, es: seq<Envelope>, e: Envelope): Scanned {
    Scanned(e, |Render(c, es)|, |Record(c, e)|)
  }

  lemma PlacesAppend(c: Codec, es: seq<Envelope>, e: Envelope)
    ensures |Render(c, es + [e])| == |Render(c, es)| + |Record(c, e)|
    ensures Place(c, es + [e], 0) == Place(c, es, 0) + [NextPlace(c, es, e)]
  {
    RenderAppend(c, es, e);
    PlaceAppend(c, es, e, 0);
  }

  /** The index after the entry of a freshly written record is committed. */
  function Committed(c: Codec, index: Index, e: Envelope, logLen: nat): Option<Index>
    requires |Record(c, e)| <= logLen
  {
    InsertEntry(c, index, e.id, logLen - |Record(c, e)|, |Record(c, e)|, logLen)
  }

  /** Committing it makes the index current again. */
  lemma CommitExact(c: Codec, es: seq<Envelope>, e: Envelope, logLen: nat, index: Index)
    requires CodecOk(c) && AllGenuine(c, es) && Genuine(c.prims, e)
    requires logLen == |Render(c, es)| + |Record(c, e)|
    requires index == FullIndex(c, es)
    ensures Committed(c, index, e, logLen) == Some(FullIndex(c, es + [e]))
  {
    PlacesAppend(c, es, e);
    CanonicalPlaces(c, es, e);
    CommitPlaced(c, Place(c, es, 0), e, logLen, Place(c, es + [e], 0), index, FullIndex(c, es + [e]));
  }

  lemma CanonicalPlaces(c: Codec, es: seq<Envelope>, e: Envelope)
    requires CodecOk(c) && AllGenuine(c, es) && Genuine(c.prims, e)
    ensures AllCanonical(ScannedIds(Place(c, es, 0))) && CanonicalId(e.id)
  {
    PlacedIds(c, es, 0);
    GenuineIds(c, es);
    GenuineIdIsCanonical(c.prims, e);
  }

  lemma CommitPlaced(
    c: Codec, sc: seq<Scanned>, e: Envelope, logLen: nat, all: seq<Scanned>, before: Index, after: Index)
    requires AllCanonical(ScannedIds(sc)) && CanonicalId(e.id) && |Record(c, e)| <= logLen
    requires all == sc + [Scanned(e, logLen - |Record(c, e)|, |Record(c, e)|)]
    requires before == IndexOf(c, sc, logLen - |Record(c, e)|) && after == IndexOf(c, all, logLen)
    ensures Committed(c, before, e, logLen) == Some(after)
  {
    InsertIsRebuild(c, sc, logLen - |Record(c, e)|, Scanned(e, logLen - |Record(c, e)|, |Record(c, e)|), logLen);
  }

  lemma {:induction false} MessagesKeys(sc: seq<Scanned>)
    ensures forall id :: id in MessagesOf(sc) <==> id in ScannedIds(sc)
    decreases |sc|
  {
    if sc != [] {
      var n := |sc| - 1;
      MessagesKeys(sc[..n]);
      assert ScannedIds(sc) == ScannedIds(sc[..n]) + [sc[n].envelope.id];
    }
  }

  lemma {:induction false} MessagesLocate(sc: seq<Scanned>, i: nat)
    requires i < |sc| && Distinct(ScannedIds(sc))
    ensures sc[i].envelope.id in MessagesOf(sc)
    ensures MessagesOf(sc)[sc[i].envelope.id] == Location(sc[i].offset, sc[i].length)
    decreases |sc|
  {
    var n := |sc| - 1;
    if i < n {
      var ids := ScannedIds(sc);
      assert ids[i] != ids[n];
      assert ScannedIds(sc[..n]) == ids[..n];
      MessagesLocate(sc[..n], i);
    }
  }

  lemma IndexedIds(c: Codec, es: seq<Envelope>)
    ensures forall id :: id in FullIndex(c, es).messages <==> id in Ids(es)
  {
    MessagesKeys(Place(c, es, 0));
    PlacedIds(c, es, 0);
  }

  lemma ShapeAppend(c: Codec, log: Bytes, es: seq<Envelope>, e: Envelope)
    requires Shape(c, log, es, []) && Genuine(c.prims, e) && e.id !in Ids(es)
    ensures Shape(c, log + Record(c, e), es + [e], [])
  {
    RenderAppend(c, es, e);
  }

  lemma WholeIsSound(c: Codec, d: Disk, es: seq<Envelope>)
    requires d.index == Some(FullIndex(c, es))
    ensures StampSound(c, d, es)
  {
    assert es[..|es|] == es;
  }
}
