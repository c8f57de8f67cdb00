/** The channel log as bytes: one JSON envelope and a newline per record. */
module LogFormat {
  import opened Basics
  import opened Chain
  import opened Proto

  /** The serialiser of envelopes beside the primitives that make an envelope genuine, and the hash
      of a bucket's members. */
  datatype Codec = Codec(
    prims: Primitives,
    encode: Envelope -> Bytes,
    decode: Bytes -> Option<Envelope>,
    bucketHash: Bytes -> Bytes)

  ghost predicate NewlineFree(b: Bytes) {
    NEWLINE !in b
  }

  predicate IsBlank(b: byte) {
    b == 32 || 9 <= b <= 10 || 12 <= b <= 13
  }

  /** JSON text decodes to what was encoded, holds no raw newline, and ends in a brace. */
  ghost predicate RoundTrips(c: Codec, e: Envelope) {
    var text := c.encode(e);
    NewlineFree(text) && c.decode(text) == Some(e) && text != [] && text[|text| - 1] == 125
  }

  ghost predicate CodecOk(c: Codec) {
    PrimitivesOk(c.prims) && forall e :: RoundTrips(c, e)
  }

  function Record(c: Codec, e: Envelope): Bytes {
    c.encode(e) + [NEWLINE]
  }

  /** The log that holds exactly these envelopes. */
  function Render(c: Codec, es: seq<Envelope>): Bytes {
    if es == [] then [] else Record(c, es[0]) + Render(c, es[1..])
  }

  datatype Scanned = Scanned(envelope: Envelope, offset: nat, length: nat)

  /** Where each envelope of a rendered log lies when the first record starts at `at`. */
  function Place(c: Codec, es: seq<Envelope>, at: nat): seq<Scanned> {
    if es == [] then [] else
    var n := |Record(c, es[0])|;
    [Scanned(es[0], at, n)] + Place(c, es[1..], at + n)
  }

  function NewlineAt(log: Bytes, at: nat): (j: nat)
    requires at <= |log|
    ensures at <= j <= |log|
    ensures forall i :: at <= i < j ==> log[i] != NEWLINE
    ensures j < |log| ==> log[j] == NEWLINE
    decreases |log| - at
  {
    if at == |log| || log[at] == NEWLINE then at else NewlineAt(log, at + 1)
  }

  /** One line without its newline and without a carriage return before it. */
  function Line(log: Bytes, at: nat, end: nat): Bytes
    requires at <= end <= |log|
  {
    if at < end && log[end - 1] == 13 then log[at..end - 1] else log[at..end]
  }

  predicate Blank(line: Bytes) {
    forall i :: 0 <= i < |line| ==> IsBlank(line[i])
  }

  /** Reads every record from position `at`; `None` when a record is truncated, unreadable or forged. */
  function Scan(c: Codec, log: Bytes, at: nat): Option<seq<Scanned>>
    requires at <= |log|
    decreases |log| - at
  {
    if at == |log| then Some([]) else
    var end := NewlineAt(log, at);
    if end == |log| then None else
    var line := Line(log, at, end);
    if Blank(line) then Scan(c, log, end + 1) else
    match c.decode(line)
    case None => None
    case Some(e) =>
      if !Genuine(c.prims, e) then None else
      Prepend([Scanned(e, at, end + 1 - at)], Scan(c, log, end + 1))
  }

  /** Puts what was read before in front of what is read next. */
  function Prepend(found: seq<Scanned>, rest: Option<seq<Scanned>>): Option<seq<Scanned>> {
    match rest case None => None case Some(r) => Some(found + r)
  }

  /** The scanning loop computes `Scan`. */
  method ScanVerified(c: Codec, log: Bytes) returns (r: Option<seq<Scanned>>)
    ensures r == Scan(c, log, 0)
  {
    var at := 0;
    var found: seq<Scanned> := [];
    PrependNothing(Scan(c, log, 0));
    while at < |log|
      invariant 0 <= at <= |log|
      invariant Scan(c, log, 0) == Prepend(found, Scan(c, log, at))
    {
      var end := NewlineAt(log, at);
      if end == |log| { return None; }
      var line := Line(log, at, end);
      if !Blank(line) {
        var e := c.decode(line);
        if e.None? { return None; }
        var genuine := Verify(c.prims, e.value);
        if !genuine { return None; }
        PrependOne(found, Scanned(e.value, at, end + 1 - at), Scan(c, log, end + 1));
        found := found + [Scanned(e.value, at, end + 1 - at)];
      }
      at := end + 1;
    }
    assert found + [] == found;
    return Some(found);
  }

  lemma PrependNothing(rest: Option<seq<Scanned>>)
    ensures Prepend([], rest) == rest
  {
    if rest.Some? { assert [] + rest.value == rest.value; }
  }

  lemma PrependOne(found: seq<Scanned>, next: Scanned, rest: Option<seq<Scanned>>)
    ensures Prepend(found, Prepend([next], rest)) == Prepend(found + [next], rest)
  {
    if rest.Some? { assert found + ([next] + rest.value) == (found + [next]) + rest.value; }
  }

  lemma {:induction false} RenderAppend(c: Codec, es: seq<Envelope>, e: Envelope)
    ensures Render(c, es + [e]) == Render(c, es) + Record(c, e)
  {
    if es == [] {
      assert Render(c, [e]) == Record(c, e) + Render(c, []);
      assert es + [e] == [e];
    } else {
      RenderAppend(c, es[1..], e);
      assert (es + [e])[1..] == es[1..] + [e];
    }
  }

  lemma {:induction false} PlaceAppend(c: Codec, es: seq<Envelope>, e: Envelope, at: nat)
    ensures Place(c, es + [e], at)
         == Place(c, es, at) + [Scanned(e, at + |Render(c, es)|, |Record(c, e)|)]
  {
    if es == [] {
      assert es + [e] == [e];
    } else {
      PlaceAppend(c, es[1..], e, at + |Record(c, es[0])|);
      assert (es + [e])[1..] == es[1..] + [e];
    }
  }

  ghost predicate AllGenuine(c: Codec, es: seq<Envelope>) {
    forall i :: 0 <= i < |es| ==> Genuine(c.prims, es[i])
  }

  /** Reading one whole record. */
  lemma ScanRecord(c: Codec, log: Bytes, at: nat, e: Envelope)
    requires CodecOk(c)
    requires at + |Record(c, e)| <= |log| && log[at..at + |Record(c, e)|] == Record(c, e)
    ensures NewlineAt(log, at) == at + |c.encode(e)|
    ensures Line(log, at, at + |c.encode(e)|) == c.encode(e) && !Blank(c.encode(e))
  {
    assert RoundTrips(c, e);
    var body := c.encode(e);
    var end := at + |body|;
    var found := log[at..end + 1];
    assert found == body + [NEWLINE];
    assert log[end] == found[|body|] && log[end - 1] == found[|body| - 1];
    assert log[at..end] == found[..|body|] == body;
  }

  lemma ScanOne(c: Codec, log: Bytes, at: nat, e: Envelope)
    requires CodecOk(c) && Genuine(c.prims, e)
    requires at + |Record(c, e)| <= |log| && log[at..at + |Record(c, e)|] == Record(c, e)
    ensures Scan(c, log, at) == Prepend([Scanned(e, at, |Record(c, e)|)], Scan(c, log, at + |Record(c, e)|))
  {
    assert RoundTrips(c, e);
    ScanRecord(c, log, at, e);
  }

  /** `log` holds these records one after the other from position `at` on, and then a rest without
      newline, which starts at the position returned by `EndOf`. */
  ghost predicate Holds(c: Codec, log: Bytes, at: nat, es: seq<Envelope>)
    decreases |es|
  {
    if es == [] then at <= |log| && NewlineFree(log[at..]) else
    var n := |Record(c, es[0])|;
    && Genuine(c.prims, es[0])
    && at + n <= |log| && log[at..at + n] == Record(c, es[0])
    && Holds(c, log, at + n, es[1..])
  }

  function EndOf(c: Codec, at: nat, es: seq<Envelope>): nat
    decreases |es|
  {
    if es == [] then at else EndOf(c, at + |Record(c, es[0])|, es[1..])
  }

  lemma {:induction false} RenderHolds(c: Codec, pre: Bytes, es: seq<Envelope>, torn: Bytes)
    requires AllGenuine(c, es) && NewlineFree(torn)
    ensures Holds(c, pre + Render(c, es) + torn, |pre|, es)
    ensures EndOf(c, |pre|, es) == |pre| + |Render(c, es)|
    decreases |es|
  {
    var log := pre + Render(c, es) + torn;
    if es == [] {
      assert log[|pre|..] == torn;
    } else {
      var first := Record(c, es[0]);
      assert log == (pre + first) + Render(c, es[1..]) + torn;
      assert log[|pre|..|pre| + |first|] == first;
      assert Genuine(c.prims, es[0]);
      RenderHolds(c, pre + first, es[1..], torn);
    }
  }

  lemma ScanFirst(c: Codec, log: Bytes, at: nat, es: seq<Envelope>, next: nat)
    requires CodecOk(c) && Holds(c, log, at, es) && es != [] && next == at + |Record(c, es[0])|
    ensures next <= |log| && Holds(c, log, next, es[1..])
    ensures Scan(c, log, at) == Prepend([Scanned(es[0], at, next - at)], Scan(c, log, next))
  {
    ScanOne(c, log, at, es[0]);
  }

  lemma {:induction false} ScanHeld(c: Codec, log: Bytes, at: nat, es: seq<Envelope>)
    requires CodecOk(c) && Holds(c, log, at, es)
    ensures at <= |log| && EndOf(c, at, es) <= |log|
    ensures Scan(c, log, at) == if EndOf(c, at, es) == |log| then Some(Place(c, es, at)) else None
    decreases |es|
  {
    if es != [] {
      var next := at + |Record(c, es[0])|;
      ScanFirst(c, log, at, es, next);
      ScanHeld(c, log, next, es[1..]);
      assert Place(c, es, at) == [Scanned(es[0], at, next - at)] + Place(c, es[1..], next);
    }
  }

  /** A rendered log reads back as exactly its envelopes, each at its place; one byte of a torn record
      after them and nothing can be read. */
  lemma ScanRendered(c: Codec, es: seq<Envelope>, torn: Bytes)
    requires CodecOk(c) && AllGenuine(c, es) && NewlineFree(torn)
    ensures Scan(c, Render(c, es) + torn, 0) == if torn == [] then Some(Place(c, es, 0)) else None
  {
    var log := Render(c, es) + torn;
    RenderHolds(c, [], es, torn);
    assert [] + Render(c, es) + torn == log;
    ScanHeld(c, log, 0, es);
  }

  /** Every placed record is found at its location. */
  lemma {:induction false} PlacedRecord(c: Codec, log: Bytes, at: nat, es: seq<Envelope>, i: nat)
    requires Holds(c, log, at, es) && i < |es|
    ensures |Place(c, es, at)| == |es|
    ensures var p := Place(c, es, at)[i];
            && p.offset + p.length <= |log|
            && log[p.offset..p.offset + p.length] == Record(c, es[i])
    decreases |es|
  {
    PlaceLength(c, es, at);
    if i > 0 {
      PlacedRecord(c, log, at + |Record(c, es[0])|, es[1..], i - 1);
    }
  }

  lemma {:induction false} PlaceLength(c: Codec, es: seq<Envelope>, at: nat)
    ensures |Place(c, es, at)| == |es|
  {
    if es != [] { PlaceLength(c, es[1..], at + |Record(c, es[0])|); }
  }

  /** Later records lie strictly further on. */
  lemma {:induction false} PlaceOrdered(c: Codec, es: seq<Envelope>, at: nat)
    ensures |Place(c, es, at)| == |es|
    ensures forall i :: 0 <= i < |es| ==> Place(c, es, at)[i].envelope == es[i] && at <= Place(c, es, at)[i].offset
    ensures forall i, j :: 0 <= i < j < |es| ==> Place(c, es, at)[i].offset < Place(c, es, at)[j].offset
    decreases |es|
  {
    if es != [] {
      PlaceOrdered(c, es[1..], at + |Record(c, es[0])|);
    }
  }
}
