/** What additions, removals and look-ups do to the URLs and pins of the peer list. */
module PeerOperations {
  import opened Basics
  import opened Chain
  import opened Proto
  import opened Peers

  // ---------------------------------------------------------------- normal forms

  lemma {:induction false} LowerUnhex(b: Bytes)
    ensures Unhex(Lower(b)) == Unhex(b)
    ensures Unhex(b).Some? ==> Lower(b) == Hex(Unhex(b).value)
    decreases |b|
  {
    if |b| >= 2 {
      var rest := b[2..];
      LowerUnhex(rest);
      assert Lower(b)[2..] == Lower(rest);
      if Unhex(b).Some? {
        var raw := Unhex(b).value;
        assert raw[1..] == Unhex(rest).value;
        DigitLower(b[0]);
        DigitLower(b[1]);
        var hi, lo := HexValue(b[0]).value, HexValue(b[1]).value;
        assert raw[0] as int == 16 * hi as int + lo as int;
        assert raw[0] / 16 == hi && raw[0] % 16 == lo;
        assert Lower(b) == [Lower(b)[0], Lower(b)[1]] + Lower(b)[2..];
      }
    }
  }

  lemma DigitLower(d: byte)
    requires HexValue(d).Some?
    ensures HexValue(d).value < 16
    ensures HexDigit(HexValue(d).value) == if 65 <= d <= 90 then d + 32 else d
  {
  }

  /** A pin is accepted exactly if it is, blanks aside, 32 bytes in hexadecimal; it is kept in lower case. */
  lemma PinIff(r: Rules, value: Bytes, key: Key)
    ensures ValidatePin(r, value) == Some(key) <==>
            var raw := Unhex(r.trim(value)); raw.Some? && |raw.value| == 32 && key == Hex(raw.value)
  {
    LowerUnhex(r.trim(value));
  }

  /** An entry of either format is in order exactly if its URL has a normal form and its pin, if it has one, is
      accepted; a legacy entry has none. */
  lemma CleanIff(r: Rules, s: Stored, x: PeerRecord)
    ensures Clean(r, s) == Some(x) <==>
            match s
            case Legacy(url) => r.normalize(url) == Some(x.url) && x.pin == None
            case Record(record) =>
              && r.normalize(record.url) == Some(x.url)
              && (if record.pin.None? then x.pin == None
                  else x.pin.Some? && ValidatePin(r, record.pin.value) == x.pin)
  {
  }

  // ---------------------------------------------------------------- the list after an operation

  /** The pins that an addition brings. */
  function NewPins(url: Url, pin: Option<Key>): set<(Url, Key)> {
    if pin.Some? then {(url, pin.value)} else {}
  }

  lemma WrittenSets(r: Rules, rs: seq<PeerRecord>)
    requires DistinctUrls(rs) && AllNormal(r, rs)
    ensures var l := Load(r, Some(Written(rs)));
            l.Some? && Urls(l.value) == Urls(rs) && Pins(l.value) == Pins(rs)
  {
    WriteThenLoad(r, rs);
    SortedRecords(rs);
  }

  lemma MergesIff(rs: seq<PeerRecord>, x: PeerRecord)
    requires DistinctUrls(rs)
    ensures MergeOne(rs, x).Some? <==> !Clash(Pins(rs) + PinsOf(x))
  {
    MergeOneResult(rs, x);
    if MergeOne(rs, x).Some? { DistinctNoClash(MergeOne(rs, x).value); }
  }

  /** An addition succeeds exactly if the URL and the pin are well formed, the list loads, and the pin does not
      contradict another of the same URL. It adds the URL and the pin, and nothing else changes. */
  lemma AddsIff(r: Rules, file: Option<PeerConfig>, value: Url, pin: Option<Bytes>)
    requires RulesOk(r)
    ensures var url, l := r.normalize(value), Load(r, file);
            var key := if pin.Some? then ValidatePin(r, pin.value) else None;
            var fine := url.Some? && l.Some? && (pin.Some? ==> key.Some?);
            && (Add(r, file, value, pin).Some? <==> fine && !Clash(Pins(l.value) + NewPins(url.value, key)))
            && (Add(r, file, value, pin).Some? ==>
                  var after := Load(r, Add(r, file, value, pin));
                  && after.Some? && Urls(after.value) == Urls(l.value) + {url.value}
                  && Pins(after.value) == Pins(l.value) + NewPins(url.value, key))
  {
    var url, l := r.normalize(value), Load(r, file);
    var key := ValidateOptional(r, pin);
    if url.Some? && l.Some? && key.Some? {
      var x := PeerRecord(url.value, key.value);
      LoadGivesLoaded(r, file);
      MergesIff(l.value, x);
      MergeOneResult(l.value, x);
      CleanNormal(r, Record(PeerRecord(value, pin)));
      if MergeOne(l.value, x).Some? {
        JoinedNormal(r, l.value, x);
        WrittenSets(r, MergeOne(l.value, x).value);
      }
    }
  }

  /** A removal succeeds exactly if the URL is well formed and the list loads. It removes that URL with its pin,
      and nothing else changes. */
  lemma RemovesIff(r: Rules, file: Option<PeerConfig>, value: Url)
    requires RulesOk(r)
    ensures var url, l := r.normalize(value), Load(r, file);
            && (Remove(r, file, value).Some? <==> url.Some? && l.Some?)
            && (Remove(r, file, value).Some? ==>
                  var after := Load(r, Remove(r, file, value));
                  && after.Some? && Urls(after.value) == Urls(l.value) - {url.value}
                  && Pins(after.value) == set p | p in Pins(l.value) && p.0 != url.value)
  {
    var url, l := r.normalize(value), Load(r, file);
    if url.Some? && l.Some? {
      LoadGivesLoaded(r, file);
      var rest := Without(l.value, url.value);
      WithoutNormal(r, l.value, url.value);
      WrittenSets(r, rest);
      PinsWithout(l.value, url.value);
    }
  }

  lemma PinsWithout(rs: seq<PeerRecord>, url: Url)
    ensures Urls(Without(rs, url)) == Urls(rs) - {url}
    ensures Pins(Without(rs, url)) == set p | p in Pins(rs) && p.0 != url
  {
    var rest := Without(rs, url);
    forall p | p in Pins(rs) && p.0 != url ensures p in Pins(rest) {
      var x :| x in rs && x.pin.Some? && (x.url, x.pin.value) == p;
      assert x in rest;
    }
    forall u | u in Urls(rs) && u != url ensures u in Urls(rest) {
      var x :| x in rs && x.url == u;
      assert x in rest;
    }
  }

  /** A connection may be opened to a listed URL only if it is pinned, and then the pin is expected; a URL that is
      not listed may show any identity. */
  lemma ExpectedIff(r: Rules, file: Option<PeerConfig>, value: Url)
    requires RulesOk(r)
    ensures var url, l, e := r.normalize(value), Load(r, file), ExpectedKey(r, file, value);
            if url.None? || l.None? then e == None else
            && (e == Some(None) <==> url.value !in Urls(l.value))
            && forall key :: e == Some(Some(key)) <==> (url.value, key) in Pins(l.value)
  {
    var url, l := r.normalize(value), Load(r, file);
    if url.Some? && l.Some? {
      LoadGivesLoaded(r, file);
      FindsUrl(l.value, url.value);
      var k := Find(l.value, url.value);
      forall key ensures ExpectedKey(r, file, value) == Some(Some(key)) <==> (url.value, key) in Pins(l.value) {
        if k.Some? {
          assert l.value[k.value] in l.value;
          if (url.value, key) in Pins(l.value) {
            var x :| x in l.value && x.pin.Some? && (x.url, x.pin.value) == (url.value, key);
            SameUrlSameRecord(l.value, x, l.value[k.value]);
          }
        }
      }
    }
  }
}
