/** The peer list: entries of two formats are normalised and merged, at most one identity is pinned to a URL,
    and a pin stays until the URL is removed.
 */
module Peers {
  import opened Basics
  import opened Chain
  import opened Proto

  type Url = Bytes

  datatype PeerRecord = PeerRecord(url: Url, pin: Option<Key>)

  datatype Stored = Legacy(url: Url) | Record(record: PeerRecord)

  datatype PeerConfig = PeerConfig(version: nat, peers: seq<Stored>)

  /** URL normalisation, which refuses other schemes and missing hosts, and the trimming of blanks. */
  datatype Rules = Rules(normalize: Url -> Option<Url>, trim: Bytes -> Bytes)

  predicate IsHexText(b: Bytes) {
    forall i :: 0 <= i < |b| ==> HexValue(b[i]).Some?
  }

  /** A normal URL stays as it is, and hexadecimal text has nothing to trim. */
  ghost predicate RulesOk(r: Rules) {
    && (forall x :: r.normalize(x).Some? ==> r.normalize(r.normalize(x).value) == r.normalize(x))
    && (forall b :: IsHexText(b) ==> r.trim(b) == b)
  }

  function Lower(b: Bytes): (l: Bytes)
    ensures |l| == |b|
  {
    seq(|b|, i requires 0 <= i < |b| => if 65 <= b[i] <= 90 then b[i] + 32 else b[i])
  }

  /** A pin in normal form: 64 lower-case hexadecimal digits. */
  function ValidatePin(r: Rules, value: Bytes): Option<Key> {
    var text := Lower(r.trim(value));
    match Unhex(text)
    case Some(raw) => if |raw| == 32 then Some(text) else None
    case None => None
  }

  /** One entry in normal form; `None` if it is malformed. */
  function Clean(r: Rules, s: Stored): Option<PeerRecord> {
    var record := match s case Legacy(url) => PeerRecord(url, None) case Record(x) => x;
    match r.normalize(record.url)
    case None => None
    case Some(url) =>
      match record.pin
      case None => Some(PeerRecord(url, None))
      case Some(pin) =>
        match ValidatePin(r, pin)
        case None => None
        case Some(key) => Some(PeerRecord(url, Some(key)))
  }

  /** The first record with this URL. */
  function Find(rs: seq<PeerRecord>, url: Url): (k: Option<nat>)
    ensures k.Some? ==> k.value < |rs| && rs[k.value].url == url
    ensures k.None? ==> forall i :: 0 <= i < |rs| ==> rs[i].url != url
  {
    if rs == [] then None
    else if rs[0].url == url then Some(0)
    else match Find(rs[1..], url)
         case None => assert forall i :: 1 <= i < |rs| ==> rs[i] == rs[1..][i - 1]; None
         case Some(k) => Some(k + 1)
  }

  /** Joins one record to the list; `None` if it contradicts a pin. */
  function MergeOne(rs: seq<PeerRecord>, x: PeerRecord): Option<seq<PeerRecord>> {
    match Find(rs, x.url)
    case None => Some(rs + [x])
    case Some(k) =>
      if rs[k].pin.None? then Some(rs[k := PeerRecord(x.url, x.pin)])
      else if x.pin.Some? && x.pin != rs[k].pin then None
      else Some(rs)
  }

  /** The list after the first `n` entries. */
  function MergeFirst(r: Rules, entries: seq<Stored>, n: nat): Option<seq<PeerRecord>>
    requires n <= |entries|
  {
    if n == 0 then Some([]) else
    match MergeFirst(r, entries, n - 1)
    case None => None
    case Some(rs) =>
      match Clean(r, entries[n - 1])
      case None => None
      case Some(x) => MergeOne(rs, x)
  }

  predicate ByUrl(a: PeerRecord, b: PeerRecord) {
    LexLeq(a.url, b.url)
  }

  /** The sorted list of a configuration file; a missing file is an empty list. */
  function Load(r: Rules, file: Option<PeerConfig>): Option<seq<PeerRecord>> {
    match file
    case None => Some([])
    case Some(config) =>
      if config.version != 1 && config.version != 2 then None else
      match MergeFirst(r, config.peers, |config.peers|)
      case None => None
      case Some(rs) => Some(Sort(ByUrl, rs))
  }

  function AsStored(rs: seq<PeerRecord>): (s: seq<Stored>)
    ensures |s| == |rs| && forall i :: 0 <= i < |rs| ==> s[i] == Record(rs[i])
  {
    seq(|rs|, i requires 0 <= i < |rs| => Record(rs[i]))
  }

  function Written(rs: seq<PeerRecord>): PeerConfig {
    PeerConfig(2, AsStored(Sort(ByUrl, rs)))
  }

  // ---------------------------------------------------------------- what a loaded list is

  ghost predicate DistinctUrls(rs: seq<PeerRecord>) {
    forall i, j :: 0 <= i < j < |rs| ==> rs[i].url != rs[j].url
  }

  ghost predicate Normal(r: Rules, x: PeerRecord) {
    Clean(r, Record(x)) == Some(x)
  }

  ghost predicate AllNormal(r: Rules, rs: seq<PeerRecord>) {
    forall i :: 0 <= i < |rs| ==> Normal(r, rs[i])
  }

  /** The first `n` entries in normal form; `None` if one of them is malformed. */
  function CleanFirst(r: Rules, entries: seq<Stored>, n: nat): Option<seq<PeerRecord>>
    requires n <= |entries|
  {
    if n == 0 then Some([]) else
    match CleanFirst(r, entries, n - 1)
    case None => None
    case Some(xs) =>
      match Clean(r, entries[n - 1])
      case None => None
      case Some(x) => Some(xs + [x])
  }

  function Urls(xs: seq<PeerRecord>): set<Url> {
    set x | x in xs :: x.url
  }

  function Pins(xs: seq<PeerRecord>): set<(Url, Key)> {
    set x | x in xs && x.pin.Some? :: (x.url, x.pin.value)
  }

  /** Some URL is pinned to two keys. */
  ghost predicate Clash(pins: set<(Url, Key)>) {
    exists p, q :: p in pins && q in pins && p.0 == q.0 && p.1 != q.1
  }

  function PinsOf(x: PeerRecord): set<(Url, Key)> {
    if x.pin.Some? then {(x.url, x.pin.value)} else {}
  }

  lemma PushSets(xs: seq<PeerRecord>, x: PeerRecord)
    ensures Urls(xs + [x]) == Urls(xs) + {x.url}
    ensures Pins(xs + [x]) == Pins(xs) + PinsOf(x)
  {
    var after := xs + [x];
    assert forall y :: y in after <==> y in xs || y == x;
    forall u | u in Urls(xs) + {x.url} ensures u in Urls(after) {
      if u in Urls(xs) {
        var y :| y in xs && y.url == u;
        assert y in after;
      } else {
        assert x in after;
      }
    }
    forall p | p in Pins(xs) + PinsOf(x) ensures p in Pins(after) {
      if p in Pins(xs) {
        var y :| y in xs && y.pin.Some? && (y.url, y.pin.value) == p;
        assert y in after;
      } else {
        assert x in after;
      }
    }
  }

  /** Giving an unpinned record a pin. */
  lemma PinSets(xs: seq<PeerRecord>, k: nat, x: PeerRecord)
    requires k < |xs| && xs[k] == PeerRecord(x.url, None)
    ensures Urls(xs[k := x]) == Urls(xs)
    ensures Pins(xs[k := x]) == Pins(xs) + PinsOf(x)
  {
    var after := xs[k := x];
    assert xs == xs[..k] + [xs[k]] + xs[k + 1..] && after == xs[..k] + [x] + xs[k + 1..];
    AppendSets(xs[..k] + [xs[k]], xs[k + 1..]);
    AppendSets(xs[..k] + [x], xs[k + 1..]);
    PushSets(xs[..k], xs[k]);
    PushSets(xs[..k], x);
  }

  lemma {:induction false} AppendSets(xs: seq<PeerRecord>, ys: seq<PeerRecord>)
    ensures Urls(xs + ys) == Urls(xs) + Urls(ys) && Pins(xs + ys) == Pins(xs) + Pins(ys)
    decreases |ys|
  {
    if ys == [] {
      assert xs + ys == xs;
    } else {
      var init, last := ys[..|ys| - 1], ys[|ys| - 1];
      AppendSets(xs, init);
      PushSets(xs + init, last);
      PushSets(init, last);
      assert ys == init + [last] && xs + ys == xs + init + [last];
    }
  }

  lemma FindsUrl(xs: seq<PeerRecord>, url: Url)
    ensures Find(xs, url).Some? <==> url in Urls(xs)
  {
    if Find(xs, url).Some? {
      assert xs[Find(xs, url).value] in xs;
    }
  }

  lemma SameUrlSameRecord(rs: seq<PeerRecord>, x: PeerRecord, y: PeerRecord)
    requires DistinctUrls(rs) && x in rs && y in rs && x.url == y.url
    ensures x == y
  {
    var i, j :| 0 <= i < |rs| && 0 <= j < |rs| && rs[i] == x && rs[j] == y;
  }

  /** In a list without repeated URLs no pins clash. */
  lemma DistinctNoClash(rs: seq<PeerRecord>)
    requires DistinctUrls(rs)
    ensures !Clash(Pins(rs))
  {
    forall p, q | p in Pins(rs) && q in Pins(rs) && p.0 == q.0 ensures p.1 == q.1 {
      var x :| x in rs && x.pin.Some? && (x.url, x.pin.value) == p;
      var y :| y in rs && y.pin.Some? && (y.url, y.pin.value) == q;
      SameUrlSameRecord(rs, x, y);
    }
  }

  /** Joining a record fails exactly when its pin clashes with a pin in the list; otherwise it adds the URL and
      the pin and keeps the URLs distinct. */
  lemma MergeOneResult(rs: seq<PeerRecord>, x: PeerRecord)
    requires DistinctUrls(rs)
    ensures MergeOne(rs, x).None? ==> Clash(Pins(rs) + PinsOf(x))
    ensures MergeOne(rs, x).Some? ==>
              var m := MergeOne(rs, x).value;
              DistinctUrls(m) && Urls(m) == Urls(rs) + {x.url} && Pins(m) == Pins(rs) + PinsOf(x)
  {
    FindsUrl(rs, x.url);
    match Find(rs, x.url)
    case None => PushSets(rs, x);
    case Some(k) =>
      assert rs[k] in rs;
      if rs[k].pin.None? {
        PinSets(rs, k, x);
      } else {
        assert (x.url, rs[k].pin.value) in Pins(rs);
        if MergeOne(rs, x).None? {
          assert (x.url, x.pin.value) in PinsOf(x);
          assert (x.url, rs[k].pin.value) in Pins(rs) + PinsOf(x);
        }
      }
  }

  lemma ClashGrows(a: set<(Url, Key)>, b: set<(Url, Key)>)
    requires Clash(a) && a <= b
    ensures Clash(b)
  {
    var p, q :| p in a && q in a && p.0 == q.0 && p.1 != q.1;
    assert p in b && q in b;
  }

  /** Merging fails exactly on a malformed entry or on a URL with two different pins; otherwise the list has
      one record for each URL and exactly the pins of the entries. */
  lemma {:induction false} MergeResult(r: Rules, entries: seq<Stored>, n: nat)
    requires n <= |entries|
    ensures MergeFirst(r, entries, n).None? <==>
            CleanFirst(r, entries, n).None? || Clash(Pins(CleanFirst(r, entries, n).value))
    ensures MergeFirst(r, entries, n).Some? ==>
              var rs, xs := MergeFirst(r, entries, n).value, CleanFirst(r, entries, n).value;
              DistinctUrls(rs) && Urls(rs) == Urls(xs) && Pins(rs) == Pins(xs)
  {
    if n > 0 {
      MergeResult(r, entries, n - 1);
      if CleanFirst(r, entries, n).Some? {
        var xs, x := CleanFirst(r, entries, n - 1).value, Clean(r, entries[n - 1]).value;
        PushSets(xs, x);
        if MergeFirst(r, entries, n - 1).None? {
          ClashGrows(Pins(xs), Pins(xs + [x]));
        } else {
          var rs := MergeFirst(r, entries, n - 1).value;
          MergeOneResult(rs, x);
          if MergeOne(rs, x).Some? { DistinctNoClash(MergeOne(rs, x).value); }
        }
      }
    }
  }

  // ---------------------------------------------------------------- sorting

  lemma ByUrlIsTotal()
    ensures TotalOrder(ByUrl)
  {
    LexIsTotalOrder();
    forall x, y ensures ByUrl(x, y) || ByUrl(y, x) { LexTotal(x.url, y.url); }
    forall x, y, z | ByUrl(x, y) && ByUrl(y, z) ensures ByUrl(x, z) { LexTransitive(x.url, y.url, z.url); }
  }

  /** The sorted list has the same records and still no repeated URL. */
  lemma SortedRecords(rs: seq<PeerRecord>)
    requires DistinctUrls(rs)
    ensures var s := Sort(ByUrl, rs);
            SortedBy(ByUrl, s) && DistinctUrls(s) && (forall x :: x in s <==> x in rs) && multiset(s) == multiset(rs)
  {
    ByUrlIsTotal();
    SortSorts(ByUrl, rs);
    var s := Sort(ByUrl, rs);
    DistinctPermutation(rs, s);
    forall i, j | 0 <= i < j < |s| ensures s[i].url != s[j].url {
      assert s[i] in rs && s[j] in rs;
      if s[i].url == s[j].url { SameUrlSameRecord(rs, s[i], s[j]); }
    }
  }

  /** Lists without repeated URLs that hold the same records have the same sorted form. */
  lemma SortedFormUnique(a: seq<PeerRecord>, b: seq<PeerRecord>)
    requires DistinctUrls(a) && DistinctUrls(b) && forall x :: x in a <==> x in b
    ensures Sort(ByUrl, a) == Sort(ByUrl, b)
  {
    DistinctMultiset(a, b);
    SortedRecords(a);
    SortedRecords(b);
    var s := Sort(ByUrl, a);
    forall x, y | x in s && y in s && ByUrl(x, y) && ByUrl(y, x) ensures x == y {
      LexTotal(x.url, y.url);
      SameUrlSameRecord(s, x, y);
    }
    SortedUnique(ByUrl, s, Sort(ByUrl, b));
  }

  /** URLs and pins determine the records. */
  lemma SetsDetermine(a: seq<PeerRecord>, b: seq<PeerRecord>, x: PeerRecord)
    requires DistinctUrls(a) && DistinctUrls(b) && Urls(a) == Urls(b) && Pins(a) == Pins(b) && x in a
    ensures x in b
  {
    if x.pin.Some? {
      assert (x.url, x.pin.value) in Pins(b);
      var y :| y in b && y.pin.Some? && (y.url, y.pin.value) == (x.url, x.pin.value);
    } else {
      assert x.url in Urls(b);
      var y :| y in b && y.url == x.url;
      if y.pin.Some? {
        assert (y.url, y.pin.value) in Pins(a);
        var z :| z in a && z.pin.Some? && (z.url, z.pin.value) == (y.url, y.pin.value);
        SameUrlSameRecord(a, x, z);
      }
    }
  }

  /** One of the first `n` entries has this normal form. */
  ghost predicate Yields(r: Rules, entries: seq<Stored>, n: nat, x: Option<PeerRecord>)
    requires n <= |entries|
  {
    exists i :: 0 <= i < n && Clean(r, entries[i]) == x
  }

  lemma YieldsStep(r: Rules, entries: seq<Stored>, n: nat, x: Option<PeerRecord>)
    requires n < |entries|
    ensures Yields(r, entries, n + 1, x) <==> Yields(r, entries, n, x) || Clean(r, entries[n]) == x
  {
    if Yields(r, entries, n, x) {
      var i :| 0 <= i < n && Clean(r, entries[i]) == x;
      assert 0 <= i < n + 1;
    }
  }

  lemma {:induction false} CleanMalformed(r: Rules, entries: seq<Stored>, n: nat)
    requires n <= |entries|
    ensures CleanFirst(r, entries, n).None? <==> Yields(r, entries, n, None)
  {
    if n > 0 {
      CleanMalformed(r, entries, n - 1);
      YieldsStep(r, entries, n - 1, None);
    }
  }

  lemma {:induction false} CleanHas(r: Rules, entries: seq<Stored>, n: nat, x: PeerRecord)
    requires n <= |entries| && CleanFirst(r, entries, n).Some?
    ensures x in CleanFirst(r, entries, n).value <==> Yields(r, entries, n, Some(x))
  {
    if n > 0 {
      CleanHas(r, entries, n - 1, x);
      YieldsStep(r, entries, n - 1, Some(x));
    }
  }

  lemma YieldsWithin(r: Rules, a: seq<Stored>, b: seq<Stored>, x: Option<PeerRecord>)
    requires (forall s :: s in a ==> s in b) && Yields(r, a, |a|, x)
    ensures Yields(r, b, |b|, x)
  {
    var i :| 0 <= i < |a| && Clean(r, a[i]) == x;
    assert a[i] in b;
    var j :| 0 <= j < |b| && b[j] == a[i];
    assert Clean(r, b[j]) == x;
  }

  /** Entry lists that hold the same entries, in any order and however often, clean to the same records. */
  lemma CleanSameSets(r: Rules, a: seq<Stored>, b: seq<Stored>)
    requires forall s :: s in a <==> s in b
    ensures CleanFirst(r, a, |a|).None? <==> CleanFirst(r, b, |b|).None?
    ensures CleanFirst(r, a, |a|).Some? ==>
              forall x :: x in CleanFirst(r, a, |a|).value <==> x in CleanFirst(r, b, |b|).value
  {
    CleanMalformed(r, a, |a|);
    CleanMalformed(r, b, |b|);
    if Yields(r, a, |a|, None) { YieldsWithin(r, a, b, None); }
    if Yields(r, b, |b|, None) { YieldsWithin(r, b, a, None); }
    if CleanFirst(r, a, |a|).Some? {
      forall x ensures x in CleanFirst(r, a, |a|).value <==> x in CleanFirst(r, b, |b|).value {
        CleanHas(r, a, |a|, x);
        CleanHas(r, b, |b|, x);
        if Yields(r, a, |a|, Some(x)) { YieldsWithin(r, a, b, Some(x)); }
        if Yields(r, b, |b|, Some(x)) { YieldsWithin(r, b, a, Some(x)); }
      }
    }
  }

  /** Loading does not depend on the order of the stored entries, nor on repetitions among them. */
  lemma OrderIsIrrelevant(r: Rules, version: nat, a: seq<Stored>, b: seq<Stored>)
    requires forall s :: s in a <==> s in b
    ensures Load(r, Some(PeerConfig(version, a))) == Load(r, Some(PeerConfig(version, b)))
  {
    CleanSameSets(r, a, b);
    MergeResult(r, a, |a|);
    MergeResult(r, b, |b|);
    if CleanFirst(r, a, |a|).Some? {
      assert Urls(CleanFirst(r, a, |a|).value) == Urls(CleanFirst(r, b, |b|).value);
      assert Pins(CleanFirst(r, a, |a|).value) == Pins(CleanFirst(r, b, |b|).value);
      if MergeFirst(r, a, |a|).Some? {
        var m, n := MergeFirst(r, a, |a|).value, MergeFirst(r, b, |b|).value;
        forall x ensures x in m <==> x in n {
          if x in m { SetsDetermine(m, n, x); }
          if x in n { SetsDetermine(n, m, x); }
        }
        SortedFormUnique(m, n);
      }
    }
  }

  /** When loading succeeds, and what it gives: one record for each URL in ascending order, with exactly the
      pins of the entries. */
  lemma LoadResult(r: Rules, config: PeerConfig)
    ensures var xs := CleanFirst(r, config.peers, |config.peers|);
            && (Load(r, Some(config)).Some? <==>
                (config.version == 1 || config.version == 2) && xs.Some? && !Clash(Pins(xs.value)))
            && (Load(r, Some(config)).Some? ==>
                  var l := Load(r, Some(config)).value;
                  SortedBy(ByUrl, l) && DistinctUrls(l) && Urls(l) == Urls(xs.value) && Pins(l) == Pins(xs.value))
  {
    MergeResult(r, config.peers, |config.peers|);
    var m := MergeFirst(r, config.peers, |config.peers|);
    if m.Some? {
      SortedRecords(m.value);
      assert Urls(Sort(ByUrl, m.value)) == Urls(m.value);
      assert Pins(Sort(ByUrl, m.value)) == Pins(m.value);
    }
  }

  // ---------------------------------------------------------------- normal forms stay

  lemma {:induction false} UnhexedIsHex(b: Bytes)
    requires Unhex(b).Some?
    ensures IsHexText(b)
  {
    if |b| >= 2 {
      UnhexedIsHex(b[2..]);
      assert forall i :: 2 <= i < |b| ==> b[i] == b[2..][i - 2];
    }
  }

  lemma PinNormal(r: Rules, value: Bytes)
    requires RulesOk(r) && ValidatePin(r, value).Some?
    ensures ValidatePin(r, ValidatePin(r, value).value) == ValidatePin(r, value)
  {
    var key := ValidatePin(r, value).value;
    UnhexedIsHex(key);
    assert r.trim(key) == key;
    assert Lower(key) == key;
  }

  /** The normal form of an entry is its own normal form. */
  lemma CleanNormal(r: Rules, s: Stored)
    requires RulesOk(r) && Clean(r, s).Some?
    ensures Normal(r, Clean(r, s).value)
  {
    var record := match s case Legacy(url) => PeerRecord(url, None) case Record(x) => x;
    assert r.normalize(r.normalize(record.url).value) == r.normalize(record.url);
    if record.pin.Some? { PinNormal(r, record.pin.value); }
  }

  lemma {:induction false} MergedNormal(r: Rules, entries: seq<Stored>, n: nat)
    requires RulesOk(r) && n <= |entries| && MergeFirst(r, entries, n).Some?
    ensures AllNormal(r, MergeFirst(r, entries, n).value)
  {
    if n > 0 {
      MergedNormal(r, entries, n - 1);
      CleanNormal(r, entries[n - 1]);
      JoinedNormal(r, MergeFirst(r, entries, n - 1).value, Clean(r, entries[n - 1]).value);
    }
  }

  lemma JoinedNormal(r: Rules, rs: seq<PeerRecord>, x: PeerRecord)
    requires AllNormal(r, rs) && Normal(r, x) && MergeOne(rs, x).Some?
    ensures AllNormal(r, MergeOne(rs, x).value)
  {
  }

  /** What loading returns: normal records in order, one for each URL. */
  ghost predicate Loaded(r: Rules, l: seq<PeerRecord>) {
    SortedBy(ByUrl, l) && DistinctUrls(l) && AllNormal(r, l)
  }

  lemma LoadGivesLoaded(r: Rules, file: Option<PeerConfig>)
    requires RulesOk(r) && Load(r, file).Some?
    ensures Loaded(r, Load(r, file).value)
  {
    if file.Some? {
      var entries := file.value.peers;
      MergeResult(r, entries, |entries|);
      MergedNormal(r, entries, |entries|);
      SortedNormal(r, MergeFirst(r, entries, |entries|).value);
    }
  }

  lemma SortedNormal(r: Rules, rs: seq<PeerRecord>)
    requires DistinctUrls(rs) && AllNormal(r, rs)
    ensures Loaded(r, Sort(ByUrl, rs))
  {
    SortedRecords(rs);
    var s := Sort(ByUrl, rs);
    forall i | 0 <= i < |s| ensures Normal(r, s[i]) {
      assert s[i] in rs;
    }
  }

  lemma MergeNext(r: Rules, entries: seq<Stored>, n: nat, rs: seq<PeerRecord>, x: PeerRecord)
    requires n < |entries| && MergeFirst(r, entries, n) == Some(rs) && Clean(r, entries[n]) == Some(x)
    requires forall y :: y in rs ==> y.url != x.url
    ensures MergeFirst(r, entries, n + 1) == Some(rs + [x])
  {
    FindsUrl(rs, x.url);
  }

  ghost predicate Stores(entries: seq<Stored>, l: seq<PeerRecord>) {
    |entries| == |l| && forall i :: 0 <= i < |l| ==> entries[i] == Record(l[i])
  }

  lemma MergeOwnRecord(r: Rules, entries: seq<Stored>, l: seq<PeerRecord>, n: nat)
    requires Stores(entries, l) && DistinctUrls(l) && n < |l| && Normal(r, l[n])
    requires MergeFirst(r, entries, n) == Some(l[..n])
    ensures MergeFirst(r, entries, n + 1) == Some(l[..n + 1])
  {
    MergeNext(r, entries, n, l[..n], l[n]);
    assert l[..n + 1] == l[..n] + [l[n]];
  }

  lemma {:induction false} MergeOwnRecords(r: Rules, entries: seq<Stored>, l: seq<PeerRecord>, n: nat)
    requires Stores(entries, l) && DistinctUrls(l) && AllNormal(r, l) && n <= |l|
    ensures MergeFirst(r, entries, n) == Some(l[..n])
  {
    if n > 0 {
      MergeOwnRecords(r, entries, l, n - 1);
      MergeOwnRecord(r, entries, l, n - 1);
    }
  }

  /** Writing a list and loading it again gives the list in order. */
  lemma WriteThenLoad(r: Rules, rs: seq<PeerRecord>)
    requires DistinctUrls(rs) && AllNormal(r, rs)
    ensures Load(r, Some(Written(rs))) == Some(Sort(ByUrl, rs))
  {
    var l := Sort(ByUrl, rs);
    SortedNormal(r, rs);
    SortedRecords(rs);
    MergeOwnRecords(r, AsStored(l), l, |l|);
    assert l[..|l|] == l;
    SortedFormUnique(l, rs);
  }

  /** On a loaded list, writing and loading is the identity. */
  lemma RewriteIsIdentity(r: Rules, file: Option<PeerConfig>)
    requires RulesOk(r) && Load(r, file).Some?
    ensures Load(r, Some(Written(Load(r, file).value))) == Load(r, file)
  {
    var l := Load(r, file).value;
    LoadGivesLoaded(r, file);
    WriteThenLoad(r, l);
    SortedRecords(l);
    forall x, y | x in l && y in l && ByUrl(x, y) && ByUrl(y, x) ensures x == y {
      LexTotal(x.url, y.url);
      SameUrlSameRecord(l, x, y);
    }
    SortedUnique(ByUrl, l, Sort(ByUrl, l));
  }

  // ---------------------------------------------------------------- operations on the file

  function ValidateOptional(r: Rules, pin: Option<Bytes>): Option<Option<Key>> {
    match pin
    case None => Some(None)
    case Some(value) => match ValidatePin(r, value) case None => None case Some(key) => Some(Some(key))
  }

  /** Adds a URL, or pins a known one; refuses to replace a pin. */
  function Add(r: Rules, file: Option<PeerConfig>, value: Url, pin: Option<Bytes>): Option<PeerConfig> {
    match (r.normalize(value), ValidateOptional(r, pin), Load(r, file))
    case (Some(url), Some(key), Some(rs)) =>
      (match MergeOne(rs, PeerRecord(url, key))
       case None => None
       case Some(after) => Some(Written(after)))
    case _ => None
  }

  function Without(rs: seq<PeerRecord>, url: Url): (w: seq<PeerRecord>)
    ensures forall x :: x in w <==> x in rs && x.url != url
  {
    if rs == [] then [] else
    assert rs == rs[..|rs| - 1] + [rs[|rs| - 1]];
    Without(rs[..|rs| - 1], url) + if rs[|rs| - 1].url == url then [] else [rs[|rs| - 1]]
  }

  lemma {:induction false} WithoutShrinks(rs: seq<PeerRecord>, url: Url)
    ensures |Without(rs, url)| <= |rs|
    ensures |Without(rs, url)| == |rs| <==> url !in Urls(rs)
    decreases |rs|
  {
    if rs != [] {
      var n := |rs| - 1;
      WithoutShrinks(rs[..n], url);
      assert rs == rs[..n] + [rs[n]];
      assert Urls(rs) == Urls(rs[..n]) + {rs[n].url};
    }
  }

  /** The pin under which a URL is known, if it is. */
  function PinOf(rs: seq<PeerRecord>, url: Url): Option<Key> {
    match Find(rs, url)
    case None => None
    case Some(k) => rs[k].pin
  }

  /** What joining a record leaves under its URL. */
  function Joined(rs: seq<PeerRecord>, x: PeerRecord): PeerRecord {
    PeerRecord(x.url, if x.pin.Some? then x.pin else PinOf(rs, x.url))
  }

  lemma {:induction false} JoinedIsFound(rs: seq<PeerRecord>, x: PeerRecord)
    requires MergeOne(rs, x).Some?
    ensures Find(MergeOne(rs, x).value, x.url).Some?
    ensures MergeOne(rs, x).value[Find(MergeOne(rs, x).value, x.url).value] == Joined(rs, x)
    decreases |rs|
  {
    var after := MergeOne(rs, x).value;
    if rs != [] && rs[0].url != x.url {
      JoinedIsFound(rs[1..], x);
      assert after[0] == rs[0] && after[1..] == MergeOne(rs[1..], x).value;
    }
  }

  function Remove(r: Rules, file: Option<PeerConfig>, value: Url): Option<PeerConfig> {
    match (r.normalize(value), Load(r, file))
    case (Some(url), Some(rs)) => Some(Written(Without(rs, url)))
    case _ => None
  }

  /** The identity a connection to this URL must show. A known URL without a pin is an error. */
  function ExpectedKey(r: Rules, file: Option<PeerConfig>, value: Url): Option<Option<Key>> {
    match (r.normalize(value), Load(r, file))
    case (Some(url), Some(rs)) =>
      (match Find(rs, url)
       case None => Some(None)
       case Some(k) => if rs[k].pin.Some? then Some(rs[k].pin) else None)
    case _ => None
  }

  /** The configuration file of a node. */
  class PeerFile {
    const r: Rules
    var file: Option<PeerConfig>

    constructor (r: Rules)
      ensures this.r == r && file == None
    {
      this.r, file := r, None;
    }

    /** Pushes a new URL, fills in a missing pin, and refuses a different one. */
    method JoinRecord(records: seq<PeerRecord>, record: PeerRecord) returns (ok: bool, after: seq<PeerRecord>)
      ensures ok <==> MergeOne(records, record).Some?
      ensures ok ==> MergeOne(records, record) == Some(after)
    {
      var k := Find(records, record.url);
      if k.None? { return true, records + [record]; }
      if records[k.value].pin.None? { return true, records[k.value := PeerRecord(record.url, record.pin)]; }
      ok := record.pin.None? || records[k.value].pin == record.pin;
      after := records;
    }

    /** The merge loop. */
    method ListPeerRecords() returns (l: Option<seq<PeerRecord>>)
      ensures l == Load(r, file)
    {
      if file.None? { return Some([]); }
      var config := file.value;
      if config.version != 1 && config.version != 2 { return None; }
      var records: seq<PeerRecord> := [];
      for i := 0 to |config.peers|
        invariant MergeFirst(r, config.peers, i) == Some(records)
      {
        var cleaned := Clean(r, config.peers[i]);
        var joined := false;
        if cleaned.Some? {
          joined, records := JoinRecord(records, cleaned.value);
        }
        if !joined {
          FailedStaysFailed(r, config.peers, i + 1, |config.peers|);
          return None;
        }
      }
      l := Some(Sort(ByUrl, records));
    }

    /** Returns the record as it is then listed: under the normal form of the URL, with the pin that was
        given or else the one that was known. */
    method AddPeer(value: Url, pin: Option<Bytes>) returns (added: Option<PeerRecord>)
      modifies this
      ensures added.Some? <==> Add(r, old(file), value, pin).Some?
      ensures file == if added.Some? then Add(r, old(file), value, pin) else old(file)
      ensures added.Some? ==>
                added.value == Joined(Load(r, old(file)).value,
                                      PeerRecord(r.normalize(value).value, ValidateOptional(r, pin).value))
    {
      var url, key := r.normalize(value), ValidateOptional(r, pin);
      if url.None? || key.None? { return None; }
      var listed := ListPeerRecords();
      if listed.None? { return None; }
      var ok, peers := JoinPeer(listed.value, url.value, key.value);
      if !ok { return None; }
      file := Some(Written(peers));
      JoinedIsFound(listed.value, PeerRecord(url.value, key.value));
      added := Some(peers[Find(peers, url.value).value]);
    }

    /** The part of it that works on the loaded list. */
    method JoinPeer(listed: seq<PeerRecord>, url: Url, key: Option<Key>) returns (ok: bool, peers: seq<PeerRecord>)
      ensures ok <==> MergeOne(listed, PeerRecord(url, key)).Some?
      ensures ok ==> MergeOne(listed, PeerRecord(url, key)) == Some(peers)
    {
      peers := listed;
      var k := Find(peers, url);
      if k.None? {
        peers := peers + [PeerRecord(url, key)];
      } else if key.Some? {
        var current := peers[k.value].pin;
        if current.Some? && current != key { return false, peers; }
        assert peers[k.value].pin.Some? ==> peers[k.value := PeerRecord(url, key)] == peers;
        peers := peers[k.value := PeerRecord(url, key)];
      } else {
        assert peers[k.value].pin.None? ==> peers[k.value := PeerRecord(url, key)] == peers;
      }
      ok := true;
    }

    /** Returns whether the URL was listed. */
    method RemovePeer(value: Url) returns (removed: Option<bool>)
      modifies this
      ensures removed.Some? <==> Remove(r, old(file), value).Some?
      ensures removed.Some? ==>
                (removed.value <==> r.normalize(value).value in Urls(Load(r, old(file)).value))
      ensures file == if removed.Some? then Remove(r, old(file), value) else old(file)
    {
      var url := r.normalize(value);
      if url.None? { return None; }
      var listed := ListPeerRecords();
      if listed.None? { return None; }
      var kept: seq<PeerRecord> := [];
      for i := 0 to |listed.value|
        invariant kept == Without(listed.value[..i], url.value)
      {
        assert listed.value[..i + 1][..i] == listed.value[..i];
        if listed.value[i].url != url.value { kept := kept + [listed.value[i]]; }
      }
      assert listed.value[..|listed.value|] == listed.value;
      file := Some(Written(kept));
      removed := Some(|kept| != |listed.value|);
      WithoutShrinks(listed.value, url.value);
    }
  }

  lemma {:induction false} FailedStaysFailed(r: Rules, entries: seq<Stored>, k: nat, n: nat)
    requires k <= n <= |entries| && MergeFirst(r, entries, k).None?
    ensures MergeFirst(r, entries, n).None?
    decreases n
  {
    if k < n { FailedStaysFailed(r, entries, k, n - 1); }
  }

  // ---------------------------------------------------------------- runs

  datatype Op = AddOp(value: Url, pin: Option<Bytes>) | RemoveOp(value: Url)

  function Perform(r: Rules, file: Option<PeerConfig>, op: Op): Option<PeerConfig> {
    var after := match op
      case AddOp(value, pin) => Add(r, file, value, pin)
      case RemoveOp(value) => Remove(r, file, value);
    if after.Some? then after else file
  }

  function Run(r: Rules, file: Option<PeerConfig>, ops: seq<Op>): Option<PeerConfig>
    decreases |ops|
  {
    if ops == [] then file else Run(r, Perform(r, file, ops[0]), ops[1..])
  }

  ghost predicate Pinned(r: Rules, file: Option<PeerConfig>, url: Url, key: Key) {
    Load(r, file).Some? && PeerRecord(url, Some(key)) in Load(r, file).value
  }

  lemma AddKeepsPin(r: Rules, rs: seq<PeerRecord>, x: PeerRecord, url: Url, key: Key)
    requires Loaded(r, rs) && Normal(r, x) && PeerRecord(url, Some(key)) in rs && MergeOne(rs, x).Some?
    ensures var after := MergeOne(rs, x).value;
            DistinctUrls(after) && AllNormal(r, after) && PeerRecord(url, Some(key)) in after
  {
    MergeOneResult(rs, x);
    var after := MergeOne(rs, x).value;
    var i :| 0 <= i < |rs| && rs[i] == PeerRecord(url, Some(key));
    assert after[i] == rs[i];
  }

  lemma {:induction false} WithoutNormal(r: Rules, rs: seq<PeerRecord>, url: Url)
    requires DistinctUrls(rs) && AllNormal(r, rs)
    ensures DistinctUrls(Without(rs, url)) && AllNormal(r, Without(rs, url))
  {
    if rs != [] {
      var init, last := rs[..|rs| - 1], rs[|rs| - 1];
      WithoutNormal(r, init, url);
      var w := Without(init, url);
      forall i | 0 <= i < |w| ensures w[i].url != last.url {
        assert w[i] in init;
      }
    }
  }

  /** Writing normal records back keeps a pin among them. */
  lemma WrittenPin(r: Rules, rs: seq<PeerRecord>, url: Url, key: Key)
    requires DistinctUrls(rs) && AllNormal(r, rs) && PeerRecord(url, Some(key)) in rs
    ensures Pinned(r, Some(Written(rs)), url, key)
  {
    WriteThenLoad(r, rs);
    SortedRecords(rs);
  }

  predicate RemovesUrl(r: Rules, op: Op, url: Url) {
    op.RemoveOp? && r.normalize(op.value) == Some(url)
  }

  lemma PinStep(r: Rules, file: Option<PeerConfig>, op: Op, url: Url, key: Key)
    requires RulesOk(r) && Pinned(r, file, url, key) && !RemovesUrl(r, op, url)
    ensures Pinned(r, Perform(r, file, op), url, key)
  {
    var rs := Load(r, file).value;
    LoadGivesLoaded(r, file);
    match op
    case AddOp(value, pin) =>
      if Add(r, file, value, pin).Some? {
        var x := PeerRecord(r.normalize(value).value, ValidateOptional(r, pin).value);
        CleanNormal(r, Record(PeerRecord(value, pin)));
        AddKeepsPin(r, rs, x, url, key);
        WrittenPin(r, MergeOne(rs, x).value, url, key);
      }
    case RemoveOp(value) =>
      if Remove(r, file, value).Some? {
        var gone := r.normalize(value).value;
        WithoutNormal(r, rs, gone);
        WrittenPin(r, Without(rs, gone), url, key);
      }
  }

  /** Over every run of additions and removals a pinned URL keeps its pin until that URL is removed. */
  lemma {:induction false} PinStaysUntilRemoved(r: Rules, file: Option<PeerConfig>, ops: seq<Op>, url: Url, key: Key)
    requires RulesOk(r) && Pinned(r, file, url, key)
    requires forall i :: 0 <= i < |ops| ==> !RemovesUrl(r, ops[i], url)
    ensures Pinned(r, Run(r, file, ops), url, key)
    ensures forall value :: r.normalize(value) == Some(url) ==>
                              ExpectedKey(r, Run(r, file, ops), value) == Some(Some(key))
    decreases |ops|
  {
    if ops != [] {
      PinStep(r, file, ops[0], url, key);
      PinStaysUntilRemoved(r, Perform(r, file, ops[0]), ops[1..], url, key);
    } else {
      LoadGivesLoaded(r, file);
      var rs := Load(r, file).value;
      FindsUrl(rs, url);
      SameUrlSameRecord(rs, PeerRecord(url, Some(key)), rs[Find(rs, url).value]);
    }
  }

  /** After a URL is removed nothing is pinned to it. */
  lemma RemovalUnpins(r: Rules, file: Option<PeerConfig>, value: Url)
    requires RulesOk(r) && r.normalize(value).Some? && Load(r, file).Some?
    ensures ExpectedKey(r, Perform(r, file, RemoveOp(value)), value) == Some(None)
  {
    var rs, url := Load(r, file).value, r.normalize(value).value;
    LoadGivesLoaded(r, file);
    WithoutNormal(r, rs, url);
    WriteThenLoad(r, Without(rs, url));
    SortedRecords(Without(rs, url));
    FindsUrl(Sort(ByUrl, Without(rs, url)), url);
  }
}
