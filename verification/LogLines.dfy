/** What a scan accepts, for any bytes whatever: a file of lines, each of which is blank or a genuine record. */
module LogLines {
  import opened Basics
  import opened Proto
  import opened LogFormat

  /** The bytes from `s` up to the newline at `e` are one line. */
  ghost predicate IsLine(log: Bytes, s: nat, e: nat) {
    && s <= e < |log| && log[e] == NEWLINE && (s == 0 || log[s - 1] == NEWLINE)
    && forall i :: s <= i < e ==> log[i] != NEWLINE
  }

  /** A line that holds something. */
  ghost predicate IsFull(log: Bytes, s: nat, e: nat) {
    IsLine(log, s, e) && !Blank(Line(log, s, e))
  }

  /** It is the record of a genuine envelope. */
  ghost predicate Readable(c: Codec, log: Bytes, s: nat, e: nat)
    requires s <= e <= |log|
  {
    var env := c.decode(Line(log, s, e));
    env.Some? && Genuine(c.prims, env.value)
  }

  ghost predicate AllReadable(c: Codec, log: Bytes, at: nat) {
    forall s: nat, e: nat :: at <= s && IsFull(log, s, e) ==> Readable(c, log, s, e)
  }

  /** The scanned entry is what stands on its line. */
  ghost predicate ReadFrom(c: Codec, log: Bytes, x: Scanned) {
    && x.length > 0 && IsFull(log, x.offset, x.offset + x.length - 1)
    && c.decode(Line(log, x.offset, x.offset + x.length - 1)) == Some(x.envelope) && Genuine(c.prims, x.envelope)
  }

  ghost predicate EntryFor(sc: seq<Scanned>, s: nat, e: nat) {
    exists i :: 0 <= i < |sc| && sc[i].offset == s && sc[i].length == e + 1 - s
  }

  /** A line that starts at `s` ends at the next newline. */
  lemma LineEnds(log: Bytes, s: nat, e: nat)
    requires IsLine(log, s, e)
    ensures NewlineAt(log, s) == e
  {
  }

  /** Lines after the first one start behind its newline. */
  lemma NextLine(log: Bytes, at: nat, s: nat, e: nat)
    requires at <= s && IsLine(log, s, e) && NewlineAt(log, at) < |log|
    ensures s == at || s > NewlineAt(log, at)
  {
    var end := NewlineAt(log, at);
    if at < s <= end { assert log[s - 1] == NEWLINE; }
  }

  /** A scan succeeds exactly if the file ends with a newline and every line that is not blank is the record of a
      genuine envelope. */
  lemma {:induction false} ScansIff(c: Codec, log: Bytes, at: nat)
    requires at <= |log| && (at == 0 || log[at - 1] == NEWLINE)
    ensures Scan(c, log, at).Some? <==> (log == [] || log[|log| - 1] == NEWLINE) && AllReadable(c, log, at)
    decreases |log| - at
  {
    if at < |log| {
      var end := NewlineAt(log, at);
      if end < |log| {
        ScansIff(c, log, end + 1);
        FirstLine(c, log, at, end);
      }
    }
  }

  lemma FirstLine(c: Codec, log: Bytes, at: nat, end: nat)
    requires at < |log| && (at == 0 || log[at - 1] == NEWLINE) && end == NewlineAt(log, at) && end < |log|
    ensures AllReadable(c, log, at) <==>
            (Blank(Line(log, at, end)) || Readable(c, log, at, end)) && AllReadable(c, log, end + 1)
  {
    assert IsLine(log, at, end);
    forall s: nat, e: nat | at <= s && IsFull(log, s, e) ensures s > end || (s == at && e == end) {
      NextLine(log, at, s, e);
      LineEnds(log, s, e);
    }
    assert IsFull(log, at, end) <==> !Blank(Line(log, at, end));
  }

  ghost predicate AllListed(log: Bytes, sc: seq<Scanned>, at: nat) {
    forall s: nat, e: nat :: at <= s && IsFull(log, s, e) ==> EntryFor(sc, s, e)
  }

  ghost predicate AllRead(c: Codec, log: Bytes, sc: seq<Scanned>, at: nat) {
    && (forall i :: 0 <= i < |sc| ==> ReadFrom(c, log, sc[i]) && at <= sc[i].offset)
    && forall i, j :: 0 <= i < j < |sc| ==> sc[i].offset + sc[i].length <= sc[j].offset
  }

  lemma ListedFrom(log: Bytes, sc: seq<Scanned>, rest: seq<Scanned>, at: nat, end: nat)
    requires at < |log| && end == NewlineAt(log, at) && end < |log| && AllListed(log, rest, end + 1)
    requires if Blank(Line(log, at, end)) then sc == rest
             else |sc| == |rest| + 1 && sc[1..] == rest && sc[0].offset == at && sc[0].length == end + 1 - at
    ensures AllListed(log, sc, at)
  {
    forall s: nat, e: nat | at <= s && IsFull(log, s, e) ensures EntryFor(sc, s, e) {
      NextLine(log, at, s, e);
      LineEnds(log, s, e);
      if s == at {
        assert sc[0].offset == s;
      } else {
        assert EntryFor(rest, s, e);
        var i :| 0 <= i < |rest| && rest[i].offset == s && rest[i].length == e + 1 - s;
        assert sc[|sc| - |rest| + i] == rest[i];
      }
    }
  }

  lemma ReadCons(c: Codec, log: Bytes, x: Scanned, rest: seq<Scanned>, at: nat, end: nat)
    requires AllRead(c, log, rest, end + 1) && ReadFrom(c, log, x) && x.offset == at && at + x.length == end + 1
    ensures AllRead(c, log, [x] + rest, at)
  {
  }

  lemma ReadEarlier(c: Codec, log: Bytes, sc: seq<Scanned>, at: nat, later: nat)
    requires AllRead(c, log, sc, later) && at <= later
    ensures AllRead(c, log, sc, at)
  {
  }

  lemma FirstRead(c: Codec, log: Bytes, at: nat, end: nat)
    requires at < |log| && (at == 0 || log[at - 1] == NEWLINE) && end == NewlineAt(log, at) && end < |log|
    requires !Blank(Line(log, at, end)) && Readable(c, log, at, end)
    ensures ReadFrom(c, log, Scanned(c.decode(Line(log, at, end)).value, at, end + 1 - at))
  {
  }

  /** Then each entry holds what stands on its line, in the order of the lines. */
  lemma {:induction false} ScanReads(c: Codec, log: Bytes, at: nat)
    requires at <= |log| && (at == 0 || log[at - 1] == NEWLINE) && Scan(c, log, at).Some?
    ensures AllRead(c, log, Scan(c, log, at).value, at)
    decreases |log| - at
  {
    if at < |log| {
      var end := NewlineAt(log, at);
      var rest := Scan(c, log, end + 1).value;
      ScanReads(c, log, end + 1);
      if Blank(Line(log, at, end)) {
        ReadEarlier(c, log, rest, at, end + 1);
      } else {
        FirstRead(c, log, at, end);
        ReadCons(c, log, Scanned(c.decode(Line(log, at, end)).value, at, end + 1 - at), rest, at, end);
      }
    }
  }

  /** And each line that is not blank has its entry. */
  lemma {:induction false} ScanLists(c: Codec, log: Bytes, at: nat)
    requires at <= |log| && (at == 0 || log[at - 1] == NEWLINE) && Scan(c, log, at).Some?
    ensures AllListed(log, Scan(c, log, at).value, at)
    decreases |log| - at
  {
    if at < |log| {
      var end := NewlineAt(log, at);
      ScanLists(c, log, end + 1);
      ListedFrom(log, Scan(c, log, at).value, Scan(c, log, end + 1).value, at, end);
    }
  }
}
