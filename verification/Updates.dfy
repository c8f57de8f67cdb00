/** What the file locks are for: whatever the interleaving, no change of a file is lost, and a change is made only
    while everything it was decided on is still as it was read.
 */
module Updates {
  import opened Basics
  import opened Locks

  /** The changes that each file has seen, named by the processes that made them, and what each process read first of
      each file in its present store function. */
  datatype Disk = Disk(procs: seq<Process>, files: map<Lock, seq<nat>>, basis: seq<map<Lock, seq<nat>>>)

  function At(m: map<Lock, seq<nat>>, f: Lock): seq<nat> {
    if f in m then m[f] else []
  }

  /** A file is written as it was read, with the change behind it. */
  ghost function Step(d: Disk, i: nat): Disk
    requires |d.basis| == |d.procs| && CanStep(d.procs, i)
  {
    var procs, b := d.procs[i := Next(d.procs[i])], d.basis[i];
    match d.procs[i].rest[0]
    case Begin => Disk(procs, d.files, d.basis[i := map[]])
    case Read(f) => Disk(procs, d.files, if f in b then d.basis else d.basis[i := b[f := At(d.files, f)]])
    case Write(f) =>
      Disk(procs, d.files[f := At(b, f) + [i]], d.basis[i := b[f := At(b, f) + [i]]])
    case _ => Disk(procs, d.files, d.basis)
  }

  ghost function Run(d: Disk, schedule: seq<nat>): (r: Disk)
    requires |d.basis| == |d.procs|
    ensures |r.basis| == |r.procs|
    decreases |schedule|
  {
    if schedule == [] then d
    else if CanStep(d.procs, schedule[0]) then Run(Step(d, schedule[0]), schedule[1..])
    else Run(d, schedule[1..])
  }

  function Begun(scripts: seq<seq<Call>>): (d: Disk)
    ensures d.procs == Start(scripts) && d.files == map[] && |d.basis| == |scripts|
    ensures forall i :: 0 <= i < |scripts| ==> d.basis[i] == map[]
  {
    Disk(Start(scripts), map[], seq(|scripts|, i => map[]))
  }

  // ---------------------------------------------------------------- programs

  /** Nobody else can write the file meanwhile. */
  ghost predicate Guards(held: seq<Hold>, f: Lock) {
    Holds(held, f, false) || (f.kind != KeyringLock && Holds(held, Lock(f.channel, LogFile), false))
  }

  function Dropped(held: seq<Hold>): seq<Hold> {
    if held == [] then [] else held[..|held| - 1]
  }

  /** Of the files `read`, those in `sure` were guarded ever since. A file is written only if it is one of them, and,
      where `strict` is set, only if all that was read is. */
  ghost predicate Careful(strict: bool, held: seq<Hold>, read: set<Lock>, sure: set<Lock>, rest: seq<Instr>)
    decreases |rest|, 1
  {
    if rest == [] then true else Continues(strict, held, read, sure, rest[0], rest[1..])
  }

  ghost predicate Continues(
    strict: bool, held: seq<Hold>, read: set<Lock>, sure: set<Lock>, i: Instr, tail: seq<Instr>)
    decreases |tail| + 1, 0
  {
    match i
    case Begin => Careful(strict, held, {}, {}, tail)
    case Take(h) => Careful(strict, held + [h], read, sure, tail)
    case Release => Careful(strict, Dropped(held), read, Guarded(Dropped(held), sure), tail)
    case Read(f) => Careful(strict, held, read + {f}, if f in read then sure else sure + {f}, tail)
    case Write(f) => f in sure && (strict ==> read <= sure) && Careful(strict, held, read, sure, tail)
  }

  ghost function Guarded(held: seq<Hold>, sure: set<Lock>): set<Lock> {
    set f | f in sure && Guards(held, f)
  }

  lemma First(strict: bool, held: seq<Hold>, read: set<Lock>, sure: set<Lock>, i: Instr, tail: seq<Instr>)
    ensures Careful(strict, held, read, sure, [i] + tail) <==> Continues(strict, held, read, sure, i, tail)
  {
    assert ([i] + tail)[1..] == tail;
  }

  function Writes(p: seq<Instr>, f: Lock): nat {
    if p == [] then 0 else (if p[0] == Write(f) then 1 else 0) + Writes(p[1..], f)
  }

  ghost predicate NoWrites(p: seq<Instr>) {
    forall k :: 0 <= k < |p| ==> !p[k].Write?
  }

  lemma {:induction false} NoWritesCareful(
    strict: bool, held: seq<Hold>, read: set<Lock>, sure: set<Lock>, p: seq<Instr>)
    requires NoWrites(p)
    ensures Careful(strict, held, read, sure, p)
    decreases |p|
  {
    if p != [] {
      var t := p[1..];
      match p[0]
      case Begin => NoWritesCareful(strict, held, {}, {}, t);
      case Take(h) => NoWritesCareful(strict, held + [h], read, sure, t);
      case Release => NoWritesCareful(strict, Dropped(held), read, Guarded(Dropped(held), sure), t);
      case Read(f) => NoWritesCareful(strict, held, read + {f}, if f in read then sure else sure + {f}, t);
    }
  }

  lemma {:induction false} PolicyReadsOnly(channel: Bytes, n: nat)
    ensures NoWrites(PolicyReads(channel, n))
  {
    if n > 0 { PolicyReadsOnly(channel, n - 1); }
  }

  lemma {:induction false} ReleasesOnly(n: nat)
    ensures NoWrites(Releases(n))
  {
    if n > 0 { ReleasesOnly(n - 1); }
  }

  /** What is sure after some reads of the policy history. */
  ghost function SureAfter(held: seq<Hold>, read: set<Lock>, sure: set<Lock>, p: Lock): set<Lock> {
    if p in read || !Guards(held, p) then sure else sure + {p}
  }

  lemma {:induction false} PolicyReadsCareful(
    strict: bool, held: seq<Hold>, read: set<Lock>, sure: set<Lock>, channel: Bytes, n: nat, tail: seq<Instr>)
    requires sure <= read && forall f :: f in sure ==> Guards(held, f)
    requires Careful(strict, held, read, sure, tail)
    requires var p := Lock(channel, PolicyLock);
             Careful(strict, held, read + {p}, SureAfter(held, read, sure, p), tail)
    ensures Careful(strict, held, read, sure, PolicyReads(channel, n) + tail)
    decreases n
  {
    if n == 0 {
      assert PolicyReads(channel, 0) + tail == tail;
    } else {
      var p := Lock(channel, PolicyLock);
      var h := Hold(p, false);
      var rest := PolicyReads(channel, n - 1) + tail;
      var after := SureAfter(held, read, sure, p);
      assert read + {p} + {p} == read + {p};
      PolicyReadsCareful(strict, held, read + {p}, after, channel, n - 1, tail);
      var now := if p in read then sure else sure + {p};
      assert Dropped(held + [h]) == held;
      assert Guarded(held, now) == after;
      First(strict, held + [h], read + {p}, now, Release, rest);
      First(strict, held + [h], read, sure, Read(p), [Release] + rest);
      First(strict, held, read, sure, Take(h), [Read(p)] + ([Release] + rest));
      assert PolicyReads(channel, n) + tail == [Take(h)] + ([Read(p)] + ([Release] + rest));
    }
  }

  /** A file is read and written, and nothing is written afterwards. */
  lemma RenewsCareful(held: seq<Hold>, read: set<Lock>, channel: Bytes, kind: Kind, tail: seq<Instr>)
    requires NoWrites(tail)
    ensures Careful(true, held, read, read, Renews(channel, kind) + tail)
  {
    var f := Lock(channel, kind);
    var both := read + {f};
    assert (if f in read then read else both) == both;
    NoWritesCareful(true, held, both, both, tail);
    First(true, held, both, both, Write(f), tail);
    First(true, held, read, read, Read(f), [Write(f)] + tail);
    assert Renews(channel, kind) + tail == [Read(f)] + ([Write(f)] + tail);
  }

  /** Taking one lock, or the log's and another. */
  lemma InsideOne(strict: bool, read: set<Lock>, sure: set<Lock>, h: Hold, rest: seq<Instr>)
    requires Careful(strict, [h], read, sure, rest)
    ensures Careful(strict, [], read, sure, [Take(h)] + rest)
  {
    assert [] + [h] == [h];
    First(strict, [], read, sure, Take(h), rest);
  }

  lemma InsideBoth(
    strict: bool, read: set<Lock>, sure: set<Lock>, channel: Bytes, kind: Kind, body: seq<Instr>)
    requires Careful(strict, Both(channel, kind), read, sure, body + [Release] + [Release])
    ensures Careful(strict, [], read, sure, Under(channel, LogFile, true, Under(channel, kind, true, body)))
  {
    var log, inner := Hold(Lock(channel, LogFile), true), Hold(Lock(channel, kind), true);
    var rest := body + [Release] + [Release];
    assert [log] + [inner] == Both(channel, kind);
    First(strict, [log], read, sure, Take(inner), rest);
    InsideOne(strict, read, sure, log, [Take(inner)] + rest);
    assert Under(channel, LogFile, true, Under(channel, kind, true, body)) == [Take(log)] + ([Take(inner)] + rest);
  }

  lemma AppendCareful(channel: Bytes, n: nat)
    ensures Careful(true, [], {}, {}, Body(AppendMessage(n), channel))
  {
    var log, p := Hold(Lock(channel, LogFile), true), Lock(channel, PolicyLock);
    var tail := Renews(channel, LogFile) + [Release];
    assert [log][0] == log;
    RenewsCareful([log], {}, channel, LogFile, [Release]);
    RenewsCareful([log], {p}, channel, LogFile, [Release]);
    assert {} + {p} == {p};
    PolicyReadsCareful(true, [log], {}, {}, channel, n, tail);
    InsideOne(true, {}, {}, log, PolicyReads(channel, n) + tail);
    assert Body(AppendMessage(n), channel) == [Take(log)] + (PolicyReads(channel, n) + tail);
  }

  lemma ChangePolicyCareful(channel: Bytes)
    ensures Careful(true, [], {}, {}, Body(ChangePolicy, channel))
  {
    RenewsCareful(Both(channel, PolicyLock), {}, channel, PolicyLock, [Release] + [Release]);
    assert Renews(channel, PolicyLock) + [Release] + [Release]
        == Renews(channel, PolicyLock) + ([Release] + [Release]);
    InsideBoth(true, {}, {}, channel, PolicyLock, Renews(channel, PolicyLock));
  }

  lemma ChangeKeyringCareful(channel: Bytes)
    ensures Careful(true, [], {}, {}, Body(ChangeKeyring, channel))
  {
    var h := Hold(Lock(channel, KeyringLock), true);
    RenewsCareful([h], {}, channel, KeyringLock, [Release]);
    InsideOne(true, {}, {}, h, Renews(channel, KeyringLock) + [Release]);
    assert Body(ChangeKeyring, channel) == [Take(h)] + (Renews(channel, KeyringLock) + [Release]);
  }

  /** A moderation change that may have read the policy before it took its locks. */
  lemma ModerationChangeCareful(strict: bool, read: set<Lock>, channel: Bytes, n: nat, later: nat)
    requires read == {} || (!strict && read == {Lock(channel, PolicyLock)})
    ensures Careful(strict, [], read, {}, ModerationChange(channel, n, later))
  {
    var held, p, m := Both(channel, ModerationLock), Lock(channel, PolicyLock), Lock(channel, ModerationLock);
    assert held[0] == Hold(Lock(channel, LogFile), true) && held[1] == Hold(m, true);
    var tail := PolicyReads(channel, later) + [Release] + [Release];
    PolicyReadsOnly(channel, later);
    WriteCareful(strict, held, read + {m}, {m}, m, tail);
    var sure := SureAfter(held, read + {m}, {m}, p);
    WriteCareful(strict, held, read + {m} + {p}, sure, m, tail);
    PolicyReadsCareful(strict, held, read + {m}, {m}, channel, n, [Write(m)] + tail);
    First(strict, held, read, {}, Read(m), PolicyReads(channel, n) + ([Write(m)] + tail));
    assert {} + {m} == {m};
    assert JudgedChange(channel, n, later) + [Release] + [Release]
        == [Read(m)] + (PolicyReads(channel, n) + ([Write(m)] + tail));
    InsideBoth(strict, read, {}, channel, ModerationLock, JudgedChange(channel, n, later));
  }

  lemma WriteCareful(
    strict: bool, held: seq<Hold>, read: set<Lock>, sure: set<Lock>, f: Lock, tail: seq<Instr>)
    requires f in sure && (strict ==> read <= sure) && NoWrites(tail)
    ensures Careful(strict, held, read, sure, [Write(f)] + tail)
  {
    NoWritesCareful(strict, held, read, sure, tail);
    First(strict, held, read, sure, Write(f), tail);
  }

  lemma ResolveCareful(channel: Bytes, n: nat)
    ensures Careful(false, [], {}, {}, Body(ResolveModeration(n), channel))
  {
    var p := Lock(channel, PolicyLock);
    ModerationChangeCareful(false, {}, channel, n, 0);
    ModerationChangeCareful(false, {p}, channel, n, 0);
    assert {} + {p} == {p};
    PolicyReadsCareful(false, [], {}, {}, channel, 1, ModerationChange(channel, n, 0));
  }

  /** The functions that only read. */
  lemma ReadersWriteNothing(op: Op, channel: Bytes)
    requires Changes(op) == {}
    ensures NoWrites(Body(op, channel))
  {
    PolicyReadsOnly(channel, 1);
    match op {
      case ReadModeration(n) => ModerationReadsOnly(channel, n);
      case ModerationState(n) => ModerationReadsOnly(channel, n);
      case ReadTail(_, n) => ModerationReadsOnly(channel, n);
      case _ =>
    }
  }

  lemma ModerationReadsOnly(channel: Bytes, n: nat)
    ensures NoWrites(Under(channel, ModerationLock, false, ModerationReads(channel, n)))
    ensures NoWrites(StateReads(channel, n))
  {
    PolicyReadsOnly(channel, n);
    PolicyReadsOnly(channel, 1);
    assert NoWrites(ModerationReads(channel, n));
    assert NoWrites(Under(channel, ModerationLock, false, ModerationReads(channel, n)));
  }

  /** The files that a store function changes. */
  function Changes(op: Op): set<Kind> {
    match op
    case ChangePolicy => {PolicyLock}
    case ChangeModeration(_, _) => {ModerationLock}
    case ResolveModeration(_) => {ModerationLock}
    case AppendMessage(_) => {LogFile}
    case ChangeKeyring => {KeyringLock}
    case _ => {}
  }

  /** All but one of the store functions write on nothing but what is still as they read it. */
  lemma ProgramCareful(op: Op, channel: Bytes, read: set<Lock>, sure: set<Lock>)
    ensures Careful(!op.ResolveModeration?, [], read, sure, Program(op, channel))
  {
    var strict, body := !op.ResolveModeration?, Body(op, channel);
    match op {
      case ChangePolicy => ChangePolicyCareful(channel);
      case ChangeModeration(n, later) => ModerationChangeCareful(true, {}, channel, n, later);
      case ResolveModeration(n) => ResolveCareful(channel, n);
      case AppendMessage(n) => AppendCareful(channel, n);
      case ChangeKeyring => ChangeKeyringCareful(channel);
      case _ =>
        ReadersWriteNothing(op, channel);
        NoWritesCareful(strict, [], {}, {}, body);
    }
    First(strict, [], read, sure, Begin, body);
  }

  // ---------------------------------------------------------------- scripts

  lemma {:induction false} Weaken(held: seq<Hold>, read: set<Lock>, sure: set<Lock>, p: seq<Instr>)
    requires Careful(true, held, read, sure, p)
    ensures Careful(false, held, read, sure, p)
    decreases |p|
  {
    if p != [] {
      match p[0]
      case Begin => Weaken(held, {}, {}, p[1..]);
      case Take(h) => Weaken(held + [h], read, sure, p[1..]);
      case Release => Weaken(Dropped(held), read, Guarded(Dropped(held), sure), p[1..]);
      case Read(f) => Weaken(held, read + {f}, if f in read then sure else sure + {f}, p[1..]);
      case Write(_) => Weaken(held, read, sure, p[1..]);
    }
  }

  lemma {:induction false} AbandonedCareful(
    strict: bool, held: seq<Hold>, read: set<Lock>, sure: set<Lock>, n: nat, p: seq<Instr>, k: nat)
    requires Careful(strict, held, read, sure, p) && k <= |p|
    ensures Careful(strict, held, read, sure, Abandoned(n, p, k))
    decreases k
  {
    if k == 0 {
      ReleasesOnly(n);
      NoWritesCareful(strict, held, read, sure, Releases(n));
    } else {
      var t := p[1..];
      var m: nat := match p[0] case Take(_) => n + 1 case Release => if n == 0 then 0 else n - 1 case _ => n;
      match p[0] {
        case Begin => AbandonedCareful(strict, held, {}, {}, m, t, k - 1);
        case Take(h) => AbandonedCareful(strict, held + [h], read, sure, m, t, k - 1);
        case Release => AbandonedCareful(strict, Dropped(held), read, Guarded(Dropped(held), sure), m, t, k - 1);
        case Read(f) =>
          AbandonedCareful(strict, held, read + {f}, if f in read then sure else sure + {f}, m, t, k - 1);
        case Write(_) => AbandonedCareful(strict, held, read, sure, m, t, k - 1);
      }
      First(strict, held, read, sure, p[0], Abandoned(m, t, k - 1));
    }
  }

  /** Behind a program that gives back its locks comes one that starts over. */
  lemma {:induction false} SequenceCareful(
    strict: bool, held: seq<Hold>, read: set<Lock>, sure: set<Lock>, a: seq<Instr>, b: seq<Instr>)
    requires Careful(strict, held, read, sure, a) && Disciplined(held, a)
    requires b == [] || (b[0].Begin? && Careful(strict, [], {}, {}, b[1..]))
    ensures Careful(strict, held, read, sure, a + b)
    decreases |a|
  {
    if a == [] {
      assert a + b == b;
    } else {
      var t := a[1..];
      match a[0] {
        case Begin => SequenceCareful(strict, held, {}, {}, t, b);
        case Take(h) => SequenceCareful(strict, held + [h], read, sure, t, b);
        case Release => SequenceCareful(strict, Dropped(held), read, Guarded(Dropped(held), sure), t, b);
        case Read(f) =>
          SequenceCareful(strict, held, read + {f}, if f in read then sure else sure + {f}, t, b);
        case Write(_) => SequenceCareful(strict, held, read, sure, t, b);
      }
      First(strict, held, read, sure, a[0], t + b);
      assert a + b == [a[0]] + (t + b);
    }
  }

  /** The process never resolves a moderation conflict. */
  predicate Settled(calls: seq<Call>) {
    forall k :: 0 <= k < |calls| ==> !calls[k].op.ResolveModeration?
  }

  lemma CallCareful(c: Call, strict: bool, read: set<Lock>, sure: set<Lock>)
    requires strict ==> !c.op.ResolveModeration?
    ensures Careful(strict, [], read, sure, CallProgram(c)) && Disciplined([], CallProgram(c))
    ensures CallProgram(c) == [] || CallProgram(c)[0].Begin?
  {
    var p := Program(c.op, c.channel);
    OperationsAreDisciplined(c.op, c.channel);
    ProgramCareful(c.op, c.channel, read, sure);
    if !strict && !c.op.ResolveModeration? { Weaken([], read, sure, p); }
    if c.steps < |p| {
      AbandonedDisciplined([], p, c.steps);
      AbandonedCareful(strict, [], read, sure, 0, p, c.steps);
    }
  }

  lemma {:induction false} ScriptCareful(calls: seq<Call>, strict: bool, read: set<Lock>, sure: set<Lock>)
    requires strict ==> Settled(calls)
    ensures Careful(strict, [], read, sure, Script(calls))
    ensures Script(calls) == [] || (Script(calls)[0].Begin? && Careful(strict, [], {}, {}, Script(calls)[1..]))
    decreases |calls|
  {
    if calls != [] {
      CallCareful(calls[0], strict, read, sure);
      ScriptCareful(calls[1..], strict, {}, {});
      SequenceCareful(strict, [], read, sure, CallProgram(calls[0]), Script(calls[1..]));
      if CallProgram(calls[0]) == [] {
        assert Script(calls) == Script(calls[1..]);
      }
    }
  }

  // ---------------------------------------------------------------- runs

  /** The files in `sure` are as the process read them, and nobody else can write them. */
  ghost predicate Sure(d: Disk, i: nat, strict: bool, sure: set<Lock>)
    requires i < |d.procs| == |d.basis|
  {
    var p, b := d.procs[i], d.basis[i];
    && sure <= b.Keys && Careful(strict, p.held, b.Keys, sure, p.rest)
    && forall f :: f in sure ==> Guards(p.held, f) && b[f] == At(d.files, f)
  }

  ghost predicate Sound(d: Disk, scripts: seq<seq<Call>>) {
    && |d.procs| == |d.basis| == |scripts| && Good(d.procs)
    && forall i :: 0 <= i < |scripts| ==> InOrder(d, i, Settled(scripts[i]))
  }

  ghost predicate InOrder(d: Disk, i: nat, strict: bool)
    requires i < |d.procs| == |d.basis|
  {
    exists sure :: Sure(d, i, strict, sure)
  }

  lemma BegunIsSound(scripts: seq<seq<Call>>)
    ensures Sound(Begun(scripts), scripts)
  {
    StartIsGood(scripts);
    var d := Begun(scripts);
    forall i | 0 <= i < |scripts| ensures InOrder(d, i, Settled(scripts[i])) {
      ScriptCareful(scripts[i], Settled(scripts[i]), {}, {});
      assert Sure(d, i, Settled(scripts[i]), {});
    }
  }

  lemma HoldsExclude(s: seq<Process>, i: nat, j: nat, l: Lock)
    requires Good(s) && i < |s| && j < |s| && i != j && Holds(s[j].held, l, true)
    ensures !Holds(s[i].held, l, false)
  {
    var m :| 0 <= m < |s[j].held| && s[j].held[m].lock == l && s[j].held[m].exclusive;
    assert forall k :: 0 <= k < |s[i].held| ==>
                         !Conflict(s[i].held[k], s[j].held[m]) || !Conflict(s[j].held[m], s[i].held[k]);
  }

  /** Nobody writes a file that another process guards. */
  lemma GuardsExclude(s: seq<Process>, i: nat, j: nat, f: Lock)
    requires Good(s) && i < |s| && j < |s| && i != j && MayWrite(s[j].held, f)
    ensures !Guards(s[i].held, f)
  {
    HoldsExclude(s, i, j, f);
    if f.kind != KeyringLock { HoldsExclude(s, i, j, Lock(f.channel, LogFile)); }
  }

  lemma OthersStaySure(d: Disk, i: nat, j: nat, strict: bool, sure: set<Lock>)
    requires |d.procs| == |d.basis| && Good(d.procs) && i < |d.procs| && i != j && CanStep(d.procs, j)
    requires Sure(d, i, strict, sure)
    ensures Sure(Step(d, j), i, strict, sure)
  {
    var r := d.procs[j].rest[0];
    if r.Write? {
      assert Disciplined(d.procs[j].held, d.procs[j].rest);
      GuardsExclude(d.procs, i, j, r.file);
    }
  }

  lemma OwnStepSure(d: Disk, i: nat, strict: bool, sure: set<Lock>) returns (sure': set<Lock>)
    requires |d.procs| == |d.basis| && Good(d.procs) && CanStep(d.procs, i)
    requires Sure(d, i, strict, sure)
    ensures Sure(Step(d, i), i, strict, sure')
  {
    var p, b := d.procs[i], d.basis[i];
    assert Disciplined(p.held, p.rest);
    var d' := Step(d, i);
    assert d'.procs[i] == Next(p);
    assert Continues(strict, p.held, b.Keys, sure, p.rest[0], p.rest[1..]);
    match p.rest[0] {
      case Begin =>
        sure' := {};
        assert d'.basis[i].Keys == {};
      case Take(h) =>
        sure' := sure;
        HeldLast(p.held, h);
      case Release =>
        sure' := Guarded(Dropped(p.held), sure);
      case Read(f) =>
        sure' := if f in b.Keys then sure else sure + {f};
        assert d'.basis[i].Keys == b.Keys + {f};
      case Write(f) =>
        sure' := sure;
        assert d'.basis[i].Keys == b.Keys;
    }
  }

  lemma StepKeepsSound(d: Disk, scripts: seq<seq<Call>>, j: nat)
    requires Sound(d, scripts) && CanStep(d.procs, j)
    ensures Sound(Step(d, j), scripts)
  {
    StepKeepsGood(d.procs, j);
    forall i | 0 <= i < |scripts| ensures InOrder(Step(d, j), i, Settled(scripts[i])) {
      assert InOrder(d, i, Settled(scripts[i]));
      var sure :| Sure(d, i, Settled(scripts[i]), sure);
      if i == j {
        var sure' := OwnStepSure(d, i, Settled(scripts[i]), sure);
      } else {
        OthersStaySure(d, i, j, Settled(scripts[i]), sure);
      }
    }
  }

  lemma {:induction false} RunKeepsSound(d: Disk, scripts: seq<seq<Call>>, schedule: seq<nat>)
    requires Sound(d, scripts)
    ensures Sound(Run(d, schedule), scripts)
    decreases |schedule|
  {
    if schedule != [] {
      if CanStep(d.procs, schedule[0]) {
        StepKeepsSound(d, scripts, schedule[0]);
        RunKeepsSound(Step(d, schedule[0]), scripts, schedule[1..]);
      } else {
        RunKeepsSound(d, scripts, schedule[1..]);
      }
    }
  }

  ghost predicate AboutToWrite(d: Disk, i: nat, f: Lock) {
    i < |d.procs| && d.procs[i].rest != [] && d.procs[i].rest[0] == Write(f)
  }

  ghost predicate AboutToUse(d: Disk, i: nat, f: Lock) {
    i < |d.procs| && d.procs[i].rest != [] && (d.procs[i].rest[0] == Write(f) || d.procs[i].rest[0] == Read(f))
  }

  lemma SoundWrites(d: Disk, scripts: seq<seq<Call>>, i: nat, f: Lock)
    requires Sound(d, scripts) && AboutToWrite(d, i, f)
    ensures f in d.basis[i] && d.basis[i][f] == At(d.files, f)
    ensures Settled(scripts[i]) ==> forall g :: g in d.basis[i] ==> d.basis[i][g] == At(d.files, g)
  {
    var p, strict := d.procs[i], Settled(scripts[i]);
    assert InOrder(d, i, strict);
    var sure :| Sure(d, i, strict, sure);
    assert Continues(strict, p.held, d.basis[i].Keys, sure, p.rest[0], p.rest[1..]);
  }

  lemma SoundRaces(d: Disk, scripts: seq<seq<Call>>, i: nat, j: nat, f: Lock)
    requires Sound(d, scripts) && AboutToWrite(d, i, f) && i != j
    ensures !AboutToUse(d, j, f)
  {
    assert Disciplined(d.procs[i].held, d.procs[i].rest);
    if j < |d.procs| {
      assert Disciplined(d.procs[j].held, d.procs[j].rest);
      GuardsExclude(d.procs, j, i, f);
    }
  }

  /** Whatever any number of processes do, and wherever they fail: while one is about to write a file nobody else is
      about to read or write it, the file is still what the process has read, and so is, unless it resolves
      moderation conflicts, every other file that it has read since its store function began. */
  lemma WritesOnWhatWasRead(scripts: seq<seq<Call>>, schedule: seq<nat>, i: nat, f: Lock)
    requires AboutToWrite(Run(Begun(scripts), schedule), i, f)
    ensures var d := Run(Begun(scripts), schedule);
            && |d.basis| == |d.procs| == |scripts| && f in d.basis[i] && d.basis[i][f] == At(d.files, f)
            && (forall j: nat :: j != i ==> !AboutToUse(d, j, f))
            && (Settled(scripts[i]) ==> forall g :: g in d.basis[i] ==> d.basis[i][g] == At(d.files, g))
  {
    var d := Run(Begun(scripts), schedule);
    BegunIsSound(scripts);
    RunKeepsSound(Begun(scripts), scripts, schedule);
    SoundWrites(d, scripts, i, f);
    forall j: nat | j != i ensures !AboutToUse(d, j, f) {
      SoundRaces(d, scripts, i, j, f);
    }
  }

  // ---------------------------------------------------------------- nothing is lost

  function Count(s: seq<nat>, i: nat): nat {
    if s == [] then 0 else Count(s[..|s| - 1], i) + if s[|s| - 1] == i then 1 else 0
  }

  /** Every change that a process has made is in the file, and the others are still to come. */
  ghost predicate Accounted(d: Disk, scripts: seq<seq<Call>>) {
    && |d.procs| == |scripts|
    && forall i, f :: 0 <= i < |scripts| ==> Balance(d, i, f) == Writes(Script(scripts[i]), f)
  }

  ghost function Balance(d: Disk, i: nat, f: Lock): nat
    requires i < |d.procs|
  {
    Count(At(d.files, f), i) + Writes(d.procs[i].rest, f)
  }

  lemma StepKeepsAccounts(d: Disk, scripts: seq<seq<Call>>, j: nat)
    requires Sound(d, scripts) && Accounted(d, scripts) && CanStep(d.procs, j)
    ensures Accounted(Step(d, j), scripts)
  {
    var d', r := Step(d, j), d.procs[j].rest[0];
    if r.Write? {
      SoundWrites(d, scripts, j, r.file);
      var was := At(d.files, r.file);
      assert (was + [j])[..|was|] == was;
    }
    forall i, f | 0 <= i < |scripts| ensures Balance(d', i, f) == Writes(Script(scripts[i]), f) {
      assert Balance(d, i, f) == Writes(Script(scripts[i]), f);
    }
  }

  lemma {:induction false} RunKeepsAccounts(d: Disk, scripts: seq<seq<Call>>, schedule: seq<nat>)
    requires Sound(d, scripts) && Accounted(d, scripts)
    ensures Accounted(Run(d, schedule), scripts)
    decreases |schedule|
  {
    if schedule != [] {
      if CanStep(d.procs, schedule[0]) {
        StepKeepsSound(d, scripts, schedule[0]);
        StepKeepsAccounts(d, scripts, schedule[0]);
        RunKeepsAccounts(Step(d, schedule[0]), scripts, schedule[1..]);
      } else {
        RunKeepsAccounts(d, scripts, schedule[1..]);
      }
    }
  }

  /** How often the calls change the file, when none of them fails. */
  function Due(calls: seq<Call>, f: Lock): nat {
    if calls == [] then 0
    else (if calls[0].channel == f.channel && f.kind in Changes(calls[0].op) then 1 else 0) + Due(calls[1..], f)
  }

  predicate Complete(calls: seq<Call>) {
    forall k :: 0 <= k < |calls| ==> |Program(calls[k].op, calls[k].channel)| <= calls[k].steps
  }

  lemma {:induction false} WritesSum(a: seq<Instr>, b: seq<Instr>, f: Lock)
    ensures Writes(a + b, f) == Writes(a, f) + Writes(b, f)
  {
    if a == [] {
      assert a + b == b;
    } else {
      assert (a + b)[1..] == a[1..] + b;
      WritesSum(a[1..], b, f);
    }
  }

  lemma {:induction false} NoWritesCount(p: seq<Instr>, f: Lock)
    requires NoWrites(p)
    ensures Writes(p, f) == 0
  {
    if p != [] { NoWritesCount(p[1..], f); }
  }

  lemma UnderWrites(channel: Bytes, kind: Kind, exclusive: bool, body: seq<Instr>, f: Lock)
    ensures Writes(Under(channel, kind, exclusive, body), f) == Writes(body, f)
  {
    var take := [Take(Hold(Lock(channel, kind), exclusive))];
    WritesSum(take + body, [Release], f);
    WritesSum(take, body, f);
  }

  lemma RenewsWrites(channel: Bytes, kind: Kind, f: Lock)
    ensures Writes(Renews(channel, kind), f) == if f == Lock(channel, kind) then 1 else 0
  {
    var own := Lock(channel, kind);
    WritesSum([Read(own)], [Write(own)], f);
    assert Renews(channel, kind) == [Read(own)] + [Write(own)];
  }

  lemma ModerationChangeWrites(channel: Bytes, n: nat, later: nat, f: Lock)
    ensures Writes(ModerationChange(channel, n, later), f) == if f == Lock(channel, ModerationLock) then 1 else 0
  {
    var m := Lock(channel, ModerationLock);
    PolicyReadsOnly(channel, n);
    PolicyReadsOnly(channel, later);
    NoWritesCount(ModerationReads(channel, n), f);
    NoWritesCount(PolicyReads(channel, later), f);
    WritesSum(ModerationReads(channel, n), [Write(m)], f);
    WritesSum(ModerationReads(channel, n) + [Write(m)], PolicyReads(channel, later), f);
    UnderWrites(channel, ModerationLock, true, JudgedChange(channel, n, later), f);
    UnderWrites(channel, LogFile, true, Under(channel, ModerationLock, true, JudgedChange(channel, n, later)), f);
  }

  /** A store function that does not fail writes each file that it changes once, and no other. */
  lemma ProgramWrites(op: Op, channel: Bytes, f: Lock)
    ensures Writes(Program(op, channel), f) == if channel == f.channel && f.kind in Changes(op) then 1 else 0
  {
    var body := Body(op, channel);
    WritesSum([Begin], body, f);
    match op
    case ChangePolicy =>
      RenewsWrites(channel, PolicyLock, f);
      UnderWrites(channel, PolicyLock, true, Renews(channel, PolicyLock), f);
      UnderWrites(channel, LogFile, true, Under(channel, PolicyLock, true, Renews(channel, PolicyLock)), f);
    case ChangeModeration(n, later) => ModerationChangeWrites(channel, n, later, f);
    case ResolveModeration(n) =>
      PolicyReadsOnly(channel, 1);
      NoWritesCount(PolicyReads(channel, 1), f);
      ModerationChangeWrites(channel, n, 0, f);
      WritesSum(PolicyReads(channel, 1), ModerationChange(channel, n, 0), f);
    case AppendMessage(n) =>
      PolicyReadsOnly(channel, n);
      NoWritesCount(PolicyReads(channel, n), f);
      RenewsWrites(channel, LogFile, f);
      WritesSum(PolicyReads(channel, n), Renews(channel, LogFile), f);
      UnderWrites(channel, LogFile, true, PolicyReads(channel, n) + Renews(channel, LogFile), f);
    case ChangeKeyring =>
      RenewsWrites(channel, KeyringLock, f);
      UnderWrites(channel, KeyringLock, true, Renews(channel, KeyringLock), f);
    case _ =>
      ReadersWriteNothing(op, channel);
      NoWritesCount(body, f);
  }

  /** The files that a store function reads; the policy only if there is one to read. */
  function Consults(op: Op): set<Kind> {
    match op
    case ReadPolicy => {PolicyLock}
    case RebuildPolicyCache => {PolicyLock}
    case ChangePolicy => {PolicyLock}
    case ReadModeration(n) => {ModerationLock} + PolicyIf(n)
    case ModerationState(_) => {ModerationLock, PolicyLock}
    case ChangeModeration(n, later) => {ModerationLock} + PolicyIf(n) + PolicyIf(later)
    case ResolveModeration(_) => {ModerationLock, PolicyLock}
    case AppendMessage(n) => {LogFile} + PolicyIf(n)
    case ReadIndexed => {LogFile}
    case ReadTail(audit, _) => if audit then {LogFile} else {LogFile, ModerationLock, PolicyLock}
    case ChangeKeyring => {KeyringLock}
  }

  function PolicyIf(n: nat): set<Kind> {
    if n == 0 then {} else {PolicyLock}
  }

  lemma {:induction false} PolicyReadsRead(channel: Bytes, n: nat, f: Lock)
    ensures Read(f) in PolicyReads(channel, n) <==> n > 0 && f == Lock(channel, PolicyLock)
  {
    if n > 0 { PolicyReadsRead(channel, n - 1, f); }
  }

  /** Which files a store function reads. */
  lemma ProgramReads(op: Op, channel: Bytes, f: Lock)
    ensures Read(f) in Program(op, channel) <==> channel == f.channel && f.kind in Consults(op)
  {
    PolicyReadsRead(channel, 1, f);
    match op {
      case ReadModeration(n) => PolicyReadsRead(channel, n, f);
      case ModerationState(n) => PolicyReadsRead(channel, n, f);
      case ChangeModeration(n, later) =>
        PolicyReadsRead(channel, n, f);
        PolicyReadsRead(channel, later, f);
      case ResolveModeration(n) => PolicyReadsRead(channel, n, f);
      case AppendMessage(n) => PolicyReadsRead(channel, n, f);
      case ReadTail(_, n) => PolicyReadsRead(channel, n, f);
      case _ =>
    }
  }

  lemma {:induction false} ScriptWrites(calls: seq<Call>, f: Lock)
    requires Complete(calls)
    ensures Writes(Script(calls), f) == Due(calls, f)
  {
    if calls != [] {
      ProgramWrites(calls[0].op, calls[0].channel, f);
      WritesSum(CallProgram(calls[0]), Script(calls[1..]), f);
      ScriptWrites(calls[1..], f);
    }
  }

  /** When all processes have finished, every file holds each change that one of them made to it; and when none of
      its calls failed, that is one change for every call of a function that changes this file. */
  lemma NothingIsLost(scripts: seq<seq<Call>>, schedule: seq<nat>, i: nat, f: Lock)
    requires i < |scripts| && Finished(Run(Begun(scripts), schedule).procs)
    ensures var changes := Count(At(Run(Begun(scripts), schedule).files, f), i);
            && changes == Writes(Script(scripts[i]), f)
            && (Complete(scripts[i]) ==> changes == Due(scripts[i], f))
  {
    BegunIsSound(scripts);
    var d := Run(Begun(scripts), schedule);
    RunKeepsAccounts(Begun(scripts), scripts, schedule);
    assert Balance(d, i, f) == Writes(Script(scripts[i]), f);
    if Complete(scripts[i]) { ScriptWrites(scripts[i], f); }
  }

  // ---------------------------------------------------------------- the exception

  lemma {:induction false} RunInTwo(d: Disk, a: seq<nat>, b: seq<nat>)
    requires |d.basis| == |d.procs|
    ensures Run(d, a + b) == Run(Run(d, a), b)
    decreases |a|
  {
    if a == [] {
      assert a + b == b;
    } else {
      assert (a + b)[1..] == a[1..] + b;
      if CanStep(d.procs, a[0]) { RunInTwo(Step(d, a[0]), a[1..], b); } else { RunInTwo(d, a[1..], b); }
    }
  }

  ghost predicate Leads(d: Disk, d': Disk) {
    |d.basis| == |d.procs| && exists schedule :: Run(d, schedule) == d'
  }

  lemma LeadsOn(a: Disk, b: Disk, c: Disk)
    requires Leads(a, b) && Leads(b, c)
    ensures Leads(a, c)
  {
    var s :| Run(a, s) == b;
    var t :| Run(b, t) == c;
    RunInTwo(a, s, t);
  }

  /** One of two processes carries out `now`, the other holds no lock. */
  lemma Moves(d0: Disk, d: Disk, i: nat, held: seq<Hold>, now: Instr, rest: seq<Instr>) returns (d': Disk)
    requires Leads(d0, d) && |d.basis| == |d.procs| == 2 && i < 2 && d.procs[1 - i].held == []
    requires d.procs[i] == Process(held, [now] + rest)
    requires now.Take? ==> forall k :: 0 <= k < |held| ==> held[k].lock != now.hold.lock
    ensures Leads(d0, d') && |d'.basis| == |d'.procs| == 2
    ensures d'.procs[1 - i] == d.procs[1 - i] && d'.basis[1 - i] == d.basis[1 - i]
    ensures d'.procs[i] == Process(HeldAfter(held, now), rest)
    ensures !now.Write? ==> d'.files == d.files
    ensures now.Take? || now.Release? ==> d'.basis[i] == d.basis[i]
    ensures now.Begin? ==> d'.basis[i] == map[]
    ensures now.Read? && now.file !in d.basis[i] ==> d'.basis[i] == d.basis[i][now.file := At(d.files, now.file)]
    ensures now.Write? ==> d'.files == d.files[now.file := At(d.basis[i], now.file) + [i]]
  {
    assert ([now] + rest)[1..] == rest;
    if now.Take? {
      forall j, k | 0 <= j < 2 && 0 <= k < |d.procs[j].held| ensures !Conflict(d.procs[j].held[k], now.hold) {
        assert j == i || j == 1 - i;
      }
    }
    d' := Step(d, i);
    assert [i][1..] == [] && Run(d', []) == d' && Run(d, [i]) == d';
    LeadsOn(d0, d, d');
  }

  function HeldAfter(held: seq<Hold>, now: Instr): seq<Hold> {
    match now
    case Take(h) => held + [h]
    case Release => Dropped(held)
    case _ => held
  }

  /** A process reads the policy under its lock. */
  lemma ReadsPolicy(d0: Disk, d: Disk, p: Lock, rest: seq<Instr>) returns (d': Disk)
    requires Leads(d0, d) && |d.procs| == |d.basis| == 2 && d.procs[1].held == []
    requires d.procs[0] == Process([], [Begin] + ([Take(Hold(p, false))] + ([Read(p)] + ([Release] + rest))))
    ensures Leads(d0, d') && |d'.procs| == |d'.basis| == 2
    ensures d'.procs[0] == Process([], rest) && d'.procs[1] == d.procs[1]
    ensures d'.files == d.files && d'.basis[0] == map[p := At(d.files, p)]
  {
    var h := Hold(p, false);
    d' := Moves(d0, d, 0, [], Begin, [Take(h)] + ([Read(p)] + ([Release] + rest)));
    d' := Moves(d0, d', 0, [], Take(h), [Read(p)] + ([Release] + rest));
    assert [] + [h] == [h];
    d' := Moves(d0, d', 0, [h], Read(p), [Release] + rest);
    d' := Moves(d0, d', 0, [h], Release, rest);
  }

  /** A process takes the log's lock and another. */
  lemma TakesBoth(d0: Disk, d: Disk, i: nat, channel: Bytes, kind: Kind, rest: seq<Instr>) returns (d': Disk)
    requires Leads(d0, d) && |d.procs| == |d.basis| == 2 && i < 2 && d.procs[1 - i].held == []
    requires kind != LogFile
    requires d.procs[i] == Process([], [Take(Hold(Lock(channel, LogFile), true))]
                                   + ([Take(Hold(Lock(channel, kind), true))] + rest))
    ensures Leads(d0, d') && |d'.procs| == |d'.basis| == 2
    ensures d'.procs[i] == Process(Both(channel, kind), rest) && d'.procs[1 - i] == d.procs[1 - i]
    ensures d'.files == d.files && d'.basis[0] == d.basis[0] && d'.basis[1] == d.basis[1]
  {
    var log, h := Hold(Lock(channel, LogFile), true), Hold(Lock(channel, kind), true);
    d' := Moves(d0, d, i, [], Take(log), [Take(h)] + rest);
    assert [] + [log] == [log] && [log] + [h] == Both(channel, kind);
    d' := Moves(d0, d', i, [log], Take(h), rest);
  }

  /** The other one changes the policy. */
  lemma ChangesPolicy(d0: Disk, d: Disk, channel: Bytes) returns (d': Disk)
    requires Leads(d0, d) && |d.procs| == |d.basis| == 2 && d.procs[0].held == []
    requires d.procs[1] == Process([], Program(ChangePolicy, channel))
    ensures Leads(d0, d') && |d'.procs| == |d'.basis| == 2
    ensures d'.procs[0] == d.procs[0] && d'.procs[1] == Process([], [])
    ensures d'.basis[0] == d.basis[0]
    ensures d'.files == d.files[Lock(channel, PolicyLock) := At(d.files, Lock(channel, PolicyLock)) + [1]]
  {
    var p, held := Lock(channel, PolicyLock), Both(channel, PolicyLock);
    var none: seq<Instr> := [];
    var rest := [Read(p)] + ([Write(p)] + ([Release] + ([Release] + none)));
    assert Program(ChangePolicy, channel)
        == [Begin] + ([Take(Hold(Lock(channel, LogFile), true))] + ([Take(Hold(p, true))] + rest));
    d' := Moves(d0, d, 1, [], Begin, [Take(Hold(Lock(channel, LogFile), true))] + ([Take(Hold(p, true))] + rest));
    d' := TakesBoth(d0, d', 1, channel, PolicyLock, rest);
    d' := Moves(d0, d', 1, held, Read(p), [Write(p)] + ([Release] + ([Release] + none)));
    d' := Moves(d0, d', 1, held, Write(p), [Release] + ([Release] + none));
    d' := Moves(d0, d', 1, held, Release, [Release] + none);
    d' := Moves(d0, d', 1, Dropped(held), Release, none);
  }

  lemma LeadsToItself(d: Disk)
    requires |d.procs| == |d.basis|
    ensures Leads(d, d)
  {
    assert Run(d, []) == d;
  }

  lemma TakesAndReads(d0: Disk, d: Disk, channel: Bytes, m: Lock, last: seq<Instr>) returns (d': Disk)
    requires Leads(d0, d) && |d.procs| == |d.basis| == 2 && d.procs[1].held == []
    requires m == Lock(channel, ModerationLock) && m !in d.basis[0]
    requires d.procs[0] == Process([], [Take(Hold(Lock(channel, LogFile), true))]
                                   + ([Take(Hold(m, true))] + ([Read(m)] + last)))
    ensures Leads(d0, d') && |d'.procs| == |d'.basis| == 2 && d'.files == d.files && d'.procs[0].rest == last
    ensures d'.basis[0] == d.basis[0][m := At(d.files, m)]
  {
    d' := TakesBoth(d0, d, 0, channel, ModerationLock, [Read(m)] + last);
    d' := Moves(d0, d', 0, Both(channel, ModerationLock), Read(m), last);
  }

  lemma TurnsStale(d0: Disk, channel: Bytes) returns (d: Disk)
    requires |d0.procs| == |d0.basis| == 2 && d0.files == map[]
    requires d0.procs[0] == Process([], Program(ResolveModeration(0), channel))
    requires d0.procs[1] == Process([], Program(ChangePolicy, channel))
    ensures Leads(d0, d) && AboutToWrite(d, 0, Lock(channel, ModerationLock)) && |d.basis| == 2
    ensures var p := Lock(channel, PolicyLock);
            p in d.basis[0] && d.basis[0][p] == [] && At(d.files, p) == [1]
  {
    var p, m := Lock(channel, PolicyLock), Lock(channel, ModerationLock);
    LeadsToItself(d0);
    var last := [Write(m)] + ([Release] + [Release]);
    var inner := [Take(Hold(Lock(channel, LogFile), true))] + ([Take(Hold(m, true))] + ([Read(m)] + last));
    ResolutionUnfolds(channel, inner);
    var d1 := ReadsPolicy(d0, d0, p, inner);
    var d2 := ChangesPolicy(d0, d1, channel);
    d := TakesAndReads(d0, d2, channel, m, last);
  }

  /** Resolving a moderation conflict judges the selected history before it takes its locks. The policy can change in
      between, and the history is then made active under a policy that it was not judged by. */
  lemma ResolutionCanBeStale(channel: Bytes) returns (schedule: seq<nat>)
    ensures var p, m := Lock(channel, PolicyLock), Lock(channel, ModerationLock);
            var scripts := [[Call(ResolveModeration(0), channel, 12)], [Call(ChangePolicy, channel, 12)]];
            var d := Run(Begun(scripts), schedule);
            && AboutToWrite(d, 0, m) && |d.basis| == 2 && p in d.basis[0] && d.basis[0][p] != At(d.files, p)
  {
    var scripts := [[Call(ResolveModeration(0), channel, 12)], [Call(ChangePolicy, channel, 12)]];
    OneCall(Call(ResolveModeration(0), channel, 12));
    OneCall(Call(ChangePolicy, channel, 12));
    var d := TurnsStale(Begun(scripts), channel);
    schedule :| Run(Begun(scripts), schedule) == d;
  }

  lemma OneCall(c: Call)
    requires |Program(c.op, c.channel)| <= c.steps
    ensures Script([c]) == Program(c.op, c.channel)
  {
    assert [c][1..] == [];
    assert Script([c]) == CallProgram(c) + Script([]);
  }

  lemma ResolutionUnfolds(channel: Bytes, inner: seq<Instr>)
    requires var m := Lock(channel, ModerationLock);
             inner == [Take(Hold(Lock(channel, LogFile), true))]
             + ([Take(Hold(m, true))] + ([Read(m)] + ([Write(m)] + ([Release] + [Release]))))
    ensures var p := Lock(channel, PolicyLock);
            Program(ResolveModeration(0), channel)
            == [Begin] + ([Take(Hold(p, false))] + ([Read(p)] + ([Release] + inner)))
  {
    var p := Lock(channel, PolicyLock);
    assert PolicyReads(channel, 1) == [Take(Hold(p, false)), Read(p), Release];
    assert ModerationChange(channel, 0, 0) == inner;
  }
}
