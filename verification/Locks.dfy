/** File locks: every store operation takes a channel's locks in one order and gives them back in reverse, so
    any number of processes running any mix of operations can always go on.
 */
module Locks {
  import opened Basics

  datatype Kind = LogFile | ModerationLock | PolicyLock | KeyringLock

  datatype Lock = Lock(channel: Bytes, kind: Kind)

  datatype Hold = Hold(lock: Lock, exclusive: bool)

  /** A store function begins, takes and releases locks, and reads and writes the files that they guard: the log,
      the two histories and the keyring, each named by its lock. Locks are released in the reverse order of their
      acquisition, by leaving a scope. */
  datatype Instr = Begin | Take(hold: Hold) | Release | Read(file: Lock) | Write(file: Lock)

  datatype Process = Process(held: seq<Hold>, rest: seq<Instr>)

  function Rank(k: Kind): nat {
    match k
    case LogFile => 0
    case ModerationLock => 1
    case PolicyLock => 2
    case KeyringLock => 3
  }

  // ---------------------------------------------------------------- the operations

  datatype Op =
    | ReadPolicy
    | RebuildPolicyCache
    | ChangePolicy
    | ReadModeration(policyReads: nat)
    | ModerationState(policyReads: nat)
    | ChangeModeration(policyReads: nat, later: nat)
    | ResolveModeration(policyReads: nat)
    | AppendMessage(policyReads: nat)
    | ReadIndexed
    | ReadTail(audit: bool, policyReads: nat)
    | ChangeKeyring

  /** Takes the lock for a step that itself runs `body`. */
  function Under(channel: Bytes, kind: Kind, exclusive: bool, body: seq<Instr>): seq<Instr> {
    [Take(Hold(Lock(channel, kind), exclusive))] + body + [Release]
  }

  /** Reads the policy history `n` times, each time under a shared lock. */
  function PolicyReads(channel: Bytes, n: nat): seq<Instr> {
    if n == 0 then []
    else Under(channel, PolicyLock, false, [Read(Lock(channel, PolicyLock))]) + PolicyReads(channel, n - 1)
  }

  /** Reads the moderation history and judges it against the policy history. */
  function ModerationReads(channel: Bytes, n: nat): seq<Instr> {
    [Read(Lock(channel, ModerationLock))] + PolicyReads(channel, n)
  }

  /** Replaces a file by what was made of the file as it was read. */
  function Renews(channel: Bytes, kind: Kind): seq<Instr> {
    [Read(Lock(channel, kind)), Write(Lock(channel, kind))]
  }

  function StateReads(channel: Bytes, n: nat): seq<Instr> {
    Under(channel, ModerationLock, false, ModerationReads(channel, n)) + PolicyReads(channel, 1)
  }

  /** Reads both histories, writes the moderation history, and judges it once more. */
  function ModerationChange(channel: Bytes, n: nat, later: nat): seq<Instr> {
    Under(channel, LogFile, true, Under(channel, ModerationLock, true, JudgedChange(channel, n, later)))
  }

  function JudgedChange(channel: Bytes, n: nat, later: nat): seq<Instr> {
    ModerationReads(channel, n) + [Write(Lock(channel, ModerationLock))] + PolicyReads(channel, later)
  }

  /** The locks and files of one store function. Where the number of policy reads depends on the files, it is a
      parameter. */
  function Body(op: Op, channel: Bytes): seq<Instr> {
    match op
    case ReadPolicy => PolicyReads(channel, 1)
    case RebuildPolicyCache => Under(channel, PolicyLock, true, [Read(Lock(channel, PolicyLock))])
    case ChangePolicy =>
      Under(channel, LogFile, true, Under(channel, PolicyLock, true, Renews(channel, PolicyLock)))
    case ReadModeration(n) => Under(channel, ModerationLock, false, ModerationReads(channel, n))
    case ModerationState(n) => StateReads(channel, n)
    case ChangeModeration(n, later) => ModerationChange(channel, n, later)
    case ResolveModeration(n) => PolicyReads(channel, 1) + ModerationChange(channel, n, 0)
    case AppendMessage(n) => Under(channel, LogFile, true, PolicyReads(channel, n) + Renews(channel, LogFile))
    case ReadIndexed => Under(channel, LogFile, true, [Read(Lock(channel, LogFile))])
    case ReadTail(audit, n) =>
      (if audit then [] else StateReads(channel, n)) + Under(channel, LogFile, true, [Read(Lock(channel, LogFile))])
    case ChangeKeyring => Under(channel, KeyringLock, true, Renews(channel, KeyringLock))
  }

  function Program(op: Op, channel: Bytes): seq<Instr> {
    [Begin] + Body(op, channel)
  }

  function Releases(n: nat): seq<Instr> {
    if n == 0 then [] else [Release] + Releases(n - 1)
  }

  /** A program that gives up after `k` steps while holding `n` locks at its start: what it holds by then is
      released. */
  function Abandoned(n: nat, p: seq<Instr>, k: nat): seq<Instr>
    requires k <= |p|
    decreases k
  {
    if k == 0 then Releases(n)
    else [p[0]] + Abandoned(match p[0]
                            case Take(_) => n + 1
                            case Release => if n == 0 then 0 else n - 1
                            case _ => n, p[1..], k - 1)
  }

  /** One call: an operation on a channel that may fail after any number of its steps. */
  datatype Call = Call(op: Op, channel: Bytes, steps: nat)

  function CallProgram(c: Call): seq<Instr> {
    var p := Program(c.op, c.channel);
    if c.steps < |p| then Abandoned(0, p, c.steps) else p
  }

  /** What a process does one after the other. A revocation on a private channel, say, reads the policy, changes the
      keyring and changes the policy, and holds no lock in between. */
  function Script(calls: seq<Call>): seq<Instr> {
    if calls == [] then [] else CallProgram(calls[0]) + Script(calls[1..])
  }

  // ---------------------------------------------------------------- the discipline

  /** The lock belongs to the same channel as everything held and ranks above it. */
  ghost predicate Above(held: seq<Hold>, l: Lock) {
    forall i :: 0 <= i < |held| ==> held[i].lock.channel == l.channel && Rank(held[i].lock.kind) < Rank(l.kind)
  }

  ghost predicate Holds(held: seq<Hold>, l: Lock, exclusive: bool) {
    exists k :: 0 <= k < |held| && held[k].lock == l && (exclusive ==> held[k].exclusive)
  }

  /** A file is written under its own lock and, but for the keyring, under that of the log. */
  ghost predicate MayWrite(held: seq<Hold>, f: Lock) {
    Holds(held, f, true) && (f.kind != KeyringLock ==> Holds(held, Lock(f.channel, LogFile), true))
  }

  /** From here on locks are taken in rank order, one channel at a time, all are given back, and every file is read
      and written under its locks. */
  ghost predicate Disciplined(held: seq<Hold>, rest: seq<Instr>)
    decreases |rest|
  {
    if rest == [] then held == []
    else match rest[0]
         case Begin => held == [] && Disciplined(held, rest[1..])
         case Take(h) => Above(held, h.lock) && Disciplined(held + [h], rest[1..])
         case Release => held != [] && Disciplined(held[..|held| - 1], rest[1..])
         case Read(f) => Holds(held, f, false) && Disciplined(held, rest[1..])
         case Write(f) => MayWrite(held, f) && Disciplined(held, rest[1..])
  }

  /** Running `b` after `a`. */
  lemma {:induction false} Sequenced(held: seq<Hold>, a: seq<Instr>, b: seq<Instr>)
    requires Disciplined(held, a) && Disciplined([], b)
    ensures Disciplined(held, a + b)
    decreases |a|
  {
    if a == [] {
      assert a + b == b;
    } else {
      assert (a + b)[1..] == a[1..] + b && (a + b)[0] == a[0];
      match a[0]
      case Take(h) => Sequenced(held + [h], a[1..], b);
      case Release => Sequenced(held[..|held| - 1], a[1..], b);
      case _ => Sequenced(held, a[1..], b);
    }
  }

  /** Whatever may follow at this point may also follow after `body`. */
  ghost predicate Balanced(held: seq<Hold>, body: seq<Instr>) {
    forall tail :: Returns(held, body, tail)
  }

  ghost predicate Returns(held: seq<Hold>, body: seq<Instr>, tail: seq<Instr>) {
    Disciplined(held, tail) ==> Disciplined(held, body + tail)
  }

  lemma UnderReturns(held: seq<Hold>, h: Hold, body: seq<Instr>, tail: seq<Instr>)
    requires Above(held, h.lock) && Balanced(held + [h], body) && Disciplined(held, tail)
    ensures Disciplined(held, [Take(h)] + body + [Release] + tail)
  {
    var all := [Take(h)] + body + [Release] + tail;
    var after := [Release] + tail;
    assert all[1..] == body + after && all[0] == Take(h);
    assert (held + [h])[..|held|] == held && after[1..] == tail;
    assert Returns(held + [h], body, after);
  }

  lemma UnderBalanced(held: seq<Hold>, channel: Bytes, kind: Kind, exclusive: bool, body: seq<Instr>)
    requires Above(held, Lock(channel, kind)) && Balanced(held + [Hold(Lock(channel, kind), exclusive)], body)
    ensures Balanced(held, Under(channel, kind, exclusive, body))
  {
    forall tail | Disciplined(held, tail) ensures Returns(held, Under(channel, kind, exclusive, body), tail) {
      UnderReturns(held, Hold(Lock(channel, kind), exclusive), body, tail);
    }
  }

  lemma EmptyBalanced(held: seq<Hold>)
    ensures Balanced(held, [])
  {
    forall tail ensures Returns(held, [], tail) {
      assert [] + tail == tail;
    }
  }

  lemma BalancedSequence(held: seq<Hold>, a: seq<Instr>, b: seq<Instr>)
    requires Balanced(held, a) && Balanced(held, b)
    ensures Balanced(held, a + b)
  {
    forall tail ensures Returns(held, a + b, tail) {
      assert a + b + tail == a + (b + tail);
      assert Returns(held, b, tail) && Returns(held, a, b + tail);
    }
  }

  lemma AccessBalanced(held: seq<Hold>, f: Lock)
    ensures Holds(held, f, false) ==> Balanced(held, [Read(f)])
    ensures MayWrite(held, f) ==> Balanced(held, [Write(f)])
  {
    forall tail, i | i == Read(f) || i == Write(f) ensures ([i] + tail)[1..] == tail && ([i] + tail)[0] == i {
    }
    assert forall tail :: Holds(held, f, false) ==> Returns(held, [Read(f)], tail);
    assert forall tail :: MayWrite(held, f) ==> Returns(held, [Write(f)], tail);
  }

  lemma HeldLast(held: seq<Hold>, h: Hold)
    ensures Holds(held + [h], h.lock, h.exclusive)
    ensures forall l, x :: Holds(held, l, x) ==> Holds(held + [h], l, x)
  {
    assert (held + [h])[|held|] == h;
    forall l, x | Holds(held, l, x) ensures Holds(held + [h], l, x) {
      var k :| 0 <= k < |held| && held[k].lock == l && (x ==> held[k].exclusive);
      assert (held + [h])[k] == held[k];
    }
  }

  lemma {:induction false} PolicyReadsBalanced(held: seq<Hold>, channel: Bytes, n: nat)
    requires Above(held, Lock(channel, PolicyLock))
    ensures Balanced(held, PolicyReads(channel, n))
  {
    EmptyBalanced(held);
    if n > 0 {
      var p := Lock(channel, PolicyLock);
      HeldLast(held, Hold(p, false));
      AccessBalanced(held + [Hold(p, false)], p);
      UnderBalanced(held, channel, PolicyLock, false, [Read(p)]);
      PolicyReadsBalanced(held, channel, n - 1);
      BalancedSequence(held, Under(channel, PolicyLock, false, [Read(p)]), PolicyReads(channel, n - 1));
    }
  }

  lemma RenewsBalanced(held: seq<Hold>, channel: Bytes, kind: Kind)
    requires MayWrite(held, Lock(channel, kind))
    ensures Balanced(held, Renews(channel, kind))
  {
    var f := Lock(channel, kind);
    AccessBalanced(held, f);
    BalancedSequence(held, [Read(f)], [Write(f)]);
    assert [Read(f)] + [Write(f)] == Renews(channel, kind);
  }

  lemma ModerationReadsBalanced(held: seq<Hold>, channel: Bytes, n: nat)
    requires Holds(held, Lock(channel, ModerationLock), false) && Above(held, Lock(channel, PolicyLock))
    ensures Balanced(held, ModerationReads(channel, n))
  {
    AccessBalanced(held, Lock(channel, ModerationLock));
    PolicyReadsBalanced(held, channel, n);
    BalancedSequence(held, [Read(Lock(channel, ModerationLock))], PolicyReads(channel, n));
  }

  lemma JudgedChangeBalanced(held: seq<Hold>, channel: Bytes, n: nat, later: nat)
    requires MayWrite(held, Lock(channel, ModerationLock)) && Above(held, Lock(channel, PolicyLock))
    ensures Balanced(held, JudgedChange(channel, n, later))
  {
    var f := Lock(channel, ModerationLock);
    ModerationReadsBalanced(held, channel, n);
    AccessBalanced(held, f);
    PolicyReadsBalanced(held, channel, later);
    BalancedSequence(held, ModerationReads(channel, n), [Write(f)]);
    BalancedSequence(held, ModerationReads(channel, n) + [Write(f)], PolicyReads(channel, later));
  }

  /** A body under one lock, and a body under two. */
  lemma OneLock(channel: Bytes, kind: Kind, exclusive: bool, body: seq<Instr>)
    requires Balanced([Hold(Lock(channel, kind), exclusive)], body)
    ensures Balanced([], Under(channel, kind, exclusive, body))
  {
    assert [] + [Hold(Lock(channel, kind), exclusive)] == [Hold(Lock(channel, kind), exclusive)];
    UnderBalanced([], channel, kind, exclusive, body);
  }

  lemma TwoLocks(channel: Bytes, kind: Kind, body: seq<Instr>)
    requires kind != LogFile && Balanced(Both(channel, kind), body)
    ensures Balanced([], Under(channel, LogFile, true, Under(channel, kind, true, body)))
  {
    var log := [Hold(Lock(channel, LogFile), true)];
    assert log + [Hold(Lock(channel, kind), true)] == Both(channel, kind);
    UnderBalanced(log, channel, kind, true, body);
    OneLock(channel, LogFile, true, Under(channel, kind, true, body));
  }

  function Both(channel: Bytes, kind: Kind): seq<Hold> {
    [Hold(Lock(channel, LogFile), true), Hold(Lock(channel, kind), true)]
  }

  lemma BothMayWrite(channel: Bytes, kind: Kind)
    ensures MayWrite(Both(channel, kind), Lock(channel, kind))
  {
    assert Both(channel, kind)[0] == Hold(Lock(channel, LogFile), true);
    assert Both(channel, kind)[1] == Hold(Lock(channel, kind), true);
  }

  lemma AloneMayWrite(channel: Bytes, kind: Kind, exclusive: bool)
    ensures Holds([Hold(Lock(channel, kind), exclusive)], Lock(channel, kind), exclusive)
    ensures kind == LogFile || kind == KeyringLock ==> MayWrite([Hold(Lock(channel, kind), true)], Lock(channel, kind))
  {
    assert [Hold(Lock(channel, kind), exclusive)][0] == Hold(Lock(channel, kind), exclusive);
    assert [Hold(Lock(channel, kind), true)][0] == Hold(Lock(channel, kind), true);
  }

  lemma ReadBalanced(channel: Bytes, kind: Kind, exclusive: bool)
    ensures Balanced([], Under(channel, kind, exclusive, [Read(Lock(channel, kind))]))
  {
    AloneMayWrite(channel, kind, exclusive);
    AccessBalanced([Hold(Lock(channel, kind), exclusive)], Lock(channel, kind));
    OneLock(channel, kind, exclusive, [Read(Lock(channel, kind))]);
  }

  lemma AppendBalanced(channel: Bytes, n: nat)
    ensures Balanced([], Body(AppendMessage(n), channel))
  {
    var log := [Hold(Lock(channel, LogFile), true)];
    AloneMayWrite(channel, LogFile, true);
    PolicyReadsBalanced(log, channel, n);
    RenewsBalanced(log, channel, LogFile);
    BalancedSequence(log, PolicyReads(channel, n), Renews(channel, LogFile));
    OneLock(channel, LogFile, true, PolicyReads(channel, n) + Renews(channel, LogFile));
  }

  lemma PolicyChangeBalanced(channel: Bytes)
    ensures Balanced([], Body(ChangePolicy, channel))
  {
    BothMayWrite(channel, PolicyLock);
    RenewsBalanced(Both(channel, PolicyLock), channel, PolicyLock);
    TwoLocks(channel, PolicyLock, Renews(channel, PolicyLock));
  }

  lemma ModerationChangeBalanced(channel: Bytes, n: nat, later: nat)
    ensures Balanced([], ModerationChange(channel, n, later))
  {
    BothMayWrite(channel, ModerationLock);
    JudgedChangeBalanced(Both(channel, ModerationLock), channel, n, later);
    TwoLocks(channel, ModerationLock, JudgedChange(channel, n, later));
  }

  lemma StateReadsBalanced(channel: Bytes, n: nat)
    ensures Balanced([], Under(channel, ModerationLock, false, ModerationReads(channel, n)))
    ensures Balanced([], StateReads(channel, n))
  {
    AloneMayWrite(channel, ModerationLock, false);
    ModerationReadsBalanced([Hold(Lock(channel, ModerationLock), false)], channel, n);
    OneLock(channel, ModerationLock, false, ModerationReads(channel, n));
    PolicyReadsBalanced([], channel, 1);
    BalancedSequence([], Under(channel, ModerationLock, false, ModerationReads(channel, n)), PolicyReads(channel, 1));
  }

  lemma BodyBalanced(op: Op, channel: Bytes)
    ensures Balanced([], Body(op, channel))
  {
    PolicyReadsBalanced([], channel, 1);
    match op
    case ReadPolicy =>
    case RebuildPolicyCache => ReadBalanced(channel, PolicyLock, true);
    case ChangePolicy => PolicyChangeBalanced(channel);
    case ReadModeration(n) => StateReadsBalanced(channel, n);
    case ModerationState(n) => StateReadsBalanced(channel, n);
    case ChangeModeration(n, later) => ModerationChangeBalanced(channel, n, later);
    case ResolveModeration(n) =>
      ModerationChangeBalanced(channel, n, 0);
      BalancedSequence([], PolicyReads(channel, 1), ModerationChange(channel, n, 0));
    case AppendMessage(n) => AppendBalanced(channel, n);
    case ReadIndexed => ReadBalanced(channel, LogFile, true);
    case ReadTail(audit, n) =>
      EmptyBalanced([]);
      StateReadsBalanced(channel, n);
      ReadBalanced(channel, LogFile, true);
      BalancedSequence([], if audit then [] else StateReads(channel, n),
                       Under(channel, LogFile, true, [Read(Lock(channel, LogFile))]));
    case ChangeKeyring =>
      AloneMayWrite(channel, KeyringLock, true);
      RenewsBalanced([Hold(Lock(channel, KeyringLock), true)], channel, KeyringLock);
      OneLock(channel, KeyringLock, true, Renews(channel, KeyringLock));
  }

  /** Every store operation takes log, moderation and policy lock in this order, never one that it holds, reads and
      writes files under their locks only, and gives all locks back. */
  lemma OperationsAreDisciplined(op: Op, channel: Bytes)
    ensures Disciplined([], Program(op, channel))
  {
    BodyBalanced(op, channel);
    assert Returns([], Body(op, channel), []);
    assert Body(op, channel) + [] == Body(op, channel);
    assert Program(op, channel)[1..] == Body(op, channel);
  }

  lemma {:induction false} ReleasesDisciplined(held: seq<Hold>)
    ensures Disciplined(held, Releases(|held|))
  {
    if held != [] {
      ReleasesDisciplined(held[..|held| - 1]);
      assert Releases(|held|)[1..] == Releases(|held| - 1);
    }
  }

  /** Giving up early keeps the discipline. */
  lemma {:induction false} AbandonedDisciplined(held: seq<Hold>, p: seq<Instr>, k: nat)
    requires Disciplined(held, p) && k <= |p|
    ensures Disciplined(held, Abandoned(|held|, p, k))
    decreases k
  {
    if k == 0 {
      ReleasesDisciplined(held);
    } else {
      var a := Abandoned(|held|, p, k);
      match p[0]
      case Take(h) =>
        AbandonedDisciplined(held + [h], p[1..], k - 1);
        assert a[1..] == Abandoned(|held| + 1, p[1..], k - 1);
      case Release =>
        AbandonedDisciplined(held[..|held| - 1], p[1..], k - 1);
        assert a[1..] == Abandoned(|held| - 1, p[1..], k - 1);
      case _ =>
        AbandonedDisciplined(held, p[1..], k - 1);
        assert a[1..] == Abandoned(|held|, p[1..], k - 1);
    }
  }

  /** Any mix of operations, on any channels, failing wherever they like. */
  lemma {:induction false} ScriptsAreDisciplined(calls: seq<Call>)
    ensures Disciplined([], Script(calls))
  {
    if calls != [] {
      var c := calls[0];
      OperationsAreDisciplined(c.op, c.channel);
      if c.steps < |Program(c.op, c.channel)| { AbandonedDisciplined([], Program(c.op, c.channel), c.steps); }
      ScriptsAreDisciplined(calls[1..]);
      Sequenced([], CallProgram(c), Script(calls[1..]));
    }
  }

  // ---------------------------------------------------------------- processes

  predicate Conflict(a: Hold, b: Hold) {
    a.lock == b.lock && (a.exclusive || b.exclusive)
  }

  /** Nobody, not even the process itself, holds the lock in a conflicting mode. */
  ghost predicate Free(s: seq<Process>, h: Hold) {
    forall j, k :: 0 <= j < |s| && 0 <= k < |s[j].held| ==> !Conflict(s[j].held[k], h)
  }

  ghost predicate CanStep(s: seq<Process>, i: nat) {
    i < |s| && s[i].rest != [] && (s[i].rest[0].Take? ==> Free(s, s[i].rest[0].hold))
  }

  function Next(p: Process): Process
    requires p.rest != []
  {
    match p.rest[0]
    case Take(h) => Process(p.held + [h], p.rest[1..])
    case Release => Process(if p.held == [] then [] else p.held[..|p.held| - 1], p.rest[1..])
    case _ => Process(p.held, p.rest[1..])
  }

  ghost predicate Exclusion(s: seq<Process>) {
    forall i, j, k, l :: 0 <= i < j < |s| && 0 <= k < |s[i].held| && 0 <= l < |s[j].held| ==>
                           !Conflict(s[i].held[k], s[j].held[l])
  }

  ghost predicate AllDisciplined(s: seq<Process>) {
    forall i :: 0 <= i < |s| ==> Disciplined(s[i].held, s[i].rest)
  }

  ghost predicate Good(s: seq<Process>) {
    AllDisciplined(s) && Exclusion(s)
  }

  function Start(scripts: seq<seq<Call>>): (s: seq<Process>)
    ensures |s| == |scripts| && forall i :: 0 <= i < |s| ==> s[i] == Process([], Script(scripts[i]))
  {
    seq(|scripts|, i requires 0 <= i < |scripts| => Process([], Script(scripts[i])))
  }

  lemma StartIsGood(scripts: seq<seq<Call>>)
    ensures Good(Start(scripts))
  {
    forall i | 0 <= i < |scripts| ensures Disciplined([], Script(scripts[i])) {
      ScriptsAreDisciplined(scripts[i]);
    }
  }

  lemma StepKeepsGood(s: seq<Process>, i: nat)
    requires Good(s) && CanStep(s, i)
    ensures Good(s[i := Next(s[i])])
  {
  }

  /** Whoever cannot go on waits for a process that waits for a higher lock; so some process can go on. */
  lemma {:induction false} SomeoneCanStep(s: seq<Process>, i: nat) returns (k: nat)
    requires Good(s) && i < |s| && s[i].rest != []
    ensures CanStep(s, k)
    decreases if s[i].rest[0].Take? then 4 - Rank(s[i].rest[0].hold.lock.kind) else 5
  {
    if CanStep(s, i) { return i; }
    var h := s[i].rest[0].hold;
    assert Disciplined(s[i].held, s[i].rest);
    var j: nat, m: nat :| j < |s| && m < |s[j].held| && Conflict(s[j].held[m], h);
    assert Disciplined(s[j].held, s[j].rest);
    if CanStep(s, j) { return j; }
    k := SomeoneCanStep(s, j);
  }

  /** A schedule names the process that tries to go on; a blocked one waits. */
  ghost function Run(s: seq<Process>, schedule: seq<nat>): seq<Process>
    decreases |schedule|
  {
    if schedule == [] then s
    else if CanStep(s, schedule[0]) then Run(s[schedule[0] := Next(s[schedule[0]])], schedule[1..])
    else Run(s, schedule[1..])
  }

  lemma {:induction false} RunKeepsGood(s: seq<Process>, schedule: seq<nat>)
    requires Good(s)
    ensures Good(Run(s, schedule)) && |Run(s, schedule)| == |s|
    decreases |schedule|
  {
    if schedule != [] {
      var i := schedule[0];
      if CanStep(s, i) {
        StepKeepsGood(s, i);
        RunKeepsGood(s[i := Next(s[i])], schedule[1..]);
      } else {
        RunKeepsGood(s, schedule[1..]);
      }
    }
  }

  ghost predicate Finished(s: seq<Process>) {
    forall i :: 0 <= i < |s| ==> s[i].rest == []
  }

  /** Deadlock freedom: in every state that any number of processes can reach, running any mix of operations
      that may fail anywhere, conflicting locks are never held together and, while anyone is unfinished, someone
      can take the next step. */
  lemma NeverStuck(scripts: seq<seq<Call>>, schedule: seq<nat>)
    ensures var s := Run(Start(scripts), schedule);
            Exclusion(s) && (Finished(s) || exists k: nat :: CanStep(s, k))
  {
    var s := Run(Start(scripts), schedule);
    StartIsGood(scripts);
    RunKeepsGood(Start(scripts), schedule);
    if !Finished(s) {
      var i: nat :| i < |s| && s[i].rest != [];
      var k := SomeoneCanStep(s, i);
    }
  }

  /** The steps still to be taken. */
  function Remaining(s: seq<Process>): nat {
    if s == [] then 0 else |s[0].rest| + Remaining(s[1..])
  }

  lemma {:induction false} RemainingFalls(s: seq<Process>, i: nat)
    requires i < |s| && s[i].rest != []
    ensures Remaining(s[i := Next(s[i])]) == Remaining(s) - 1
  {
    var t := s[i := Next(s[i])];
    if i == 0 {
      assert t[1..] == s[1..];
    } else {
      RemainingFalls(s[1..], i - 1);
      assert t[1..] == s[1..][i - 1 := Next(s[i])];
    }
  }

  /** Whatever has happened so far, everybody can still finish, and everything is released then. */
  lemma {:induction false} EveryoneCanFinish(s: seq<Process>) returns (schedule: seq<nat>)
    requires Good(s)
    ensures Finished(Run(s, schedule)) && |Run(s, schedule)| == |s|
    ensures forall i :: 0 <= i < |s| ==> Run(s, schedule)[i].held == []
    decreases Remaining(s)
  {
    schedule := [];
    if Finished(s) {
      forall i | 0 <= i < |s| ensures s[i].held == [] {
        assert Disciplined(s[i].held, s[i].rest);
      }
    } else {
      var i: nat :| i < |s| && s[i].rest != [];
      var k := SomeoneCanStep(s, i);
      StepKeepsGood(s, k);
      RemainingFalls(s, k);
      var rest := EveryoneCanFinish(s[k := Next(s[k])]);
      schedule := [k] + rest;
      assert schedule[1..] == rest;
    }
    RunKeepsGood(s, schedule);
  }

  /** The order matters: with two operations that took the policy and the log lock in opposite orders, each
      could hold what the other waits for. */
  lemma OppositeOrdersCanStick(channel: Bytes)
    ensures var log, policy := Hold(Lock(channel, LogFile), true), Hold(Lock(channel, PolicyLock), true);
            var s := Run([Process([], [Take(log), Take(policy), Release, Release]),
                          Process([], [Take(policy), Take(log), Release, Release])], [0, 1]);
            !Finished(s) && forall k: nat :: !CanStep(s, k)
  {
    var log, policy := Hold(Lock(channel, LogFile), true), Hold(Lock(channel, PolicyLock), true);
    var a := Process([], [Take(log), Take(policy), Release, Release]);
    var b := Process([], [Take(policy), Take(log), Release, Release]);
    var s0 := [a, b];
    var s1 := [Process([log], [Take(policy), Release, Release]), b];
    var s2 := [Process([log], [Take(policy), Release, Release]), Process([policy], [Take(log), Release, Release])];
    assert Next(a) == s1[0] && s0[0 := Next(a)] == s1;
    assert Next(b) == s2[1] && s1[1 := Next(b)] == s2;
    assert CanStep(s0, 0) && CanStep(s1, 1);
    assert [0, 1][1..] == [1] && [1][1..] == [];
    assert Run(s1, [1]) == Run(s2, []);
    assert s2[1].held[0] == policy && s2[0].held[0] == log;
    assert Conflict(policy, policy) && Conflict(log, log);
  }
}
