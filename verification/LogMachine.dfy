/** Any number of processes working on one log under its exclusive file lock, each of which may stop at
    any point: between two steps, in the middle of a write, or with the whole machine.
 */
module LogMachine {
  import opened Basics
  import opened Proto
  import opened LogFormat
  import opened LogIndex
  import opened LogStore

  datatype Task = Append(env: Envelope) | Read

  /** Where a process stands: outside the lock, holding it, holding it with an open index, or with its
      record synced to the log and the index entry still to be committed. */
  datatype Pc = Idle | Holding(task: Task) | Ready(task: Task) | Written(env: Envelope)

  datatype Machine = Machine(disk: Disk, holder: Option<nat>, pcs: seq<Pc>)

  datatype Step =
    | Lock(p: nat, task: Task)
    | Open(p: nat)
    | Write(p: nat)
    | Tear(p: nat, length: nat)
    | Commit(p: nat)
    | Leave(p: nat)
    | PowerLoss(logLen: nat)

  function Set(m: Machine, p: nat, pc: Pc): Machine
    requires p < |m.pcs|
  {
    m.(pcs := m.pcs[p := pc])
  }

  /** Gives up the lock: after finishing, after an error, or because the process died. */
  function Release(m: Machine, p: nat): Machine
    requires p < |m.pcs|
  {
    Set(m, p, Idle).(holder := None)
  }

  predicate IsNew(m: Machine, e: Envelope) {
    m.disk.index.Some? && e.id !in m.disk.index.value.messages
  }

  /** Adds the entry of the record at the end of the log and stamps the index with the log's length. */
  function CommitDisk(c: Codec, d: Disk, e: Envelope): Disk {
    if d.index.None? || |d.log| < |Record(c, e)| then d else
    match Committed(c, d.index.value, e, |d.log|)
    case None => d
    case Some(index) => d.(index := Some(index))
  }

  function Act(c: Codec, m: Machine, step: Step): Machine {
    match step
    case Lock(p, task) =>
      if p < |m.pcs| && m.holder == None && (task.Append? ==> Genuine(c.prims, task.env))
      then Set(m, p, Holding(task)).(holder := Some(p)) else m
    case Open(p) =>
      if p < |m.pcs| && m.pcs[p].Holding? then
        match Ensure(c, m.disk)
        case None => Release(m, p)
        case Some(d) => Set(m, p, Ready(m.pcs[p].task)).(disk := d)
      else m
    case Write(p) =>
      if p < |m.pcs| && m.pcs[p].Ready? && m.pcs[p].task.Append? && IsNew(m, m.pcs[p].task.env) then
        var e := m.pcs[p].task.env;
        Set(m, p, Written(e)).(disk := m.disk.(log := m.disk.log + Record(c, e)))
      else m
    case Tear(p, n) =>
      if p < |m.pcs| && m.pcs[p].Ready? && m.pcs[p].task.Append? && IsNew(m, m.pcs[p].task.env)
         && n < |Record(c, m.pcs[p].task.env)| then
        Release(m, p).(disk := m.disk.(log := m.disk.log + Record(c, m.pcs[p].task.env)[..n]))
      else m
    case Commit(p) =>
      if p < |m.pcs| && m.pcs[p].Written?
      then Release(m, p).(disk := CommitDisk(c, m.disk, m.pcs[p].env)) else m
    case Leave(p) =>
      if p < |m.pcs| && m.holder == Some(p) then Release(m, p) else m
    case PowerLoss(n) =>
      if n <= |m.disk.log|
      then Machine(m.disk.(log := m.disk.log[..n]), None, seq(|m.pcs|, _ => Idle)) else m
  }

  function Run(c: Codec, m: Machine, steps: seq<Step>): Machine
    decreases |steps|
  {
    if steps == [] then m else Run(c, Act(c, m, steps[0]), steps[1..])
  }

  function Fresh(processes: nat): Machine {
    Machine(Disk([], None), None, seq(processes, _ => Idle))
  }

  /** Only the lock holder is at work. */
  ghost predicate Exclusive(m: Machine) {
    && (m.holder.Some? ==> m.holder.value < |m.pcs| && !m.pcs[m.holder.value].Idle?)
    && forall p :: 0 <= p < |m.pcs| && m.holder != Some(p) ==> m.pcs[p].Idle?
  }

  /** What the holder's position says about the disk. */
  ghost predicate HolderOk(c: Codec, m: Machine, es: seq<Envelope>, torn: Bytes)
    requires Exclusive(m)
  {
    match m.holder
    case None => StampSound(c, m.disk, es)
    case Some(p) =>
      match m.pcs[p]
      case Idle => false
      case Holding(t) => StampSound(c, m.disk, es) && (t.Append? ==> Genuine(c.prims, t.env))
      case Ready(t) =>
        torn == [] && m.disk.index == Some(FullIndex(c, es)) && (t.Append? ==> Genuine(c.prims, t.env))
      case Written(e) =>
        torn == [] && es != [] && es[|es| - 1] == e && m.disk.index == Some(FullIndex(c, es[..|es| - 1]))
  }

  ghost predicate Inv(c: Codec, m: Machine, es: seq<Envelope>, torn: Bytes) {
    Exclusive(m) && Shape(c, m.disk.log, es, torn) && HolderOk(c, m, es, torn)
  }

  // ---------------------------------------------------------------- preservation

  /** Every position of the holder leaves a disk on which the stamp is sound. */
  lemma HolderSound(c: Codec, m: Machine, es: seq<Envelope>, torn: Bytes)
    requires Inv(c, m, es, torn)
    ensures StampSound(c, m.disk, es)
  {
    if m.holder.Some? {
      match m.pcs[m.holder.value]
      case Idle =>
      case Holding(_) =>
      case Ready(_) => WholeIsSound(c, m.disk, es);
      case Written(e) =>
    }
  }

  lemma OpenKeeps(c: Codec, m: Machine, p: nat, es: seq<Envelope>, torn: Bytes)
    requires CodecOk(c) && Inv(c, m, es, torn) && p < |m.pcs| && m.pcs[p].Holding?
    ensures Inv(c, Act(c, m, Open(p)), es, torn)
    ensures Act(c, m, Open(p)).disk.log == m.disk.log
  {
    EnsureExact(c, m.disk, es, torn);
  }

  lemma WriteKeeps(c: Codec, m: Machine, p: nat, es: seq<Envelope>)
    requires CodecOk(c) && Inv(c, m, es, [])
    requires p < |m.pcs| && m.pcs[p].Ready? && m.pcs[p].task.Append? && IsNew(m, m.pcs[p].task.env)
    ensures Inv(c, Act(c, m, Write(p)), es + [m.pcs[p].task.env], [])
  {
    var e := m.pcs[p].task.env;
    IndexedIds(c, es);
    ShapeAppend(c, m.disk.log, es, e);
    assert (es + [e])[..|es|] == es;
  }

  lemma TearKeeps(c: Codec, m: Machine, p: nat, n: nat, es: seq<Envelope>)
    requires CodecOk(c) && Inv(c, m, es, [])
    requires p < |m.pcs| && m.pcs[p].Ready? && m.pcs[p].task.Append? && IsNew(m, m.pcs[p].task.env)
    requires n < |Record(c, m.pcs[p].task.env)|
    ensures Inv(c, Act(c, m, Tear(p, n)), es, Record(c, m.pcs[p].task.env)[..n])
  {
    var e := m.pcs[p].task.env;
    var torn := Record(c, e)[..n];
    assert torn == c.encode(e)[..n] && torn <= c.encode(e);
    assert m.disk.log + torn == Render(c, es) + torn;
    var m' := Act(c, m, Tear(p, n));
    WholeIsSound(c, m'.disk, es);
  }

  lemma CommitDiskExact(c: Codec, d: Disk, e: Envelope, es: seq<Envelope>)
    requires CodecOk(c) && AllGenuine(c, es) && d.log == Render(c, es)
    requires es != [] && es[|es| - 1] == e && d.index == Some(FullIndex(c, es[..|es| - 1]))
    ensures CommitDisk(c, d, e).log == d.log && CommitDisk(c, d, e).index == Some(FullIndex(c, es))
  {
    var before := es[..|es| - 1];
    assert es == before + [e];
    RenderAppend(c, before, e);
    assert Genuine(c.prims, es[|es| - 1]);
    CommitExact(c, before, e, |d.log|, d.index.value);
  }

  lemma CommitSound(c: Codec, d: Disk, e: Envelope, es: seq<Envelope>, d': Disk)
    requires CodecOk(c) && Shape(c, d.log, es, []) && d' == CommitDisk(c, d, e)
    requires es != [] && es[|es| - 1] == e && d.index == Some(FullIndex(c, es[..|es| - 1]))
    ensures d'.log == d.log && StampSound(c, d', es)
  {
    assert d.log == Render(c, es);
    CommitDiskExact(c, d, e, es);
    WholeIsSound(c, d', es);
  }

  lemma CommitKeeps(c: Codec, m: Machine, p: nat, es: seq<Envelope>)
    requires CodecOk(c) && Inv(c, m, es, []) && p < |m.pcs| && m.pcs[p].Written?
    ensures Inv(c, Act(c, m, Commit(p)), es, [])
    ensures Act(c, m, Commit(p)).disk.log == m.disk.log
  {
    var d := CommitDisk(c, m.disk, m.pcs[p].env);
    CommitSound(c, m.disk, m.pcs[p].env, es, d);
  }

  /** Any initial part of a log is whole records and one torn record. */
  lemma {:induction false} CutLog(c: Codec, es: seq<Envelope>, torn: Bytes, n: nat) returns (k: nat, torn': Bytes)
    requires IsTorn(c, torn) && n <= |Render(c, es) + torn|
    ensures k <= |es| && IsTorn(c, torn')
    ensures (Render(c, es) + torn)[..n] == Render(c, es[..k]) + torn'
    decreases |es|
  {
    if es == [] {
      k, torn' := 0, torn[..n];
      assert (Render(c, es) + torn)[..n] == Render(c, es[..k]) + torn';
      if torn' != [] {
        var e :| torn <= c.encode(e);
        assert torn' <= c.encode(e);
      }
    } else {
      var first, rest := Record(c, es[0]), Render(c, es[1..]);
      assert Render(c, es) + torn == first + (rest + torn);
      if n < |first| {
        k, torn' := 0, first[..n];
        assert torn' <= c.encode(es[0]);
        assert (first + (rest + torn))[..n] == [] + torn';
      } else {
        var k0;
        k0, torn' := CutLog(c, es[1..], torn, n - |first|);
        k := k0 + 1;
        assert es[..k][1..] == es[1..][..k0];
        assert (first + (rest + torn))[..n] == first + (rest + torn)[..n - |first|];
        assert first + (Render(c, es[1..][..k0]) + torn') == (first + Render(c, es[1..][..k0])) + torn';
      }
    }
  }

  lemma PowerLossKeeps(c: Codec, m: Machine, n: nat, es: seq<Envelope>, torn: Bytes)
    returns (es': seq<Envelope>, torn': Bytes)
    requires CodecOk(c) && Inv(c, m, es, torn) && n <= |m.disk.log|
    ensures Inv(c, Act(c, m, PowerLoss(n)), es', torn')
  {
    var k;
    k, torn' := CutLog(c, es, torn, n);
    es' := es[..k];
    HolderSound(c, m, es, torn);
    assert Ids(es') == Ids(es)[..k];
    CutStamp(c, m.disk, es, torn, n, k, torn');
  }

  /** A stamp that still fits the log was taken of what is left of it. */
  lemma CutStamp(c: Codec, d: Disk, es: seq<Envelope>, torn: Bytes, n: nat, k: nat, torn': Bytes)
    requires CodecOk(c) && Shape(c, d.log, es, torn) && StampSound(c, d, es) && n <= |d.log|
    requires k <= |es| && IsTorn(c, torn') && d.log[..n] == Render(c, es[..k]) + torn'
    ensures StampSound(c, d.(log := d.log[..n]), es[..k])
  {
    if d.index.Some? && d.index.value.logLen <= n {
      var j: nat :| j <= |es| && d.index == Some(FullIndex(c, es[..j]));
      CutKeepsIndexed(c, es, torn, n, k, torn', j);
      assert es[..k][..j] == es[..j];
    }
  }

  lemma RecordEnds(c: Codec, es: seq<Envelope>, k: nat)
    requires k < |es|
    ensures Render(c, es[..k + 1]) == Render(c, es[..k]) + Record(c, es[k])
    ensures Render(c, es[..k + 1]) <= Render(c, es)
  {
    assert es[..k + 1] == es[..k] + [es[k]];
    RenderAppend(c, es[..k], es[k]);
    RenderPrefix(c, es, k + 1);
  }

  /** Records that fit into what is left of the log are still whole. */
  lemma CutKeepsIndexed(c: Codec, es: seq<Envelope>, torn: Bytes, n: nat, k: nat, torn': Bytes, j: nat)
    requires CodecOk(c) && k <= |es| && j <= |es| && IsTorn(c, torn')
    requires n <= |Render(c, es) + torn| && (Render(c, es) + torn)[..n] == Render(c, es[..k]) + torn'
    requires |Render(c, es[..j])| <= n
    ensures j <= k
  {
    if k < j {
      RecordEnds(c, es, k);
      RenderPrefix(c, es[..j], k + 1);
      assert es[..j][..k + 1] == es[..k + 1];
      var whole := Render(c, es[..k + 1]);
      var cut := (Render(c, es) + torn)[..n];
      assert cut[|whole| - 1] == Render(c, es)[|whole| - 1] == whole[|whole| - 1] == NEWLINE;
      TornHasNoNewline(c, torn');
    }
  }

  /** One step of any process keeps the invariant. Short of a power loss the log only grows, and once a
      record is torn it does not change at all. */
  lemma StepKeeps(c: Codec, m: Machine, step: Step, es: seq<Envelope>, torn: Bytes)
    returns (es': seq<Envelope>, torn': Bytes)
    requires CodecOk(c) && Inv(c, m, es, torn)
    ensures Inv(c, Act(c, m, step), es', torn')
    ensures !step.PowerLoss? ==> es <= es' && m.disk.log <= Act(c, m, step).disk.log
    ensures !step.PowerLoss? && torn != [] ==> es' == es && torn' == torn && Act(c, m, step).disk.log == m.disk.log
  {
    es', torn' := es, torn;
    if Act(c, m, step) != m {
      match step
      case Lock(p, task) =>
      case Open(p) => OpenKeeps(c, m, p, es, torn);
      case Write(p) =>
        WriteKeeps(c, m, p, es);
        es' := es + [m.pcs[p].task.env];
      case Tear(p, n) =>
        TearKeeps(c, m, p, n, es);
        torn' := Record(c, m.pcs[p].task.env)[..n];
      case Commit(p) => CommitKeeps(c, m, p, es);
      case Leave(p) => HolderSound(c, m, es, torn);
      case PowerLoss(n) => es', torn' := PowerLossKeeps(c, m, n, es, torn);
    }
  }

  lemma {:induction false} RunKeeps(c: Codec, m: Machine, steps: seq<Step>, es: seq<Envelope>, torn: Bytes)
    returns (es': seq<Envelope>, torn': Bytes)
    requires CodecOk(c) && Inv(c, m, es, torn)
    ensures Inv(c, Run(c, m, steps), es', torn')
    decreases |steps|
  {
    if steps == [] {
      es', torn' := es, torn;
    } else {
      var es1, torn1 := StepKeeps(c, m, steps[0], es, torn);
      es', torn' := RunKeeps(c, Act(c, m, steps[0]), steps[1..], es1, torn1);
    }
  }

  // ---------------------------------------------------------------- the results

  /** In every reachable state the log is whole genuine records with distinct ids and at most one torn
      record; opening the index succeeds exactly when none is torn, and then gives the rebuilt index. */
  lemma EveryRunIsSound(c: Codec, processes: nat, steps: seq<Step>) returns (es: seq<Envelope>, torn: Bytes)
    requires CodecOk(c)
    ensures var m := Run(c, Fresh(processes), steps);
            && Shape(c, m.disk.log, es, torn)
            && Ensure(c, m.disk) == (if torn == [] then Some(Disk(m.disk.log, Some(FullIndex(c, es)))) else None)
            && Scan(c, m.disk.log, 0) == (if torn == [] then Some(Place(c, es, 0)) else None)
  {
    var m := Run(c, Fresh(processes), steps);
    es, torn := RunKeeps(c, Fresh(processes), steps, [], []);
    HolderSound(c, m, es, torn);
    EnsureExact(c, m.disk, es, torn);
    TornHasNoNewline(c, torn);
    ScanRendered(c, es, torn);
  }

  /** After a torn write no process ever changes the log again, short of a power loss. */
  lemma {:induction false} TornLogIsFrozen(c: Codec, m: Machine, steps: seq<Step>, es: seq<Envelope>, torn: Bytes)
    requires CodecOk(c) && Inv(c, m, es, torn) && torn != []
    requires forall i :: 0 <= i < |steps| ==> !steps[i].PowerLoss?
    ensures Run(c, m, steps).disk.log == m.disk.log
    decreases |steps|
  {
    if steps != [] {
      assert !steps[0].PowerLoss?;
      var _, _ := StepKeeps(c, m, steps[0], es, torn);
      TornLogIsFrozen(c, Act(c, m, steps[0]), steps[1..], es, torn);
    }
  }
}
