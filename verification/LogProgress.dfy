/** What the steps of one process do to the log when nobody comes in between, and what its crashes leave. */
module LogProgress {
  import opened Basics
  import opened Proto
  import opened LogFormat
  import opened LogIndex
  import opened LogStore
  import opened LogMachine

  /** The steps of an append that nothing stops. */
  function AppendSteps(p: nat, e: Envelope): seq<Step> {
    [Lock(p, Append(e)), Open(p), Write(p), Commit(p)]
  }

  lemma RunFour(c: Codec, m: Machine, a: Step, b: Step, d: Step, e: Step)
    ensures Run(c, m, [a, b, d, e]) == Act(c, Act(c, Act(c, Act(c, m, a), b), d), e)
  {
    assert [a, b, d, e][1..] == [b, d, e];
    RunThree(c, Act(c, m, a), b, d, e);
  }

  lemma RunThree(c: Codec, m: Machine, a: Step, b: Step, d: Step)
    ensures Run(c, m, [a, b, d]) == Act(c, Act(c, Act(c, m, a), b), d)
  {
    var m1, m2 := Act(c, m, a), Act(c, Act(c, m, a), b);
    assert [a, b, d][1..] == [b, d] && [b, d][1..] == [d] && [d][1..] == [];
    assert Run(c, m1, [b, d]) == Run(c, m2, [d]);
    assert Run(c, m2, [d]) == Run(c, Act(c, m2, d), []);
  }

  /** The process has the lock and a current index. */
  lemma OpensCurrent(c: Codec, m: Machine, es: seq<Envelope>, p: nat, task: Task)
    requires CodecOk(c) && Inv(c, m, es, []) && m.holder == None && p < |m.pcs|
    requires task.Append? ==> Genuine(c.prims, task.env)
    ensures Act(c, Act(c, m, Lock(p, task)), Open(p))
         == Machine(Disk(m.disk.log, Some(FullIndex(c, es))), Some(p), m.pcs[p := Ready(task)])
  {
    var m1 := Act(c, m, Lock(p, task));
    assert m1 == Machine(m.disk, Some(p), m.pcs[p := Holding(task)]);
    EnsureExact(c, m.disk, es, []);
    assert m1.pcs[p := Ready(task)] == m.pcs[p := Ready(task)];
  }

  lemma CommitsNew(c: Codec, log: Bytes, es: seq<Envelope>, e: Envelope)
    requires CodecOk(c) && Shape(c, log, es, []) && Genuine(c.prims, e)
    ensures CommitDisk(c, Disk(log + Record(c, e), Some(FullIndex(c, es))), e)
         == Disk(log + Record(c, e), Some(FullIndex(c, es + [e])))
  {
    RenderAppend(c, es, e);
    assert log == Render(c, es) && (es + [e])[..|es|] == es;
    CommitDiskExact(c, Disk(log + Record(c, e), Some(FullIndex(c, es))), e, es + [e]);
  }

  /** Writing and committing a new envelope with a current index. */
  lemma WritesAndCommits(c: Codec, m: Machine, es: seq<Envelope>, p: nat, e: Envelope)
    requires CodecOk(c) && Shape(c, m.disk.log, es, []) && m.disk.index == Some(FullIndex(c, es))
    requires p < |m.pcs| && m.pcs[p] == Ready(Append(e)) && Genuine(c.prims, e) && e.id !in Ids(es)
    ensures var m' := Act(c, Act(c, m, Write(p)), Commit(p));
            && m'.disk == Disk(m.disk.log + Record(c, e), Some(FullIndex(c, es + [e])))
            && m'.holder == None && m'.pcs == m.pcs[p := Idle]
  {
    IndexedIds(c, es);
    var m1 := Act(c, m, Write(p));
    assert m1.disk == Disk(m.disk.log + Record(c, e), Some(FullIndex(c, es))) && m1.pcs == m.pcs[p := Written(e)];
    CommitsNew(c, m.disk.log, es, e);
    assert m1.pcs[p := Idle] == m.pcs[p := Idle];
  }

  /** From every reachable state in which nothing is torn and the lock is free, an append of a new genuine envelope
      that nothing stops adds exactly its record and leaves a current index and a free lock. */
  lemma AppendCompletes(c: Codec, m: Machine, es: seq<Envelope>, p: nat, e: Envelope)
    requires CodecOk(c) && Inv(c, m, es, []) && m.holder == None && p < |m.pcs|
    requires Genuine(c.prims, e) && e.id !in Ids(es)
    ensures var m' := Run(c, m, AppendSteps(p, e));
            && m'.disk == Disk(m.disk.log + (c.encode(e) + [NEWLINE]), Some(FullIndex(c, es + [e])))
            && m'.holder == None && m'.pcs == m.pcs[p := Idle]
  {
    var m2 := Act(c, Act(c, m, Lock(p, Append(e))), Open(p));
    RunFour(c, m, Lock(p, Append(e)), Open(p), Write(p), Commit(p));
    OpensCurrent(c, m, es, p, Append(e));
    WritesAndCommits(c, m2, es, p, e);
    assert m2.pcs[p := Idle] == m.pcs[p := Idle];
  }

  /** A known id is left alone, and a torn log makes every operation give up. Neither changes the log. */
  lemma OthersLeaveTheLog(c: Codec, m: Machine, es: seq<Envelope>, torn: Bytes, p: nat, e: Envelope)
    requires CodecOk(c) && Inv(c, m, es, torn) && m.holder == None && p < |m.pcs|
    requires Genuine(c.prims, e) && (e.id in Ids(es) || torn != [])
    ensures var m' := Run(c, m, [Lock(p, Append(e)), Open(p), Write(p)]);
            && m'.disk.log == m.disk.log
            && (if torn == [] then m'.disk.index == Some(FullIndex(c, es)) && m'.holder == Some(p)
                else m'.disk == m.disk && m'.holder == None)
  {
    RunThree(c, m, Lock(p, Append(e)), Open(p), Write(p));
    if torn == [] {
      OpensCurrent(c, m, es, p, Append(e));
      IndexedIds(c, es);
    } else {
      EnsureExact(c, m.disk, es, torn);
    }
  }

  /** A crash in the middle of a write leaves exactly the part that was written, and a power loss exactly the part
      that was kept; both free the lock. */
  lemma CrashesLeave(c: Codec, m: Machine, p: nat, n: nat)
    ensures p < |m.pcs| && m.pcs[p].Ready? && m.pcs[p].task.Append? && m.disk.index.Some?
            && m.pcs[p].task.env.id !in m.disk.index.value.messages && n <= |c.encode(m.pcs[p].task.env)| ==>
              var m' := Act(c, m, Tear(p, n));
              m'.disk == m.disk.(log := m.disk.log + c.encode(m.pcs[p].task.env)[..n]) && m'.holder == None
              && m'.pcs == m.pcs[p := Idle]
    ensures n <= |m.disk.log| ==>
              var m' := Act(c, m, PowerLoss(n));
              m'.disk == m.disk.(log := m.disk.log[..n]) && m'.holder == None && |m'.pcs| == |m.pcs|
              && forall q :: 0 <= q < |m.pcs| ==> m'.pcs[q] == Idle
  {
    if p < |m.pcs| && m.pcs[p].Ready? && m.pcs[p].task.Append? && n <= |c.encode(m.pcs[p].task.env)| {
      var e := m.pcs[p].task.env;
      assert Record(c, e)[..n] == c.encode(e)[..n];
    }
  }
}
