/** Capacity, answers and progress of the batching protocol, and its guarantees over whole runs. */
module BatchingRuns {
  import opened Text
  import opened Luns
  import opened PendingMaps
  import opened Batching
  import opened BatchingInvariant
  import opened BatchingSafety
  import Sets

  // ---------------------------------------------------------------------------------------------
  // Capacity

  /** From counting the attached disks until the VM update, a call relies on its count. */
  predicate Counting(pc: Pc) {
    pc.Counted? || pc.DrainLocked? || pc.DrainFound? || pc.DrainSwapped? || pc.Drained? || pc.Trimmed? || pc.LunsSet?
  }

  ghost predicate ThreadCapInv(max: nat, s: State, t: Tid)
    requires t in s.threads && Attach in s.tabs
  {
    var th := s.threads[t];
    th.kind == Attach && Counting(th.pc) ==>
      && (th.allowed.None? ==> s.unsized)
      && (th.allowed.Some? && !s.unsized ==> |s.vm| + th.allowed.value <= max)
      && (th.allowed.Some? && (th.pc.Trimmed? || th.pc.LunsSet?) ==>
        th.ref in s.tabs[Attach].heap && |s.tabs[Attach].heap[th.ref]| <= th.allowed.value)
  }

  /** As long as every attach could be sized, the VM holds no more disks than it can. */
  ghost predicate CapInv(c: Config, s: State) {
    && Attach in s.tabs
    && (c.maxDisks.Some? ==>
      && (!s.unsized ==> |s.vm| <= c.maxDisks.value)
      && forall t :: t in s.threads ==> ThreadCapInv(c.maxDisks.value, s, t))
  }

  lemma {:induction false} AddedSize(batch: map<string, Tid>, applied: set<string>, opts: map<Tid, int>,
      names: map<Tid, string>)
    requires applied <= batch.Keys && forall u :: u in batch ==> batch[u] in opts && batch[u] in names
    ensures |Added(batch, applied, opts, names)| <= |applied|
    decreases |applied|
  {
    if applied == {} {
      assert Added(batch, applied, opts, names) == {};
    } else {
      var u :| u in applied;
      AddedSize(batch, applied - {u}, opts, names);
      assert Added(batch, applied, opts, names)
        == Added(batch, applied - {u}, opts, names) + {VmDisk(u, names[batch[u]], opts[batch[u]])};
    }
  }

  lemma SmallerVm(s: State, s': State)
    requires s'.vm <= s.vm
    ensures |s'.vm| <= |s.vm|
  {
    assert s.vm == s'.vm + (s.vm - s'.vm);
  }

  /** The VM update adds at most what the trimmed batch holds. */
  lemma AttachFits(c: Config, s: State, t: Tid, applied: set<string>, ok: bool, s': State)
    requires CapInv(c, s) && c.maxDisks.Some? && !s.unsized && VmAttachStep(s, t, applied, ok, s')
    requires s.threads[t].kind == Attach
    ensures |s'.vm| <= c.maxDisks.value
  {
    assert ThreadCapInv(c.maxDisks.value, s, t);
    var batch := s.tabs[Attach].heap[s.threads[t].ref];
    AddedSize(batch, applied, s.opts, Names(s.threads));
    Sets.SubsetSize(applied, batch.Keys);
    assert |s'.vm| == |s.vm| + |Added(batch, applied, s.opts, Names(s.threads))|;
  }

  lemma VmStaysWithinCapacity(c: Config, s: State, a: Action, s': State)
    requires MapInv(s) && LunInv(s) && CapInv(c, s) && Step(c, s, a, s') && c.maxDisks.Some? && !s'.unsized
    ensures !s.unsized && |s'.vm| <= c.maxDisks.value
  {
    UnsizedIsSticky(c, s, a, s');
    StepsChangeLittle(c, s, a, s');
    if a.VmAttach? {
      assert VmAttachStep(s, a.t, a.applied, a.ok, s');
      assert ThreadInv(s, a.t);
      AttachFits(c, s, a.t, a.applied, a.ok, s');
    } else {
      SmallerVm(s, s');
    }
  }

  lemma UnsizedIsSticky(c: Config, s: State, a: Action, s': State)
    requires Step(c, s, a, s')
    ensures s.unsized ==> s'.unsized
  {
  }

  lemma OtherDoesNotAttach(c: Config, s: State, a: Action, s': State, u: Tid)
    requires LockInv(s) && Step(c, s, a, s') && u in s.threads && Counting(s.threads[u].pc) && (a.Shrink? || a.t != u)
    ensures !a.VmAttach?
  {
    if a.VmAttach? {
      assert VmAttachStep(s, a.t, a.applied, a.ok, s');
      OneHolder(s, a.t, u, NodeLock);
    }
  }

  lemma OthersKeepCapacity(c: Config, s: State, a: Action, s': State, u: Tid)
    requires LockInv(s) && MapInv(s) && LunInv(s) && CapInv(c, s) && Step(c, s, a, s') && c.maxDisks.Some?
    requires u in s.threads && (a.Shrink? || a.t != u) && u in s'.threads && s'.threads[u] == s.threads[u]
      && Attach in s'.tabs
    ensures ThreadCapInv(c.maxDisks.value, s', u)
  {
    assert ThreadInv(s, u) && ThreadCapInv(c.maxDisks.value, s, u);
    var th := s.threads[u];
    if th.kind == Attach && Counting(th.pc) {
      UnsizedIsSticky(c, s, a, s');
      StepsChangeLittle(c, s, a, s');
      OtherDoesNotAttach(c, s, a, s', u);
      SmallerVm(s, s');
      if OwnsBatch(th.pc) {
        BatchesAreUntouched(c, s, a, s', u);
      }
    }
  }

  /** What the map accesses and VM updates do to the acting call's own record. */
  ghost predicate QuietThread(th: Thread, th': Thread) {
    && th'.kind == th.kind && th'.allowed == th.allowed && th'.lun == th.lun && th'.trimmed == th.trimmed
      && th'.seen == th.seen
    && !th.pc.Answered? && !th.pc.Done?
    && (th'.outcome == th.outcome || (th'.outcome.Errored? && th'.pc.Answered?))
    && !th'.pc.Trimmed? && !th'.pc.LunsSet? && (Counting(th'.pc) ==> Counting(th.pc))
    && (th.kind == Attach && th'.pc.Updated? ==> th.pc.LunsSet?)
    && (th.pc.Trimmed? || th.pc.LunsSet? || th.pc.Updated? ==> th'.pc.Updated? || th'.pc.Answered?)
  }

  predicate IsQuiet(a: Action) {
    a.EnqLoad? || a.EnqInsert? || a.DrainLoad? || a.DrainSwap? || a.VmAttach? || a.VmDetach?
  }

  lemma RequestIsQuiet(s: State, t: Tid, s': State)
    requires EnqLoadStep(s, t, s') || EnqInsertStep(s, t, s')
    ensures t in s.threads && t in s'.threads && QuietThread(s.threads[t], s'.threads[t]) && s'.unsized == s.unsized
      && s'.vm == s.vm
  {
  }

  lemma DrainIsQuiet(s: State, t: Tid, s': State)
    requires DrainLoadStep(s, t, s') || DrainSwapStep(s, t, s')
    ensures t in s.threads && t in s'.threads && QuietThread(s.threads[t], s'.threads[t]) && s'.unsized == s.unsized
      && s'.vm == s.vm
  {
  }

  lemma VmUpdateIsQuiet(s: State, t: Tid, applied: set<string>, left: multiset<VmDisk>, ok: bool, s': State)
    requires VmAttachStep(s, t, applied, ok, s') || VmDetachStep(s, t, left, ok, s')
    ensures t in s.threads && t in s'.threads && QuietThread(s.threads[t], s'.threads[t])
    ensures s.threads[t].kind == Attach ==> !Counting(s'.threads[t].pc)
  {
  }

  lemma QuietStep(c: Config, s: State, a: Action, s': State)
    requires Step(c, s, a, s') && IsQuiet(a)
    ensures a.t in s.threads && a.t in s'.threads && QuietThread(s.threads[a.t], s'.threads[a.t])
    ensures s.threads[a.t].kind == Attach && Counting(s'.threads[a.t].pc) ==> s'.unsized == s.unsized && s'.vm == s.vm
  {
    match a
    case VmAttach(t, applied, ok) => VmUpdateIsQuiet(s, t, applied, multiset{}, ok, s');
    case VmDetach(t, left, ok) => VmUpdateIsQuiet(s, t, {}, left, ok, s');
    case EnqLoad(t) => RequestIsQuiet(s, t, s');
    case EnqInsert(t) => RequestIsQuiet(s, t, s');
    case DrainLoad(t) => DrainIsQuiet(s, t, s');
    case DrainSwap(t) => DrainIsQuiet(s, t, s');
  }

  lemma LockOpKeepsRecord(s: State, t: Tid, op: LockOp, s': State)
    requires LockStep(s, t, op, s')
    ensures t in s.threads && t in s'.threads && s'.threads[t] == s.threads[t].(pc := s'.threads[t].pc)
    ensures s'.unsized == s.unsized && s'.vm == s.vm && s'.tabs == s.tabs
    ensures var pc, pc' := s.threads[t].pc, s'.threads[t].pc;
      && (Counting(pc') ==> Counting(pc) || s.threads[t].kind != Attach)
      && !pc'.Trimmed? && !pc'.LunsSet? && !pc'.Updated? && !pc'.Answered? && (pc'.Done? <==> pc.Answered?)
      && !pc.Trimmed? && !pc.LunsSet? && !pc.Updated? && !pc.Done?
  {
  }

  lemma CountingStarts(c: Config, s: State, t: Tid, sized: bool, s': State)
    requires CapInv(c, s) && CountStep(c, s, t, sized, s') && c.maxDisks.Some?
    ensures t in s'.threads && Attach in s'.tabs && ThreadCapInv(c.maxDisks.value, s', t)
  {
  }

  lemma TrimFits(c: Config, s: State, t: Tid, keep: set<string>, s': State)
    requires CapInv(c, s) && TrimStep(s, t, keep, s') && c.maxDisks.Some?
    ensures t in s'.threads && Attach in s'.tabs && ThreadCapInv(c.maxDisks.value, s', t)
  {
    assert ThreadCapInv(c.maxDisks.value, s, t);
    assert s'.tabs[Attach].heap[s.threads[t].ref].Keys == keep;
  }

  lemma SetLunsKeepsCount(c: Config, s: State, t: Tid, order: seq<string>, at: VmDisk, s': State)
    requires CapInv(c, s) && SetLunsStep(s, t, order, at, s') && c.maxDisks.Some?
    ensures t in s'.threads && Attach in s'.tabs && ThreadCapInv(c.maxDisks.value, s', t)
  {
    assert ThreadCapInv(c.maxDisks.value, s, t);
  }

  lemma FinishEndsCount(c: Config, s: State, t: Tid, outcome: Outcome, via: Option<VmDisk>, s': State)
    requires FinishStep(c, s, t, outcome, via, s')
    ensures t in s'.threads && s'.threads[t].pc.Answered?
  {
  }

  /** The acting call's own count: taken under the lock, then carried along. */
  lemma OwnCapacity(c: Config, s: State, a: Action, s': State)
    requires CapInv(c, s) && Step(c, s, a, s') && c.maxDisks.Some?
    requires !a.Spawn? && !a.Shrink? && a.t in s.threads && a.t in s'.threads && Attach in s'.tabs
    ensures ThreadCapInv(c.maxDisks.value, s', a.t)
  {
    assert ThreadCapInv(c.maxDisks.value, s, a.t);
    match a
    case Lock(t, op) => LockOpKeepsRecord(s, t, op, s');
    case Count(t, sized) => CountingStarts(c, s, t, sized, s');
    case TrimBatch(t, keep) => TrimFits(c, s, t, keep, s');
    case SetLuns(t, order, at) => SetLunsKeepsCount(c, s, t, order, at, s');
    case Finish(t, outcome, via) => FinishEndsCount(c, s, t, outcome, via, s');
    case _ => QuietStep(c, s, a, s');
  }

  lemma StepKeepsCapInv(c: Config, s: State, a: Action, s': State)
    requires LockInv(s) && MapInv(s) && LunInv(s) && CapInv(c, s) && Step(c, s, a, s') && MapInv(s')
    ensures CapInv(c, s')
  {
    if c.maxDisks.Some? {
      if !s'.unsized {
        VmStaysWithinCapacity(c, s, a, s');
      }
      StepOthers(c, s, a, s');
      forall u | u in s'.threads ensures ThreadCapInv(c.maxDisks.value, s', u) {
        if u in s.threads && (a.Shrink? || a.t != u) {
          OthersKeepCapacity(c, s, a, s', u);
        } else if !a.Spawn? {
          OwnCapacity(c, s, a, s');
        }
      }
    }
  }

  // ---------------------------------------------------------------------------------------------
  // Answers

  /** The call has seen a disk at this LUN that it took for its own. */
  ghost predicate SeenAt(th: Thread, lun: int) {
    exists d :: d in th.seen && d.lun == lun
  }

  /**
   * A LUN is answered only if the call saw its disk listed there, or the check is off and the disk was in the batch.
   */
  ghost predicate AnswerInv(c: Config, th: Thread) {
    && (th.outcome.Unknown? || th.pc.Answered? || th.pc.Done?)
    && (th.kind == Attach && (th.pc.LunsSet? || th.pc.Updated?) && th.trimmed ==> SeenAt(th, th.lun))
    && (th.kind == Attach && th.outcome.Succeeded? ==> SeenAt(th, th.outcome.lun) || (!c.lunCheck && !th.trimmed))
    && (th.trimmed ==> th.pc.Trimmed? || th.pc.LunsSet? || th.pc.Updated? || th.pc.Answered? || th.pc.Done?)
  }

  lemma CountKeepsAnswer(c: Config, s: State, t: Tid, sized: bool, keep: set<string>, s': State)
    requires CountStep(c, s, t, sized, s') || TrimStep(s, t, keep, s')
    requires AnswerInv(c, s.threads[t])
    ensures t in s'.threads && AnswerInv(c, s'.threads[t])
  {
  }

  lemma SetLunsKeepsAnswer(c: Config, s: State, t: Tid, order: seq<string>, at: VmDisk, s': State)
    requires SetLunsStep(s, t, order, at, s') && AnswerInv(c, s.threads[t]) && RefInv(s.threads[t], s.tabs[Attach])
    ensures t in s'.threads && AnswerInv(c, s'.threads[t])
  {
  }

  lemma FinishIsWitnessed(c: Config, s: State, t: Tid, outcome: Outcome, via: Option<VmDisk>, s': State)
    requires FinishStep(c, s, t, outcome, via, s') && AnswerInv(c, s.threads[t])
    ensures t in s'.threads && AnswerInv(c, s'.threads[t])
  {
  }

  lemma OwnAnswer(c: Config, s: State, a: Action, s': State)
    requires Step(c, s, a, s') && !a.Spawn? && !a.Shrink? && a.t in s.threads && a.t in s'.threads
    requires AnswerInv(c, s.threads[a.t])
    requires a.SetLuns? ==> Attach in s.tabs && RefInv(s.threads[a.t], s.tabs[Attach])
    ensures AnswerInv(c, s'.threads[a.t])
  {
    match a
    case Lock(t, op) => LockOpKeepsRecord(s, t, op, s');
    case Count(t, sized) => CountKeepsAnswer(c, s, t, sized, {}, s');
    case TrimBatch(t, keep) => CountKeepsAnswer(c, s, t, false, keep, s');
    case SetLuns(t, order, at) => SetLunsKeepsAnswer(c, s, t, order, at, s');
    case Finish(t, outcome, via) => FinishIsWitnessed(c, s, t, outcome, via, s');
    case _ => QuietStep(c, s, a, s');
  }

  // ---------------------------------------------------------------------------------------------
  // Runs

  ghost predicate Inv(c: Config, s: State) {
    && LockInv(s) && MapInv(s) && LunInv(s) && CapInv(c, s)
    && forall t :: t in s.threads ==> AnswerInv(c, s.threads[t])
  }

  lemma InitHasInv(c: Config, s: State)
    requires Init(c, s)
    ensures Inv(c, s)
  {
  }

  lemma ShapesFromMapInv(s: State)
    requires MapInv(s)
    ensures forall t :: t in s.threads ==> ShapeInv(s.threads[t])
  {
    forall t | t in s.threads ensures ShapeInv(s.threads[t]) {
      assert ThreadInv(s, t);
    }
  }

  lemma RefsForSetLuns(c: Config, s: State, a: Action, s': State)
    requires MapInv(s) && Step(c, s, a, s')
    ensures a.SetLuns? ==> a.t in s.threads && Attach in s.tabs && RefInv(s.threads[a.t], s.tabs[Attach])
  {
    if a.SetLuns? {
      assert SetLunsStep(s, a.t, a.order, a.at, s');
      assert ThreadInv(s, a.t);
    }
  }

  lemma StepKeepsInv(c: Config, s: State, a: Action, s': State)
    requires Inv(c, s) && Step(c, s, a, s')
    ensures Inv(c, s')
  {
    ShapesFromMapInv(s);
    StepKeepsLockInv(c, s, a, s');
    StepKeepsMapInv(c, s, a, s');
    StepKeepsLunInv(c, s, a, s');
    StepKeepsCapInv(c, s, a, s');
    StepOthers(c, s, a, s');
    forall t | t in s'.threads ensures AnswerInv(c, s'.threads[t]) {
      if !a.Spawn? && !a.Shrink? && t == a.t {
        RefsForSetLuns(c, s, a, s');
        OwnAnswer(c, s, a, s');
      } else if a.Spawn? && t == a.t {
        assert SpawnStep(s, a.t, a.kind, a.disk, a.name, a.occupied, s');
      }
    }
  }

  ghost predicate Next(c: Config, s: State, s': State) {
    exists a :: Step(c, s, a, s')
  }

  ghost predicate StepAt(c: Config, run: seq<State>, i: nat) {
    0 < i < |run| && Next(c, run[i - 1], run[i])
  }

  ghost predicate IsRun(c: Config, run: seq<State>) {
    && run != [] && Init(c, run[0])
    && forall i :: 0 < i < |run| ==> StepAt(c, run, i)
  }

  lemma {:induction false} RunsKeepInv(c: Config, run: seq<State>, i: nat)
    requires IsRun(c, run) && i < |run|
    ensures Inv(c, run[i])
  {
    if i == 0 {
      InitHasInv(c, run[0]);
    } else {
      RunsKeepInv(c, run, i - 1);
      assert StepAt(c, run, i);
      var a :| Step(c, run[i - 1], a, run[i]);
      StepKeepsInv(c, run[i - 1], a, run[i]);
    }
  }

  lemma RunsKeepMaps(c: Config, run: seq<State>, i: nat)
    requires IsRun(c, run) && i < |run|
    ensures LockInv(run[i]) && MapInv(run[i])
  {
    RunsKeepInv(c, run, i);
  }

  /** In every run the attached disks have distinct LUNs in [0, 64), whatever part of each batch was applied. */
  lemma LunsAreSafe(c: Config, run: seq<State>, i: nat)
    requires IsRun(c, run) && i < |run|
    ensures DistinctLuns(run[i].vm)
  {
    RunsKeepInv(c, run, i);
  }

  /** In every run the VM's limit holds until some attach went ahead without knowing it. */
  lemma CapacityIsKept(c: Config, run: seq<State>, i: nat)
    requires IsRun(c, run) && i < |run| && c.maxDisks.Some? && !run[i].unsized
    ensures |run[i].vm| <= c.maxDisks.value
  {
    RunsKeepInv(c, run, i);
  }

  /** At most one call of any kind is between its drain and its completion. */
  lemma OneCallInFlight(c: Config, run: seq<State>, i: nat, t: Tid, u: Tid)
    requires IsRun(c, run) && i < |run| && t in run[i].threads && u in run[i].threads
    requires HoldsNode(run[i].threads[t].pc) && HoldsNode(run[i].threads[u].pc)
    ensures t == u
  {
    RunsKeepInv(c, run, i);
    OneHolder(run[i], t, u, NodeLock);
  }

  /**
   * A call that drained nothing finds its request in a drain, made after it was queued, of a call that has returned.
   */
  lemma EmptyHandedCallsWereServed(c: Config, run: seq<State>, i: nat, t: Tid)
    requires IsRun(c, run) && i < |run| && At(run[i], t, Empty)
    ensures var th := run[i].threads[t];
      th.kind in run[i].tabs && TakenByFinished(run[i], run[i].tabs[th.kind], t, th.disk, th.enqAt)
  {
    RunsKeepInv(c, run, i);
    assert ThreadInv(run[i], t);
  }

  lemma RunAction(c: Config, run: seq<State>, i: nat) returns (a: Action)
    requires IsRun(c, run) && 0 < i < |run|
    ensures Step(c, run[i - 1], a, run[i])
  {
    assert StepAt(c, run, i);
    a :| Step(c, run[i - 1], a, run[i]);
  }

  /** In state s the call holds the node lock and the VM lists d, which the call takes for its disk. */
  ghost predicate Sees(s: State, t: Tid, d: VmDisk) {
    t in s.threads && HoldsNode(s.threads[t].pc) && d in s.vm && TakesFor(s.threads[t], d)
  }

  /** `seen` holds nothing but disks that the VM really listed while the call held the node lock. */
  lemma {:induction false} SeenWasListed(c: Config, run: seq<State>, i: nat, t: Tid, d: VmDisk) returns (j: nat)
    requires IsRun(c, run) && i < |run| && t in run[i].threads && d in run[i].threads[t].seen
    ensures j < i && Sees(run[j], t, d)
    ensures run[j].threads[t].disk == run[i].threads[t].disk && run[j].threads[t].name == run[i].threads[t].name
  {
    if i == 0 {
      assert false;
    } else {
      SeenBefore(c, run, i, t, d);
      if d in run[i - 1].threads[t].seen {
        j := SeenWasListed(c, run, i - 1, t, d);
      } else {
        j := i - 1;
      }
    }
  }

  lemma SeenBefore(c: Config, run: seq<State>, i: nat, t: Tid, d: VmDisk)
    requires IsRun(c, run) && 0 < i < |run| && t in run[i].threads && d in run[i].threads[t].seen
    ensures t in run[i - 1].threads
    ensures run[i].threads[t].disk == run[i - 1].threads[t].disk && run[i].threads[t].name == run[i - 1].threads[t].name
    ensures d in run[i - 1].threads[t].seen || Sees(run[i - 1], t, d)
  {
    var a := RunAction(c, run, i);
    SeenGrows(c, run[i - 1], a, run[i], t, d);
  }

  lemma SeenGrows(c: Config, s: State, a: Action, s': State, t: Tid, d: VmDisk)
    requires Step(c, s, a, s') && t in s'.threads && d in s'.threads[t].seen
    ensures t in s.threads && s'.threads[t].disk == s.threads[t].disk && s'.threads[t].name == s.threads[t].name
    ensures d in s.threads[t].seen || Sees(s, t, d)
  {
    StepOthers(c, s, a, s');
    if !a.Shrink? && !a.Spawn? && t == a.t {
      StepMoves(c, s, a, s');
      OwnSeenGrows(c, s, a, s', d);
    }
  }

  lemma OwnSeenGrows(c: Config, s: State, a: Action, s': State, d: VmDisk)
    requires Step(c, s, a, s') && !a.Shrink? && !a.Spawn? && a.t in s.threads && a.t in s'.threads
    requires d in s'.threads[a.t].seen
    ensures d in s.threads[a.t].seen || Sees(s, a.t, d)
  {
    match a
    case Lock(t, op) => LockOpKeepsRecord(s, t, op, s');
    case Count(t, sized) => CountSees(c, s, t, sized, {}, s');
    case TrimBatch(t, keep) => CountSees(c, s, t, false, keep, s');
    case SetLuns(t, order, at) => SetLunsSees(s, t, order, at, s', d);
    case Finish(t, outcome, via) => FinishSees(c, s, t, outcome, via, s', d);
    case _ => QuietStep(c, s, a, s');
  }

  lemma CountSees(c: Config, s: State, t: Tid, sized: bool, keep: set<string>, s': State)
    requires CountStep(c, s, t, sized, s') || TrimStep(s, t, keep, s')
    ensures t in s'.threads && s'.threads[t].seen == s.threads[t].seen
  {
  }

  /** A disk with the call's resource ID is one that GetDiskLun takes for it too. */
  lemma OwnIsTaken(th: Thread, d: VmDisk)
    requires IsOwn(th, d)
    ensures TakesFor(th, d)
  {
  }

  lemma SetLunsSees(s: State, t: Tid, order: seq<string>, at: VmDisk, s': State, d: VmDisk)
    requires SetLunsStep(s, t, order, at, s') && t in s'.threads && d in s'.threads[t].seen
    ensures d in s.threads[t].seen || Sees(s, t, d)
  {
    if IsOwn(s.threads[t], d) {
      OwnIsTaken(s.threads[t], d);
    }
  }

  lemma FinishSees(c: Config, s: State, t: Tid, outcome: Outcome, via: Option<VmDisk>, s': State, d: VmDisk)
    requires FinishStep(c, s, t, outcome, via, s') && t in s'.threads && d in s'.threads[t].seen
    ensures d in s.threads[t].seen || Sees(s, t, d)
  {
  }

  /**
   * No attach succeeds on trust: while the call held the node lock the VM listed, at that LUN, a disk that the call
   * took for its own, unless the check is off and its disk was in its batch.
   */
  lemma AnswersAreWitnessed(c: Config, run: seq<State>, i: nat, t: Tid) returns (j: nat, d: VmDisk)
    requires IsRun(c, run) && i < |run| && t in run[i].threads
    requires run[i].threads[t].kind == Attach && run[i].threads[t].outcome.Succeeded?
    requires c.lunCheck || run[i].threads[t].trimmed
    ensures j < i && Sees(run[j], t, d) && d.lun == run[i].threads[t].outcome.lun
    ensures run[j].threads[t].disk == run[i].threads[t].disk && run[j].threads[t].name == run[i].threads[t].name
  {
    RunsKeepInv(c, run, i);
    var th := run[i].threads[t];
    assert AnswerInv(c, th);
    d :| d in th.seen && d.lun == th.outcome.lun;
    j := SeenWasListed(c, run, i, t, d);
  }

  // ---------------------------------------------------------------------------------------------
  // Progress

  ghost predicate Enabled(c: Config, s: State, t: Tid) {
    exists a, s' :: Step(c, s, a, s') && !a.Spawn? && !a.Shrink? && a.t == t
  }

  lemma {:induction false} SubsetOfSize(keys: set<string>, n: nat) returns (keep: set<string>)
    requires n <= |keys|
    ensures keep <= keys && |keep| == n
    decreases |keys|
  {
    if n == |keys| {
      return keys;
    }
    var k :| k in keys;
    keep := SubsetOfSize(keys - {k}, n);
  }

  lemma LockEnabled(c: Config, s: State, t: Tid, op: LockOp)
    requires t in s.threads && AfterLock(s.threads[t].kind, s.threads[t].pc, op).Some?
    requires Takes(op) ==> LockOf(op, s.threads[t].kind) !in s.locks
    ensures Enabled(c, s, t)
  {
    var th := s.threads[t];
    var l := LockOf(op, th.kind);
    var locks := if Takes(op) then s.locks[l := t] else s.locks - {l};
    var s' := Moved(s, t, AfterLock(th.kind, th.pc, op).value).(locks := locks);
    assert LockStep(s, t, op, s');
    assert Step(c, s, Lock(t, op), s');
  }

  lemma FinishEnabled(c: Config, s: State, t: Tid, outcome: Outcome)
    requires t in s.threads && MayAnswer(c, s, s.threads[t], outcome, None)
    ensures Enabled(c, s, t)
  {
    var s' := Put(s, t, s.threads[t].(pc := Answered, outcome := outcome));
    assert FinishStep(c, s, t, outcome, None, s');
    assert Step(c, s, Finish(t, outcome, None), s');
  }

  lemma EnqueueMoves(c: Config, s: State, t: Tid)
    requires LockInv(s) && MapInv(s) && (At(s, t, EnqLocked) || At(s, t, EnqLoaded)) && s.threads[t].kind != Update
    ensures Enabled(c, s, t)
  {
    assert ThreadInv(s, t);
    var th := s.threads[t];
    var tab := s.tabs[th.kind];
    assert TableInv(s, th.kind, tab);
    if th.pc.EnqLocked? {
      var s' := if tab.slot.Some? then Put(s, t, th.(pc := EnqLoaded, ref := tab.slot.value))
        else Put(s, t, th.(pc := EnqLoaded, ref := tab.next)).(tabs := s.tabs[th.kind :=
          tab.(heap := tab.heap[tab.next := map[]], slot := Some(tab.next), next := tab.next + 1)]);
      assert EnqLoadStep(s, t, s');
      assert Step(c, s, EnqLoad(t), s');
    } else {
      var s' := Put(s, t, th.(pc := EnqInserted, enqAt := |tab.drains|)).(tabs := s.tabs[th.kind :=
        tab.(heap := tab.heap[th.ref := Enqueue(tab.heap[th.ref], th.disk, t)])]);
      assert EnqInsertStep(s, t, s');
      assert Step(c, s, EnqInsert(t), s');
    }
  }

  lemma LookupMoves(c: Config, s: State, t: Tid)
    requires At(s, t, DrainLocked) && BatchKind(s, t)
    requires s.tabs[s.threads[t].kind].slot.None? ==> Pending(s.tabs[s.threads[t].kind]) == map[]
    ensures Enabled(c, s, t)
  {
    var th := s.threads[t];
    var tab := s.tabs[th.kind];
    var s' := if th.disk in Pending(tab) then Put(s, t, th.(pc := DrainFound, ref := tab.slot.value))
      else Moved(s, t, DrainMissed);
    assert DrainLoadStep(s, t, s');
    assert Step(c, s, DrainLoad(t), s');
  }

  lemma SwapMoves(c: Config, s: State, t: Tid)
    requires At(s, t, DrainFound) && BatchKind(s, t) && s.threads[t].ref in s.tabs[s.threads[t].kind].heap
    ensures Enabled(c, s, t)
  {
    var th := s.threads[t];
    var tab := s.tabs[th.kind];
    var s' := Moved(s, t, DrainSwapped).(tabs := s.tabs[th.kind := Table(tab.heap[tab.next := map[]], Some(tab.next),
      tab.next + 1, tab.drains + [Drain(t, tab.heap[th.ref].Keys)])]);
    assert DrainSwapStep(s, t, s');
    assert Step(c, s, DrainSwap(t), s');
  }

  /** Inside the critical section of a pending map a call never waits. */
  lemma MapHoldersMove(c: Config, s: State, t: Tid)
    requires LockInv(s) && MapInv(s) && t in s.threads && (HoldsMap(s.threads[t].pc) || s.threads[t].pc.Polling?)
    ensures Enabled(c, s, t)
  {
    assert ThreadInv(s, t);
    match s.threads[t].pc
    case EnqLocked => EnqueueMoves(c, s, t);
    case EnqLoaded => EnqueueMoves(c, s, t);
    case DrainLocked => LookupMoves(c, s, t);
    case DrainFound => SwapMoves(c, s, t);
    case Polling => LockEnabled(c, s, t, DropPoll);
    case _ => LockEnabled(c, s, t, DropMap);
  }

  /** With the map locks free, the holder of the node lock moves. */
  lemma NodeHolderMoves(c: Config, s: State, t: Tid)
    requires LockInv(s) && MapInv(s) && t in s.threads && HoldsNode(s.threads[t].pc) && !HoldsMap(s.threads[t].pc)
    requires forall kind :: MapLock(kind) !in s.locks
    ensures Enabled(c, s, t)
  {
    assert ThreadInv(s, t);
    var th := s.threads[t];
    match th.pc
    case NodeLocked =>
      if th.kind == Detach {
        LockEnabled(c, s, t, TakeMap);
      } else {
        FinishEnabled(c, s, t, Errored);
      }
    case Counted => LockEnabled(c, s, t, TakeMap);
    case Drained => DrainedMoves(c, s, t);
    case Updated => FinishEnabled(c, s, t, if c.lunCheck then Errored else Succeeded(th.lun));
    case Answered => LockEnabled(c, s, t, DropNode);
    case _ => FinishEnabled(c, s, t, Errored);
  }

  lemma DrainedMoves(c: Config, s: State, t: Tid)
    requires LockInv(s) && MapInv(s) && At(s, t, Drained)
    ensures Enabled(c, s, t)
  {
    assert ThreadInv(s, t);
    var th := s.threads[t];
    if th.kind == Detach {
      var s' := Moved(s.(vm := s.vm), t, Updated);
      assert VmDetachStep(s, t, s.vm, true, s');
      assert Step(c, s, VmDetach(t, s.vm, true), s');
    } else {
      TrimEnabled(c, s, t);
    }
  }

  lemma TrimEnabled(c: Config, s: State, t: Tid)
    requires Attach in s.tabs && At(s, t, Drained) && s.threads[t].kind == Attach
      && s.threads[t].ref in s.tabs[Attach].heap
    ensures Enabled(c, s, t)
  {
    var th := s.threads[t];
    var tab := s.tabs[Attach];
    var batch := tab.heap[th.ref];
    var keep := SubsetOfSize(batch.Keys, Kept(|batch|, th.allowed));
    var s' := Put(s, t, th.(pc := Trimmed, trimmed := th.disk !in keep))
      .(tabs := s.tabs[Attach := tab.(heap := tab.heap[th.ref := batch - (batch.Keys - keep)])]);
    assert TrimStep(s, t, keep, s');
    assert Step(c, s, TrimBatch(t, keep), s');
  }

  /** No reachable state is stuck: while any call is outstanding, some outstanding call has a step of its own. */
  lemma NeverStuck(c: Config, run: seq<State>, i: nat, t: Tid)
    requires IsRun(c, run) && i < |run| && t in run[i].threads && !run[i].threads[t].pc.Done?
    ensures exists u :: u in run[i].threads && Enabled(c, run[i], u)
  {
    RunsKeepInv(c, run, i);
    var u := SomeoneMoves(c, run[i], t);
  }

  lemma FreeLocksAreNotHeld(s: State, t: Tid, l: LockName)
    requires LockInv(s) && t in s.threads && l !in s.locks
    ensures !Holds(s.threads[t], l)
  {
  }

  lemma HolderOf(s: State, l: LockName) returns (u: Tid)
    requires LockInv(s) && l in s.locks
    ensures u in s.threads && Holds(s.threads[u], l)
  {
    u := s.locks[l];
  }

  lemma SomeoneMoves(c: Config, s: State, t: Tid) returns (u: Tid)
    requires LockInv(s) && MapInv(s) && t in s.threads && !s.threads[t].pc.Done?
    ensures u in s.threads && Enabled(c, s, u)
  {
    if kind :| MapLock(kind) in s.locks {
      u := HolderOf(s, MapLock(kind));
      MapHoldersMove(c, s, u);
    } else if NodeLock in s.locks {
      u := HolderOf(s, NodeLock);
      FreeLocksAreNotHeld(s, u, MapLock(s.threads[u].kind));
      NodeHolderMoves(c, s, u);
    } else {
      u := t;
      LockFreeMoves(c, s, t);
    }
  }

  /** When no lock is held at all, any outstanding call can take the next one it needs. */
  lemma LockFreeMoves(c: Config, s: State, t: Tid)
    requires LockInv(s) && MapInv(s) && t in s.threads && !s.threads[t].pc.Done?
    requires NodeLock !in s.locks && forall kind :: MapLock(kind) !in s.locks
    ensures Enabled(c, s, t)
  {
    var th := s.threads[t];
    assert ShapeInv(th) by { assert ThreadInv(s, t); }
    FreeLocksAreNotHeld(s, t, NodeLock);
    FreeLocksAreNotHeld(s, t, MapLock(th.kind));
    FreeLocksAreNotHeld(s, t, MapLock(Detach));
    LockEnabled(c, s, t, if th.pc.Start? && th.kind != Update then TakeMap else TakeNode);
  }
}
