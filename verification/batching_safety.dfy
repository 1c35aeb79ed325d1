/** Whole-run guarantees of the batching protocol. */
module BatchingSafety {
  import opened Text
  import opened Luns
  import opened PendingMaps
  import opened Batching
  import opened BatchingInvariant

  // ---------------------------------------------------------------------------------------------
  // LUNs

  /** The LUNs written for a batch are usable together: in range, free on the VM, unoccupied, pairwise different. */
  ghost predicate BatchLunsOk(batch: map<string, Tid>, opts: map<Tid, int>, vm: multiset<VmDisk>, occupied: set<int>) {
    && (forall u :: u in batch ==> batch[u] in opts && LunOk(opts[batch[u]], vm, occupied))
    && (forall u, v :: u in batch && v in batch && opts[batch[u]] == opts[batch[v]] ==> u == v)
  }

  ghost predicate LunOk(lun: int, vm: multiset<VmDisk>, occupied: set<int>) {
    InRange(lun) && lun !in occupied && forall d :: d in vm ==> d.lun != lun
  }

  ghost predicate ThreadLunInv(s: State, t: Tid)
    requires t in s.threads && Attach in s.tabs
  {
    var th := s.threads[t];
    th.pc.LunsSet? ==>
      && th.ref in s.tabs[Attach].heap
      && BatchLunsOk(s.tabs[Attach].heap[th.ref], s.opts, s.vm, th.occupied)
  }

  ghost predicate LunInv(s: State) {
    && DistinctLuns(s.vm) && s.opts.Keys == s.threads.Keys && Attach in s.tabs
    && forall t :: t in s.threads ==> ThreadLunInv(s, t)
  }

  lemma {:induction false} WriteOptsWrites(opts: map<Tid, int>, pointers: seq<Tid>, luns: seq<int>)
    requires |pointers| == |luns| && forall i, j :: 0 <= i < j < |pointers| ==> pointers[i] != pointers[j]
    requires forall i :: 0 <= i < |pointers| ==> pointers[i] in opts
    ensures var r := WriteOpts(opts, pointers, luns);
      && r.Keys == opts.Keys
      && (forall i :: 0 <= i < |pointers| ==> r[pointers[i]] == luns[i])
  {
    if pointers != [] {
      var last := |pointers| - 1;
      WriteOptsWrites(opts, pointers[..last], luns[..last]);
    }
  }

  /** Entries of one map belong to calls for different disks, so their option objects differ. */
  lemma PointersDiffer(s: State, id: MapId, u: string, v: string)
    requires MapInv(s) && id in s.tabs[Attach].heap && u in s.tabs[Attach].heap[id] && v in s.tabs[Attach].heap[id]
      && u != v
    ensures s.tabs[Attach].heap[id][u] != s.tabs[Attach].heap[id][v]
  {
    assert TableInv(s, Attach, s.tabs[Attach]);
    assert EntryOk(s, Attach, u, s.tabs[Attach].heap[id][u]) && EntryOk(s, Attach, v, s.tabs[Attach].heap[id][v]);
  }

  lemma FreeLunIsOk(vm: multiset<VmDisk>, occupied: set<int>, n: nat, lun: int)
    requires lun in LowestFree(VmLuns(vm) + (occupied * Range(0)), n)
    ensures LunOk(lun, vm, occupied)
  {
    var used := VmLuns(vm) + (occupied * Range(0));
    LowestFreeIsLowest(used, n);
    assert lun in Free(used);
    assert forall d :: d in vm ==> d.lun in VmLuns(vm);
  }

  lemma GoodLunsMakeGoodBatch(opts: map<Tid, int>, batch: map<string, Tid>, order: seq<string>, luns: seq<int>,
                              vm: multiset<VmDisk>, occupied: set<int>)
    requires |luns| == |order| && forall i :: 0 <= i < |order| ==> order[i] in batch
    requires forall u :: u in batch ==> u in order
    requires forall i :: 0 <= i < |order| ==> batch[order[i]] in opts && opts[batch[order[i]]] == luns[i]
    requires forall i :: 0 <= i < |luns| ==> LunOk(luns[i], vm, occupied)
    requires forall i, j :: 0 <= i < j < |luns| ==> luns[i] < luns[j]
    ensures BatchLunsOk(batch, opts, vm, occupied)
  {
    forall u | u in batch ensures exists i :: 0 <= i < |order| && order[i] == u && opts[batch[u]] == luns[i] {
    }
  }

  /** The written LUNs, for any batch whose option pointers differ. */
  lemma WrittenLunsAreGood(opts: map<Tid, int>, batch: map<string, Tid>, order: seq<string>, luns: seq<int>,
                           vm: multiset<VmDisk>, occupied: set<int>)
    requires Enumerates(order, batch) && forall i :: 0 <= i < |order| ==> order[i] in batch
    requires forall u, v :: u in batch && v in batch && u != v ==> batch[u] != batch[v]
    requires forall u :: u in batch ==> batch[u] in opts
    requires |luns| == |order| && luns == LowestFree(VmLuns(vm) + (occupied * Range(0)), |batch|)
    ensures var opts' := WriteOpts(opts, Pointers(batch, order), luns);
      opts'.Keys == opts.Keys && BatchLunsOk(batch, opts', vm, occupied)
  {
    var pointers := Pointers(batch, order);
    WriteOptsWrites(opts, pointers, luns);
    var opts' := WriteOpts(opts, pointers, luns);
    forall i | 0 <= i < |order| ensures batch[order[i]] in opts' && opts'[batch[order[i]]] == luns[i] {
      assert pointers[i] == batch[order[i]];
    }
    forall i | 0 <= i < |luns| ensures LunOk(luns[i], vm, occupied) {
      FreeLunIsOk(vm, occupied, |batch|, luns[i]);
    }
    LowestFreeIsLowest(VmLuns(vm) + (occupied * Range(0)), |batch|);
    GoodLunsMakeGoodBatch(opts', batch, order, luns, vm, occupied);
  }

  lemma SetLunsChoosesWell(s: State, t: Tid, order: seq<string>, at: VmDisk, s': State)
    requires MapInv(s) && LunInv(s) && SetLunsStep(s, t, order, at, s')
    ensures BatchLunsOk(s.tabs[Attach].heap[s.threads[t].ref], s'.opts, s'.vm, s.threads[t].occupied)
    ensures s'.opts.Keys == s.opts.Keys
  {
    var th := s.threads[t];
    var batch := s.tabs[Attach].heap[th.ref];
    assert TableInv(s, Attach, s.tabs[Attach]);
    forall u | u in batch ensures batch[u] in s.opts {
      assert EntryOk(s, Attach, u, batch[u]);
    }
    forall u, v | u in batch && v in batch && u != v ensures batch[u] != batch[v] {
      PointersDiffer(s, th.ref, u, v);
    }
    WrittenLunsAreGood(s.opts, batch, order, LowestFree(UsedBy(s, th), |batch|), s.vm, th.occupied);
  }

  /** Applying any part of a batch keeps the VM's LUNs distinct and in range. */
  lemma AttachKeepsDistinct(vm: multiset<VmDisk>, batch: map<string, Tid>, applied: set<string>, opts: map<Tid, int>,
                            names: map<Tid, string>, occupied: set<int>)
    requires DistinctLuns(vm) && applied <= batch.Keys && BatchLunsOk(batch, opts, vm, occupied)
    requires forall u :: u in batch ==> batch[u] in names
    ensures DistinctLuns(vm + multiset(Added(batch, applied, opts, names)))
  {
    var added := Added(batch, applied, opts, names);
    forall d | d in added ensures d !in vm && InRange(d.lun) {
      var u :| u in applied && d == VmDisk(u, names[batch[u]], opts[batch[u]]);
      assert LunOk(opts[batch[u]], vm, occupied);
    }
    forall d, e | d in vm + multiset(added) && e in vm + multiset(added) && d.lun == e.lun ensures d == e {
      if d in added {
        var u :| u in applied && d == VmDisk(u, names[batch[u]], opts[batch[u]]);
        assert LunOk(opts[batch[u]], vm, occupied);
      }
      if e in added {
        var u :| u in applied && e == VmDisk(u, names[batch[u]], opts[batch[u]]);
        assert LunOk(opts[batch[u]], vm, occupied);
      }
    }
  }

  // ---------------------------------------------------------------------------------------------
  // Hand-off

  predicate ChangesMaps(a: Action) {
    a.EnqLoad? || a.EnqInsert? || a.DrainSwap? || a.TrimBatch?
  }

  lemma OthersLeaveMaps(c: Config, s: State, a: Action, s': State)
    requires Step(c, s, a, s') && !ChangesMaps(a)
    ensures s'.tabs == s.tabs
  {
  }

  /** How a map-changing step changes the map objects of its direction. */
  ghost predicate HeapChange(s: State, a: Action, s': State, kind: Kind)
    requires kind in s.tabs && kind in s'.tabs && ChangesMaps(a) && a.t in s.threads
  {
    var tab, tab' := s.tabs[kind], s'.tabs[kind];
    var ref := s.threads[a.t].ref;
    && s'.tabs == s.tabs[kind := tab']
    && match a
       case EnqLoad(_) => tab' == tab || (tab.slot.None? && tab'.heap == tab.heap[tab.next := map[]])
       case EnqInsert(_) =>
         && ref in tab.heap && tab'.slot == tab.slot
         && tab'.heap == tab.heap[ref := Enqueue(tab.heap[ref], s.threads[a.t].disk, a.t)]
       case DrainSwap(_) =>
         && ref in tab.heap && tab'.heap == tab.heap[tab.next := map[]]
         && tab'.drains == tab.drains + [Drain(a.t, tab.heap[ref].Keys)]
       case TrimBatch(_, _) =>
         && ref in tab.heap && ref in tab'.heap && tab'.slot == tab.slot
         && tab'.heap == tab.heap[ref := tab'.heap[ref]]
  }

  lemma HeapChangeOfStep(c: Config, s: State, a: Action, s': State)
    requires MapInv(s) && Step(c, s, a, s') && ChangesMaps(a)
    ensures (a.DrainSwap? ==> At(s, a.t, DrainFound)) && (a.TrimBatch? ==> At(s, a.t, Drained))
      && (a.EnqInsert? ==> At(s, a.t, EnqLoaded))
    ensures a.t in s.threads && s.threads[a.t].kind in s.tabs && s.threads[a.t].kind in s'.tabs
    ensures HeapChange(s, a, s', s.threads[a.t].kind)
  {
    match a
    case EnqLoad(t) => assert EnqLoadStep(s, t, s');
    case EnqInsert(t) => assert EnqInsertStep(s, t, s');
    case DrainSwap(t) => assert DrainSwapStep(s, t, s');
    case TrimBatch(t, keep) => assert TrimStep(s, t, keep, s');
  }

  /** A drained batch is private: no step of any other call, and no change of the VM, alters it. */
  lemma BatchesAreUntouched(c: Config, s: State, a: Action, s': State, u: Tid)
    requires LockInv(s) && MapInv(s) && Step(c, s, a, s')
    requires u in s.threads && s.threads[u].kind != Update && OwnsBatch(s.threads[u].pc)
    requires a.Shrink? || a.t != u
    ensures s.threads[u].kind in s'.tabs
    ensures var th := s.threads[u];
      th.ref in s'.tabs[th.kind].heap && s'.tabs[th.kind].heap[th.ref] == s.tabs[th.kind].heap[th.ref]
  {
    var th := s.threads[u];
    assert ThreadInv(s, u) && TableInv(s, th.kind, s.tabs[th.kind]);
    if ChangesMaps(a) {
      HeapChangeOfStep(c, s, a, s');
      assert ThreadInv(s, a.t);
      if a.TrimBatch? {
        OneHolder(s, a.t, u, NodeLock);
      } else {
        ChangeKeepsBatches(s, a, s', th);
      }
    } else {
      OthersLeaveMaps(c, s, a, s');
    }
  }

  lemma ChangeKeepsBatches(s: State, a: Action, s': State, th: Thread)
    requires ChangesMaps(a) && !a.TrimBatch? && a.t in s.threads && s.threads[a.t].kind in s.tabs
      && s.threads[a.t].kind in s'.tabs
    requires HeapChange(s, a, s', s.threads[a.t].kind) && RefInv(s.threads[a.t], s.tabs[s.threads[a.t].kind])
    requires a.EnqInsert? ==> At(s, a.t, EnqLoaded)
    requires th.kind in s.tabs && OwnsBatch(th.pc) && RefInv(th, s.tabs[th.kind])
    requires s.tabs[th.kind].next !in s.tabs[th.kind].heap
    ensures th.kind in s'.tabs && th.ref in s'.tabs[th.kind].heap
    ensures s'.tabs[th.kind].heap[th.ref] == s.tabs[th.kind].heap[th.ref]
  {
  }

  /**
   * A request leaves the pending map only in a swap, by a call that holds the node lock and takes the request with it.
   */
  lemma RequestsLeaveByDrain(c: Config, s: State, a: Action, s': State, kind: Kind, disk: string)
    requires LockInv(s) && MapInv(s) && Step(c, s, a, s') && kind in s.tabs && kind in s'.tabs
    requires disk in Pending(s.tabs[kind]) && disk !in Pending(s'.tabs[kind])
    ensures a.DrainSwap? && a.t in s.threads && s.threads[a.t].kind == kind
    ensures NodeLock in s.locks && s.locks[NodeLock] == a.t
    ensures s'.tabs[kind].drains == s.tabs[kind].drains + [Drain(a.t, Pending(s.tabs[kind]).Keys)]
  {
    if !ChangesMaps(a) {
      OthersLeaveMaps(c, s, a, s');
    } else {
      HeapChangeOfStep(c, s, a, s');
      assert ThreadInv(s, a.t);
      ChangeKeepsRequests(s, a, s', disk);
      assert a.DrainSwap? ==> Holds(s.threads[a.t], NodeLock);
    }
  }

  lemma ChangeKeepsRequests(s: State, a: Action, s': State, disk: string)
    requires ChangesMaps(a) && a.t in s.threads && s.threads[a.t].kind in s.tabs && s.threads[a.t].kind in s'.tabs
    requires HeapChange(s, a, s', s.threads[a.t].kind) && RefInv(s.threads[a.t], s.tabs[s.threads[a.t].kind])
    requires (a.DrainSwap? ==> At(s, a.t, DrainFound)) && (a.TrimBatch? ==> At(s, a.t, Drained))
    requires disk in Pending(s.tabs[s.threads[a.t].kind])
    ensures disk in Pending(s'.tabs[s.threads[a.t].kind]) || a.DrainSwap?
    ensures a.DrainSwap? ==>
      Pending(s.tabs[s.threads[a.t].kind]) == s.tabs[s.threads[a.t].kind].heap[s.threads[a.t].ref]
  {
  }

  // ---------------------------------------------------------------------------------------------
  // LUN safety, step by step

  /** What a step may do to the VM and the option objects. */
  ghost predicate OnlyHoldersChange(s: State, a: Action, s': State) {
    && (a.VmAttach? || s'.vm <= s.vm)
    && (a.SetLuns? || a.Spawn? || s'.opts == s.opts)
    && (a.Spawn? ==> forall x :: x in s.opts ==> x in s'.opts && s'.opts[x] == s.opts[x])
  }

  lemma StepsChangeLittle(c: Config, s: State, a: Action, s': State)
    requires Step(c, s, a, s') && s.opts.Keys == s.threads.Keys
    ensures OnlyHoldersChange(s, a, s')
  {
  }

  lemma OtherDoesNotAllocate(c: Config, s: State, a: Action, s': State, u: Tid)
    requires LockInv(s) && Step(c, s, a, s') && u in s.threads && s.threads[u].pc.LunsSet? && (a.Shrink? || a.t != u)
    ensures !a.VmAttach? && !a.SetLuns?
  {
    if a.VmAttach? {
      assert VmAttachStep(s, a.t, a.applied, a.ok, s');
      OneHolder(s, a.t, u, NodeLock);
    } else if a.SetLuns? {
      assert SetLunsStep(s, a.t, a.order, a.at, s');
      OneHolder(s, a.t, u, NodeLock);
    }
  }

  lemma OtherLunsStay(c: Config, s: State, a: Action, s': State, u: Tid)
    requires LockInv(s) && MapInv(s) && LunInv(s) && Step(c, s, a, s')
    requires u in s.threads && (a.Shrink? || a.t != u) && u in s'.threads && s'.threads[u] == s.threads[u]
      && Attach in s'.tabs
    ensures ThreadLunInv(s', u)
  {
    assert ThreadInv(s, u) && ThreadLunInv(s, u);
    if s.threads[u].pc.LunsSet? {
      OtherDoesNotAllocate(c, s, a, s', u);
      BatchesAreUntouched(c, s, a, s', u);
      StepsChangeLittle(c, s, a, s');
      SmallerVmIsFine(s.tabs[Attach].heap[s.threads[u].ref], s.opts, s'.opts, s.vm, s'.vm, s.threads[u].occupied);
    }
  }

  lemma SmallerVmIsFine(batch: map<string, Tid>, opts: map<Tid, int>, opts': map<Tid, int>, vm: multiset<VmDisk>,
                        vm': multiset<VmDisk>, occupied: set<int>)
    requires BatchLunsOk(batch, opts, vm, occupied) && vm' <= vm
    requires forall x :: x in opts ==> x in opts' && opts'[x] == opts[x]
    ensures BatchLunsOk(batch, opts', vm', occupied)
  {
    forall u | u in batch ensures batch[u] in opts' && LunOk(opts'[batch[u]], vm', occupied) {
      assert LunOk(opts[batch[u]], vm, occupied);
    }
  }

  /** The acting call itself is past SetDiskLun only through SetDiskLun. */
  lemma OwnLunsAreGood(c: Config, s: State, a: Action, s': State)
    requires MapInv(s) && LunInv(s) && Step(c, s, a, s') && !a.Spawn? && !a.Shrink? && a.t in s'.threads
      && Attach in s'.tabs
    ensures ThreadLunInv(s', a.t)
  {
    if a.SetLuns? {
      SetLunsChoosesWell(s, a.t, a.order, a.at, s');
      OthersLeaveMaps(c, s, a, s');
      assert SetLunsStep(s, a.t, a.order, a.at, s');
    } else {
      OnlySetLunsArrives(c, s, a, s');
    }
  }

  lemma OnlySetLunsArrives(c: Config, s: State, a: Action, s': State)
    requires Step(c, s, a, s') && !a.Spawn? && !a.Shrink? && !a.SetLuns? && a.t in s'.threads
    ensures !s'.threads[a.t].pc.LunsSet?
  {
  }

  lemma VmStaysDistinct(c: Config, s: State, a: Action, s': State)
    requires LunInv(s) && Step(c, s, a, s')
    ensures DistinctLuns(s'.vm)
  {
    StepsChangeLittle(c, s, a, s');
    if a.VmAttach? {
      assert VmAttachStep(s, a.t, a.applied, a.ok, s');
      var th := s.threads[a.t];
      assert ThreadLunInv(s, a.t);
      AttachKeepsDistinct(s.vm, s.tabs[Attach].heap[th.ref], a.applied, s.opts, Names(s.threads), th.occupied);
    }
  }

  lemma SpawnAddsOpts(s: State, a: Action, s': State)
    requires a.Spawn? && SpawnStep(s, a.t, a.kind, a.disk, a.name, a.occupied, s') && s.opts.Keys == s.threads.Keys
    ensures s'.opts.Keys == s'.threads.Keys
  {
  }

  lemma SetLunsKeepsOpts(c: Config, s: State, a: Action, s': State)
    requires MapInv(s) && LunInv(s) && a.SetLuns? && Step(c, s, a, s')
    ensures s'.opts.Keys == s'.threads.Keys
  {
    SetLunsChoosesWell(s, a.t, a.order, a.at, s');
  }

  lemma OptsMatchThreads(c: Config, s: State, a: Action, s': State)
    requires MapInv(s) && LunInv(s) && Step(c, s, a, s')
    ensures s'.opts.Keys == s'.threads.Keys
  {
    if a.Spawn? {
      SpawnAddsOpts(s, a, s');
    } else if a.SetLuns? {
      SetLunsKeepsOpts(c, s, a, s');
    } else {
      StepsChangeLittle(c, s, a, s');
      if !a.Shrink? {
        StepMoves(c, s, a, s');
      }
    }
  }

  lemma StepKeepsLunInv(c: Config, s: State, a: Action, s': State)
    requires LockInv(s) && MapInv(s) && LunInv(s) && Step(c, s, a, s') && MapInv(s')
    ensures LunInv(s')
  {
    VmStaysDistinct(c, s, a, s');
    OptsMatchThreads(c, s, a, s');
    StepOthers(c, s, a, s');
    forall u | u in s'.threads ensures ThreadLunInv(s', u) {
      if u in s.threads && (a.Shrink? || a.t != u) {
        OtherLunsStay(c, s, a, s', u);
      } else if !a.Spawn? {
        OwnLunsAreGood(c, s, a, s');
      }
    }
  }

  /** Every step leaves the other calls alone; only a start adds one. */
  lemma StepOthers(c: Config, s: State, a: Action, s': State)
    requires Step(c, s, a, s')
    ensures forall u :: u in s.threads && (a.Shrink? || a.t != u) ==> u in s'.threads && s'.threads[u] == s.threads[u]
    ensures forall u :: u in s'.threads && u !in s.threads ==> a.Spawn? && u == a.t && s'.threads[u].pc.Start?
    ensures !a.Shrink? ==> a.t in s'.threads && (a.Spawn? <==> a.t !in s.threads)
    ensures a.Spawn? ==> s'.threads[a.t].pc.Start? && s'.threads[a.t].seen == {}
  {
    if !a.Shrink? && !a.Spawn? {
      StepMoves(c, s, a, s');
    }
  }
}
