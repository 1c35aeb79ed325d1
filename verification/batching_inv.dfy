/** What every reachable state of the batching protocol satisfies, and why each step keeps it. */
module BatchingInvariant {
  import opened Text
  import opened Luns
  import opened PendingMaps
  import opened Batching
  import LockMaps

  // ---------------------------------------------------------------------------------------------
  // Locks

  ghost predicate LockInv(s: State) {
    && (forall l :: l in s.locks ==> s.locks[l] in s.threads && Holds(s.threads[s.locks[l]], l))
    && (forall t, l :: t in s.threads && Holds(s.threads[t], l) ==> l in s.locks && s.locks[l] == t)
  }

  /** A lock has one holder. */
  lemma OneHolder(s: State, t: Tid, u: Tid, l: LockName)
    requires LockInv(s) && t in s.threads && u in s.threads && Holds(s.threads[t], l) && Holds(s.threads[u], l)
    ensures t == u
  {
    assert l in s.locks && s.locks[l] == t && s.locks[l] == u;
  }

  /** How the position of the calling thread changes with the lock it takes or drops, if any. */
  predicate PcEffect(before: Pc, op: Option<LockOp>, after: Pc) {
    && HoldsNode(after) == (op == Some(TakeNode) || (HoldsNode(before) && op != Some(DropNode)))
    && HoldsMap(after) == (op == Some(TakeMap) || (HoldsMap(before) && op != Some(DropMap)))
    && after.Polling? == (op == Some(TakePoll) || (before.Polling? && op != Some(DropPoll)))
    && (op == Some(DropNode) ==> HoldsNode(before))
    && (op == Some(DropMap) ==> HoldsMap(before))
    && (op == Some(DropPoll) ==> before.Polling?)
  }

  /** Calls only move forward. */
  predicate Forward(before: Pc, after: Pc) {
    && (NotQueued(after) ==> NotQueued(before))
    && (InFlight(before) ==> InFlight(after) || after.Done?)
    && (before.Done? ==> after.Done?)
  }

  /** Only thread t changes; it keeps its disk and direction, moves forward, and takes or drops at most one lock. */
  ghost predicate Moves(s: State, t: Tid, op: Option<LockOp>, s': State) {
    && t in s.threads && t in s'.threads && s'.threads == s.threads[t := s'.threads[t]]
    && var th, th' := s.threads[t], s'.threads[t];
    && th'.kind == th.kind && th'.disk == th.disk && th'.name == th.name
    && PcEffect(th.pc, op, th'.pc) && Forward(th.pc, th'.pc)
    && (ShapeInv(th) ==> ShapeInv(th'))
    && match op
       case None => s'.locks == s.locks
       case Some(o) =>
         var l := LockOf(o, th.kind);
         if Takes(o) then l !in s.locks && s'.locks == s.locks[l := t] else s'.locks == s.locks - {l}
  }

  function OpOf(a: Action): Option<LockOp> {
    if a.Lock? then Some(a.op) else None
  }

  lemma LockMoves(s: State, t: Tid, op: LockOp, s': State)
    requires LockStep(s, t, op, s')
    ensures Moves(s, t, Some(op), s')
  {
  }

  lemma EnqMoves(s: State, t: Tid, s': State)
    requires EnqLoadStep(s, t, s') || EnqInsertStep(s, t, s')
    ensures Moves(s, t, None, s')
  {
  }

  lemma CountMoves(c: Config, s: State, t: Tid, sized: bool, s': State)
    requires CountStep(c, s, t, sized, s')
    ensures Moves(s, t, None, s')
  {
  }

  lemma DrainLoadMoves(s: State, t: Tid, s': State)
    requires DrainLoadStep(s, t, s')
    ensures Moves(s, t, None, s')
  {
  }

  lemma DrainSwapMoves(s: State, t: Tid, s': State)
    requires DrainSwapStep(s, t, s')
    ensures Moves(s, t, None, s')
  {
  }

  lemma TrimMoves(s: State, t: Tid, keep: set<string>, s': State)
    requires TrimStep(s, t, keep, s')
    ensures Moves(s, t, None, s')
  {
  }

  lemma SetLunsMoves(s: State, t: Tid, order: seq<string>, at: VmDisk, s': State)
    requires SetLunsStep(s, t, order, at, s')
    ensures Moves(s, t, None, s')
  {
  }

  lemma VmAttachMoves(s: State, t: Tid, applied: set<string>, ok: bool, s': State)
    requires VmAttachStep(s, t, applied, ok, s')
    ensures Moves(s, t, None, s')
  {
  }

  lemma VmDetachMoves(s: State, t: Tid, left: multiset<VmDisk>, ok: bool, s': State)
    requires VmDetachStep(s, t, left, ok, s')
    ensures Moves(s, t, None, s')
  {
  }

  lemma FinishMoves(c: Config, s: State, t: Tid, outcome: Outcome, via: Option<VmDisk>, s': State)
    requires FinishStep(c, s, t, outcome, via, s')
    ensures Moves(s, t, None, s')
  {
  }

  lemma StepMoves(c: Config, s: State, a: Action, s': State)
    requires Step(c, s, a, s') && !a.Spawn? && !a.Shrink?
    ensures Moves(s, a.t, OpOf(a), s')
  {
    match a
    case Lock(t, op) => LockMoves(s, t, op, s');
    case EnqLoad(t) => EnqMoves(s, t, s');
    case EnqInsert(t) => EnqMoves(s, t, s');
    case Count(t, sized) => CountMoves(c, s, t, sized, s');
    case DrainLoad(t) => DrainLoadMoves(s, t, s');
    case DrainSwap(t) => DrainSwapMoves(s, t, s');
    case TrimBatch(t, keep) => TrimMoves(s, t, keep, s');
    case SetLuns(t, order, at) => SetLunsMoves(s, t, order, at, s');
    case VmAttach(t, applied, ok) => VmAttachMoves(s, t, applied, ok, s');
    case VmDetach(t, left, ok) => VmDetachMoves(s, t, left, ok, s');
    case Finish(t, outcome, via) => FinishMoves(c, s, t, outcome, via, s');
  }

  /** The moving thread holds what it held, plus or minus the lock of the operation. */
  lemma HoldsAfter(s: State, t: Tid, op: Option<LockOp>, s': State, l: LockName)
    requires Moves(s, t, op, s') && ShapeInv(s.threads[t])
    ensures Holds(s'.threads[t], l) ==
      if op.None? then Holds(s.threads[t], l)
      else if Takes(op.value) then Holds(s.threads[t], l) || l == LockOf(op.value, s.threads[t].kind)
      else Holds(s.threads[t], l) && l != LockOf(op.value, s.threads[t].kind)
    ensures op.Some? && !Takes(op.value) ==> Holds(s.threads[t], LockOf(op.value, s.threads[t].kind))
  {
  }

  lemma OtherLocksStay(s: State, t: Tid, op: Option<LockOp>, s': State, u: Tid, l: LockName)
    requires LockInv(s) && Moves(s, t, op, s') && ShapeInv(s.threads[t]) && u != t
    requires u in s.threads && Holds(s.threads[u], l)
    ensures l in s'.locks && s'.locks[l] == u
  {
    assert l in s.locks && s.locks[l] == u;
    if op.Some? {
      var own := LockOf(op.value, s.threads[t].kind);
      if Takes(op.value) {
        assert own !in s.locks && s'.locks == s.locks[own := t];
      } else {
        HoldsAfter(s, t, op, s', own);
        assert s.locks[own] == t && s'.locks == s.locks - {own};
      }
    }
  }

  lemma MovesKeepLockInv(s: State, t: Tid, op: Option<LockOp>, s': State)
    requires LockInv(s) && Moves(s, t, op, s') && ShapeInv(s.threads[t])
    ensures LockInv(s')
  {
    forall l | l in s'.locks ensures s'.locks[l] in s'.threads && Holds(s'.threads[s'.locks[l]], l) {
      HoldsAfter(s, t, op, s', l);
    }
    forall u, l | u in s'.threads && Holds(s'.threads[u], l) ensures l in s'.locks && s'.locks[l] == u {
      if u != t {
        OtherLocksStay(s, t, op, s', u, l);
      } else {
        HoldsAfter(s, t, op, s', l);
      }
    }
  }

  lemma StepKeepsLockInv(c: Config, s: State, a: Action, s': State)
    requires LockInv(s) && Step(c, s, a, s')
    requires forall t :: t in s.threads ==> ShapeInv(s.threads[t])
    ensures LockInv(s')
  {
    if a.Spawn? {
      SpawnKeepsLockInv(s, a.t, a.kind, a.disk, a.name, a.occupied, s');
    } else if !a.Shrink? {
      StepMoves(c, s, a, s');
      MovesKeepLockInv(s, a.t, OpOf(a), s');
    }
  }

  lemma SpawnKeepsLockInv(s: State, t: Tid, kind: Kind, disk: string, name: string, occupied: set<int>, s': State)
    requires LockInv(s) && SpawnStep(s, t, kind, disk, name, occupied, s')
    ensures LockInv(s')
  {
  }

  /** The key under which the lock map knows a lock of `node`. */
  function Key(node: string, l: LockName): string {
    match l
    case NodeLock => node
    case MapLock(Attach) => node + LockMaps.ATTACH_SUFFIX
    case MapLock(_) => node + LockMaps.DETACH_SUFFIX
  }

  /** Every lock the protocol takes is one the lock map's deadlock argument allows for. */
  lemma ProtocolNestsLocksLegally(s: State, t: Tid, op: LockOp, s': State, node: string, held: set<string>)
    requires LockStep(s, t, op, s') && Takes(op)
    requires forall k :: k in held <==> exists l :: Holds(s.threads[t], l) && k == Key(node, l)
    ensures LockMaps.Legal(held, Key(node, LockOf(op, s.threads[t].kind)))
  {
    var th := s.threads[t];
    if HoldsNode(th.pc) {
      assert forall l :: Holds(th, l) <==> l == NodeLock;
      assert held == {Key(node, NodeLock)};
      assert LockMaps.IsBatchKey(node, Key(node, MapLock(th.kind)));
    } else {
      assert forall l :: !Holds(th, l);
      assert held == {};
    }
  }

  // ---------------------------------------------------------------------------------------------
  // Pending maps: who refers to which map object, and what became of each request

  /** Between its drain and the end of the call, the owner of a batch has the node lock. */
  predicate InFlight(pc: Pc) {
    (pc.DrainSwapped? || pc.Drained? || pc.Trimmed? || pc.LunsSet? || pc.Updated? || pc.Answered?)
  }

  /** The caller refers to a batch that is its own. */
  predicate OwnsBatch(pc: Pc) {
    (pc.DrainSwapped? || pc.Drained? || pc.Trimmed? || pc.LunsSet? || pc.Updated?)
  }

  predicate NotQueued(pc: Pc) {
    (pc.Start? || pc.EnqLocked? || pc.EnqLoaded?)
  }

  predicate Queued(pc: Pc) {
    (pc.EnqInserted? || pc.Enqueued? || pc.Polling? || pc.NodeLocked? || pc.Counted? || pc.DrainLocked?)
  }

  /** Drain number i took `disk` on behalf of another call, after position `since` of the history. */
  ghost predicate TakenAt(tab: Table, t: Tid, disk: string, since: nat, i: nat)
  {
    since <= i < |tab.drains| && disk in tab.drains[i].disks && tab.drains[i].owner != t
  }

  ghost predicate Taken(tab: Table, t: Tid, disk: string, since: nat) {
    exists i: nat :: TakenAt(tab, t, disk, since, i)
  }

  /** As `Taken`, by a call that has since released the node lock and returned. */
  ghost predicate TakenByFinished(s: State, tab: Table, t: Tid, disk: string, since: nat) {
    exists i: nat :: TakenAt(tab, t, disk, since, i) && At(s, tab.drains[i].owner, Done)
  }

  ghost predicate EntryOk(s: State, kind: Kind, uri: string, owner: Tid) {
    owner in s.threads && s.threads[owner].disk == uri && s.threads[owner].kind == kind
      && !NotQueued(s.threads[owner].pc)
  }

  ghost predicate TableInv(s: State, kind: Kind, tab: Table) {
    && (tab.slot.Some? ==> tab.slot.value in tab.heap)
    && (forall id :: id in tab.heap ==> id < tab.next)
    && (forall id, u :: id in tab.heap && u in tab.heap[id] ==> EntryOk(s, kind, u, tab.heap[id][u]))
    && (forall i :: 0 <= i < |tab.drains| ==> DrainOk(s, tab.drains[i].owner))
  }

  ghost predicate DrainOk(s: State, owner: Tid) {
    owner in s.threads && (InFlight(s.threads[owner].pc) || s.threads[owner].pc == Done)
  }

  ghost predicate RefInv(th: Thread, tab: Table) {
    && ((th.pc.EnqLoaded? || th.pc.EnqInserted? || th.pc.DrainFound?) ==> tab.slot == Some(th.ref))
    && ((th.pc.DrainFound? || th.pc.DrainSwapped? || th.pc.Drained?) ==>
      th.ref in tab.heap && th.disk in tab.heap[th.ref])
    && (OwnsBatch(th.pc) ==> th.ref in tab.heap && tab.slot.Some? && tab.slot != Some(th.ref))
    && (th.pc == Trimmed ==> th.ref in tab.heap && th.trimmed == (th.disk !in tab.heap[th.ref]))
    && (!NotQueued(th.pc) ==> th.enqAt <= |tab.drains|)
  }

  ghost predicate RequestInv(s: State, t: Tid, tab: Table)
    requires t in s.threads
  {
    var th := s.threads[t];
    && (Queued(th.pc) ==> th.disk in Pending(tab) || Taken(tab, t, th.disk, th.enqAt))
    && ((th.pc.DrainMissed? || th.pc.Empty?) ==> TakenByFinished(s, tab, t, th.disk, th.enqAt))
  }

  ghost predicate ShapeInv(th: Thread) {
    && (th.kind == Update ==> (th.pc.Start? || th.pc.NodeLocked? || th.pc.Answered? || th.pc.Done?))
    && ((th.pc.Polling? || th.pc.Counted? || th.pc.Trimmed? || th.pc.LunsSet?) ==> th.kind == Attach)
  }

  ghost predicate ThreadInv(s: State, t: Tid)
    requires t in s.threads && s.tabs.Keys == {Attach, Detach}
  {
    var th := s.threads[t];
    && ShapeInv(th)
    && (th.kind != Update ==> RefInv(th, s.tabs[th.kind]) && RequestInv(s, t, s.tabs[th.kind]))
  }

  ghost predicate MapInv(s: State) {
    && s.tabs.Keys == {Attach, Detach}
    && (forall k :: k in s.tabs ==> TableInv(s, k, s.tabs[k]))
    && (forall t :: t in s.threads ==> ThreadInv(s, t))
  }

  lemma SameTableKept(s: State, t: Tid, op: Option<LockOp>, s': State, kind: Kind)
    requires Moves(s, t, op, s') && kind in s.tabs && TableInv(s, kind, s.tabs[kind])
    ensures TableInv(s', kind, s.tabs[kind])
  {
    var tab := s.tabs[kind];
    forall id, u | id in tab.heap && u in tab.heap[id] ensures EntryOk(s', kind, u, tab.heap[id][u]) {
      assert EntryOk(s, kind, u, tab.heap[id][u]);
    }
    forall i | 0 <= i < |tab.drains| ensures DrainOk(s', tab.drains[i].owner) {
      assert DrainOk(s, tab.drains[i].owner);
    }
  }

  lemma FinishedKept(s: State, t: Tid, op: Option<LockOp>, s': State, tab: Table, u: Tid, disk: string, since: nat)
    requires Moves(s, t, op, s') && TakenByFinished(s, tab, u, disk, since)
    ensures TakenByFinished(s', tab, u, disk, since)
  {
    var i: nat :| TakenAt(tab, u, disk, since, i) && At(s, tab.drains[i].owner, Done);
    assert At(s', tab.drains[i].owner, Done);
  }

  lemma OtherThreadKept(s: State, t: Tid, op: Option<LockOp>, s': State, u: Tid)
    requires MapInv(s) && Moves(s, t, op, s') && s'.tabs == s.tabs && u in s.threads && u != t
    ensures ThreadInv(s', u)
  {
    assert ThreadInv(s, u);
    var th := s.threads[u];
    if th.kind != Update && (th.pc.DrainMissed? || th.pc.Empty?) {
      FinishedKept(s, t, op, s', s.tabs[th.kind], u, th.disk, th.enqAt);
    }
  }

  /** Steps that leave the pending maps alone: only the moving thread needs a look. */
  lemma QuietKeepsMapInv(s: State, t: Tid, op: Option<LockOp>, s': State)
    requires MapInv(s) && Moves(s, t, op, s') && s'.tabs == s.tabs && ThreadInv(s', t)
    ensures MapInv(s')
  {
    forall k | k in s'.tabs ensures TableInv(s', k, s'.tabs[k]) {
      SameTableKept(s, t, op, s', k);
    }
    forall u | u in s'.threads ensures ThreadInv(s', u) {
      if u != t {
        OtherThreadKept(s, t, op, s', u);
      }
    }
  }

  lemma LockOpKeepsRef(th: Thread, op: LockOp, tab: Table)
    requires th.kind != Update && RefInv(th, tab) && AfterLock(th.kind, th.pc, op).Some?
    ensures RefInv(th.(pc := AfterLock(th.kind, th.pc, op).value), tab)
  {
  }

  /** A request stays pending or taken over a lock operation; a caller that misses its request only moves to Empty. */
  lemma LockOpKeepsRequest(s: State, t: Tid, op: LockOp, s': State, tab: Table)
    requires LockStep(s, t, op, s') && Moves(s, t, Some(op), s')
    requires s.threads[t].kind != Update && RequestInv(s, t, tab)
    ensures RequestInv(s', t, tab)
  {
    var th := s.threads[t];
    if th.pc.DrainMissed? {
      FinishedKept(s, t, Some(op), s', tab, t, th.disk, th.enqAt);
    }
  }

  lemma LockKeepsOwnThread(s: State, t: Tid, op: LockOp, s': State)
    requires MapInv(s) && LockStep(s, t, op, s') && Moves(s, t, Some(op), s')
    ensures ThreadInv(s', t)
  {
    assert ThreadInv(s, t);
    var th := s.threads[t];
    if th.kind != Update {
      LockOpKeepsRef(th, op, s.tabs[th.kind]);
      LockOpKeepsRequest(s, t, op, s', s.tabs[th.kind]);
    }
  }

  lemma LockKeepsMapInv(s: State, t: Tid, op: LockOp, s': State)
    requires MapInv(s) && LockStep(s, t, op, s')
    ensures MapInv(s')
  {
    LockMoves(s, t, op, s');
    LockKeepsOwnThread(s, t, op, s');
    QuietKeepsMapInv(s, t, Some(op), s');
  }

  lemma CountKeepsMapInv(c: Config, s: State, t: Tid, sized: bool, s': State)
    requires MapInv(s) && CountStep(c, s, t, sized, s')
    ensures MapInv(s')
  {
    CountMoves(c, s, t, sized, s');
    assert ThreadInv(s, t);
    QuietKeepsMapInv(s, t, None, s');
  }

  lemma SetLunsKeepsMapInv(s: State, t: Tid, order: seq<string>, at: VmDisk, s': State)
    requires MapInv(s) && SetLunsStep(s, t, order, at, s')
    ensures MapInv(s')
  {
    SetLunsMoves(s, t, order, at, s');
    assert ThreadInv(s, t);
    QuietKeepsMapInv(s, t, None, s');
  }

  lemma VmAttachKeepsMapInv(s: State, t: Tid, applied: set<string>, ok: bool, s': State)
    requires MapInv(s) && VmAttachStep(s, t, applied, ok, s')
    ensures MapInv(s')
  {
    VmAttachMoves(s, t, applied, ok, s');
    assert ThreadInv(s, t);
    QuietKeepsMapInv(s, t, None, s');
  }

  lemma VmDetachKeepsMapInv(s: State, t: Tid, left: multiset<VmDisk>, ok: bool, s': State)
    requires MapInv(s) && VmDetachStep(s, t, left, ok, s')
    ensures MapInv(s')
  {
    VmDetachMoves(s, t, left, ok, s');
    assert ThreadInv(s, t);
    QuietKeepsMapInv(s, t, None, s');
  }

  lemma FinishKeepsMapInv(c: Config, s: State, t: Tid, outcome: Outcome, via: Option<VmDisk>, s': State)
    requires MapInv(s) && FinishStep(c, s, t, outcome, via, s')
    ensures MapInv(s')
  {
    FinishMoves(c, s, t, outcome, via, s');
    assert ThreadInv(s, t);
    QuietKeepsMapInv(s, t, None, s');
  }

  /** Whoever drained while another call holds the node lock has already returned. */
  lemma DrainersAreDone(s: State, t: Tid, kind: Kind, i: nat)
    requires LockInv(s) && MapInv(s) && t in s.threads && HoldsNode(s.threads[t].pc)
    requires kind in s.tabs && i < |s.tabs[kind].drains| && s.tabs[kind].drains[i].owner != t
    ensures At(s, s.tabs[kind].drains[i].owner, Done)
  {
    var owner := s.tabs[kind].drains[i].owner;
    assert TableInv(s, kind, s.tabs[kind]);
    assert DrainOk(s, owner);
    if InFlight(s.threads[owner].pc) {
      OneHolder(s, owner, t, NodeLock);
    }
  }

  /** The hand-off: finding nothing under the node lock means that a finished call took the request. */
  lemma MissingMeansTaken(s: State, t: Tid)
    requires LockInv(s) && MapInv(s) && At(s, t, DrainLocked) && s.threads[t].kind != Update
    requires s.threads[t].disk !in Pending(s.tabs[s.threads[t].kind])
    ensures TakenByFinished(s, s.tabs[s.threads[t].kind], t, s.threads[t].disk, s.threads[t].enqAt)
  {
    var th := s.threads[t];
    var tab := s.tabs[th.kind];
    assert ThreadInv(s, t);
    var i: nat :| TakenAt(tab, t, th.disk, th.enqAt, i);
    DrainersAreDone(s, t, th.kind, i);
  }

  lemma LookupKeepsRef(th: Thread, tab: Table)
    requires RefInv(th, tab) && th.pc.DrainLocked? && (tab.slot.Some? ==> tab.slot.value in tab.heap)
    ensures th.disk in Pending(tab) ==> tab.slot.Some? && RefInv(th.(pc := DrainFound, ref := tab.slot.value), tab)
    ensures RefInv(th.(pc := DrainMissed), tab)
  {
  }

  lemma DrainLoadKeepsOwnThread(s: State, t: Tid, s': State)
    requires LockInv(s) && MapInv(s) && DrainLoadStep(s, t, s') && Moves(s, t, None, s')
    ensures ThreadInv(s', t)
  {
    var th := s.threads[t];
    var tab := s.tabs[th.kind];
    assert ThreadInv(s, t) && TableInv(s, th.kind, tab);
    LookupKeepsRef(th, tab);
    if th.disk !in Pending(tab) {
      MissingMeansTaken(s, t);
      FinishedKept(s, t, None, s', tab, t, th.disk, th.enqAt);
      assert s'.threads[t] == th.(pc := DrainMissed);
    } else {
      assert s'.threads[t] == th.(pc := DrainFound, ref := tab.slot.value);
    }
  }

  lemma DrainLoadKeepsMapInv(s: State, t: Tid, s': State)
    requires LockInv(s) && MapInv(s) && DrainLoadStep(s, t, s')
    ensures MapInv(s')
  {
    DrainLoadMoves(s, t, s');
    DrainLoadKeepsOwnThread(s, t, s');
    QuietKeepsMapInv(s, t, None, s');
  }

  /** Nothing an old call relies on changes when calls start or the VM changes. */
  ghost predicate Extends(s: State, s': State) {
    s'.tabs == s.tabs && forall u :: u in s.threads ==> u in s'.threads && s'.threads[u] == s.threads[u]
  }

  lemma ExtendKeepsTable(s: State, s': State, kind: Kind)
    requires Extends(s, s') && kind in s.tabs && TableInv(s, kind, s.tabs[kind])
    ensures TableInv(s', kind, s.tabs[kind])
  {
    var tab := s.tabs[kind];
    forall id, u | id in tab.heap && u in tab.heap[id] ensures EntryOk(s', kind, u, tab.heap[id][u]) {
      assert EntryOk(s, kind, u, tab.heap[id][u]);
    }
    forall i | 0 <= i < |tab.drains| ensures DrainOk(s', tab.drains[i].owner) {
      assert DrainOk(s, tab.drains[i].owner);
    }
  }

  lemma ExtendKeepsThread(s: State, s': State, u: Tid)
    requires MapInv(s) && Extends(s, s') && u in s.threads
    ensures ThreadInv(s', u)
  {
    assert ThreadInv(s, u);
    var th := s.threads[u];
    if th.kind != Update && (th.pc.DrainMissed? || th.pc.Empty?) {
      var tab := s.tabs[th.kind];
      var i: nat :| TakenAt(tab, u, th.disk, th.enqAt, i) && At(s, tab.drains[i].owner, Done);
      assert At(s', tab.drains[i].owner, Done);
    }
  }

  lemma SpawnKeepsMapInv(s: State, t: Tid, kind: Kind, disk: string, name: string, occupied: set<int>, s': State)
    requires MapInv(s) && SpawnStep(s, t, kind, disk, name, occupied, s')
    ensures MapInv(s')
  {
    forall k | k in s'.tabs ensures TableInv(s', k, s'.tabs[k]) {
      ExtendKeepsTable(s, s', k);
    }
    forall u | u in s'.threads ensures ThreadInv(s', u) {
      if u != t {
        ExtendKeepsThread(s, s', u);
      }
    }
  }

  lemma ShrinkKeepsMapInv(s: State, left: multiset<VmDisk>, s': State)
    requires MapInv(s) && s' == s.(vm := left)
    ensures MapInv(s')
  {
    forall k | k in s'.tabs ensures TableInv(s', k, s'.tabs[k]) {
      ExtendKeepsTable(s, s', k);
    }
    forall u | u in s'.threads ensures ThreadInv(s', u) {
      ExtendKeepsThread(s, s', u);
    }
  }

  // ---------------------------------------------------------------------------------------------
  // Steps that change the maps of one direction

  /** What another call u of that direction needs from the change. */
  ghost predicate TableGrows(u: Tid, th: Thread, tab: Table, tab': Table) {
    && tab.drains <= tab'.drains
    && (RefInv(th, tab) ==>
      && RefInv(th, tab')
      && (Queued(th.pc) && th.disk in Pending(tab) ==> th.disk in Pending(tab') || Taken(tab', u, th.disk, th.enqAt)))
  }

  lemma HistoryKept(s: State, t: Tid, op: Option<LockOp>, s': State, u: Tid, disk: string, since: nat, tab: Table,
      tab': Table)
    requires Moves(s, t, op, s') && tab.drains <= tab'.drains
    ensures Taken(tab, u, disk, since) ==> Taken(tab', u, disk, since)
    ensures TakenByFinished(s, tab, u, disk, since) ==> TakenByFinished(s', tab', u, disk, since)
  {
    if Taken(tab, u, disk, since) {
      var i: nat :| TakenAt(tab, u, disk, since, i);
      assert TakenAt(tab', u, disk, since, i);
    }
    if TakenByFinished(s, tab, u, disk, since) {
      var i: nat :| TakenAt(tab, u, disk, since, i) && At(s, tab.drains[i].owner, Done);
      assert TakenAt(tab', u, disk, since, i) && At(s', tab'.drains[i].owner, Done);
    }
  }

  lemma ChangeKeepsMapInv(s: State, t: Tid, s': State, kind: Kind, tab': Table)
    requires MapInv(s) && Moves(s, t, None, s') && kind in s.tabs && s'.tabs == s.tabs[kind := tab']
    requires TableInv(s', kind, tab') && ThreadInv(s', t)
    requires forall u :: u in s.threads && u != t && s.threads[u].kind == kind ==>
      TableGrows(u, s.threads[u], s.tabs[kind], tab')
    ensures MapInv(s')
  {
    forall k | k in s'.tabs ensures TableInv(s', k, s'.tabs[k]) {
      if k != kind {
        assert TableInv(s, k, s.tabs[k]);
        SameTableKept(s, t, None, s', k);
      }
    }
    forall u | u in s'.threads && u != t ensures ThreadInv(s', u) {
      assert ThreadInv(s, u);
      var th := s.threads[u];
      if th.kind != Update {
        HistoryKept(s, t, None, s', u, th.disk, th.enqAt, s.tabs[th.kind], s'.tabs[th.kind]);
      }
    }
  }

  lemma FirstMapGrows(u: Tid, th: Thread, tab: Table, tab': Table)
    requires tab.slot.None? && tab.next !in tab.heap
    requires tab' == tab.(heap := tab.heap[tab.next := map[]], slot := Some(tab.next), next := tab.next + 1)
    ensures TableGrows(u, th, tab, tab')
  {
  }

  lemma FirstMapKeepsTable(s: State, kind: Kind, tab: Table, tab': Table)
    requires TableInv(s, kind, tab)
    requires tab' == tab.(heap := tab.heap[tab.next := map[]], slot := Some(tab.next), next := tab.next + 1)
    ensures TableInv(s, kind, tab')
  {
  }

  lemma EnqLoadKeepsOwnThread(s: State, t: Tid, s': State)
    requires MapInv(s) && EnqLoadStep(s, t, s')
    ensures t in s'.threads && s'.tabs.Keys == {Attach, Detach} && ThreadInv(s', t)
  {
    assert ThreadInv(s, t) && TableInv(s, s.threads[t].kind, s.tabs[s.threads[t].kind]);
  }

  lemma EnqLoadKeepsMapInv(s: State, t: Tid, s': State)
    requires MapInv(s) && EnqLoadStep(s, t, s')
    ensures MapInv(s')
  {
    EnqMoves(s, t, s');
    EnqLoadKeepsOwnThread(s, t, s');
    var kind := s.threads[t].kind;
    var tab, tab' := s.tabs[kind], s'.tabs[kind];
    assert TableInv(s, kind, tab);
    if tab.slot.Some? {
      QuietKeepsMapInv(s, t, None, s');
    } else {
      SameTableKept(s, t, None, s', kind);
      FirstMapKeepsTable(s', kind, tab, tab');
      forall u | u in s.threads && u != t && s.threads[u].kind == kind ensures TableGrows(u, s.threads[u], tab, tab') {
        FirstMapGrows(u, s.threads[u], tab, tab');
      }
      ChangeKeepsMapInv(s, t, s', kind, tab');
    }
  }

  lemma InsertGrows(u: Tid, th: Thread, tab: Table, tab': Table, disk: string, t: Tid)
    requires tab.slot.Some? && tab.slot.value in tab.heap
    requires tab' == tab.(heap := tab.heap[tab.slot.value := Enqueue(tab.heap[tab.slot.value], disk, t)])
    ensures TableGrows(u, th, tab, tab')
  {
  }

  lemma InsertKeepsTable(s: State, kind: Kind, tab: Table, tab': Table, disk: string, t: Tid)
    requires TableInv(s, kind, tab) && tab.slot.Some? && EntryOk(s, kind, disk, t)
    requires tab' == tab.(heap := tab.heap[tab.slot.value := Enqueue(tab.heap[tab.slot.value], disk, t)])
    ensures TableInv(s, kind, tab')
  {
    forall id, u | id in tab'.heap && u in tab'.heap[id] ensures EntryOk(s, kind, u, tab'.heap[id][u]) {
      assert id in tab.heap && u in tab.heap[id] ==> EntryOk(s, kind, u, tab.heap[id][u]);
    }
  }

  lemma EnqInsertKeepsMapInv(s: State, t: Tid, s': State)
    requires MapInv(s) && EnqInsertStep(s, t, s')
    ensures MapInv(s')
  {
    EnqMoves(s, t, s');
    assert ThreadInv(s, t);
    var th := s.threads[t];
    var tab, tab' := s.tabs[th.kind], s'.tabs[th.kind];
    assert TableInv(s, th.kind, tab);
    SameTableKept(s, t, None, s', th.kind);
    InsertKeepsTable(s', th.kind, tab, tab', th.disk, t);
    forall u | u in s.threads && u != t && s.threads[u].kind == th.kind ensures TableGrows(u, s.threads[u], tab, tab') {
      InsertGrows(u, s.threads[u], tab, tab', th.disk, t);
    }
    ChangeKeepsMapInv(s, t, s', th.kind, tab');
  }

  /** A swap moves every pending request into the drain it records. */
  lemma SwapGrows(u: Tid, th: Thread, tab: Table, tab': Table, t: Tid)
    requires tab.slot.Some? && tab.slot.value in tab.heap && tab.next !in tab.heap && u != t
    requires !HoldsMap(th.pc)
    requires tab' == Table(tab.heap[tab.next := map[]], Some(tab.next), tab.next + 1,
                           tab.drains + [Drain(t, tab.heap[tab.slot.value].Keys)])
    ensures TableGrows(u, th, tab, tab')
  {
    if Queued(th.pc) && th.disk in Pending(tab) && RefInv(th, tab) {
      assert TakenAt(tab', u, th.disk, th.enqAt, |tab.drains|);
    }
  }

  lemma SwapKeepsTable(s: State, kind: Kind, tab: Table, tab': Table, t: Tid)
    requires TableInv(s, kind, tab) && tab.slot.Some? && DrainOk(s, t)
    requires tab' == Table(tab.heap[tab.next := map[]], Some(tab.next), tab.next + 1,
                           tab.drains + [Drain(t, tab.heap[tab.slot.value].Keys)])
    ensures TableInv(s, kind, tab')
  {
    forall i | 0 <= i < |tab'.drains| ensures DrainOk(s, tab'.drains[i].owner) {
      assert i < |tab.drains| ==> DrainOk(s, tab.drains[i].owner);
    }
  }

  lemma DrainSwapKeepsMapInv(s: State, t: Tid, s': State)
    requires LockInv(s) && MapInv(s) && DrainSwapStep(s, t, s')
    ensures MapInv(s')
  {
    DrainSwapMoves(s, t, s');
    assert ThreadInv(s, t);
    var kind := s.threads[t].kind;
    var tab, tab' := s.tabs[kind], s'.tabs[kind];
    assert TableInv(s, kind, tab);
    SameTableKept(s, t, None, s', kind);
    SwapKeepsTable(s', kind, tab, tab', t);
    SwapLeavesOthers(s, t, s');
    ChangeKeepsMapInv(s, t, s', kind, tab');
  }

  lemma SwapLeavesOthers(s: State, t: Tid, s': State)
    requires LockInv(s) && MapInv(s) && DrainSwapStep(s, t, s')
    ensures var kind := s.threads[t].kind;
      forall u :: u in s.threads && u != t && s.threads[u].kind == kind
        ==> TableGrows(u, s.threads[u], s.tabs[kind], s'.tabs[kind])
  {
    var kind := s.threads[t].kind;
    assert ThreadInv(s, t) && TableInv(s, kind, s.tabs[kind]);
    forall u | u in s.threads && u != t && s.threads[u].kind == kind
      ensures TableGrows(u, s.threads[u], s.tabs[kind], s'.tabs[kind])
    {
      if HoldsMap(s.threads[u].pc) {
        OneHolder(s, t, u, MapLock(kind));
      }
      SwapGrows(u, s.threads[u], s.tabs[kind], s'.tabs[kind], t);
    }
  }

  lemma TrimGrows(u: Tid, th: Thread, tab: Table, tab': Table, ref: MapId, kept: map<string, Tid>)
    requires ref in tab.heap && tab.slot.Some? && tab.slot != Some(ref) && !OwnsBatch(th.pc)
    requires tab' == tab.(heap := tab.heap[ref := kept])
    ensures TableGrows(u, th, tab, tab')
  {
  }

  lemma TrimKeepsTable(s: State, kind: Kind, tab: Table, tab': Table, ref: MapId, kept: map<string, Tid>)
    requires TableInv(s, kind, tab) && ref in tab.heap
    requires forall u :: u in kept ==> u in tab.heap[ref] && kept[u] == tab.heap[ref][u]
    requires tab' == tab.(heap := tab.heap[ref := kept])
    ensures TableInv(s, kind, tab')
  {
    forall id, u | id in tab'.heap && u in tab'.heap[id] ensures EntryOk(s, kind, u, tab'.heap[id][u]) {
      assert EntryOk(s, kind, u, tab.heap[id][u]);
    }
  }

  lemma TrimLeavesOthers(s: State, t: Tid, keep: set<string>, s': State)
    requires LockInv(s) && MapInv(s) && TrimStep(s, t, keep, s')
    ensures forall u :: u in s.threads && u != t && s.threads[u].kind == Attach ==>
              TableGrows(u, s.threads[u], s.tabs[Attach], s'.tabs[Attach])
  {
    assert ThreadInv(s, t);
    var ref := s.threads[t].ref;
    forall u | u in s.threads && u != t && s.threads[u].kind == Attach
      ensures TableGrows(u, s.threads[u], s.tabs[Attach], s'.tabs[Attach])
    {
      if OwnsBatch(s.threads[u].pc) {
        OneHolder(s, t, u, NodeLock);
      }
      TrimGrows(u, s.threads[u], s.tabs[Attach], s'.tabs[Attach], ref, s'.tabs[Attach].heap[ref]);
    }
  }

  lemma TrimKeepsOwnThread(s: State, t: Tid, keep: set<string>, s': State)
    requires s.tabs.Keys == {Attach, Detach} && TrimStep(s, t, keep, s') && ThreadInv(s, t)
    ensures t in s'.threads && s'.tabs.Keys == {Attach, Detach} && ThreadInv(s', t)
  {
  }

  lemma TrimKeepsMapInv(s: State, t: Tid, keep: set<string>, s': State)
    requires LockInv(s) && MapInv(s) && TrimStep(s, t, keep, s')
    ensures MapInv(s')
  {
    TrimMoves(s, t, keep, s');
    assert ThreadInv(s, t);
    TrimKeepsOwnThread(s, t, keep, s');
    var ref := s.threads[t].ref;
    var tab, tab' := s.tabs[Attach], s'.tabs[Attach];
    assert TableInv(s, Attach, tab);
    SameTableKept(s, t, None, s', Attach);
    TrimKeepsTable(s', Attach, tab, tab', ref, tab'.heap[ref]);
    TrimLeavesOthers(s, t, keep, s');
    ChangeKeepsMapInv(s, t, s', Attach, tab');
  }

  lemma StepKeepsMapInv(c: Config, s: State, a: Action, s': State)
    requires LockInv(s) && MapInv(s) && Step(c, s, a, s')
    ensures MapInv(s')
  {
    match a
    case Spawn(t, kind, disk, name, occupied) => SpawnKeepsMapInv(s, t, kind, disk, name, occupied, s');
    case Lock(t, op) => LockKeepsMapInv(s, t, op, s');
    case EnqLoad(t) => EnqLoadKeepsMapInv(s, t, s');
    case EnqInsert(t) => EnqInsertKeepsMapInv(s, t, s');
    case Count(t, sized) => CountKeepsMapInv(c, s, t, sized, s');
    case DrainLoad(t) => DrainLoadKeepsMapInv(s, t, s');
    case DrainSwap(t) => DrainSwapKeepsMapInv(s, t, s');
    case TrimBatch(t, keep) => TrimKeepsMapInv(s, t, keep, s');
    case SetLuns(t, order, at) => SetLunsKeepsMapInv(s, t, order, at, s');
    case VmAttach(t, applied, ok) => VmAttachKeepsMapInv(s, t, applied, ok, s');
    case VmDetach(t, left, ok) => VmDetachKeepsMapInv(s, t, left, ok, s');
    case Finish(t, outcome, via) => FinishKeepsMapInv(c, s, t, outcome, via, s');
    case Shrink(left) => ShrinkKeepsMapInv(s, left, s');
  }
}
