/**
 * The batched attach/detach protocol of one node: any number of AttachDisk, DetachDisk and UpdateVM calls, interleaved
 * at every lock operation, map access, VM update and environment change. Map objects have identities, so a map can be
 * referred to by the pending field and by a caller at the same time, as in the code.
 */
module Batching {
  import opened Text
  import opened Luns
  import opened PendingMaps
  import LockMaps
  import Detaching = Detach

  type Tid = nat
  type MapId = nat

  datatype Kind = Attach | Detach | Update
  datatype LockName = NodeLock | MapLock(kind: Kind)

  datatype Pc =
    | Start
    | EnqLocked | EnqLoaded | EnqInserted          // batchAttachDiskRequest, batchDetachDiskRequest
    | Enqueued
    | Polling                                      // getDetachDiskRequestNum
    | NodeLocked
    | Counted                                      // numDisksAllowed is known
    | DrainLocked | DrainFound | DrainSwapped      // retrieveAttachBatchedDiskRequests and its twin
    | DrainMissed
    | Drained
    | Empty                                        // the caller drained nothing
    | Trimmed
    | LunsSet                                     // SetDiskLun succeeded
    | Updated                                      // the VM update returned without error
    | Answered                                     // the result is fixed, the node lock still held
    | Done

  datatype Outcome = Unknown | Succeeded(lun: int) | Errored

  /** A data disk of the VM. The name need not be unique: only the resource ID is. */
  datatype VmDisk = VmDisk(uri: string, name: string, lun: int)

  /**
   * `disk` and `name` are the call's disk URI and disk name. `enqAt`, `seen` and `trimmed` are history: how many drains
   * had happened when the request was queued, the disks in the VM's list that this call took for its own when it
   * looked, and whether the call's own disk was trimmed from its batch.
   */
  datatype Thread = Thread(
    kind: Kind, disk: string, name: string, occupied: set<int>, pc: Pc, ref: MapId, enqAt: nat, allowed: Option<nat>,
    lun: int, trimmed: bool, seen: set<VmDisk>, outcome: Outcome)

  datatype Drain = Drain(owner: Tid, disks: set<string>)

  /** The map objects ever made for one direction, the one the pending field refers to, and the drains so far. */
  datatype Table = Table(heap: map<MapId, map<string, Tid>>, slot: Option<MapId>, next: MapId, drains: seq<Drain>)

  /** `opts[t]` is the Lun field of the options object that call t allocated; pending maps refer to it as t. */
  datatype State = State(
    threads: map<Tid, Thread>, locks: map<LockName, Tid>, tabs: map<Kind, Table>, opts: map<Tid, int>,
    vm: multiset<VmDisk>, unsized: bool)

  /** `maxDisks` is the VM size's limit; `lunCheck` is the negation of DisableDiskLunCheck. */
  datatype Config = Config(maxDisks: Option<nat>, lunCheck: bool)

  /** A lock operation of the calling thread: the node's lock, its own direction's map lock, or the poll's. */
  datatype LockOp = TakeNode | DropNode | TakeMap | DropMap | TakePoll | DropPoll

  datatype Action =
    | Spawn(t: Tid, kind: Kind, disk: string, name: string, occupied: set<int>)
    | Lock(t: Tid, op: LockOp)
    | EnqLoad(t: Tid) | EnqInsert(t: Tid)
    | Count(t: Tid, sized: bool)
    | DrainLoad(t: Tid) | DrainSwap(t: Tid)
    | TrimBatch(t: Tid, keep: set<string>)
    | SetLuns(t: Tid, order: seq<string>, at: VmDisk)
    | VmAttach(t: Tid, applied: set<string>, ok: bool)
    | VmDetach(t: Tid, left: multiset<VmDisk>, ok: bool)
    | Finish(t: Tid, outcome: Outcome, via: Option<VmDisk>)
    | Shrink(left: multiset<VmDisk>)

  // ---------------------------------------------------------------------------------------------
  // Transitions

  function VmLuns(vm: multiset<VmDisk>): set<int> {
    set d | d in vm :: d.lun
  }

  function Pending(tab: Table): map<string, Tid> {
    if tab.slot.Some? && tab.slot.value in tab.heap then tab.heap[tab.slot.value] else map[]
  }

  predicate HoldsNode(pc: Pc) {
    !pc.Start? && !pc.EnqLocked? && !pc.EnqLoaded? && !pc.EnqInserted? && !pc.Enqueued? && !pc.Polling? && !pc.Done?
  }

  predicate HoldsMap(pc: Pc) {
    || pc.EnqLocked? || pc.EnqLoaded? || pc.EnqInserted?
    || pc.DrainLocked? || pc.DrainFound? || pc.DrainSwapped? || pc.DrainMissed?
  }

  /** The locks a call holds, by where it is. */
  predicate Holds(th: Thread, l: LockName) {
    match l
    case NodeLock => HoldsNode(th.pc)
    case MapLock(kind) => (HoldsMap(th.pc) && kind == th.kind) || (th.pc.Polling? && kind == Detach)
  }

  function Put(s: State, t: Tid, th: Thread): State {
    s.(threads := s.threads[t := th])
  }

  ghost predicate At(s: State, t: Tid, pc: Pc) {
    t in s.threads && s.threads[t].pc == pc
  }

  ghost predicate BatchKind(s: State, t: Tid) {
    t in s.threads && s.threads[t].kind != Update && s.threads[t].kind in s.tabs
  }

  function Moved(s: State, t: Tid, pc: Pc): State
    requires t in s.threads
  {
    Put(s, t, s.threads[t].(pc := pc))
  }

  function Finished(s: State, t: Tid, outcome: Outcome): State
    requires t in s.threads
  {
    Put(s, t, s.threads[t].(pc := Answered, outcome := outcome))
  }

  function LockOf(op: LockOp, kind: Kind): LockName {
    match op
    case TakeNode => NodeLock case DropNode => NodeLock
    case TakeMap => MapLock(kind) case DropMap => MapLock(kind)
    case TakePoll => MapLock(Detach) case DropPoll => MapLock(Detach)
  }

  /** Where a call stands after a lock operation; None when it does not perform that operation there. */
  function AfterLock(kind: Kind, pc: Pc, op: LockOp): Option<Pc> {
    match op
    case TakeMap =>
      if pc.Start? && kind != Update then Some(EnqLocked)
      else if (if kind == Attach then pc.Counted? else pc.NodeLocked? && kind == Detach) then Some(DrainLocked)
      else None
    case DropMap =>
      if pc.EnqInserted? then Some(Enqueued)
      else if pc.DrainSwapped? then Some(Drained)
      else if pc.DrainMissed? then Some(Empty)
      else None
    case TakePoll => if pc.Enqueued? && kind == Attach then Some(Polling) else None
    case DropPoll => if pc.Polling? then Some(Enqueued) else None
    case TakeNode => if pc.Enqueued? || (pc.Start? && kind == Update) then Some(NodeLocked) else None
    case DropNode => if pc.Answered? then Some(Done) else None
  }

  predicate Takes(op: LockOp) {
    op.TakeNode? || op.TakeMap? || op.TakePoll?
  }

  /** LUNs written through the option pointers, one after the other. */
  function WriteOpts(opts: map<Tid, int>, pointers: seq<Tid>, luns: seq<int>): map<Tid, int>
    requires |pointers| == |luns|
  {
    if pointers == [] then opts
    else
      var last := |pointers| - 1;
      WriteOpts(opts, pointers[..last], luns[..last])[pointers[last] := luns[last]]
  }

  /** The option pointers of a batch in iteration order. */
  function Pointers(batch: map<string, Tid>, order: seq<string>): (p: seq<Tid>)
    requires forall i :: 0 <= i < |order| ==> order[i] in batch
    ensures |p| == |order|
  {
    seq(|order|, i requires 0 <= i < |order| => batch[order[i]])
  }

  function UsedBy(s: State, th: Thread): set<int> {
    VmLuns(s.vm) + (th.occupied * Range(0))
  }

  /** The VM's entry for a disk, as the driver reads it. */
  function AsListed(d: VmDisk): DataDisk {
    DataDisk(Some(d.lun), Some(d.name), None, Some(d.uri), false)
  }

  /** The entry is the call's disk: SetDiskLun goes by the resource ID. */
  predicate IsOwn(th: Thread, d: VmDisk) {
    Matches(AsListed(d), th.disk)
  }

  /** GetDiskLun takes the entry for the call's disk: the resource ID matches, or the name does. */
  predicate TakesFor(th: Thread, d: VmDisk) {
    Detaching.IsDisk(AsListed(d), Detaching.Call(th.name, th.disk, "", true))
  }

  ghost predicate CanSetLuns(s: State, th: Thread, batch: map<string, Tid>, order: seq<string>, at: VmDisk) {
    && Enumerates(order, batch) && (forall i :: 0 <= i < |order| ==> order[i] in batch)
    && |LowestFree(UsedBy(s, th), |batch|)| == |batch| == |order|
    && (th.disk in batch || (at in s.vm && IsOwn(th, at)))
  }

  ghost predicate Step(c: Config, s: State, a: Action, s': State) {
    match a
    case Spawn(t, kind, disk, name, occupied) => SpawnStep(s, t, kind, disk, name, occupied, s')
    case Lock(t, op) => LockStep(s, t, op, s')
    case EnqLoad(t) => EnqLoadStep(s, t, s')
    case EnqInsert(t) => EnqInsertStep(s, t, s')
    case Count(t, sized) => CountStep(c, s, t, sized, s')
    case DrainLoad(t) => DrainLoadStep(s, t, s')
    case DrainSwap(t) => DrainSwapStep(s, t, s')
    case TrimBatch(t, keep) => TrimStep(s, t, keep, s')
    case SetLuns(t, order, at) => SetLunsStep(s, t, order, at, s')
    case VmAttach(t, applied, ok) => VmAttachStep(s, t, applied, ok, s')
    case VmDetach(t, left, ok) => VmDetachStep(s, t, left, ok, s')
    case Finish(t, outcome, via) => FinishStep(c, s, t, outcome, via, s')
    case Shrink(left) => left <= s.vm && s' == s.(vm := left)
  }

  ghost predicate SpawnStep(s: State, t: Tid, kind: Kind, disk: string, name: string, occupied: set<int>, s': State) {
    && t !in s.threads
    && var th := Thread(kind, disk, name, occupied, Start, 0, 0, None, -1, false, {}, Unknown);
       s' == Put(s, t, th).(opts := s.opts[t := -1])
  }

  /** Taking a lock waits until it is free. */
  ghost predicate LockStep(s: State, t: Tid, op: LockOp, s': State) {
    && t in s.threads
    && var th := s.threads[t];
    && AfterLock(th.kind, th.pc, op).Some?
    && var l := LockOf(op, th.kind);
    && (Takes(op) ==> l !in s.locks)
    && s' == Moved(s, t, AfterLock(th.kind, th.pc, op).value)
        .(locks := if Takes(op) then s.locks[l := t] else s.locks - {l})
  }

  /** Load the node's map, storing a new one if there is none. */
  ghost predicate EnqLoadStep(s: State, t: Tid, s': State) {
    && At(s, t, EnqLocked) && BatchKind(s, t)
    && var th := s.threads[t];
    var tab := s.tabs[th.kind];
    if tab.slot.Some? then
      s' == Put(s, t, th.(pc := EnqLoaded, ref := tab.slot.value))
    else
      s' == Put(s, t, th.(pc := EnqLoaded, ref := tab.next))
        .(tabs := s.tabs[th.kind :=
          tab.(heap := tab.heap[tab.next := map[]], slot := Some(tab.next), next := tab.next + 1)])
  }

  /** Insert into whichever map object was loaded. */
  ghost predicate EnqInsertStep(s: State, t: Tid, s': State) {
    && At(s, t, EnqLoaded) && BatchKind(s, t)
    && var th := s.threads[t];
    var tab := s.tabs[th.kind];
    && th.ref in tab.heap
    && s' == Put(s, t, th.(pc := EnqInserted, enqAt := |tab.drains|))
        .(tabs := s.tabs[th.kind := tab.(heap := tab.heap[th.ref := Enqueue(tab.heap[th.ref], th.disk, t)])])
  }

  /** `sized` is false when checking is off or the instance type is not known: no limit is applied then. */
  ghost predicate CountStep(c: Config, s: State, t: Tid, sized: bool, s': State) {
    && At(s, t, NodeLocked) && s.threads[t].kind == Attach
    && (sized ==> c.maxDisks.Some?)
    && s' == Put(s, t, s.threads[t].(pc := Counted, allowed := if sized then Allowed(c.maxDisks, |s.vm|) else None))
        .(unsized := s.unsized || !sized)
  }

  ghost predicate DrainLoadStep(s: State, t: Tid, s': State) {
    && At(s, t, DrainLocked) && BatchKind(s, t)
    && var th := s.threads[t];
    var tab := s.tabs[th.kind];
    if th.disk in Pending(tab) then s' == Put(s, t, th.(pc := DrainFound, ref := tab.slot.value))
    else s' == Moved(s, t, DrainMissed)
  }

  /** Store a new empty map; the old one stays with the caller. */
  ghost predicate DrainSwapStep(s: State, t: Tid, s': State) {
    && At(s, t, DrainFound) && BatchKind(s, t)
    && var th := s.threads[t];
    var tab := s.tabs[th.kind];
    && th.ref in tab.heap
    && s' == Moved(s, t, DrainSwapped).(tabs := s.tabs[th.kind :=
        Table(tab.heap[tab.next := map[]], Some(tab.next), tab.next + 1, tab.drains
          + [Drain(t, tab.heap[th.ref].Keys)])])
  }

  /** Which entries go is up to the map's iteration order; how many stay is not. */
  ghost predicate TrimStep(s: State, t: Tid, keep: set<string>, s': State) {
    && At(s, t, Drained) && s.threads[t].kind == Attach && Attach in s.tabs
    && var th := s.threads[t];
    var tab := s.tabs[Attach];
    && th.ref in tab.heap
    && var batch := tab.heap[th.ref];
    && keep <= batch.Keys && |keep| == Kept(|batch|, th.allowed)
    && s' == Put(s, t, th.(pc := Trimmed, trimmed := th.disk !in keep))
        .(tabs := s.tabs[Attach := tab.(heap := tab.heap[th.ref := batch - (batch.Keys - keep)])])
  }

  ghost predicate SetLunsStep(s: State, t: Tid, order: seq<string>, at: VmDisk, s': State) {
    && At(s, t, Trimmed) && Attach in s.tabs
    && var th := s.threads[t];
    && th.ref in s.tabs[Attach].heap
    && var batch := s.tabs[Attach].heap[th.ref];
    && CanSetLuns(s, th, batch, order, at)
    && var opts := WriteOpts(s.opts, Pointers(batch, order), LowestFree(UsedBy(s, th), |batch|));
    && (th.disk in batch ==> batch[th.disk] in opts)
    && s' == Put(s, t, if th.disk in batch then th.(pc := LunsSet, lun := opts[batch[th.disk]])
                       else th.(pc := LunsSet, lun := at.lun, seen := th.seen + {at})).(opts := opts)
  }

  /** The disk names that the requests carry. */
  function Names(threads: map<Tid, Thread>): map<Tid, string> {
    map t | t in threads :: threads[t].name
  }

  function Added(batch: map<string, Tid>, applied: set<string>, opts: map<Tid, int>,
      names: map<Tid, string>): set<VmDisk>
    requires applied <= batch.Keys && forall u :: u in batch ==> batch[u] in opts && batch[u] in names
  {
    set u | u in applied :: VmDisk(u, names[batch[u]], opts[batch[u]])
  }

  /** The cloud may apply any part of the batch, whether or not it reports an error. */
  ghost predicate VmAttachStep(s: State, t: Tid, applied: set<string>, ok: bool, s': State) {
    && At(s, t, LunsSet) && Attach in s.tabs
    && var th := s.threads[t];
    && th.ref in s.tabs[Attach].heap
    && var batch := s.tabs[Attach].heap[th.ref];
    && applied <= batch.Keys && (forall u :: u in batch ==> batch[u] in s.opts && batch[u] in s.threads)
    && var s1 := s.(vm := s.vm + multiset(Added(batch, applied, s.opts, Names(s.threads))));
    s' == if ok then Moved(s1, t, Updated) else Finished(s1, t, Errored)
  }

  ghost predicate VmDetachStep(s: State, t: Tid, left: multiset<VmDisk>, ok: bool, s': State) {
    && At(s, t, Drained) && s.threads[t].kind == Detach && left <= s.vm
    && var s1 := s.(vm := left);
    s' == if ok then Moved(s1, t, Updated) else Finished(s1, t, Errored)
  }

  /** Where the answer is what GetDiskLun finds. */
  predicate Verifying(c: Config, pc: Pc) {
    pc.Empty? || (pc.Updated? && c.lunCheck)
  }

  /**
   * What may be answered where. verifyAttach succeeds with the LUN of a listed disk that it takes for its own (`via`),
   * the first one of the list, whose order is not fixed; verifyDetach when there is none. With the LUN check disabled a
   * completed update is answered from what the call knows. Reads and allocation can fail.
   */
  ghost predicate MayAnswer(c: Config, s: State, th: Thread, outcome: Outcome, via: Option<VmDisk>) {
    if via.Some? then
      && Verifying(c, th.pc) && th.kind == Attach && via.value in s.vm && TakesFor(th, via.value)
      && outcome == Succeeded(via.value.lun)
    else if outcome.Unknown? then false
    else if th.kind == Update then th.pc.NodeLocked?
    else if outcome.Errored? then
      Verifying(c, th.pc) || (th.kind == Attach && (th.pc.NodeLocked? || th.pc.Trimmed? || th.pc.LunsSet?))
    else if !Verifying(c, th.pc) then th.pc.Updated? && (th.kind == Attach ==> outcome.lun == th.lun)
    else th.kind == Detach && forall d :: d in s.vm ==> !TakesFor(th, d)
  }

  ghost predicate FinishStep(c: Config, s: State, t: Tid, outcome: Outcome, via: Option<VmDisk>, s': State) {
    && t in s.threads
    && var th := s.threads[t];
    && MayAnswer(c, s, th, outcome, via)
    && var seen := if via.Some? then th.seen + {via.value} else th.seen;
       s' == Put(s, t, th.(pc := Answered, outcome := outcome, seen := seen))
  }

  ghost predicate DistinctLuns(vm: multiset<VmDisk>) {
    && (forall d :: d in vm ==> vm[d] == 1 && InRange(d.lun))
    && (forall d, e :: d in vm && e in vm && d.lun == e.lun ==> d == e)
  }

  ghost predicate Init(c: Config, s: State) {
    && s.threads == map[] && s.locks == map[] && s.opts == map[] && !s.unsized
    && s.tabs == map[Attach := Table(map[], None, 0, []), Detach := Table(map[], None, 0, [])]
    && DistinctLuns(s.vm)
    && (c.maxDisks.Some? ==> |s.vm| <= c.maxDisks.value)
  }
}
