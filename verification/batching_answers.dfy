/**
 * What a successful attach says about the call's own disk. Verification goes by resource ID or by name, and names need
 * not be unique: the answer is about the call's disk exactly when no other listed disk shares its name.
 */
module BatchingAnswers {
  import opened Text
  import opened Luns
  import opened PendingMaps
  import opened Batching
  import opened BatchingInvariant
  import opened BatchingSafety
  import opened BatchingRuns

  // ---------------------------------------------------------------------------------------------
  // Namesakes

  /** Another disk, by resource ID, that carries the call's disk name. */
  predicate IsNamesake(th: Thread, d: VmDisk) {
    !EqualFold(d.uri, th.disk) && th.name != "" && EqualFold(d.name, th.name)
  }

  ghost predicate NoNamesake(vm: multiset<VmDisk>, th: Thread) {
    forall d :: d in vm ==> !IsNamesake(th, d)
  }

  ghost predicate ListsOwn(vm: multiset<VmDisk>, th: Thread, lun: int) {
    exists d :: d in vm && IsOwn(th, d) && d.lun == lun
  }

  lemma TakenIsOwnOrNamesake(th: Thread, d: VmDisk)
    ensures TakesFor(th, d) <==> IsOwn(th, d) || IsNamesake(th, d)
    ensures !(IsOwn(th, d) && IsNamesake(th, d))
  {
  }

  /** A LUN with which the verification of an attach may succeed now. */
  ghost predicate CanAnswer(c: Config, s: State, th: Thread, lun: int) {
    exists d :: MayAnswer(c, s, th, Succeeded(lun), Some(d))
  }

  /**
   * At its verification a call can only be told its own disk's LUN if and only if the VM lists no namesake of its disk.
   */
  lemma OwnAnswersExactlyWithoutNamesakes(c: Config, run: seq<State>, i: nat, t: Tid)
    requires IsRun(c, run) && i < |run| && t in run[i].threads
    requires run[i].threads[t].kind == Attach && Verifying(c, run[i].threads[t].pc)
    ensures (forall lun :: CanAnswer(c, run[i], run[i].threads[t], lun) ==> ListsOwn(run[i].vm, run[i].threads[t], lun))
      <==> NoNamesake(run[i].vm, run[i].threads[t])
  {
    RunsKeepInv(c, run, i);
    var s, th := run[i], run[i].threads[t];
    forall d ensures TakesFor(th, d) <==> IsOwn(th, d) || IsNamesake(th, d) {
      TakenIsOwnOrNamesake(th, d);
    }
    if d :| d in s.vm && IsNamesake(th, d) {
      NamesakeIsAnswered(c, s, th, d);
    } else {
      forall lun | CanAnswer(c, s, th, lun) ensures ListsOwn(s.vm, th, lun) {
        var d :| MayAnswer(c, s, th, Succeeded(lun), Some(d));
        assert d in s.vm && IsOwn(th, d) && d.lun == lun;
      }
    }
  }

  lemma NamesakeIsAnswered(c: Config, s: State, th: Thread, d: VmDisk)
    requires DistinctLuns(s.vm) && d in s.vm && IsNamesake(th, d) && th.kind == Attach && Verifying(c, th.pc)
    ensures CanAnswer(c, s, th, d.lun) && !ListsOwn(s.vm, th, d.lun)
  {
    TakenIsOwnOrNamesake(th, d);
    assert MayAnswer(c, s, th, Succeeded(d.lun), Some(d));
  }

  /** While the call held the node lock, the VM listed no namesake of its disk. */
  ghost predicate NeverConfused(run: seq<State>, t: Tid) {
    forall j :: 0 <= j < |run| && t in run[j].threads && HoldsNode(run[j].threads[t].pc) ==>
      NoNamesake(run[j].vm, run[j].threads[t])
  }

  /** Without namesakes a successful attach means that the VM listed the call's own disk at that LUN during the call. */
  lemma UnconfusedAnswersAreOwn(c: Config, run: seq<State>, i: nat, t: Tid) returns (j: nat)
    requires IsRun(c, run) && i < |run| && t in run[i].threads && NeverConfused(run, t)
    requires run[i].threads[t].kind == Attach && run[i].threads[t].outcome.Succeeded?
    requires c.lunCheck || run[i].threads[t].trimmed
    ensures j < i && t in run[j].threads && HoldsNode(run[j].threads[t].pc)
    ensures ListsOwn(run[j].vm, run[i].threads[t], run[i].threads[t].outcome.lun)
  {
    var d;
    j, d := AnswersAreWitnessed(c, run, i, t);
    TakenIsOwnOrNamesake(run[j].threads[t], d);
    assert d in run[j].vm && IsOwn(run[i].threads[t], d);
  }

  // ---------------------------------------------------------------------------------------------
  // A run that goes wrong

  ghost predicate Unlisted(vm: multiset<VmDisk>, disk: string) {
    forall d :: d in vm ==> d.uri != disk
  }

  /** Some run leads to s without the VM ever listing the disk. */
  ghost predicate ReachedWithout(c: Config, s: State, disk: string) {
    exists run: seq<State> ::
      IsRun(c, run) && run[|run| - 1] == s && forall i :: 0 <= i < |run| ==> Unlisted(run[i].vm, disk)
  }

  /** A set of states that no step leaves unless the VM then lists the disk; the reachable states are one. */
  ghost predicate Closed(c: Config, r: iset<State>, disk: string) {
    forall s, a, s' :: s in r && Step(c, s, a, s') && Unlisted(s'.vm, disk) ==> s' in r
  }

  lemma ReachableIsClosed(c: Config, disk: string)
    ensures Closed(c, (iset s | ReachedWithout(c, s, disk)), disk)
  {
    forall s, a, s' | ReachedWithout(c, s, disk) && Step(c, s, a, s') && Unlisted(s'.vm, disk)
      ensures ReachedWithout(c, s', disk)
    {
      var run: seq<State> :|
        IsRun(c, run) && run[|run| - 1] == s && forall i :: 0 <= i < |run| ==> Unlisted(run[i].vm, disk);
      RunGrows(c, run, a, s');
    }
  }

  lemma RunGrows(c: Config, run: seq<State>, a: Action, s': State)
    requires IsRun(c, run) && Step(c, run[|run| - 1], a, s')
    ensures IsRun(c, run + [s'])
  {
    var longer := run + [s'];
    forall i | 0 < i < |longer| ensures StepAt(c, longer, i) {
      if i < |run| {
        assert StepAt(c, run, i);
      }
    }
  }

  lemma Go(c: Config, r: iset<State>, s: State, a: Action, s': State, disk: string)
    requires Closed(c, r, disk) && s in r && Step(c, s, a, s') && Unlisted(s'.vm, disk)
    ensures s' in r
  {
  }

  function Locked(s: State, l: LockName, t: Tid): State {
    s.(locks := s.locks[l := t])
  }

  function Unlocked(s: State, l: LockName): State {
    s.(locks := s.locks - {l})
  }

  /** The lock step of a call, as an equation. */
  lemma GoLock(c: Config, r: iset<State>, s: State, t: Tid, op: LockOp, disk: string) returns (s': State)
    requires Closed(c, r, disk) && s in r && Unlisted(s.vm, disk) && t in s.threads
    requires AfterLock(s.threads[t].kind, s.threads[t].pc, op).Some?
    requires Takes(op) ==> LockOf(op, s.threads[t].kind) !in s.locks
    ensures s' in r
    ensures var l := LockOf(op, s.threads[t].kind);
      var s1 := Moved(s, t, AfterLock(s.threads[t].kind, s.threads[t].pc, op).value);
      s' == if Takes(op) then Locked(s1, l, t) else Unlocked(s1, l)
  {
    var l := LockOf(op, s.threads[t].kind);
    var s1 := Moved(s, t, AfterLock(s.threads[t].kind, s.threads[t].pc, op).value);
    s' := if Takes(op) then Locked(s1, l, t) else Unlocked(s1, l);
    assert LockStep(s, t, op, s');
    Go(c, r, s, Lock(t, op), s', disk);
  }

  /** The pending table once map object `id` is loaded. */
  function Loaded(tab: Table, id: MapId): Table {
    if tab.slot.Some? then tab else tab.(heap := tab.heap[id := map[]], slot := Some(id), next := id + 1)
  }

  function Inserted(tab: Table, id: MapId, disk: string, t: Tid): Table
    requires id in tab.heap
  {
    tab.(heap := tab.heap[id := Enqueue(tab.heap[id], disk, t)])
  }

  ghost predicate Loadable(tab: Table, id: MapId) {
    if tab.slot.Some? then tab.slot == Some(id) && id in tab.heap else id == tab.next
  }

  lemma GoLoad(c: Config, r: iset<State>, s: State, t: Tid, id: MapId, disk: string) returns (s': State)
    requires Closed(c, r, disk) && s in r && Unlisted(s.vm, disk) && At(s, t, EnqLocked) && s.threads[t].kind == Attach
    requires Attach in s.tabs && Loadable(s.tabs[Attach], id)
    ensures s' in r
    ensures s' == Put(s, t, s.threads[t].(pc := EnqLoaded, ref := id))
      .(tabs := s.tabs[Attach := Loaded(s.tabs[Attach], id)])
  {
    s' := Put(s, t, s.threads[t].(pc := EnqLoaded, ref := id)).(tabs := s.tabs[Attach := Loaded(s.tabs[Attach], id)]);
    assert s.tabs[Attach := s.tabs[Attach]] == s.tabs;
    assert EnqLoadStep(s, t, s');
    Go(c, r, s, EnqLoad(t), s', disk);
  }

  lemma GoInsert(c: Config, r: iset<State>, s: State, t: Tid, disk: string) returns (s': State)
    requires Closed(c, r, disk) && s in r && Unlisted(s.vm, disk) && At(s, t, EnqLoaded) && s.threads[t].kind == Attach
    requires Attach in s.tabs && s.threads[t].ref in s.tabs[Attach].heap
    ensures s' in r
    ensures var tab, th := s.tabs[Attach], s.threads[t];
      s' == Put(s, t, th.(pc := EnqInserted, enqAt := |tab.drains|))
        .(tabs := s.tabs[Attach := Inserted(tab, th.ref, th.disk, t)])
  {
    var tab, th := s.tabs[Attach], s.threads[t];
    s' := Put(s, t, th.(pc := EnqInserted, enqAt := |tab.drains|))
      .(tabs := s.tabs[Attach := Inserted(tab, th.ref, th.disk, t)]);
    assert EnqInsertStep(s, t, s');
    Go(c, r, s, EnqInsert(t), s', disk);
  }

  /** A call that has loaded map object `id` under the map lock. */
  lemma Load(c: Config, r: iset<State>, s: State, t: Tid, id: MapId, disk: string) returns (s': State)
    requires Closed(c, r, disk) && s in r && Unlisted(s.vm, disk) && At(s, t, Start) && s.threads[t].kind == Attach
    requires Attach in s.tabs && s.locks == map[] && Loadable(s.tabs[Attach], id)
    ensures s' in r && s'.vm == s.vm && s'.locks == map[MapLock(Attach) := t]
    ensures s'.threads == s.threads[t := s.threads[t].(pc := EnqLoaded, ref := id)]
    ensures s'.tabs == s.tabs[Attach := Loaded(s.tabs[Attach], id)]
  {
    var s1 := GoLock(c, r, s, t, TakeMap, disk);
    s' := GoLoad(c, r, s1, t, id, disk);
  }

  /** A call that queues its request in map object `id`. */
  lemma Queue(c: Config, r: iset<State>, s: State, t: Tid, id: MapId, disk: string) returns (s': State)
    requires Closed(c, r, disk) && s in r && Unlisted(s.vm, disk) && At(s, t, Start) && s.threads[t].kind == Attach
    requires Attach in s.tabs && s.locks == map[] && Loadable(s.tabs[Attach], id)
    ensures s' in r
    ensures s'.threads == s.threads[t := s.threads[t].(pc := Enqueued, ref := id, enqAt := |s.tabs[Attach].drains|)]
    ensures s'.locks == map[] && s'.vm == s.vm
    ensures s'.tabs == s.tabs[Attach := Inserted(Loaded(s.tabs[Attach], id), id, s.threads[t].disk, t)]
  {
    var s2 := Load(c, r, s, t, id, disk);
    var s3 := GoInsert(c, r, s2, t, disk);
    s' := GoLock(c, r, s3, t, DropMap, disk);
    assert s'.locks == map[];
  }

  lemma GoCount(c: Config, r: iset<State>, s: State, t: Tid, disk: string) returns (s': State)
    requires Closed(c, r, disk) && s in r && Unlisted(s.vm, disk) && At(s, t, NodeLocked) && s.threads[t].kind == Attach
    requires c.maxDisks.Some?
    ensures s' in r
    ensures s' == Put(s, t, s.threads[t].(pc := Counted, allowed := Allowed(c.maxDisks, |s.vm|)))
  {
    s' := Put(s, t, s.threads[t].(pc := Counted, allowed := Allowed(c.maxDisks, |s.vm|)));
    assert CountStep(c, s, t, true, s');
    Go(c, r, s, Count(t, true), s', disk);
  }

  /** A call that gets as far as looking for its request under the node lock. */
  lemma Enter(c: Config, r: iset<State>, s: State, t: Tid, disk: string) returns (s': State)
    requires Closed(c, r, disk) && s in r && Unlisted(s.vm, disk) && At(s, t, Enqueued) && s.threads[t].kind == Attach
    requires s.locks == map[] && c.maxDisks.Some?
    ensures s' in r
    ensures s'.threads == s.threads[t := s.threads[t].(pc := DrainLocked, allowed := Allowed(c.maxDisks, |s.vm|))]
    ensures s'.locks == map[NodeLock := t, MapLock(Attach) := t] && s'.tabs == s.tabs && s'.vm == s.vm
  {
    var s1 := GoLock(c, r, s, t, TakeNode, disk);
    var s2 := GoCount(c, r, s1, t, disk);
    s' := GoLock(c, r, s2, t, TakeMap, disk);
  }

  lemma GoDrain(c: Config, r: iset<State>, s: State, t: Tid, id: MapId, disk: string) returns (s': State)
    requires Closed(c, r, disk) && s in r && Unlisted(s.vm, disk) && At(s, t, DrainLocked)
      && s.threads[t].kind == Attach
    requires Attach in s.tabs && s.tabs[Attach].slot == Some(id) && id in s.tabs[Attach].heap
    requires s.threads[t].disk in s.tabs[Attach].heap[id]
    ensures s' in r
    ensures s' == Put(s, t, s.threads[t].(pc := DrainFound, ref := id))
  {
    s' := Put(s, t, s.threads[t].(pc := DrainFound, ref := id));
    assert DrainLoadStep(s, t, s');
    Go(c, r, s, DrainLoad(t), s', disk);
  }

  function Swapped(tab: Table, t: Tid, id: MapId): Table
    requires id in tab.heap
  {
    Table(tab.heap[tab.next := map[]], Some(tab.next), tab.next + 1, tab.drains + [Drain(t, tab.heap[id].Keys)])
  }

  lemma GoSwap(c: Config, r: iset<State>, s: State, t: Tid, disk: string) returns (s': State)
    requires Closed(c, r, disk) && s in r && Unlisted(s.vm, disk) && At(s, t, DrainFound) && s.threads[t].kind == Attach
    requires Attach in s.tabs && s.threads[t].ref in s.tabs[Attach].heap
    ensures s' in r
    ensures s' == Moved(s, t, DrainSwapped).(tabs := s.tabs[Attach := Swapped(s.tabs[Attach], t, s.threads[t].ref)])
  {
    s' := Moved(s, t, DrainSwapped).(tabs := s.tabs[Attach := Swapped(s.tabs[Attach], t, s.threads[t].ref)]);
    assert DrainSwapStep(s, t, s');
    Go(c, r, s, DrainSwap(t), s', disk);
  }

  /** A call that drains the pending map, map object `id`. */
  lemma DrainAll(c: Config, r: iset<State>, s: State, t: Tid, id: MapId, disk: string) returns (s': State)
    requires Closed(c, r, disk) && s in r && Unlisted(s.vm, disk) && At(s, t, DrainLocked)
      && s.threads[t].kind == Attach
    requires s.locks == map[NodeLock := t, MapLock(Attach) := t] && Attach in s.tabs
    requires s.tabs[Attach].slot == Some(id) && id in s.tabs[Attach].heap
      && s.threads[t].disk in s.tabs[Attach].heap[id]
    ensures s' in r && s'.locks == map[NodeLock := t] && s'.vm == s.vm
    ensures s'.threads == s.threads[t := s.threads[t].(pc := Drained, ref := id)]
    ensures s'.tabs == s.tabs[Attach := Swapped(s.tabs[Attach], t, id)]
  {
    var s1 := GoDrain(c, r, s, t, id, disk);
    var s2 := GoSwap(c, r, s1, t, disk);
    s' := GoLock(c, r, s2, t, DropMap, disk);
    assert s'.locks == map[NodeLock := t];
  }

  function Kept(batch: map<string, Tid>, keep: set<string>): map<string, Tid> {
    batch - (batch.Keys - keep)
  }

  lemma GoTrim(c: Config, r: iset<State>, s: State, t: Tid, keep: set<string>, disk: string) returns (s': State)
    requires Closed(c, r, disk) && s in r && Unlisted(s.vm, disk) && At(s, t, Drained) && s.threads[t].kind == Attach
    requires Attach in s.tabs && s.threads[t].ref in s.tabs[Attach].heap
    requires var batch := s.tabs[Attach].heap[s.threads[t].ref];
      keep <= batch.Keys && |keep| == PendingMaps.Kept(|batch|, s.threads[t].allowed)
    ensures s' in r
    ensures var tab, th := s.tabs[Attach], s.threads[t];
      s' == Put(s, t, th.(pc := Trimmed, trimmed := th.disk !in keep))
        .(tabs := s.tabs[Attach := tab.(heap := tab.heap[th.ref := Kept(tab.heap[th.ref], keep)])])
  {
    var tab, th := s.tabs[Attach], s.threads[t];
    s' := Put(s, t, th.(pc := Trimmed, trimmed := th.disk !in keep))
      .(tabs := s.tabs[Attach := tab.(heap := tab.heap[th.ref := Kept(tab.heap[th.ref], keep)])]);
    assert TrimStep(s, t, keep, s');
    Go(c, r, s, TrimBatch(t, keep), s', disk);
  }

  lemma GoFail(c: Config, r: iset<State>, s: State, t: Tid, disk: string) returns (s': State)
    requires Closed(c, r, disk) && s in r && Unlisted(s.vm, disk) && At(s, t, Trimmed) && s.threads[t].kind == Attach
    ensures s' in r
    ensures s' == Put(s, t, s.threads[t].(pc := Answered, outcome := Errored))
  {
    s' := Put(s, t, s.threads[t].(pc := Answered, outcome := Errored));
    assert FinishStep(c, s, t, Errored, None, s');
    Go(c, r, s, Finish(t, Errored, None), s', disk);
  }

  /** A call that trims its batch to `keep` and gives up, because its allocation fails. */
  lemma TrimAndFail(c: Config, r: iset<State>, s: State, t: Tid, keep: set<string>, disk: string) returns (s': State)
    requires Closed(c, r, disk) && s in r && Unlisted(s.vm, disk) && At(s, t, Drained) && s.threads[t].kind == Attach
    requires s.locks == map[NodeLock := t] && Attach in s.tabs && s.threads[t].ref in s.tabs[Attach].heap
    requires var batch := s.tabs[Attach].heap[s.threads[t].ref];
      keep <= batch.Keys && |keep| == PendingMaps.Kept(|batch|, s.threads[t].allowed)
    ensures s' in r && s'.locks == map[] && s'.vm == s.vm
    ensures s'.threads.Keys == s.threads.Keys && forall u :: u in s.threads && u != t ==> s'.threads[u] == s.threads[u]
    ensures var tab, id := s.tabs[Attach], s.threads[t].ref;
      s'.tabs == s.tabs[Attach := tab.(heap := tab.heap[id := Kept(tab.heap[id], keep)])]
  {
    var s1 := GoTrim(c, r, s, t, keep, disk);
    var s2 := GoFail(c, r, s1, t, disk);
    s' := GoLock(c, r, s2, t, DropNode, disk);
    assert s'.locks == map[];
  }

  lemma GoMiss(c: Config, r: iset<State>, s: State, t: Tid, disk: string) returns (s': State)
    requires Closed(c, r, disk) && s in r && Unlisted(s.vm, disk) && At(s, t, DrainLocked)
      && s.threads[t].kind == Attach
    requires Attach in s.tabs && s.threads[t].disk !in Pending(s.tabs[Attach])
    ensures s' in r && s' == Moved(s, t, DrainMissed)
  {
    s' := Moved(s, t, DrainMissed);
    assert DrainLoadStep(s, t, s');
    Go(c, r, s, DrainLoad(t), s', disk);
  }

  lemma GoVerify(c: Config, r: iset<State>, s: State, t: Tid, d: VmDisk, disk: string) returns (s': State)
    requires Closed(c, r, disk) && s in r && Unlisted(s.vm, disk) && At(s, t, Empty) && s.threads[t].kind == Attach
    requires d in s.vm && TakesFor(s.threads[t], d)
    ensures s' in r
    ensures s' == Put(s, t, s.threads[t].(pc := Answered, outcome := Succeeded(d.lun), seen := s.threads[t].seen + {d}))
  {
    s' := Put(s, t, s.threads[t].(pc := Answered, outcome := Succeeded(d.lun), seen := s.threads[t].seen + {d}));
    assert FinishStep(c, s, t, Succeeded(d.lun), Some(d), s');
    Go(c, r, s, Finish(t, Succeeded(d.lun), Some(d)), s', disk);
  }

  /** A call that finds nothing pending and verifies against the listed disk d. */
  lemma VerifyEmptyHanded(c: Config, r: iset<State>, s: State, t: Tid, d: VmDisk, disk: string) returns (s': State)
    requires Closed(c, r, disk) && s in r && Unlisted(s.vm, disk) && At(s, t, DrainLocked)
      && s.threads[t].kind == Attach
    requires s.locks == map[NodeLock := t, MapLock(Attach) := t] && Attach in s.tabs
    requires Pending(s.tabs[Attach]) == map[] && d in s.vm && TakesFor(s.threads[t], d)
    ensures s' in r && s'.tabs == s.tabs
    ensures t in s'.threads && s'.threads[t].outcome == Succeeded(d.lun) && s'.threads[t].disk == s.threads[t].disk
  {
    var s1 := GoMiss(c, r, s, t, disk);
    var s2 := GoLock(c, r, s1, t, DropMap, disk);
    s' := GoVerify(c, r, s2, t, d, disk);
  }

  /** The call was in a drain and its disk was trimmed from the batch. */
  ghost predicate WasTrimmed(s: State, disk: string) {
    && Attach in s.tabs
    && exists i, id :: 0 <= i < |s.tabs[Attach].drains| && disk in s.tabs[Attach].drains[i].disks
         && id in s.tabs[Attach].heap && disk !in s.tabs[Attach].heap[id]
  }

  lemma GoSpawn(c: Config, r: iset<State>, s: State, t: Tid, uri: string, name: string, disk: string)
    returns (s': State)
    requires Closed(c, r, disk) && s in r && Unlisted(s.vm, disk) && t !in s.threads
    ensures s' in r
    ensures s' == Put(s, t, Thread(Attach, uri, name, {}, Start, 0, 0, None, -1, false, {}, Unknown))
      .(opts := s.opts[t := -1])
  {
    s' := Put(s, t, Thread(Attach, uri, name, {}, Start, 0, 0, None, -1, false, {}, Unknown)).(opts := s.opts[t := -1]);
    assert SpawnStep(s, t, Attach, uri, name, {}, s');
    Go(c, r, s, Spawn(t, Attach, uri, name, {}), s', disk);
  }

  /** A VM that lists one disk, before any call. */
  function Fresh(listed: VmDisk): State {
    State(map[], map[], map[Attach := Table(map[], None, 0, []), Detach := Table(map[], None, 0, [])], map[],
      multiset{listed}, false)
  }

  lemma FreshIsReached(c: Config, listed: VmDisk, disk: string)
    requires c.maxDisks.Some? && c.maxDisks.value >= 1 && InRange(listed.lun) && listed.uri != disk
    ensures ReachedWithout(c, Fresh(listed), disk)
  {
    var s := Fresh(listed);
    assert Init(c, s);
    var run := [s];
    assert IsRun(c, run) && run[|run| - 1] == s;
  }

  function Started(uri: string, name: string): Thread {
    Thread(Attach, uri, name, {}, Start, 0, 0, None, -1, false, {}, Unknown)
  }

  lemma TwoCallsStart(c: Config, r: iset<State>, listed: VmDisk, first: string, second: string, name: string)
    returns (s: State)
    requires Closed(c, r, second) && Fresh(listed) in r && listed.uri != second
    ensures s in r && s.vm == multiset{listed} && s.locks == map[]
    ensures s.threads == map[0 := Started(first, ""), 1 := Started(second, name)]
    ensures s.tabs == Fresh(listed).tabs
  {
    var s1 := GoSpawn(c, r, Fresh(listed), 0, first, "", second);
    s := GoSpawn(c, r, s1, 1, second, name, second);
  }

  /** Two calls wait, and the VM lists one disk. */
  lemma TwoCallsQueue(c: Config, r: iset<State>, listed: VmDisk, first: string, second: string, name: string)
    returns (s: State)
    requires Closed(c, r, second) && Fresh(listed) in r && listed.uri != second && first != second
    ensures s in r && s.vm == multiset{listed} && s.locks == map[]
    ensures s.threads.Keys == {0, 1}
    ensures forall t :: t in s.threads ==> s.threads[t].kind == Attach && s.threads[t].pc == Enqueued
    ensures s.threads[0].disk == first && s.threads[1].disk == second && s.threads[1].name == name
    ensures Attach in s.tabs && s.tabs[Attach] == Table(map[0 := map[first := 0, second := 1]], Some(0), 1, [])
  {
    var s2 := TwoCallsStart(c, r, listed, first, second, name);
    var s3 := Queue(c, r, s2, 0, 0, second);
    s := Queue(c, r, s3, 1, 0, second);
  }

  /**
   * Names do get confused: on a VM that holds one disk and has room for one more, a request for a second disk of the
   * same name is trimmed from its batch, never reaches the VM, and is answered with the first disk's LUN.
   */
  lemma TrimmedDiskSucceedsUnlisted(listed: VmDisk, first: string, second: string)
    requires InRange(listed.lun) && listed.name != "" && !EqualFold(listed.uri, second) && first != second
    ensures var c := Config(Some(2), true);
      exists s :: ReachedWithout(c, s, second) && WasTrimmed(s, second)
        && 1 in s.threads && s.threads[1].disk == second && s.threads[1].outcome == Succeeded(listed.lun)
  {
    var c := Config(Some(2), true);
    var r := iset s | ReachedWithout(c, s, second);
    ReachableIsClosed(c, second);
    FreshIsReached(c, listed, second);
    var s := Confuse(c, r, listed, first, second);
  }

  lemma Confuse(c: Config, r: iset<State>, listed: VmDisk, first: string, second: string) returns (s: State)
    requires c.maxDisks == Some(2) && Closed(c, r, second) && Fresh(listed) in r
    requires listed.name != "" && !EqualFold(listed.uri, second) && first != second
    ensures s in r && WasTrimmed(s, second)
    ensures 1 in s.threads && s.threads[1].disk == second && s.threads[1].outcome == Succeeded(listed.lun)
  {
    var s1 := TwoCallsQueue(c, r, listed, first, second, listed.name);
    var s2 := Enter(c, r, s1, 0, second);
    assert s2.tabs[Attach].heap[0].Keys == {first, second} && |s2.tabs[Attach].heap[0]| == 2;
    var s3 := DrainAll(c, r, s2, 0, 0, second);
    var s4 := TrimAndFail(c, r, s3, 0, {first}, second);
    var s5 := Enter(c, r, s4, 1, second);
    s := VerifyEmptyHanded(c, r, s5, 1, listed, second);
    TrimmedInPlace(s, second);
  }

  lemma TrimmedInPlace(s: State, disk: string)
    requires Attach in s.tabs && |s.tabs[Attach].drains| == 1 && disk in s.tabs[Attach].drains[0].disks
    requires 0 in s.tabs[Attach].heap && disk !in s.tabs[Attach].heap[0]
    ensures WasTrimmed(s, disk)
  {
    assert disk in s.tabs[Attach].drains[0].disks;
  }
}
