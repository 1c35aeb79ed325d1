/** The hand-off of the batching protocol over whole runs. */
module BatchingHandOff {
  import opened Text
  import opened Batching
  import opened BatchingInvariant
  import opened BatchingSafety
  import opened BatchingRuns

  predicate Untrimmed(pc: Pc) {
    pc.DrainSwapped? || pc.Drained?
  }

  predicate IsPart(part: map<string, Tid>, whole: map<string, Tid>) {
    forall u :: u in part ==> u in whole && part[u] == whole[u]
  }

  /** The call has drained a batch and still works on it. */
  ghost predicate Owns(s: State, u: Tid) {
    && u in s.threads && s.threads[u].kind != Update && OwnsBatch(s.threads[u].pc)
    && s.threads[u].kind in s.tabs && s.threads[u].ref in s.tabs[s.threads[u].kind].heap
  }

  function BatchOf(s: State, u: Tid): map<string, Tid>
    requires Owns(s, u)
  {
    s.tabs[s.threads[u].kind].heap[s.threads[u].ref]
  }

  /** How the owner's record and batch may differ between two moments: only trimming takes something out. */
  ghost predicate SameBatch(s: State, s': State, u: Tid)
    requires Owns(s, u) && Owns(s', u)
  {
    && s'.threads[u].kind == s.threads[u].kind && s'.threads[u].ref == s.threads[u].ref
    && IsPart(BatchOf(s', u), BatchOf(s, u))
    && (Untrimmed(s'.threads[u].pc) ==> Untrimmed(s.threads[u].pc))
    && ((Untrimmed(s.threads[u].pc) ==> Untrimmed(s'.threads[u].pc)) || s.threads[u].kind == Detach ==>
          BatchOf(s', u) == BatchOf(s, u))
  }

  /** What the owner's own steps do, other than trimming. */
  ghost predicate KeepsRef(th: Thread, th': Thread) {
    && th'.ref == th.ref && th'.kind == th.kind && (Untrimmed(th'.pc) ==> Untrimmed(th.pc))
  }

  lemma LockOnBatch(s: State, t: Tid, op: LockOp, s': State)
    requires LockStep(s, t, op, s') && OwnsBatch(s.threads[t].pc) && OwnsBatch(s'.threads[t].pc)
    ensures KeepsRef(s.threads[t], s'.threads[t])
  {
    LockOpKeepsRecord(s, t, op, s');
  }

  lemma SetLunsOnBatch(s: State, t: Tid, order: seq<string>, at: VmDisk, s': State)
    requires SetLunsStep(s, t, order, at, s')
    ensures t in s'.threads && KeepsRef(s.threads[t], s'.threads[t])
  {
  }

  lemma VmUpdateOnBatch(s: State, t: Tid, applied: set<string>, left: multiset<VmDisk>, ok: bool, s': State)
    requires VmAttachStep(s, t, applied, ok, s') || VmDetachStep(s, t, left, ok, s')
    ensures t in s'.threads && KeepsRef(s.threads[t], s'.threads[t])
  {
  }

  lemma TrimOnBatch(s: State, t: Tid, keep: set<string>, s': State)
    requires TrimStep(s, t, keep, s')
    ensures t in s'.threads && KeepsRef(s.threads[t], s'.threads[t])
    ensures s.threads[t].kind == Attach && Untrimmed(s.threads[t].pc) && !Untrimmed(s'.threads[t].pc)
  {
  }

  /** The steps that owners of a batch do not take. */
  predicate NotOwners(a: Action) {
    a.EnqLoad? || a.EnqInsert? || a.Count? || a.DrainLoad? || a.DrainSwap? || a.Finish?
  }

  lemma OwnersDoNot(c: Config, s: State, a: Action, s': State)
    requires Step(c, s, a, s') && NotOwners(a) && a.t in s.threads && OwnsBatch(s.threads[a.t].pc)
    ensures a.Finish? && a.t in s'.threads && !OwnsBatch(s'.threads[a.t].pc)
  {
  }

  lemma OwnStepOnBatch(c: Config, s: State, a: Action, s': State)
    requires Step(c, s, a, s') && !a.Shrink? && !a.Spawn? && a.t in s.threads && OwnsBatch(s.threads[a.t].pc)
    requires a.t in s'.threads && OwnsBatch(s'.threads[a.t].pc)
    ensures KeepsRef(s.threads[a.t], s'.threads[a.t])
    ensures ChangesMaps(a) ==> a.TrimBatch?
    ensures a.TrimBatch? ==>
      s.threads[a.t].kind == Attach && Untrimmed(s.threads[a.t].pc) && !Untrimmed(s'.threads[a.t].pc)
  {
    if NotOwners(a) {
      OwnersDoNot(c, s, a, s');
    } else {
      match a
      case Lock(t, op) => LockOnBatch(s, t, op, s');
      case SetLuns(t, order, at) => SetLunsOnBatch(s, t, order, at, s');
      case VmAttach(t, applied, ok) => VmUpdateOnBatch(s, t, applied, multiset{}, ok, s');
      case VmDetach(t, left, ok) => VmUpdateOnBatch(s, t, {}, left, ok, s');
      case TrimBatch(t, keep) => TrimOnBatch(s, t, keep, s');
    }
  }

  lemma TrimTakesPart(s: State, t: Tid, keep: set<string>, s': State)
    requires TrimStep(s, t, keep, s') && Owns(s, t) && Owns(s', t)
    ensures IsPart(BatchOf(s', t), BatchOf(s, t))
  {
  }

  lemma StepKeepsBatch(c: Config, s: State, a: Action, s': State, u: Tid)
    requires LockInv(s) && MapInv(s) && Step(c, s, a, s') && Owns(s, u) && Owns(s', u)
    ensures SameBatch(s, s', u)
  {
    if a.Shrink? || a.t != u {
      StepOthers(c, s, a, s');
      BatchesAreUntouched(c, s, a, s', u);
    } else {
      StepOthers(c, s, a, s');
      OwnStepOnBatch(c, s, a, s');
      if a.TrimBatch? {
        assert TrimStep(s, u, a.keep, s');
        TrimTakesPart(s, u, a.keep, s');
      } else {
        OthersLeaveMaps(c, s, a, s');
      }
    }
  }

  lemma NextKeepsBatch(c: Config, s: State, s': State, u: Tid)
    requires LockInv(s) && MapInv(s) && Next(c, s, s') && Owns(s, u) && Owns(s', u)
    ensures SameBatch(s, s', u)
  {
    var a :| Step(c, s, a, s');
    StepKeepsBatch(c, s, a, s', u);
  }

  /**
   * The steps of runs, as a relation: pairs of states that follow each other, from states with sound locks and maps.
   */
  ghost predicate IsPair(c: Config, p: (State, State)) {
    LockInv(p.0) && MapInv(p.0) && Next(c, p.0, p.1) && p.1.tabs.Keys == {Attach, Detach}
  }

  /** The pairs of one run are among `pairs`. */
  ghost predicate RunsIn(pairs: iset<(State, State)>, run: seq<State>) {
    forall k, l :: 0 <= k < |run| - 1 && l == k + 1 ==> (run[k], run[l]) in pairs
  }

  lemma MapsOfRun(c: Config, run: seq<State>, j: nat)
    requires IsRun(c, run) && j < |run|
    ensures LockInv(run[j]) && MapInv(run[j]) && run[j].tabs.Keys == {Attach, Detach}
  {
    RunsKeepMaps(c, run, j);
  }

  lemma RunPair(c: Config, run: seq<State>, k: nat)
    requires IsRun(c, run) && k + 1 < |run|
    ensures IsPair(c, (run[k], run[k + 1]))
  {
    assert StepAt(c, run, k + 1);
    MapsOfRun(c, run, k);
    assert run[k + 1].tabs.Keys == {Attach, Detach} by { MapsOfRun(c, run, k + 1); }
  }

  lemma RunIsInPairs(c: Config, run: seq<State>, pairs: iset<(State, State)>)
    requires IsRun(c, run) && forall p :: IsPair(c, p) ==> p in pairs
    ensures RunsIn(pairs, run)
  {
    forall k, l | 0 <= k < |run| - 1 && l == k + 1 ensures (run[k], run[l]) in pairs {
      RunPair(c, run, k);
    }
  }

  /** Every pair keeps the batches of calls that own them throughout. */
  ghost predicate KeepBatches(pairs: iset<(State, State)>, u: Tid) {
    forall s, s' :: (s, s') in pairs && Owns(s, u) && Owns(s', u) ==> SameBatch(s, s', u)
  }

  lemma PairsKeepBatches(c: Config, u: Tid)
    ensures KeepBatches((iset p: (State, State) | IsPair(c, p)), u)
  {
    forall s, s' | IsPair(c, (s, s')) && Owns(s, u) && Owns(s', u) ensures SameBatch(s, s', u) {
      NextKeepsBatch(c, s, s', u);
    }
  }

  lemma {:induction false} SameBatchChains(states: seq<State>, n: nat, u: Tid)
    requires n < |states| && forall k :: 0 <= k < |states| ==> Owns(states[k], u)
    requires forall k :: 0 <= k < |states| - 1 ==> SameBatch(states[k], states[k + 1], u)
    ensures SameBatch(states[0], states[n], u)
  {
    if n > 0 {
      SameBatchChains(states, n - 1, u);
      assert SameBatch(states[n - 1], states[n - 1 + 1], u);
    }
  }

  /**
   * From its drain until its owner has an answer, a batch's map object is the owner's alone: it stays the same object,
   * and the only thing that ever changes it is the owner's own trimming.
   */
  lemma BatchesArePrivate(c: Config, run: seq<State>, i: nat, j: nat, u: Tid)
    requires IsRun(c, run) && i <= j < |run| && forall k :: i <= k <= j ==> Owns(run[k], u)
    ensures SameBatch(run[i], run[j], u)
  {
    var pairs := iset p: (State, State) | IsPair(c, p);
    RunIsInPairs(c, run, pairs);
    PairsKeepBatches(c, u);
    PrivateAlong(pairs, run, i, j, u);
  }

  lemma PrivateAlong(pairs: iset<(State, State)>, run: seq<State>, i: nat, j: nat, u: Tid)
    requires RunsIn(pairs, run) && KeepBatches(pairs, u) && i <= j < |run|
    requires forall k :: i <= k <= j ==> Owns(run[k], u)
    ensures SameBatch(run[i], run[j], u)
  {
    var states := run[i..j + 1];
    assert forall k :: 0 <= k < |states| ==> states[k] == run[i + k];
    forall k | 0 <= k < |states| - 1 ensures SameBatch(states[k], states[k + 1], u) {
      assert (run[i + k], run[i + k + 1]) in pairs;
    }
    SameBatchChains(states, j - i, u);
  }

  ghost predicate IsPending(s: State, kind: Kind, disk: string) {
    kind in s.tabs && disk in Pending(s.tabs[kind])
  }

  /**
   * Between these two states call t, holding the node lock, drained all that was pending, the disk's request included.
   */
  ghost predicate Drains(s: State, t: Tid, s': State, kind: Kind, disk: string) {
    && DrainSwapStep(s, t, s') && s.threads[t].kind == kind
    && NodeLock in s.locks && s.locks[NodeLock] == t
    && IsPending(s, kind, disk) && kind in s'.tabs
    && s'.tabs[kind].drains == s.tabs[kind].drains + [Drain(t, Pending(s.tabs[kind]).Keys)]
  }

  lemma NextDrains(c: Config, s: State, s': State, kind: Kind, disk: string) returns (t: Tid)
    requires LockInv(s) && MapInv(s) && kind in s'.tabs && Next(c, s, s')
    requires IsPending(s, kind, disk) && !IsPending(s', kind, disk)
    ensures Drains(s, t, s', kind, disk)
  {
    var a :| Step(c, s, a, s');
    RequestsLeaveByDrain(c, s, a, s', kind, disk);
    t := a.t;
  }

  lemma {:induction false} LastTrue(flags: seq<bool>, i: nat, j: nat) returns (k: nat)
    requires i < j < |flags| && flags[i] && !flags[j]
    ensures i <= k < j && flags[k] && !flags[k + 1]
    decreases j
  {
    if flags[j - 1] {
      k := j - 1;
    } else {
      k := LastTrue(flags, i, j - 1);
    }
  }

  /** Every pair that loses a pending request is a drain. */
  ghost predicate LoseByDrains(pairs: iset<(State, State)>, kind: Kind, disk: string) {
    forall s, s' :: (s, s') in pairs && IsPending(s, kind, disk) && !IsPending(s', kind, disk) ==>
      exists t :: Drains(s, t, s', kind, disk)
  }

  lemma PairsLoseByDrains(c: Config, kind: Kind, disk: string)
    requires kind != Update
    ensures LoseByDrains((iset p: (State, State) | IsPair(c, p)), kind, disk)
  {
    forall s, s' | IsPair(c, (s, s')) && IsPending(s, kind, disk) && !IsPending(s', kind, disk)
      ensures exists t :: Drains(s, t, s', kind, disk)
    {
      var t := NextDrains(c, s, s', kind, disk);
    }
  }

  /** A request that is pending at one moment and not at a later one was taken by a drain in between. */
  lemma RequestsAreTakenByDrains(c: Config, run: seq<State>, i: nat, j: nat, kind: Kind, disk: string)
    returns (k: nat, t: Tid)
    requires IsRun(c, run) && i <= j < |run| && kind != Update && IsPending(run[i], kind, disk)
      && !IsPending(run[j], kind, disk)
    ensures i <= k < j && Drains(run[k], t, run[k + 1], kind, disk)
  {
    var pairs := iset p: (State, State) | IsPair(c, p);
    RunIsInPairs(c, run, pairs);
    PairsLoseByDrains(c, kind, disk);
    k, t := TakenAlong(pairs, run, i, j, kind, disk);
  }

  lemma TakenAlong(pairs: iset<(State, State)>, run: seq<State>, i: nat, j: nat, kind: Kind, disk: string)
    returns (k: nat, t: Tid)
    requires RunsIn(pairs, run) && LoseByDrains(pairs, kind, disk)
    requires i <= j < |run| && IsPending(run[i], kind, disk) && !IsPending(run[j], kind, disk)
    ensures i <= k < j && Drains(run[k], t, run[k + 1], kind, disk)
  {
    var pending := seq(|run|, k requires 0 <= k < |run| => IsPending(run[k], kind, disk));
    k := LastTrue(pending, i, j);
    assert (run[k], run[k + 1]) in pairs;
    t :| Drains(run[k], t, run[k + 1], kind, disk);
  }
}
