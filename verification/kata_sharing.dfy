/**
 * When host and guest share a disk. A publication to a guest releases the staging mount and looks at its own target,
 * not at other targets at which the host has the volume already.
 */
module KataSharing {
  import opened KataOwnership
  import opened KataStaging

  ghost predicate Shared(s: State, vol: Vol) {
    HostHolds(s, vol) && !Unclaimed(s, vol)
  }

  /** The call has released the staging mount for a guest and has not written its record yet. */
  predicate Writing(pc: Pc) {
    pc.Released? || pc.DirMade?
  }

  predicate Past(pc: Pc) {
    pc.Truncated? || pc.Ending? || pc.Done?
  }

  // ---------------------------------------------------------------------------------------------
  // One step

  /** The paths at which a volume is mounted are the same. */
  ghost predicate SameMounts(s: State, s': State, vol: Vol) {
    forall p :: (p in s.mounts && s.mounts[p].vol == vol) <==> (p in s'.mounts && s'.mounts[p].vol == vol)
  }

  predicate ChangesMounts(a: Action) {
    a.RepairStaging? || a.MountStaging? || a.Unmount? || a.Restore? || a.Bind?
  }

  lemma OthersLeaveMounts(s: State, a: Action, s': State)
    requires Step(s, a, s') && !ChangesMounts(a)
    ensures s'.mounts == s.mounts
  {
  }

  /** A mount changes under the lock of its own volume, at one of the call's two paths. */
  lemma MountsChangeAtOwnPaths(s: State, a: Action, s': State, p: Path)
    requires Step(s, a, s') && ChangesMounts(a)
    ensures a.t in s.calls && Holding(s.calls[a.t].pc)
    ensures p != s.calls[a.t].req.staging && p != s.calls[a.t].req.target ==>
      (p in s.mounts <==> p in s'.mounts) && (p in s.mounts ==> s'.mounts[p] == s.mounts[p])
    ensures p in s'.mounts ==>
      (p in s.mounts && s'.mounts[p] == s.mounts[p]) || s'.mounts[p].vol == s.calls[a.t].req.vol
  {
  }

  lemma HolderKeepsMounts(adr: Addressing, s: State, a: Action, s': State, t: Tid, vol: Vol)
    requires Inv(adr, s) && Step(s, a, s') && HeldBy(s, vol, t) && (a.Consume? || a.Crash? || a.t != t)
    ensures SameMounts(s, s', vol)
  {
    if ChangesMounts(a) {
      forall p ensures (p in s.mounts && s.mounts[p].vol == vol) <==> (p in s'.mounts && s'.mounts[p].vol == vol) {
        MountsChangeAtOwnPaths(s, a, s', p);
        assert HeldBy(s, s.calls[a.t].req.vol, a.t) && CallInv(adr, s, a.t);
        assert p in s.mounts ==> MountOwned(adr, p, s.mounts[p]);
      }
    } else {
      OthersLeaveMounts(s, a, s');
    }
  }

  lemma RecordsShrink(s: State, a: Action, s': State, vol: Vol, p: Path)
    requires Step(s, a, s') && !a.MakeDir? && !a.Truncate? && !a.Commit? && Claimed(s', p, vol)
    ensures Claimed(s, p, vol)
  {
  }

  lemma RecordsGrow(adr: Addressing, s: State, a: Action, s': State, vol: Vol, p: Path)
    requires Inv(adr, s) && (a.MakeDir? || a.Truncate? || a.Commit?) && AddStep(s, a.t, a, s')
    requires Claimed(s', p, vol) && !Claimed(s, p, vol)
    ensures a.Truncate? && At(s, a.t, Publish, DirMade) && s.calls[a.t].req.vol == vol
  {
    assert CallInv(adr, s, a.t);
  }

  /** Only the start of a record claims an unclaimed volume. */
  lemma ClaimStep(adr: Addressing, s: State, a: Action, s': State, vol: Vol, p: Path)
    requires Inv(adr, s) && Step(s, a, s') && Claimed(s', p, vol) && !Claimed(s, p, vol)
    ensures a.Truncate? && At(s, a.t, Publish, DirMade) && s.calls[a.t].req.vol == vol
  {
    if a.MakeDir? || a.Truncate? || a.Commit? {
      RecordsGrow(adr, s, a, s', vol, p);
    } else {
      RecordsShrink(s, a, s', vol, p);
    }
  }

  lemma MountStep(adr: Addressing, s: State, a: Action, s': State, vol: Vol)
    requires Inv(adr, s) && Step(s, a, s') && HostHolds(s', vol) && !HostHolds(s, vol)
    ensures Unclaimed(s, vol) && Unclaimed(s', vol)
  {
    if ChangesMounts(a) {
      assert CallInv(adr, s, a.t);
      var p :| p in s'.mounts && s'.mounts[p].vol == vol;
      MountsChangeAtOwnPaths(s, a, s', p);
      assert s.calls[a.t].req.vol == vol;
      MountsFollowScan(s, a, s', p);
      assert forall q :: Claimed(s', q, vol) == Claimed(s, q, vol);
    } else {
      OthersLeaveMounts(s, a, s');
      assert false;
    }
  }

  lemma MountsFollowScan(s: State, a: Action, s': State, p: Path)
    requires Step(s, a, s') && ChangesMounts(a) && p in s'.mounts && p !in s.mounts
    ensures a.t in s.calls && s'.records == s.records && (s.calls[a.t].pc.Clear? || At(s, a.t, Publish, Restored))
  {
  }

  /** No step but the start of a record brings host and guest together. */
  lemma SharingStep(adr: Addressing, s: State, a: Action, s': State, vol: Vol)
    requires Inv(adr, s) && Step(s, a, s') && !Shared(s, vol) && Shared(s', vol)
    ensures a.Truncate? && At(s, a.t, Publish, DirMade) && s.calls[a.t].req.vol == vol && HostHolds(s, vol)
  {
    if !HostHolds(s, vol) {
      MountStep(adr, s, a, s', vol);
      assert false;
    } else {
      var p :| Claimed(s', p, vol);
      ClaimStep(adr, s, a, s', vol, p);
    }
  }

  // ---------------------------------------------------------------------------------------------
  // Guest publications in a run

  /** The same call throughout: a crash in between would have dropped it. */
  ghost predicate Lasts(run: seq<State>, k: nat, m: nat, t: Tid) {
    k <= m < |run| && forall j :: k <= j <= m ==> t in run[j].calls
  }

  /** A call releases the volume's staging mount for a guest at k. */
  ghost predicate Releases(run: seq<State>, acts: seq<Action>, k: nat, t: Tid, vol: Vol) {
    k < |acts| <= |run| && acts[k] == Unmount(t) && At(run[k], t, Publish, Clear) && run[k].calls[t].req.vol == vol
  }

  /** A guest publication: what was released at k becomes a record at m. */
  ghost predicate GuestPublication(run: seq<State>, acts: seq<Action>, k: nat, m: nat, t: Tid, vol: Vol) {
    Releases(run, acts, k, t, vol) && k < m < |acts| && acts[m] == Truncate(t) && Lasts(run, k, m, t)
  }

  /** Where a publication that began with `alone` can be, while its call lasts. */
  ghost predicate Goes(s: State, t: Tid, req: Request, alone: bool) {
    && t in s.calls && s.calls[t].req == req
    && (Past(s.calls[t].pc) || (Writing(s.calls[t].pc) && HostHolds(s, req.vol) == !alone))
  }

  lemma ReleaseBegins(s: State, s': State, t: Tid)
    requires Step(s, Unmount(t), s') && At(s, t, Publish, Clear)
    ensures Writing(s'.calls[t].pc) && Goes(s', t, s.calls[t].req, MountedOnlyThere(s, s.calls[t].req))
  {
    ReleaseLeavesTheRest(s, s', s.calls[t].req);
  }

  lemma OwnStepGoes(s: State, a: Action, s': State, t: Tid)
    requires Step(s, a, s') && !a.Consume? && !a.Crash? && a.t == t && t in s.calls && s.calls[t].req.kind.Publish?
    requires Writing(s.calls[t].pc) || Past(s.calls[t].pc)
    ensures t in s'.calls && s'.calls[t].req == s.calls[t].req
    ensures Past(s'.calls[t].pc) || (Writing(s.calls[t].pc) && Writing(s'.calls[t].pc) && s'.mounts == s.mounts)
  {
  }

  lemma OtherStepGoes(s: State, a: Action, s': State, t: Tid)
    requires Step(s, a, s') && (a.Consume? || a.Crash? || a.t != t) && t in s.calls && t in s'.calls
    ensures s'.calls[t].req == s.calls[t].req && s'.calls[t].pc == s.calls[t].pc
  {
  }

  lemma HolderHolds(adr: Addressing, s: State, t: Tid)
    requires Inv(adr, s) && t in s.calls && Holding(s.calls[t].pc)
    ensures HeldBy(s, s.calls[t].req.vol, t)
  {
  }

  lemma HostHoldsStill(s: State, s': State, vol: Vol)
    requires SameMounts(s, s', vol)
    ensures HostHolds(s', vol) == HostHolds(s, vol)
  {
  }

  lemma OthersLetItGo(adr: Addressing, s: State, a: Action, s': State, t: Tid, req: Request, alone: bool)
    requires Inv(adr, s) && Step(s, a, s') && (a.Consume? || a.Crash? || a.t != t)
    requires Goes(s, t, req, alone) && t in s'.calls
    ensures Goes(s', t, req, alone)
  {
    OtherStepGoes(s, a, s', t);
    if Writing(s.calls[t].pc) {
      HolderHolds(adr, s, t);
      HolderKeepsMounts(adr, s, a, s', t, req.vol);
      HostHoldsStill(s, s', req.vol);
    }
  }

  lemma StepGoes(adr: Addressing, s: State, a: Action, s': State, t: Tid, req: Request, alone: bool)
    requires Inv(adr, s) && Step(s, a, s') && Goes(s, t, req, alone) && req.kind.Publish? && t in s'.calls
    ensures Goes(s', t, req, alone)
  {
    if a.Consume? || a.Crash? || a.t != t {
      OthersLetItGo(adr, s, a, s', t, req, alone);
    } else {
      OwnStepGoes(s, a, s', t);
    }
  }

  /** From its release on, a publication stays alone or not alone until it writes its record. */
  lemma {:induction false} PublicationGoes(adr: Addressing, run: seq<State>, acts: seq<Action>, k: nat, j: nat, t: Tid,
      vol: Vol, req: Request, alone: bool)
    requires IsRun(adr, run, acts) && Releases(run, acts, k, t, vol) && k < j && Lasts(run, k, j, t)
    requires req == run[k].calls[t].req && alone == MountedOnlyThere(run[k], req)
    ensures Goes(run[j], t, req, alone)
    decreases j
  {
    if k + 1 == j {
      assert NextAt(adr, run, acts, k);
      ReleaseBegins(run[k], run[j], t);
    } else {
      RunsKeepInv(adr, run, acts, j - 1);
      PublicationGoes(adr, run, acts, k, j - 1, t, vol, req, alone);
      assert NextAt(adr, run, acts, j - 1);
      StepGoes(adr, run[j - 1], acts[j - 1], run[j], t, req, alone);
    }
  }

  lemma OtherStepFound(s: State, a: Action, s': State, t: Tid)
    requires Step(s, a, s') && (a.Consume? || a.Crash? || a.t != t) && t in s'.calls
    ensures t in s.calls && s.calls[t].req == s'.calls[t].req && s.calls[t].pc == s'.calls[t].pc
  {
  }

  lemma OwnStepBegins(s: State, a: Action, s': State, t: Tid)
    requires Step(s, a, s') && !a.Consume? && !a.Crash? && a.t == t
    requires t in s'.calls && s'.calls[t].req.kind.Publish? && Writing(s'.calls[t].pc)
    ensures t in s.calls && s.calls[t].req == s'.calls[t].req
    ensures s.calls[t].pc.Released? || (a == Unmount(t) && At(s, t, Publish, Clear))
  {
  }

  /** A call that is writing was there a step before: writing already, or releasing the staging mount. */
  lemma WritingBegins(s: State, a: Action, s': State, t: Tid)
    requires Step(s, a, s') && t in s'.calls && s'.calls[t].req.kind.Publish? && Writing(s'.calls[t].pc)
    ensures t in s.calls && s.calls[t].req == s'.calls[t].req
    ensures Writing(s.calls[t].pc) || (a == Unmount(t) && At(s, t, Publish, Clear))
  {
    if a.Consume? || a.Crash? || a.t != t {
      OtherStepFound(s, a, s', t);
    } else {
      OwnStepBegins(s, a, s', t);
    }
  }

  lemma {:induction false} ReleaseOf(adr: Addressing, run: seq<State>, acts: seq<Action>, m: nat, t: Tid)
    returns (k: nat)
    requires IsRun(adr, run, acts) && m < |run| && t in run[m].calls
    requires run[m].calls[t].req.kind.Publish? && Writing(run[m].calls[t].pc)
    ensures k < m && Lasts(run, k, m, t) && Releases(run, acts, k, t, run[m].calls[t].req.vol)
    ensures run[k].calls[t].req == run[m].calls[t].req
  {
    if m == 0 {
      assert false;
    } else {
      assert NextAt(adr, run, acts, m - 1);
      WritingBegins(run[m - 1], acts[m - 1], run[m], t);
      if Writing(run[m - 1].calls[t].pc) {
        k := ReleaseOf(adr, run, acts, m - 1, t);
      } else {
        k := m - 1;
      }
    }
  }

  ghost predicate NeverShared(run: seq<State>, vol: Vol) {
    forall i :: 0 <= i < |run| ==> !Shared(run[i], vol)
  }

  /**
   * Each publication of the volume to a guest finds it mounted nowhere but at the staging path: no other target has it.
   */
  ghost predicate GuestsComeAlone(run: seq<State>, acts: seq<Action>, vol: Vol) {
    forall k: nat, m: nat, t :: GuestPublication(run, acts, k, m, t, vol) ==>
      MountedOnlyThere(run[k], run[k].calls[t].req)
  }

  lemma PublicationShares(adr: Addressing, run: seq<State>, acts: seq<Action>, k: nat, m: nat, t: Tid, vol: Vol)
    requires IsRun(adr, run, acts) && GuestPublication(run, acts, k, m, t, vol)
    ensures m + 1 < |run| && (Shared(run[m + 1], vol) <==> !MountedOnlyThere(run[k], run[k].calls[t].req))
  {
    var req := run[k].calls[t].req;
    PublicationGoes(adr, run, acts, k, m, t, vol, req, MountedOnlyThere(run[k], req));
    assert NextAt(adr, run, acts, m);
    RecordClaims(run[m], run[m + 1], t);
  }

  lemma RecordClaims(s: State, s': State, t: Tid)
    requires Step(s, Truncate(t), s')
    ensures At(s, t, Publish, DirMade) && s'.mounts == s.mounts
      && Claimed(s', s.calls[t].req.target, s.calls[t].req.vol)
  {
  }

  lemma {:induction false} AloneIsUnshared(adr: Addressing, run: seq<State>, acts: seq<Action>, vol: Vol, i: nat)
    requires IsRun(adr, run, acts) && i < |run| && GuestsComeAlone(run, acts, vol)
    ensures !Shared(run[i], vol)
  {
    if i > 0 {
      AloneIsUnshared(adr, run, acts, vol, i - 1);
      RunsKeepInv(adr, run, acts, i - 1);
      assert NextAt(adr, run, acts, i - 1);
      if Shared(run[i], vol) {
        SharingStep(adr, run[i - 1], acts[i - 1], run[i], vol);
        var t := acts[i - 1].t;
        var k := ReleaseOf(adr, run, acts, i - 1, t);
        assert GuestPublication(run, acts, k, i - 1, t, vol);
        PublicationShares(adr, run, acts, k, i - 1, t, vol);
      }
    }
  }

  /**
   * Over whole runs, with any interleaving and crashes: host and guest never share a volume if and only if each of its
   * publications to a guest found it mounted nowhere but at the staging path.
   */
  lemma OwnershipIsExclusive(adr: Addressing, run: seq<State>, acts: seq<Action>, vol: Vol)
    requires IsRun(adr, run, acts)
    ensures NeverShared(run, vol) <==> GuestsComeAlone(run, acts, vol)
  {
    if GuestsComeAlone(run, acts, vol) {
      forall i | 0 <= i < |run| ensures !Shared(run[i], vol) {
        AloneIsUnshared(adr, run, acts, vol, i);
      }
    }
    if NeverShared(run, vol) {
      forall k: nat, m: nat, t | GuestPublication(run, acts, k, m, t, vol)
        ensures MountedOnlyThere(run[k], run[k].calls[t].req)
      {
        PublicationShares(adr, run, acts, k, m, t, vol);
      }
    }
  }

  // ---------------------------------------------------------------------------------------------
  // A second target

  /** An undisturbed call that publishes the volume to the host. */
  function HostPublish(t: Tid, req: Request): seq<Action> {
    [Receive(t, req), Acquire(t), Scan(t, NotFound)] + [Restore(t), Bind(t, true)] + [Unlock(t)]
  }

  lemma CanBind(s: State, t: Tid, req: Request) returns (run: seq<State>)
    requires t in s.calls && s.calls[t] == Call(req, Clear, false) && req.kind.Publish? && req.staging in s.mounts
    ensures KataStaging.Follows(run, [Restore(t), Bind(t, true)]) && run[0] == s
    ensures run[2] == To(s, t, Ending(true)).(mounts := Mounted(s.mounts, req.target, Mount(req.vol, false)))
  {
    var a := To(s, t, Restored);
    var b := To(a, t, Ending(true)).(mounts := Mounted(s.mounts, req.target, Mount(req.vol, false)));
    assert KataStaging.Follows([s], []);
    Extend([s], [], Restore(t), a);
    Extend([s, a], [Restore(t)], Bind(t, true), b);
    run := [s, a, b];
  }

  lemma CanPublishToHost(s: State, t: Tid, req: Request) returns (run: seq<State>)
    requires t !in s.calls && req.vol !in s.locks && Unclaimed(s, req.vol)
    requires req.kind.Publish? && req.target !in s.mounts && req.staging in s.mounts
    ensures KataStaging.Follows(run, HostPublish(t, req)) && run[0] == s
    ensures run[6].calls == s.calls[t := Call(req, Done(true), false)] && run[6].locks == s.locks - {req.vol}
    ensures run[6].mounts == s.mounts[req.target := Mount(req.vol, false)] && run[6].records == s.records
  {
    var first := ScanCanFindNothing(s, t, req);
    var second := CanBind(first[3], t, req);
    var end := To(second[2], t, Done(true)).(locks := second[2].locks - {req.vol});
    var begin, middle := [Receive(t, req), Acquire(t), Scan(t, NotFound)], [Restore(t), Bind(t, true)];
    Joined(first, begin, second, middle);
    Extend(first + second[1..], begin + middle, Unlock(t), end);
    run := first + second[1..] + [end];
  }

  /** Three calls in a row, each told the staging path in use. */
  function ThreeCalls(adr: Addressing, vol: Vol, first: Path, second: Path): seq<Action> {
    StageAlone(0, Request(Stage, vol, adr.staging(vol), first))
    + HostPublish(1, Request(Publish, vol, adr.staging(vol), first))
    + GuestPublish(2, Request(Publish, vol, adr.staging(vol), second))
  }

  lemma FollowsIsRun(adr: Addressing, run: seq<State>, acts: seq<Action>)
    requires KataStaging.Follows(run, acts) && Init(run[0])
    requires forall i :: 0 <= i < |acts| && acts[i].Receive? ==> WellAddressed(adr, acts[i].req)
    ensures IsRun(adr, run, acts)
  {
    forall i | 0 <= i < |acts| ensures NextAt(adr, run, acts, i) {
      assert StepAt(run, acts, i);
    }
  }

  lemma GuestEnds(run: seq<State>, t: Tid, req: Request)
    requires KataStaging.Follows(run, GuestPublish(t, req)) && req.kind.Publish?
    ensures Claimed(run[8], req.target, req.vol) && run[8].mounts == run[0].mounts - {req.staging}
  {
    PublishClears(run, t, req);
    PublishReleases(run, t, req);
    PublishCommits(run, t, req);
  }

  lemma BothHold(s: State, vol: Vol, p: Path, q: Path)
    requires p in s.mounts && s.mounts[p].vol == vol && Claimed(s, q, vol)
    ensures Shared(s, vol)
  {
  }

  /**
   * The condition can fail although every call is told the right paths: the volume is staged, published to the host at
   * one target, and then to a guest at another; the guest gets the disk while the host has it mounted at the first.
   */
  lemma SecondTargetBreaksExclusion(adr: Addressing, vol: Vol, first: Path, second: Path) returns (run: seq<State>)
    requires adr.owner(adr.staging(vol)) == adr.owner(first) == adr.owner(second) == vol
    requires first != adr.staging(vol) && second != adr.staging(vol) && first != second
    ensures IsRun(adr, run, ThreeCalls(adr, vol, first, second))
    ensures var s := run[|run| - 1];
            Claimed(s, second, vol) && s.mounts == map[first := Mount(vol, false)] && Shared(s, vol)
  {
    var staging := adr.staging(vol);
    var stage, host := Request(Stage, vol, staging, first), Request(Publish, vol, staging, first);
    var guest := Request(Publish, vol, staging, second);
    var a := CanStage(State(map[], map[], map[], map[]), 0, stage);
    var b := CanPublishToHost(a[5], 1, host);
    var c := CanPublish(b[6], 2, guest);
    GuestEnds(c, 2, guest);
    BothHold(c[8], vol, first, second);
    Joined(a, StageAlone(0, stage), b, HostPublish(1, host));
    Joined(a + b[1..], StageAlone(0, stage) + HostPublish(1, host), c, GuestPublish(2, guest));
    run := a + b[1..] + c[1..];
    FollowsIsRun(adr, run, ThreeCalls(adr, vol, first, second));
    assert run[|run| - 1] == c[8];
  }
}
