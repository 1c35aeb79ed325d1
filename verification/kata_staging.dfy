/**
 * Why a volume's staging path must be its own: a publication to a guest releases the path that it is told, which need
 * not be the one that the volume is staged at.
 */
module KataStaging {
  import opened KataOwnership

  ghost predicate StepAt(run: seq<State>, acts: seq<Action>, i: nat)
    requires i < |acts| && |run| == |acts| + 1
  {
    Step(run[i], acts[i], run[i + 1])
  }

  ghost predicate Follows(run: seq<State>, acts: seq<Action>) {
    |run| == |acts| + 1 && forall i :: 0 <= i < |acts| ==> StepAt(run, acts, i)
  }

  /** A call that publishes the volume to a guest, undisturbed, up to its reply. */
  function GuestPublish(t: Tid, req: Request): seq<Action> {
    [Receive(t, req), Acquire(t), Scan(t, NotFound), Unmount(t), MakeDir(t), Truncate(t), Commit(t), Unlock(t)]
  }

  /** The volume is staged at no other path than the one that the call is told. */
  ghost predicate ToldTheStagingPath(s: State, req: Request) {
    forall p :: p in s.mounts && s.mounts[p] == Mount(req.vol, true) ==> p == req.staging
  }

  /**
   * The host has the volume mounted nowhere, for staging or at a target, but at the staging path that the call is told.
   */
  ghost predicate MountedOnlyThere(s: State, req: Request) {
    forall p :: p in s.mounts && s.mounts[p].vol == req.vol ==> p == req.staging
  }

  lemma ScanFindsNothing(s: State, a: State, b: State, s': State, t: Tid, req: Request)
    requires Step(s, Receive(t, req), a) && Step(a, Acquire(t), b) && Step(b, Scan(t, NotFound), s')
    requires req.kind.Publish? && Unmounts(s'.calls[t]).Some?
    ensures s' == State(s.calls[t := Call(req, Clear, false)], s.locks[req.vol := t], s.mounts, s.records)
    ensures Unclaimed(s, req.vol) && req.target !in s.mounts
  {
    assert forall p :: Claimed(b, p, req.vol) == Claimed(s, p, req.vol);
  }

  lemma StagingIsReleased(s: State, a: State, s': State, t: Tid, req: Request)
    requires t in s.calls && s.calls[t] == Call(req, Clear, false) && req.kind.Publish?
    requires Step(s, Unmount(t), a) && Step(a, MakeDir(t), s')
    ensures s'.calls == s.calls[t := Call(req, DirMade, false)] && s'.locks == s.locks
    ensures s'.mounts == s.mounts - {req.staging}
    ensures s'.records[req.target := Usable(req.vol)] == s.records[req.target := Usable(req.vol)]
  {
  }

  lemma RecordIsWritten(s: State, a: State, b: State, s': State, t: Tid, req: Request)
    requires t in s.calls && s.calls[t] == Call(req, DirMade, false) && req.kind.Publish?
    requires Step(s, Truncate(t), a) && Step(a, Commit(t), b) && Step(b, Unlock(t), s')
    ensures s' == State(s.calls[t := Call(req, Done(true), false)], s.locks - {req.vol}, s.mounts,
                        s.records[req.target := Usable(req.vol)])
  {
  }

  lemma PublishClears(run: seq<State>, t: Tid, req: Request)
    requires Follows(run, GuestPublish(t, req)) && req.kind.Publish?
    ensures run[3] == State(run[0].calls[t := Call(req, Clear, false)], run[0].locks[req.vol := t], run[0].mounts,
      run[0].records)
    ensures Unclaimed(run[0], req.vol) && req.target !in run[0].mounts
  {
    var acts := GuestPublish(t, req);
    assert StepAt(run, acts, 0) && StepAt(run, acts, 1) && StepAt(run, acts, 2) && StepAt(run, acts, 3);
    ScanFindsNothing(run[0], run[1], run[2], run[3], t, req);
  }

  lemma PublishReleases(run: seq<State>, t: Tid, req: Request)
    requires Follows(run, GuestPublish(t, req)) && req.kind.Publish?
    requires t in run[3].calls && run[3].calls[t] == Call(req, Clear, false)
    ensures t in run[5].calls && run[5].calls[t] == Call(req, DirMade, false)
      && run[5].mounts == run[3].mounts - {req.staging}
    ensures run[5].records[req.target := Usable(req.vol)] == run[3].records[req.target := Usable(req.vol)]
  {
    var acts := GuestPublish(t, req);
    assert StepAt(run, acts, 3) && StepAt(run, acts, 4);
    StagingIsReleased(run[3], run[4], run[5], t, req);
  }

  lemma PublishCommits(run: seq<State>, t: Tid, req: Request)
    requires Follows(run, GuestPublish(t, req)) && req.kind.Publish?
    requires t in run[5].calls && run[5].calls[t] == Call(req, DirMade, false)
    ensures t in run[8].calls && run[8].calls[t].pc == Done(true) && run[8].mounts == run[5].mounts
    ensures run[8].records == run[5].records[req.target := Usable(req.vol)]
  {
    var acts := GuestPublish(t, req);
    assert StepAt(run, acts, 5) && StepAt(run, acts, 6) && StepAt(run, acts, 7);
    RecordIsWritten(run[5], run[6], run[7], run[8], t, req);
  }

  lemma ReleaseLeavesTheRest(s: State, s': State, req: Request)
    requires s'.mounts == s.mounts - {req.staging}
    ensures !HostHolds(s', req.vol) <==> MountedOnlyThere(s, req)
    ensures !Staged(s', req.vol) <==> ToldTheStagingPath(s, req)
  {
    assert forall p :: p in s'.mounts <==> p in s.mounts && p != req.staging;
    assert forall p :: p in s'.mounts ==> s'.mounts[p] == s.mounts[p];
  }

  /**
   * The call releases the staging path that it is told and nothing else: host and guest do not share the disk
   * afterwards exactly when the host had it mounted there alone, and it is unstaged exactly when it was staged there
   * alone.
   */
  lemma PublishExcludesExactly(adr: Addressing, run: seq<State>, t: Tid, req: Request)
    requires Follows(run, GuestPublish(t, req)) && Inv(adr, run[0]) && req.kind.Publish?
    requires adr.owner(adr.staging(req.vol)) == req.vol && adr.owner(req.target) == req.vol
    ensures t in run[8].calls && run[8].calls[t].pc == Done(true) && Claimed(run[8], req.target, req.vol)
    ensures !HostHolds(run[8], req.vol) <==> MountedOnlyThere(run[0], req)
    ensures !Staged(run[8], req.vol) <==> ToldTheStagingPath(run[0], req)
    ensures ClaimsOk(adr, run[8], req.vol) <==> ToldTheStagingPath(run[0], req)
  {
    PublishClears(run, t, req);
    PublishReleases(run, t, req);
    PublishCommits(run, t, req);
    ReleaseLeavesTheRest(run[0], run[8], req);
    var s, s', staging := run[0], run[8], adr.staging(req.vol);
    assert forall p :: p in s.mounts ==> MountOwned(adr, p, s.mounts[p]);
    assert forall p :: Claimed(s', p, req.vol) ==> p == req.target || Claimed(s, p, req.vol);
    assert staging in s.mounts ==> s.mounts[staging] == Mount(req.vol, true);
    assert ClaimsOk(adr, s', req.vol) ==> ClaimOk(adr, s', req.target, req.vol);
  }

  lemma Extend(run: seq<State>, acts: seq<Action>, a: Action, s: State)
    requires Follows(run, acts) && Step(run[|acts|], a, s)
    ensures Follows(run + [s], acts + [a]) && (run + [s])[|acts| + 1] == s
  {
    forall i | 0 <= i < |acts| + 1 ensures StepAt(run + [s], acts + [a], i) {
      assert i < |acts| ==> StepAt(run, acts, i);
    }
  }

  lemma ScanCanFindNothing(s: State, t: Tid, req: Request) returns (run: seq<State>)
    requires t !in s.calls && req.vol !in s.locks && Unclaimed(s, req.vol)
    requires req.kind.Stage? || (req.kind.Publish? && req.target !in s.mounts)
    ensures Follows(run, [Receive(t, req), Acquire(t), Scan(t, NotFound)]) && run[0] == s
    ensures run[3] == State(s.calls[t := Call(req, Clear, false)], s.locks[req.vol := t], s.mounts, s.records)
  {
    var a := s.(calls := s.calls[t := Call(req, Start, false)]);
    var b := To(a, t, Locked).(locks := s.locks[req.vol := t]);
    var c := To(b, t, Clear);
    assert forall p :: Claimed(b, p, req.vol) == Claimed(s, p, req.vol);
    assert Follows([s], []);
    Extend([s], [], Receive(t, req), a);
    Extend([s, a], [Receive(t, req)], Acquire(t), b);
    Extend([s, a, b], [Receive(t, req), Acquire(t)], Scan(t, NotFound), c);
    run := [s, a, b, c];
  }

  lemma Joined(run: seq<State>, acts: seq<Action>, more: seq<State>, later: seq<Action>)
    requires Follows(run, acts) && Follows(more, later) && run[|acts|] == more[0]
    ensures Follows(run + more[1..], acts + later)
  {
    forall i | 0 <= i < |acts + later| ensures StepAt(run + more[1..], acts + later, i) {
      if i < |acts| {
        assert StepAt(run, acts, i);
      } else {
        assert StepAt(more, later, i - |acts|);
      }
    }
  }

  lemma CanRelease(s: State, t: Tid, req: Request) returns (run: seq<State>)
    requires t in s.calls && s.calls[t] == Call(req, Clear, false) && req.kind.Publish?
    ensures Follows(run, [Unmount(t), MakeDir(t)]) && run[0] == s
    ensures t in run[2].calls && run[2].calls[t] == Call(req, DirMade, false)
  {
    var a := To(s, t, Released).(mounts := s.mounts - {req.staging});
    var records := if req.target in a.records then a.records else a.records[req.target := Empty];
    var b := To(a, t, DirMade).(records := records);
    assert Follows([s], []);
    Extend([s], [], Unmount(t), a);
    Extend([s, a], [Unmount(t)], MakeDir(t), b);
    run := [s, a, b];
  }

  lemma CanCommit(s: State, t: Tid, req: Request) returns (run: seq<State>)
    requires t in s.calls && s.calls[t] == Call(req, DirMade, false) && req.kind.Publish?
    ensures Follows(run, [Truncate(t), Commit(t), Unlock(t)]) && run[0] == s
  {
    var a := To(s, t, Truncated).(records := s.records[req.target := Torn(req.vol)]);
    var b := To(a, t, Ending(true)).(records := a.records[req.target := Usable(req.vol)]);
    var c := To(b, t, Done(true)).(locks := b.locks - {req.vol});
    assert Follows([s], []);
    Extend([s], [], Truncate(t), a);
    Extend([s, a], [Truncate(t)], Commit(t), b);
    Extend([s, a, b], [Truncate(t), Commit(t)], Unlock(t), c);
    run := [s, a, b, c];
  }

  lemma CanPublish(s: State, t: Tid, req: Request) returns (run: seq<State>)
    requires t !in s.calls && req.vol !in s.locks && Unclaimed(s, req.vol)
    requires req.kind.Publish? && req.target !in s.mounts
    ensures Follows(run, GuestPublish(t, req)) && run[0] == s
  {
    var first := ScanCanFindNothing(s, t, req);
    var second := CanRelease(first[3], t, req);
    var third := CanCommit(second[2], t, req);
    var begin, middle := [Receive(t, req), Acquire(t), Scan(t, NotFound)], [Unmount(t), MakeDir(t)];
    var end := [Truncate(t), Commit(t), Unlock(t)];
    Joined(first, begin, second, middle);
    Joined(first + second[1..], begin + middle, third, end);
    assert begin + middle + end == GuestPublish(t, req);
    run := first + second[1..] + third[1..];
  }

  /** An undisturbed call that stages a volume. */
  function StageAlone(t: Tid, req: Request): seq<Action> {
    [Receive(t, req), Acquire(t), Scan(t, NotFound)] + [MountStaging(t, true), Unlock(t)]
  }

  lemma CanStage(s: State, t: Tid, req: Request) returns (run: seq<State>)
    requires t !in s.calls && req.vol !in s.locks && Unclaimed(s, req.vol) && req.kind.Stage?
    ensures Follows(run, StageAlone(t, req)) && run[0] == s
    ensures run[5].calls == s.calls[t := Call(req, Done(true), false)] && run[5].locks == s.locks - {req.vol}
    ensures run[5].mounts == Mounted(s.mounts, req.staging, Mount(req.vol, true)) && run[5].records == s.records
  {
    var first := ScanCanFindNothing(s, t, req);
    var c := first[3];
    var d := To(c, t, Ending(true)).(mounts := Mounted(s.mounts, req.staging, Mount(req.vol, true)));
    var e := To(d, t, Done(true)).(locks := d.locks - {req.vol});
    var begin := [Receive(t, req), Acquire(t), Scan(t, NotFound)];
    Extend(first, begin, MountStaging(t, true), d);
    Extend(first + [d], begin + [MountStaging(t, true)], Unlock(t), e);
    assert begin + [MountStaging(t, true)] + [Unlock(t)] == StageAlone(t, req);
    run := first + [d] + [e];
  }

  /** The other path can be told: a run stages the volume, and then a guest is given the disk while the host has it. */
  lemma OtherStagingPathBreaksExclusion(adr: Addressing, vol: Vol, target: Path, other: Path)
    returns (run: seq<State>, later: seq<State>)
    requires adr.owner(adr.staging(vol)) == vol && adr.owner(target) == vol
    requires target != adr.staging(vol) && other != adr.staging(vol)
    ensures IsRun(adr, run, StageAlone(0, Request(Stage, vol, adr.staging(vol), target)))
    ensures Follows(later, GuestPublish(1, Request(Publish, vol, other, target))) && later[0] == run[5]
    ensures Staged(later[8], vol) && Claimed(later[8], target, vol) && !ClaimsOk(adr, later[8], vol)
  {
    var stage, req := Request(Stage, vol, adr.staging(vol), target), Request(Publish, vol, other, target);
    var acts := StageAlone(0, stage);
    run := CanStage(State(map[], map[], map[], map[]), 0, stage);
    forall i | 0 <= i < |acts| ensures NextAt(adr, run, acts, i) {
      assert StepAt(run, acts, i);
    }
    RunsKeepInv(adr, run, acts, 5);
    later := CanPublish(run[5], 1, req);
    assert run[5].mounts[adr.staging(vol)] == Mount(vol, true);
    PublishExcludesExactly(adr, later, 1, req);
  }
}
