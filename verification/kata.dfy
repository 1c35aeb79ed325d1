/**
 * Who owns a disk on a node with Kata direct volumes: the host, through the driver's mounts, or a guest, through a Kata
 * record. Any number of CSI calls for filesystem volumes run at once, interleaved at every change of mounts and
 * records; the driver may crash at any point, which drops the volume locks and the calls but nothing else.
 */
module KataOwnership {
  import opened Text

  type Tid = nat
  type Vol = string
  type Path = string

  // ---------------------------------------------------------------------------------------------
  // The inventory of Kata records

  /** What is at a record's directory: no metadata file, one that does not parse, or one that names a volume. */
  datatype Record = Empty | Torn(vol: Vol) | Usable(vol: Vol)

  /** A directory entry: its name may not decode; reading the record may find nothing, fail, or yield the metadata. */
  datatype Entry = Entry(path: Option<Path>, read: Reading)
  datatype Reading = NotExist | Unusable | Info(volumeID: Option<Vol>)

  datatype Inventory = ScanError | NotFound | Found(path: Path)

  predicate Breaks(e: Entry) {
    e.path.None? || e.read.Unusable?
  }

  predicate Names(e: Entry, vol: Vol) {
    !Breaks(e) && e.read.Info? && e.read.volumeID == Some(vol)
  }

  predicate Decides(e: Entry, vol: Vol) {
    Breaks(e) || Names(e, vol)
  }

  ghost predicate FirstDecider(entries: seq<Entry>, vol: Vol, i: int) {
    0 <= i < |entries| && Decides(entries[i], vol) && forall j :: 0 <= j < i ==> !Decides(entries[j], vol)
  }

  /** The first entry that is broken or names the volume decides. */
  ghost predicate IsInventory(entries: Option<seq<Entry>>, vol: Vol, r: Inventory) {
    match r
    case ScanError => entries.None? || exists i :: FirstDecider(entries.value, vol, i) && Breaks(entries.value[i])
    case NotFound => entries.Some? && forall i :: 0 <= i < |entries.value| ==> !Decides(entries.value[i], vol)
    case Found(p) =>
      && entries.Some?
      && exists i ::
        && FirstDecider(entries.value, vol, i) && Names(entries.value[i], vol)
        && entries.value[i].path == Some(p)
  }

  method KataFindMountInfo(entries: Option<seq<Entry>>, vol: Vol) returns (r: Inventory)
    ensures IsInventory(entries, vol, r)
  {
    if entries.None? {
      return ScanError;
    }
    for i := 0 to |entries.value|
      invariant forall j :: 0 <= j < i ==> !Decides(entries.value[j], vol)
    {
      var e := entries.value[i];
      assert Decides(e, vol) ==> FirstDecider(entries.value, vol, i);
      if e.path.None? {
        return ScanError;
      }
      match e.read
      case NotExist =>
      case Unusable => return ScanError;
      case Info(id) =>
        if id == Some(vol) {
          return Found(e.path.value);
        }
    }
    return NotFound;
  }

  // ---------------------------------------------------------------------------------------------
  // Volume locks

  class VolumeLocks {
    var locks: set<Vol>

    constructor ()
      ensures locks == {}
    {
      locks := {};
    }

    method TryAcquire(vol: Vol) returns (acquired: bool)
      modifies this
      ensures acquired == (vol !in old(locks)) && locks == old(locks) + {vol}
    {
      if vol in locks {
        return false;
      }
      locks := locks + {vol};
      return true;
    }

    method Release(vol: Vol)
      modifies this
      ensures locks == old(locks) - {vol}
    {
      locks := locks - {vol};
    }
  }

  // ---------------------------------------------------------------------------------------------
  // The node

  datatype Kind = Stage | Unstage | Publish | Unpublish

  datatype Request = Request(kind: Kind, vol: Vol, staging: Path, target: Path)

  datatype Pc =
    | Start
    | Locked
    | Clear                 // no record names the volume (and, to publish, the target is not mounted)
    | Released              // kata publish: the staging mount is gone
    | DirMade | Truncated   // AddMountInfo, before its metadata is written
    | Restored              // host publish: staging is mounted
    | Unmounted             // unpublish: the target is not mounted
    | FileGone              // Remove, before the directory goes
    | Ending(ok: bool)
    | Done(ok: bool)

  /** `consumed` is history: the Kata runtime removed metadata of the volume while this call had the volume's lock. */
  datatype Call = Call(req: Request, pc: Pc, consumed: bool)

  /** The volume behind a mount, and whether it was mounted for staging or bound to a target. */
  datatype Mount = Mount(vol: Vol, staged: bool)

  datatype State = State(calls: map<Tid, Call>, locks: map<Vol, Tid>, mounts: map<Path, Mount>,
    records: map<Path, Record>)

  predicate Holding(pc: Pc) {
    !pc.Start? && !pc.Done?
  }

  /** What is mounted already stays. */
  function Mounted(mounts: map<Path, Mount>, p: Path, m: Mount): map<Path, Mount> {
    if p in mounts then mounts else mounts[p := m]
  }

  /** A record claims the disk for a guest even while its metadata cannot be read. */
  predicate Claimed(s: State, p: Path, vol: Vol) {
    p in s.records && !s.records[p].Empty? && s.records[p].vol == vol
  }

  datatype Action =
    | Receive(t: Tid, req: Request)
    | Acquire(t: Tid)
    | Scan(t: Tid, found: Inventory)
    | Fail(t: Tid)
    | RepairStaging(t: Tid)
    | MountStaging(t: Tid, ok: bool)
    | Unmount(t: Tid)
    | MakeDir(t: Tid) | Truncate(t: Tid) | Commit(t: Tid)
    | Restore(t: Tid) | Bind(t: Tid, ok: bool)
    | RemoveFile(t: Tid) | RemoveDir(t: Tid)
    | Unlock(t: Tid)
    | Consume(p: Path)
    | Crash

  ghost predicate At(s: State, t: Tid, kind: Kind, pc: Pc) {
    t in s.calls && s.calls[t].req.kind == kind && s.calls[t].pc == pc
  }

  function To(s: State, t: Tid, pc: Pc): State
    requires t in s.calls
  {
    s.(calls := s.calls[t := s.calls[t].(pc := pc)])
  }

  /**
   * What a scan under the volume's lock can report: it may fail, and other volumes' records may change under it, but it
   * does not miss a record of its own volume, and a torn one does not let it end with nothing.
   */
  ghost predicate Reports(s: State, vol: Vol, found: Inventory) {
    match found
    case ScanError => true
    case Found(p) => p in s.records && s.records[p] == Usable(vol)
    case NotFound => forall p :: !Claimed(s, p, vol)
  }

  function ReadOf(r: Record): Reading {
    match r
    case Empty => NotExist
    case Torn(_) => Unusable
    case Usable(vol) => Info(Some(vol))
  }

  /** The directory holds an entry for each record. */
  ghost predicate Listing(records: map<Path, Record>, entries: seq<Entry>) {
    && (forall i :: 0 <= i < |entries| ==>
      entries[i].path.Some? && entries[i].path.value in records
        && entries[i].read == ReadOf(records[entries[i].path.value]))
    && (forall p :: p in records ==> Entry(Some(p), ReadOf(records[p])) in entries)
  }

  /** What the scan finds in a directory that holds still is what a scan can report. */
  lemma InventoryReports(s: State, entries: seq<Entry>, vol: Vol, r: Inventory)
    requires Listing(s.records, entries) && IsInventory(Some(entries), vol, r)
    ensures Reports(s, vol, r)
    ensures r.NotFound? <==> forall p :: p in s.records ==> !s.records[p].Torn? && s.records[p] != Usable(vol)
  {
    forall p | p in s.records
      ensures exists i :: 0 <= i < |entries| && entries[i] == Entry(Some(p), ReadOf(s.records[p]))
    {
    }
  }

  function AfterScan(s: State, req: Request, found: Inventory): Pc {
    match found
    case ScanError => Ending(false)
    case Found(p) => Ending(req.kind.Stage? || p == req.target)
    case NotFound => if req.kind.Publish? && req.target in s.mounts then Ending(true) else Clear
  }

  /** The path a call unmounts where it is, and where it goes from there. */
  function Unmounts(call: Call): Option<(Path, Pc)> {
    if call.req.kind.Unstage? && call.pc.Locked? then Some((call.req.staging, Ending(true)))
    else if call.req.kind.Publish? && call.pc.Clear? then Some((call.req.staging, Released))
    else if call.req.kind.Unpublish? && call.pc.Locked? then Some((call.req.target, Unmounted))
    else None
  }

  /** A volume lock is never waited for: a call that does not get it is aborted. */
  ghost predicate AcquireStep(s: State, t: Tid, s': State) {
    && t in s.calls && s.calls[t].pc.Start?
    && var vol := s.calls[t].req.vol;
    s' == if vol in s.locks then To(s, t, Done(false)) else To(s, t, Locked).(locks := s.locks[vol := t])
  }

  ghost predicate ScanStep(s: State, t: Tid, found: Inventory, s': State) {
    && (At(s, t, Stage, Locked) || At(s, t, Publish, Locked))
    && Reports(s, s.calls[t].req.vol, found)
    && s' == To(s, t, AfterScan(s, s.calls[t].req, found))
  }

  ghost predicate FailStep(s: State, t: Tid, s': State) {
    t in s.calls && Holding(s.calls[t].pc) && !s.calls[t].pc.Ending? && s' == To(s, t, Ending(false))
  }

  /** ensureMountPoint unmounts a staging mount it cannot read; otherwise an existing mount is left as it is. */
  ghost predicate StageStep(s: State, t: Tid, a: Action, s': State) {
    && At(s, t, Stage, Clear)
    && var path := s.calls[t].req.staging;
    if a.RepairStaging? then s' == s.(mounts := s.mounts - {path})
    else
      && a.MountStaging?
      && s' == To(s, t, Ending(a.ok)).(mounts := Mounted(s.mounts, path, Mount(s.calls[t].req.vol, true)))
  }

  ghost predicate UnmountStep(s: State, t: Tid, s': State) {
    && t in s.calls && Unmounts(s.calls[t]).Some?
    && var (path, pc) := Unmounts(s.calls[t]).value;
    s' == To(s, t, pc).(mounts := s.mounts - {path})
  }

  ghost predicate AddStep(s: State, t: Tid, a: Action, s': State) {
    && t in s.calls
    && var target := s.calls[t].req.target; var vol := s.calls[t].req.vol;
    match a
    case MakeDir(_) =>
      && At(s, t, Publish, Released)
      && s' == To(s, t, DirMade).(records := if target in s.records then s.records else s.records[target := Empty])
    case Truncate(_) =>
      && At(s, t, Publish, DirMade)
      && s' == To(s, t, Truncated).(records := s.records[target := Torn(vol)])
    case Commit(_) =>
      && At(s, t, Publish, Truncated)
      && s' == To(s, t, Ending(true)).(records := s.records[target := Usable(vol)])
    case _ => false
  }

  ghost predicate HostStep(s: State, t: Tid, a: Action, s': State) {
    && t in s.calls
    && var req := s.calls[t].req;
       match a
       case Restore(_) =>
         At(s, t, Publish, Clear)
           && s' == To(s, t, Restored).(mounts := Mounted(s.mounts, req.staging, Mount(req.vol, true)))
       case Bind(_, ok) =>
         At(s, t, Publish, Restored)
           && s' == To(s, t, Ending(ok)).(mounts := Mounted(s.mounts, req.target, Mount(req.vol, false)))
       case _ => false
  }

  /** RemoveAll takes the metadata file first and the directory last. */
  ghost predicate RemoveStep(s: State, t: Tid, a: Action, s': State) {
    && t in s.calls
    && var target := s.calls[t].req.target;
    match a
    case RemoveFile(_) =>
      && At(s, t, Unpublish, Unmounted)
      && s' == To(s, t, FileGone).(records := if target in s.records then s.records[target := Empty] else s.records)
    case RemoveDir(_) => At(s, t, Unpublish, FileGone) && s' == To(s, t, Ending(true)).(records := s.records - {target})
    case _ => false
  }

  ghost predicate UnlockStep(s: State, t: Tid, s': State) {
    && t in s.calls && s.calls[t].pc.Ending?
    && s' == To(s, t, Done(s.calls[t].pc.ok)).(locks := s.locks - {s.calls[t].req.vol})
  }

  function Noted(calls: map<Tid, Call>, vol: Vol): map<Tid, Call> {
    map t | t in calls ::
      if calls[t].req.vol == vol && Holding(calls[t].pc) then calls[t].(consumed := true) else calls[t]
  }

  /** The Kata runtime drops the metadata of a volume its guest has released. */
  ghost predicate ConsumeStep(s: State, p: Path, s': State) {
    && p in s.records && s.records[p].Usable?
    && s' == s.(records := s.records[p := Empty], calls := Noted(s.calls, s.records[p].vol))
  }

  ghost predicate Step(s: State, a: Action, s': State) {
    match a
    case Receive(t, req) => t !in s.calls && s' == s.(calls := s.calls[t := Call(req, Start, false)])
    case Acquire(t) => AcquireStep(s, t, s')
    case Scan(t, found) => ScanStep(s, t, found, s')
    case Fail(t) => FailStep(s, t, s')
    case RepairStaging(t) => StageStep(s, t, a, s')
    case MountStaging(t, _) => StageStep(s, t, a, s')
    case Unmount(t) => UnmountStep(s, t, s')
    case MakeDir(t) => AddStep(s, t, a, s')
    case Truncate(t) => AddStep(s, t, a, s')
    case Commit(t) => AddStep(s, t, a, s')
    case Restore(t) => HostStep(s, t, a, s')
    case Bind(t, _) => HostStep(s, t, a, s')
    case RemoveFile(t) => RemoveStep(s, t, a, s')
    case RemoveDir(t) => RemoveStep(s, t, a, s')
    case Unlock(t) => UnlockStep(s, t, s')
    case Consume(p) => ConsumeStep(s, p, s')
    case Crash => s' == s.(calls := map[], locks := map[])
  }

  predicate Init(s: State) {
    s == State(map[], map[], map[], map[])
  }

  // ---------------------------------------------------------------------------------------------
  // The invariant

  /** How the container orchestrator chooses paths: one staging path per volume, and no path for two uses. */
  datatype Addressing = Addressing(staging: Vol -> Path, owner: Path -> Vol)

  ghost predicate WellAddressed(adr: Addressing, req: Request) {
    && req.staging == adr.staging(req.vol) && adr.owner(req.staging) == req.vol
    && adr.owner(req.target) == req.vol && req.target != req.staging
  }

  ghost predicate ClaimOk(adr: Addressing, s: State, p: Path, vol: Vol) {
    adr.owner(p) == vol && adr.owner(adr.staging(vol)) == vol && p !in s.mounts && adr.staging(vol) !in s.mounts
  }

  /** The host has the volume's disk mounted, staged or bound, wherever that is. */
  ghost predicate HostHolds(s: State, vol: Vol) {
    exists p :: p in s.mounts && s.mounts[p].vol == vol
  }

  ghost predicate Staged(s: State, vol: Vol) {
    exists p :: p in s.mounts && s.mounts[p] == Mount(vol, true)
  }

  /**
   * A guest's claim is unique, and neither its target nor the volume's staging path is mounted; other targets may be.
   */
  ghost predicate ClaimsOk(adr: Addressing, s: State, vol: Vol) {
    && (forall p :: Claimed(s, p, vol) ==> ClaimOk(adr, s, p, vol))
    && (forall p, q :: Claimed(s, p, vol) && Claimed(s, q, vol) ==> p == q)
  }

  ghost predicate Unclaimed(s: State, vol: Vol) {
    forall p :: !Claimed(s, p, vol)
  }

  /** At most the call's own target is claimed. */
  ghost predicate ClaimedOnlyAt(s: State, vol: Vol, target: Path) {
    forall p :: Claimed(s, p, vol) ==> p == target
  }

  /** What a call knows about its volume while it has the lock. */
  ghost predicate Knows(s: State, call: Call) {
    var req := call.req;
    match call.pc
    case Clear => Unclaimed(s, req.vol) && (req.kind.Publish? ==> req.target !in s.mounts)
    case Released => req.kind.Publish? && Unclaimed(s, req.vol) && req.target !in s.mounts && req.staging !in s.mounts
    case DirMade => req.kind.Publish? && Unclaimed(s, req.vol) && req.target !in s.mounts && req.staging !in s.mounts
    case Truncated =>
      && req.kind.Publish? && ClaimedOnlyAt(s, req.vol, req.target) && req.target !in s.mounts
        && req.staging !in s.mounts
      && req.target in s.records && s.records[req.target] == Torn(req.vol)
    case Restored => req.kind.Publish? && Unclaimed(s, req.vol) && req.staging in s.mounts
    case Unmounted => req.kind.Unpublish? && req.target !in s.mounts
    case FileGone => req.kind.Unpublish? && req.target !in s.mounts && !Claimed(s, req.target, req.vol)
    case Ending(ok) => ok ==> Achieved(s, call)
    case _ => true
  }

  /** What a successful reply asserts; only metadata removed under the call's own lock excuses it. */
  ghost predicate Achieved(s: State, call: Call) {
    var req := call.req;
    match req.kind
    case Stage => req.staging in s.mounts || !Unclaimed(s, req.vol) || call.consumed
    case Unstage => req.staging !in s.mounts
    case Publish => req.target in s.mounts || Claimed(s, req.target, req.vol) || call.consumed
    case Unpublish => req.target !in s.mounts && !Claimed(s, req.target, req.vol)
  }

  ghost predicate LockInv(s: State) {
    && (forall v :: v in s.locks ==> HeldBy(s, v, s.locks[v]))
    && (forall t :: t in s.calls && Holding(s.calls[t].pc) ==> HeldBy(s, s.calls[t].req.vol, t))
  }

  ghost predicate HeldBy(s: State, v: Vol, t: Tid) {
    v in s.locks && s.locks[v] == t && t in s.calls && s.calls[t].req.vol == v && Holding(s.calls[t].pc)
  }

  ghost predicate CallInv(adr: Addressing, s: State, t: Tid)
    requires t in s.calls
  {
    WellAddressed(adr, s.calls[t].req) && Knows(s, s.calls[t])
  }

  /** Mounts show the volume and the use that their path is for. */
  ghost predicate MountsOwned(adr: Addressing, s: State) {
    forall p :: p in s.mounts ==> MountOwned(adr, p, s.mounts[p])
  }

  ghost predicate MountOwned(adr: Addressing, p: Path, m: Mount) {
    adr.owner(p) == m.vol && (m.staged <==> p == adr.staging(m.vol))
  }

  ghost predicate Inv(adr: Addressing, s: State) {
    && LockInv(s) && MountsOwned(adr, s)
    && (forall v :: ClaimsOk(adr, s, v))
    && (forall t :: t in s.calls ==> CallInv(adr, s, t))
  }

  /** A step in which one call, holding its volume's lock, changes only that volume's paths. */
  ghost predicate Moves(adr: Addressing, s: State, t: Tid, s': State) {
    && t in s.calls && t in s'.calls && WellAddressed(adr, s.calls[t].req)
    && s'.calls == s.calls[t := s'.calls[t]] && s'.calls[t].req == s.calls[t].req
    && s'.calls[t].consumed == s.calls[t].consumed && MountsOwned(adr, s')
    && var vol := s.calls[t].req.vol;
    && (forall p :: adr.owner(p) != vol ==> (p in s'.mounts <==> p in s.mounts))
    && (forall p :: adr.owner(p) != vol ==> (p in s'.records <==> p in s.records))
    && (forall p :: adr.owner(p) != vol && p in s.records ==> s'.records[p] == s.records[p])
    && (forall p :: p in s'.records && !s'.records[p].Empty? ==>
         s'.records[p].vol == vol || (p in s.records && s'.records[p] == s.records[p]))
  }

  lemma OtherVolumesKept(adr: Addressing, s: State, t: Tid, s': State, v: Vol)
    requires Moves(adr, s, t, s') && v != s.calls[t].req.vol
    requires ClaimsOk(adr, s, v)
    ensures forall p :: Claimed(s', p, v) <==> Claimed(s, p, v)
    ensures forall p :: adr.owner(p) == v ==> (p in s'.mounts <==> p in s.mounts)
  {
    forall p ensures Claimed(s', p, v) <==> Claimed(s, p, v) {
      if Claimed(s, p, v) {
        assert adr.owner(p) == v;
      }
    }
  }

  lemma OtherClaimsOk(adr: Addressing, s: State, t: Tid, s': State, v: Vol)
    requires Moves(adr, s, t, s') && v != s.calls[t].req.vol && ClaimsOk(adr, s, v)
    ensures ClaimsOk(adr, s', v)
  {
    OtherVolumesKept(adr, s, t, s', v);
    forall p | Claimed(s', p, v) ensures ClaimOk(adr, s', p, v) {
      assert ClaimOk(adr, s, p, v);
    }
  }

  lemma OtherCallsKept(adr: Addressing, s: State, t: Tid, s': State, u: Tid)
    requires Inv(adr, s) && Moves(adr, s, t, s') && HeldBy(s, s.calls[t].req.vol, t)
    requires u in s.calls && u != t
    ensures CallInv(adr, s', u)
  {
    assert CallInv(adr, s, u);
    var v := s.calls[u].req.vol;
    assert Holding(s.calls[u].pc) ==> HeldBy(s, v, u);
    if v != s.calls[t].req.vol {
      assert ClaimsOk(adr, s, v);
      OtherVolumesKept(adr, s, t, s', v);
    }
  }

  lemma LocksKept(s: State, t: Tid, s': State)
    requires LockInv(s) && t in s.calls && t in s'.calls && s'.calls == s.calls[t := s'.calls[t]] && s'.locks == s.locks
    requires s'.calls[t].req == s.calls[t].req && Holding(s.calls[t].pc) && Holding(s'.calls[t].pc)
    ensures LockInv(s')
  {
    forall v | v in s'.locks ensures HeldBy(s', v, s'.locks[v]) {
      assert HeldBy(s, v, s.locks[v]);
    }
    forall u | u in s'.calls && Holding(s'.calls[u].pc) ensures HeldBy(s', s'.calls[u].req.vol, u) {
      assert HeldBy(s, s.calls[u].req.vol, u);
    }
  }

  /** A step under the lock needs a look only at the call itself and its volume. */
  lemma OwnStepKeepsInv(adr: Addressing, s: State, t: Tid, s': State)
    requires Inv(adr, s) && Moves(adr, s, t, s') && s'.locks == s.locks
    requires Holding(s.calls[t].pc) && Holding(s'.calls[t].pc)
    requires ClaimsOk(adr, s', s.calls[t].req.vol) && Knows(s', s'.calls[t])
    ensures Inv(adr, s')
  {
    LocksKept(s, t, s');
    forall v ensures ClaimsOk(adr, s', v) {
      if v != s.calls[t].req.vol {
        assert ClaimsOk(adr, s, v);
        OtherClaimsOk(adr, s, t, s', v);
      }
    }
    forall u | u in s'.calls ensures CallInv(adr, s', u) {
      if u != t {
        OtherCallsKept(adr, s, t, s', u);
      }
    }
  }

  lemma ScanKeepsInv(adr: Addressing, s: State, t: Tid, found: Inventory, s': State)
    requires Inv(adr, s) && ScanStep(s, t, found, s')
    ensures Inv(adr, s')
  {
    assert CallInv(adr, s, t);
    var vol := s.calls[t].req.vol;
    assert ClaimsOk(adr, s, vol);
    SameClaims(adr, s, s', vol);
    assert found.Found? ==> Claimed(s', found.path, vol);
    OwnStepKeepsInv(adr, s, t, s');
  }

  lemma SameClaims(adr: Addressing, s: State, s': State, vol: Vol)
    requires ClaimsOk(adr, s, vol) && s'.records == s.records
    requires forall p :: p in s'.mounts && p !in s.mounts ==> Unclaimed(s, vol) || (adr.owner(p) != vol)
    ensures forall p :: Claimed(s', p, vol) <==> Claimed(s, p, vol)
    ensures ClaimsOk(adr, s', vol)
  {
    forall p | Claimed(s', p, vol) ensures ClaimOk(adr, s', p, vol) {
      assert Claimed(s, p, vol) && ClaimOk(adr, s, p, vol);
    }
    forall p, q | Claimed(s', p, vol) && Claimed(s', q, vol) ensures p == q {
      assert Claimed(s, p, vol) && Claimed(s, q, vol);
    }
  }

  lemma FailKeepsInv(adr: Addressing, s: State, t: Tid, s': State)
    requires Inv(adr, s) && FailStep(s, t, s')
    ensures Inv(adr, s')
  {
    assert CallInv(adr, s, t);
    SameClaims(adr, s, s', s.calls[t].req.vol);
    OwnStepKeepsInv(adr, s, t, s');
  }

  lemma StageKeepsInv(adr: Addressing, s: State, t: Tid, a: Action, s': State)
    requires Inv(adr, s) && StageStep(s, t, a, s')
    ensures Inv(adr, s')
  {
    assert CallInv(adr, s, t);
    SameClaims(adr, s, s', s.calls[t].req.vol);
    OwnStepKeepsInv(adr, s, t, s');
  }

  lemma UnmountKeepsInv(adr: Addressing, s: State, t: Tid, s': State)
    requires Inv(adr, s) && UnmountStep(s, t, s')
    ensures Inv(adr, s')
  {
    assert CallInv(adr, s, t);
    SameClaims(adr, s, s', s.calls[t].req.vol);
    OwnStepKeepsInv(adr, s, t, s');
  }

  lemma HostMoves(adr: Addressing, s: State, t: Tid, a: Action, s': State)
    requires Inv(adr, s) && HostStep(s, t, a, s')
    ensures Moves(adr, s, t, s')
  {
    assert CallInv(adr, s, t);
  }

  lemma HostKeepsInv(adr: Addressing, s: State, t: Tid, a: Action, s': State)
    requires Inv(adr, s) && HostStep(s, t, a, s')
    ensures Inv(adr, s')
  {
    assert CallInv(adr, s, t);
    SameClaims(adr, s, s', s.calls[t].req.vol);
    HostMoves(adr, s, t, a, s');
    OwnStepKeepsInv(adr, s, t, s');
  }

  /** Writing or removing the record at the call's own target. */
  lemma RecordChangeIsOk(adr: Addressing, s: State, s': State, vol: Vol, target: Path)
    requires ClaimsOk(adr, s, vol) && ClaimedOnlyAt(s, vol, target) && s'.mounts == s.mounts
    requires forall p :: Claimed(s', p, vol) ==> p == target || Claimed(s, p, vol)
    requires Claimed(s', target, vol) ==> ClaimOk(adr, s, target, vol)
    ensures ClaimsOk(adr, s', vol) && ClaimedOnlyAt(s', vol, target)
  {
  }

  lemma AddMoves(adr: Addressing, s: State, t: Tid, a: Action, s': State)
    requires Inv(adr, s) && AddStep(s, t, a, s')
    ensures Moves(adr, s, t, s')
  {
    assert CallInv(adr, s, t);
  }

  lemma MakeDirKeepsInv(adr: Addressing, s: State, t: Tid, a: Action, s': State)
    requires Inv(adr, s) && AddStep(s, t, a, s') && a.MakeDir?
    ensures Inv(adr, s')
  {
    assert CallInv(adr, s, t);
    FewerClaims(adr, s, s', s.calls[t].req.vol);
    AddMoves(adr, s, t, a, s');
    OwnStepKeepsInv(adr, s, t, s');
  }

  lemma WriteKeepsInv(adr: Addressing, s: State, t: Tid, a: Action, s': State)
    requires Inv(adr, s) && AddStep(s, t, a, s') && !a.MakeDir?
    ensures Inv(adr, s')
  {
    assert CallInv(adr, s, t);
    var req := s.calls[t].req;
    RecordChangeIsOk(adr, s, s', req.vol, req.target);
    assert Claimed(s', req.target, req.vol);
    AddMoves(adr, s, t, a, s');
    OwnStepKeepsInv(adr, s, t, s');
  }

  lemma RemoveMoves(adr: Addressing, s: State, t: Tid, a: Action, s': State)
    requires Inv(adr, s) && RemoveStep(s, t, a, s')
    ensures Moves(adr, s, t, s')
  {
    assert CallInv(adr, s, t);
  }

  lemma RemoveKeepsInv(adr: Addressing, s: State, t: Tid, a: Action, s': State)
    requires Inv(adr, s) && RemoveStep(s, t, a, s')
    ensures Inv(adr, s')
  {
    assert CallInv(adr, s, t);
    var vol := s.calls[t].req.vol;
    assert ClaimsOk(adr, s, vol);
    FewerClaims(adr, s, s', vol);
    RemoveMoves(adr, s, t, a, s');
    OwnStepKeepsInv(adr, s, t, s');
  }

  lemma FewerClaims(adr: Addressing, s: State, s': State, vol: Vol)
    requires ClaimsOk(adr, s, vol) && s'.mounts == s.mounts
    requires forall p :: Claimed(s', p, vol) ==> Claimed(s, p, vol)
    ensures ClaimsOk(adr, s', vol)
  {
    forall p | Claimed(s', p, vol) ensures ClaimOk(adr, s', p, vol) {
      assert ClaimOk(adr, s, p, vol);
    }
  }

  lemma LockStepsKeepCalls(adr: Addressing, s: State, a: Action, s': State)
    requires Inv(adr, s) && Step(s, a, s') && (a.Receive? || a.Acquire? || a.Unlock? || a.Crash?)
    requires a.Receive? ==> WellAddressed(adr, a.req)
    ensures forall u :: u in s'.calls ==> CallInv(adr, s', u)
  {
    forall u | u in s'.calls ensures CallInv(adr, s', u) {
      if u in s.calls {
        assert CallInv(adr, s, u);
        StillKnown(s, s', s.calls[u]);
      }
    }
  }

  lemma LockStepsKeepInv(adr: Addressing, s: State, a: Action, s': State)
    requires Inv(adr, s) && Step(s, a, s') && (a.Receive? || a.Acquire? || a.Unlock? || a.Crash?)
    requires a.Receive? ==> WellAddressed(adr, a.req)
    ensures Inv(adr, s')
  {
    forall v ensures ClaimsOk(adr, s', v) {
      assert ClaimsOk(adr, s, v);
      SameClaims(adr, s, s', v);
    }
    LockStepsKeepCalls(adr, s, a, s');
    LockStepsKeepLocks(s, a, s');
  }

  lemma StillKnown(s: State, s': State, call: Call)
    requires Knows(s, call) && s'.mounts == s.mounts && s'.records == s.records
    ensures Knows(s', call)
  {
    assert forall p, v :: Claimed(s', p, v) == Claimed(s, p, v);
  }

  lemma LockStepsKeepLocks(s: State, a: Action, s': State)
    requires LockInv(s) && Step(s, a, s') && (a.Receive? || a.Acquire? || a.Unlock? || a.Crash?)
    ensures LockInv(s')
  {
    forall v | v in s'.locks ensures HeldBy(s', v, s'.locks[v]) {
      if v in s.locks {
        assert HeldBy(s, v, s.locks[v]);
      }
    }
    forall u | u in s'.calls && Holding(s'.calls[u].pc) ensures HeldBy(s', s'.calls[u].req.vol, u) {
      if u in s.calls && Holding(s.calls[u].pc) {
        assert HeldBy(s, s.calls[u].req.vol, u);
      }
    }
  }

  lemma ConsumeKeepsInv(adr: Addressing, s: State, p: Path, s': State)
    requires Inv(adr, s) && ConsumeStep(s, p, s')
    ensures Inv(adr, s')
  {
    forall v ensures ClaimsOk(adr, s', v) {
      assert ClaimsOk(adr, s, v);
      FewerClaims(adr, s, s', v);
    }
    forall u | u in s'.calls ensures CallInv(adr, s', u) {
      assert CallInv(adr, s, u);
      ConsumedClaims(s, p, s', s.calls[u].req.vol);
    }
    forall v | v in s'.locks ensures HeldBy(s', v, s'.locks[v]) {
      assert HeldBy(s, v, s.locks[v]);
    }
    forall u | u in s'.calls && Holding(s'.calls[u].pc) ensures HeldBy(s', s'.calls[u].req.vol, u) {
      assert HeldBy(s, s.calls[u].req.vol, u);
    }
  }

  lemma ConsumedClaims(s: State, p: Path, s': State, vol: Vol)
    requires ConsumeStep(s, p, s')
    ensures forall q :: Claimed(s', q, vol) ==> Claimed(s, q, vol)
    ensures vol != s.records[p].vol ==> forall q :: Claimed(s, q, vol) ==> Claimed(s', q, vol)
  {
    assert forall q :: q != p && q in s.records ==> s'.records[q] == s.records[q];
  }

  lemma StepKeepsInv(adr: Addressing, s: State, a: Action, s': State)
    requires Inv(adr, s) && Step(s, a, s') && (a.Receive? ==> WellAddressed(adr, a.req))
    ensures Inv(adr, s')
  {
    match a
    case Scan(t, found) => ScanKeepsInv(adr, s, t, found, s');
    case Fail(t) => FailKeepsInv(adr, s, t, s');
    case RepairStaging(t) => StageKeepsInv(adr, s, t, a, s');
    case MountStaging(t, _) => StageKeepsInv(adr, s, t, a, s');
    case Unmount(t) => UnmountKeepsInv(adr, s, t, s');
    case MakeDir(t) => MakeDirKeepsInv(adr, s, t, a, s');
    case Truncate(t) => WriteKeepsInv(adr, s, t, a, s');
    case Commit(t) => WriteKeepsInv(adr, s, t, a, s');
    case Restore(t) => HostKeepsInv(adr, s, t, a, s');
    case Bind(t, _) => HostKeepsInv(adr, s, t, a, s');
    case RemoveFile(t) => RemoveKeepsInv(adr, s, t, a, s');
    case RemoveDir(t) => RemoveKeepsInv(adr, s, t, a, s');
    case Consume(p) => ConsumeKeepsInv(adr, s, p, s');
    case _ => LockStepsKeepInv(adr, s, a, s');
  }

  // ---------------------------------------------------------------------------------------------
  // Runs

  ghost predicate Next(adr: Addressing, s: State, a: Action, s': State) {
    Step(s, a, s') && (a.Receive? ==> WellAddressed(adr, a.req))
  }

  ghost predicate NextAt(adr: Addressing, run: seq<State>, acts: seq<Action>, i: nat)
    requires i < |acts| && |run| == |acts| + 1
  {
    Next(adr, run[i], acts[i], run[i + 1])
  }

  /** `run[i + 1]` follows from `run[i]` by `acts[i]`. */
  ghost predicate IsRun(adr: Addressing, run: seq<State>, acts: seq<Action>) {
    && |run| == |acts| + 1 && Init(run[0])
    && forall i :: 0 <= i < |acts| ==> NextAt(adr, run, acts, i)
  }

  lemma {:induction false} RunsKeepInv(adr: Addressing, run: seq<State>, acts: seq<Action>, i: nat)
    requires IsRun(adr, run, acts) && i < |run|
    ensures Inv(adr, run[i])
  {
    if i > 0 {
      RunsKeepInv(adr, run, acts, i - 1);
      assert NextAt(adr, run, acts, i - 1);
      StepKeepsInv(adr, run[i - 1], acts[i - 1], run[i]);
    }
  }

  /** Through crashes at any point: one record per volume, no staging mount beside it, and nothing at its target. */
  lemma ClaimsAreSingle(adr: Addressing, run: seq<State>, acts: seq<Action>, i: nat, vol: Vol, p: Path, q: Path)
    requires IsRun(adr, run, acts) && i < |run| && Claimed(run[i], p, vol)
    ensures !Staged(run[i], vol) && p !in run[i].mounts
    ensures Claimed(run[i], q, vol) ==> p == q
  {
    RunsKeepInv(adr, run, acts, i);
    assert ClaimsOk(adr, run[i], vol);
    assert ClaimOk(adr, run[i], p, vol);
    assert forall m :: m in run[i].mounts ==> MountOwned(adr, m, run[i].mounts[m]);
  }

  /** A reply is true when it is sent: staged or owned by a guest, published, unstaged, gone. */
  lemma RepliesAreTrue(adr: Addressing, run: seq<State>, acts: seq<Action>, i: nat, t: Tid)
    requires IsRun(adr, run, acts) && i < |acts| && acts[i] == Unlock(t)
    ensures t in run[i].calls && t in run[i + 1].calls && run[i + 1].calls[t].pc.Done?
    ensures run[i + 1].calls[t].pc.ok ==> Achieved(run[i + 1], run[i].calls[t])
  {
    RunsKeepInv(adr, run, acts, i);
    assert NextAt(adr, run, acts, i);
    assert CallInv(adr, run[i], t);
    assert forall p, v :: Claimed(run[i + 1], p, v) == Claimed(run[i], p, v);
  }

  // ---------------------------------------------------------------------------------------------
  // Publish mode

  datatype Mode = Unpublished | Host | Guest

  function ModeOf(s: State, vol: Vol, target: Path): Mode {
    if Claimed(s, target, vol) then Guest else if target in s.mounts then Host else Unpublished
  }

  /** The only things that take a publication away: unpublishing that target, and Kata itself. */
  ghost predicate EndsPublication(s: State, a: Action, target: Path) {
    || (a.Consume? && a.p == target)
    || ((a.Unmount? || a.RemoveFile? || a.RemoveDir?)
        && a.t in s.calls && s.calls[a.t].req.kind.Unpublish? && s.calls[a.t].req.target == target)
  }

  ghost predicate IsTarget(adr: Addressing, vol: Vol, target: Path) {
    adr.owner(target) == vol && target != adr.staging(vol)
  }

  lemma MountsKeepMode(adr: Addressing, s: State, a: Action, s': State, vol: Vol, target: Path)
    requires Inv(adr, s) && Step(s, a, s')
      && (a.RepairStaging? || a.MountStaging? || a.Unmount? || a.Restore? || a.Bind?)
    requires IsTarget(adr, vol, target)
    requires ModeOf(s, vol, target) != Unpublished && !EndsPublication(s, a, target)
    ensures ModeOf(s', vol, target) == ModeOf(s, vol, target)
  {
    assert CallInv(adr, s, a.t);
  }

  lemma RecordsKeepMode(adr: Addressing, s: State, t: Tid, a: Action, s': State, vol: Vol, target: Path)
    requires Inv(adr, s) && (AddStep(s, t, a, s') || RemoveStep(s, t, a, s')) && IsTarget(adr, vol, target)
    requires !a.Consume? && !a.Crash? && a.t == t
    requires ModeOf(s, vol, target) != Unpublished && !EndsPublication(s, a, target)
    ensures ModeOf(s', vol, target) == ModeOf(s, vol, target)
  {
    assert CallInv(adr, s, t);
  }

  lemma StepKeepsMode(adr: Addressing, s: State, a: Action, s': State, vol: Vol, target: Path)
    requires Inv(adr, s) && Next(adr, s, a, s') && IsTarget(adr, vol, target)
    requires ModeOf(s, vol, target) != Unpublished && !EndsPublication(s, a, target)
    ensures ModeOf(s', vol, target) == ModeOf(s, vol, target)
  {
    if a.RepairStaging? || a.MountStaging? || a.Unmount? || a.Restore? || a.Bind? {
      MountsKeepMode(adr, s, a, s', vol, target);
    } else if a.MakeDir? || a.Truncate? || a.Commit? || a.RemoveFile? || a.RemoveDir? {
      RecordsKeepMode(adr, s, a.t, a, s', vol, target);
    }
  }

  /** Whatever runtime later retries are told to use, a publication keeps its mode until it is unpublished. */
  lemma {:induction false} PublishModeIsSticky(adr: Addressing, run: seq<State>, acts: seq<Action>, i: nat, j: nat,
      vol: Vol, target: Path)
    requires IsRun(adr, run, acts) && i <= j < |run| && IsTarget(adr, vol, target)
    requires ModeOf(run[i], vol, target) != Unpublished
    requires forall k :: i <= k < j ==> !EndsPublication(run[k], acts[k], target)
    ensures ModeOf(run[j], vol, target) == ModeOf(run[i], vol, target)
    decreases j
  {
    if i < j {
      PublishModeIsSticky(adr, run, acts, i, j - 1, vol, target);
      RunsKeepInv(adr, run, acts, j - 1);
      assert NextAt(adr, run, acts, j - 1);
      StepKeepsMode(adr, run[j - 1], acts[j - 1], run[j], vol, target);
    }
  }
}
