/** LUN allocation: `SetDiskLun` and the merge that keeps it off LUNs that other VolumeAttachments already hold. */
module Luns {
  import opened Text

  const MAX_LUN := 64

  /** One entry of the VM's data disk list; the pointers that the code nil-checks are options here. */
  datatype DataDisk = DataDisk(
    lun: Option<int>, name: Option<string>, vhdUri: Option<string>, managedId: Option<string>, toBeDetached: bool)

  /** The request object a caller shares with whoever processes its batch. */
  class AttachDiskOptions {
    var lun: int

    constructor ()
      ensures lun == -1
    {
      lun := -1;
    }
  }

  datatype SetLunError = ReadFailed | IndexPanic | NotFound | NotEnoughLuns | NilOption
  datatype SetLunResult = Assigned(lun: int) | Failed(error: SetLunError)

  // ---------------------------------------------------------------------------------------------
  // The abstract allocator: the n lowest LUNs outside `used`.

  function LowestFreeFrom(used: set<int>, k: nat, n: nat): (r: seq<int>)
    requires k <= MAX_LUN
    decreases MAX_LUN - k, n, used
  {
    if n == 0 || k == MAX_LUN then []
    else if k in used then LowestFreeFrom(used, k + 1, n)
    else [k] + LowestFreeFrom(used, k + 1, n - 1)
  }

  function LowestFree(used: set<int>, n: nat): seq<int> {
    LowestFreeFrom(used, 0, n)
  }

  predicate InRange(lun: int) {
    0 <= lun < MAX_LUN
  }

  function Range(k: nat): (r: set<int>)
    requires k <= MAX_LUN
  {
    set i: int | k <= i < MAX_LUN && InRange(i)
  }

  function Free(used: set<int>): set<int> {
    Range(0) - used
  }

  lemma {:induction false} LowestFreeFromOrdered(used: set<int>, k: nat, n: nat)
    requires k <= MAX_LUN
    ensures var r := LowestFreeFrom(used, k, n);
      && (forall i :: 0 <= i < |r| ==> k <= r[i] < MAX_LUN && r[i] !in used)
      && (forall i, j :: 0 <= i < j < |r| ==> r[i] < r[j])
    decreases MAX_LUN - k
  {
    if k < MAX_LUN && n > 0 {
      if k in used {
        LowestFreeFromOrdered(used, k + 1, n);
        assert LowestFreeFrom(used, k, n) == LowestFreeFrom(used, k + 1, n);
      } else {
        LowestFreeFromOrdered(used, k + 1, n - 1);
        assert LowestFreeFrom(used, k, n) == [k] + LowestFreeFrom(used, k + 1, n - 1);
      }
    }
  }

  lemma {:induction false} LowestFreeFromMinimal(used: set<int>, k: nat, n: nat, f: int)
    requires k <= f < MAX_LUN && f !in used && f !in LowestFreeFrom(used, k, n)
    ensures var r := LowestFreeFrom(used, k, n);
      |r| == n && forall i :: 0 <= i < |r| ==> r[i] < f
    decreases MAX_LUN - k
  {
    if n > 0 && k < f {
      if k in used {
        LowestFreeFromMinimal(used, k + 1, n, f);
      } else {
        var rest := LowestFreeFrom(used, k + 1, n - 1);
        assert LowestFreeFrom(used, k, n) == [k] + rest;
        assert f !in rest;
        LowestFreeFromMinimal(used, k + 1, n - 1, f);
      }
    }
  }

  lemma {:induction false} LowestFreeFromLength(used: set<int>, k: nat, n: nat)
    requires k <= MAX_LUN
    ensures |LowestFreeFrom(used, k, n)| == if |Range(k) - used| < n then |Range(k) - used| else n
    decreases MAX_LUN - k
  {
    if k == MAX_LUN {
      assert Range(k) == {};
    } else {
      FreeStep(used, k);
      if n > 0 && k in used {
        LowestFreeFromLength(used, k + 1, n);
      } else if n > 0 {
        LowestFreeFromLength(used, k + 1, n - 1);
      }
    }
  }

  lemma FreeStep(used: set<int>, k: nat)
    requires k < MAX_LUN
    ensures |Range(k) - used| == |Range(k + 1) - used| + if k in used then 0 else 1
  {
    var head := if k in used then {} else {k as int};
    assert Range(k) - used == head + (Range(k + 1) - used);
    assert head !! Range(k + 1);
  }

  /** The allocator takes exactly the smallest free LUNs: nothing it leaves is below anything it takes. */
  lemma LowestFreeIsLowest(used: set<int>, n: nat)
    ensures var r := LowestFree(used, n);
      && (forall i :: 0 <= i < |r| ==> r[i] in Free(used))
      && (forall i, j :: 0 <= i < j < |r| ==> r[i] < r[j])
      && (forall f :: f in Free(used) && f !in r ==> |r| == n && forall i :: 0 <= i < |r| ==> r[i] < f)
      && (|r| == n <==> n <= |Free(used)|)
  {
    LowestFreeFromOrdered(used, 0, n);
    LowestFreeFromLength(used, 0, n);
    forall f | f in Free(used) && f !in LowestFree(used, n)
      ensures |LowestFree(used, n)| == n && forall i :: 0 <= i < n ==> LowestFree(used, n)[i] < f
    {
      LowestFreeFromMinimal(used, 0, n, f);
    }
  }

  // ---------------------------------------------------------------------------------------------
  // SetDiskLun

  /** The slice index `used[*disk.Lun]` is in bounds for every disk on the list. */
  predicate LunsInRange(disks: seq<DataDisk>) {
    forall i :: 0 <= i < |disks| && disks[i].lun.Some? ==> InRange(disks[i].lun.value)
  }

  function DiskLuns(disks: seq<DataDisk>): set<int> {
    set i | 0 <= i < |disks| && disks[i].lun.Some? :: disks[i].lun.value
  }

  function OccupiedInRange(occupied: seq<int>): set<int> {
    set i | 0 <= i < |occupied| && InRange(occupied[i]) :: occupied[i]
  }

  function UsedLuns(disks: seq<DataDisk>, occupied: seq<int>): set<int> {
    DiskLuns(disks) + OccupiedInRange(occupied)
  }

  predicate Matches(disk: DataDisk, uri: string) {
    disk.lun.Some? && disk.managedId.Some? && EqualFold(disk.managedId.value, uri)
  }

  /** The LUN the VM already lists for `uri`, or -1: the last match wins. */
  function AttachedLun(disks: seq<DataDisk>, uri: string): (lun: int)
    ensures LunsInRange(disks) ==> (lun >= 0 <==> exists i :: 0 <= i < |disks| && Matches(disks[i], uri))
    ensures !(exists i :: 0 <= i < |disks| && Matches(disks[i], uri)) ==> lun == -1
    ensures (exists i :: 0 <= i < |disks| && Matches(disks[i], uri))
      ==> exists i :: 0 <= i < |disks| && Matches(disks[i], uri) && lun == disks[i].lun.value
  {
    if disks == [] then -1
    else
      var last := |disks| - 1;
      if Matches(disks[last], uri) then disks[last].lun.value else AttachedLun(disks[..last], uri)
  }

  /** `order` lists every key of the batch once: one possible iteration order of the Go map. */
  ghost predicate Enumerates<V>(order: seq<string>, m: map<string, V>) {
    && (forall i, j :: 0 <= i < j < |order| ==> order[i] != order[j])
    && (forall k :: k in m <==> k in order)
  }

  ghost predicate Distinct(diskMap: map<string, AttachDiskOptions?>) {
    forall k, l :: k in diskMap && l in diskMap && diskMap[k] != null && diskMap[k] == diskMap[l] ==> k == l
  }

  ghost predicate NoNil(diskMap: map<string, AttachDiskOptions?>) {
    forall k :: k in diskMap ==> diskMap[k] != null
  }

  ghost predicate LowerKeys<V>(diskMap: map<string, V>, uri: string) {
    IsLower(uri) && forall k :: k in diskMap ==> IsLower(k)
  }

  ghost function Options(diskMap: map<string, AttachDiskOptions?>): set<AttachDiskOptions> {
    set k | k in diskMap && diskMap[k] != null :: diskMap[k]
  }

  lemma {:induction false} EnumerationLength<V>(order: seq<string>, m: map<string, V>)
    requires Enumerates(order, m)
    ensures |order| == |m|
  {
    if order == [] {
      assert m.Keys == {};
    } else {
      var rest := order[1..];
      var m' := m - {order[0]};
      assert m'.Keys == m.Keys - {order[0]};
      EnumerationLength(rest, m');
    }
  }

  /** Why `SetDiskLun` refuses, before it writes anything; None when it goes on to assign. */
  ghost function Refusal(read: Option<seq<DataDisk>>, uri: string, keys: set<string>,
      occupied: seq<int>): Option<SetLunError> {
    match read
    case None => Some(ReadFailed)
    case Some(disks) =>
      if !LunsInRange(disks) then Some(IndexPanic)
      else if uri !in keys && AttachedLun(disks, uri) < 0 then Some(NotFound)
      else if keys != {} && |Free(UsedLuns(disks, occupied))| < |keys| then Some(NotEnoughLuns)
      else None
  }

  /** Finds the LUNs in use; false when an index of the list is out of bounds. */
  method MarkUsed(disks: seq<DataDisk>, uri: string, inMap: bool, used: array<bool>) returns (inBounds: bool, lun: int)
    requires used.Length == MAX_LUN && forall i :: 0 <= i < MAX_LUN ==> !used[i]
    modifies used
    ensures inBounds == LunsInRange(disks)
    ensures inBounds ==> forall i :: 0 <= i < MAX_LUN ==> used[i] == (i in DiskLuns(disks))
    ensures inBounds ==> lun == if inMap then -1 else AttachedLun(disks, uri)
  {
    lun := -1;
    for d := 0 to |disks|
      invariant LunsInRange(disks[..d])
      invariant forall i :: 0 <= i < MAX_LUN ==> used[i] == (i in DiskLuns(disks[..d]))
      invariant lun == if inMap then -1 else AttachedLun(disks[..d], uri)
    {
      var disk := disks[d];
      assert disks[..d + 1][..d] == disks[..d];
      DiskLunsStep(disks, d);
      if disk.lun.Some? {
        if !InRange(disk.lun.value) {
          return false, -1;
        }
        used[disk.lun.value] := true;
        if !inMap && disk.managedId.Some? && EqualFold(disk.managedId.value, uri) {
          lun := disk.lun.value;
        }
      }
    }
    assert disks[..|disks|] == disks;
    return true, lun;
  }

  lemma DiskLunsStep(disks: seq<DataDisk>, d: nat)
    requires d < |disks|
    ensures DiskLuns(disks[..d + 1]) ==
      DiskLuns(disks[..d]) + (if disks[d].lun.Some? then {disks[d].lun.value} else {})
  {
    var before, after := disks[..d], disks[..d + 1];
    assert forall i :: 0 <= i < d ==> before[i] == after[i];
    forall l | l in DiskLuns(before) ensures l in DiskLuns(after) {
      var i :| 0 <= i < d && before[i].lun == Some(l);
      assert after[i].lun == Some(l);
    }
    if disks[d].lun.Some? {
      assert after[d].lun.Some?;
    }
  }

  method MarkOccupied(occupied: seq<int>, ghost before: set<int>, used: array<bool>)
    requires used.Length == MAX_LUN && forall i :: 0 <= i < MAX_LUN ==> used[i] == (i in before)
    modifies used
    ensures forall i :: 0 <= i < MAX_LUN ==> used[i] == (i in before + OccupiedInRange(occupied))
  {
    for o := 0 to |occupied|
      invariant forall i :: 0 <= i < MAX_LUN ==>
        used[i] == (i in before || exists j :: 0 <= j < o && occupied[j] == i)
    {
      if InRange(occupied[o]) {
        used[occupied[o]] := true;
      }
    }
  }

  /** Collects unused LUNs in ascending order until the batch is covered. */
  method CollectFree(used: array<bool>, ghost inUse: set<int>, n: nat) returns (diskLuns: seq<int>)
    requires used.Length == MAX_LUN && forall i :: 0 <= i < MAX_LUN ==> used[i] == (i in inUse)
    requires n > 0
    ensures diskLuns == LowestFree(inUse, n)
  {
    diskLuns := [];
    var count := 0;
    ghost var goal := LowestFree(inUse, n);
    for k := 0 to used.Length
      invariant count == |diskLuns| < n
      invariant diskLuns + LowestFreeFrom(inUse, k, n - count) == goal
    {
      CollectStep(diskLuns, inUse, k, n - count);
      if !used[k] {
        diskLuns := diskLuns + [k];
        count := count + 1;
        if count >= n {
          return;
        }
      }
    }
  }

  lemma CollectStep(taken: seq<int>, used: set<int>, k: nat, n: nat)
    requires k < MAX_LUN && n > 0
    ensures taken + LowestFreeFrom(used, k, n) ==
      if k in used then taken + LowestFreeFrom(used, k + 1, n)
      else (taken + [k]) + LowestFreeFrom(used, k + 1, n - 1)
  {
    if k !in used {
      assert LowestFreeFrom(used, k, n) == [k] + LowestFreeFrom(used, k + 1, n - 1);
    }
  }

  /** Writes the LUNs through the shared option pointers, in whatever order the map yields its entries. */
  method WriteLuns(diskMap: map<string, AttachDiskOptions?>, uri: string, attached: int, diskLuns: seq<int>)
    returns (lun: int, nil: bool, ghost order: seq<string>)
    requires |diskLuns| == |diskMap|
    modifies Options(diskMap)
    ensures nil == !NoNil(diskMap)
    ensures !nil ==> Enumerates(order, diskMap) && |order| == |diskLuns|
    ensures !nil && Distinct(diskMap) ==> forall i :: 0 <= i < |order| ==> diskMap[order[i]].lun == diskLuns[i]
    ensures !nil && (forall k :: k in diskMap ==> !EqualFold(k, uri)) ==> lun == attached
    ensures !nil && uri in diskMap ==> lun in diskLuns
    ensures lun == attached || lun in diskLuns
    ensures !nil && uri in diskMap && LowerKeys(diskMap, uri) && Distinct(diskMap) ==> lun == diskMap[uri].lun
  {
    order := [];
    lun := attached;
    var rest := diskMap.Keys;
    var count := 0;
    while rest != {}
      invariant rest <= diskMap.Keys
      invariant count == |order| && count + |rest| == |diskMap|
      invariant forall i, j :: 0 <= i < j < |order| ==> order[i] != order[j]
      invariant forall k :: k in diskMap.Keys - rest <==> k in order
      invariant forall k :: k in order ==> k in diskMap && diskMap[k] != null
      invariant Distinct(diskMap) ==> forall i :: 0 <= i < |order| ==> diskMap[order[i]].lun == diskLuns[i]
      invariant (forall k :: k in diskMap ==> !EqualFold(k, uri)) ==> lun == attached
      invariant uri in order ==> lun in diskLuns
      invariant lun == attached || lun in diskLuns
      invariant uri in order && LowerKeys(diskMap, uri) && Distinct(diskMap) ==> lun == diskMap[uri].lun
      decreases |rest|
    {
      var k :| k in rest;
      var opt := diskMap[k];
      if opt == null {
        return lun, true, order;
      }
      if EqualFold(k, uri) {
        lun := diskLuns[count];
      }
      opt.lun := diskLuns[count];
      order := order + [k];
      rest := rest - {k};
      count := count + 1;
    }
    nil := false;
  }

  datatype Plan = Refused(error: SetLunError) | Planned(attached: int, luns: seq<int>)

  /** Everything before the options are written. `read` is the outcome of GetNodeDataDisks, None when it failed. */
  method PlanLuns(read: Option<seq<DataDisk>>, uri: string, keys: set<string>, occupied: seq<int>) returns (plan: Plan)
    ensures var refusal := Refusal(read, uri, keys, occupied);
      && (refusal.Some? ==> plan == Refused(refusal.value))
      && (refusal.None? ==>
        && plan.Planned?
        && plan.attached == (if uri in keys then -1 else AttachedLun(read.value, uri))
        && plan.luns == LowestFree(UsedLuns(read.value, occupied), |keys|)
        && |plan.luns| == |keys|
        && (uri !in keys ==> plan.attached >= 0))
  {
    if read.None? {
      return Refused(ReadFailed);
    }
    var disks := read.value;
    var inMap := uri in keys;
    var used := new bool[MAX_LUN](i => false);
    var inBounds, lun := MarkUsed(disks, uri, inMap, used);
    if !inBounds {
      return Refused(IndexPanic);
    }
    if !inMap && lun < 0 {
      return Refused(NotFound);
    }
    if |keys| == 0 {
      assert keys == {};
      return Planned(lun, []);
    }
    MarkOccupied(occupied, DiskLuns(disks), used);
    var luns := CollectFree(used, UsedLuns(disks, occupied), |keys|);
    LowestFreeIsLowest(UsedLuns(disks, occupied), |keys|);
    if |luns| != |keys| {
      return Refused(NotEnoughLuns);
    }
    return Planned(lun, luns);
  }

  /** `order` is the map order that was met. */
  method SetDiskLun(read: Option<seq<DataDisk>>, uri: string, diskMap: map<string, AttachDiskOptions?>,
      occupied: seq<int>)
    returns (res: SetLunResult, ghost order: seq<string>)
    modifies Options(diskMap)
    ensures var refusal := Refusal(read, uri, diskMap.Keys, occupied);
      if refusal.Some? then
        res == Failed(refusal.value) && forall o :: o in Options(diskMap) ==> o.lun == old(o.lun)
      else
        res == Failed(NilOption) || res.Assigned?
    ensures Refusal(read, uri, diskMap.Keys, occupied).None? ==> (res.Assigned? <==> NoNil(diskMap))
    ensures read.Some? && LunsInRange(read.value) && uri in diskMap && NoNil(diskMap) ==>
      (res.Assigned? <==> |diskMap.Keys| <= |Free(UsedLuns(read.value, occupied))|)
    ensures res.Assigned? ==> Enumerates(order, diskMap) && |order| == |diskMap| && read.Some?
    ensures res.Assigned? ==> |LowestFree(UsedLuns(read.value, occupied), |diskMap|)| == |diskMap|
    ensures res.Assigned? && Distinct(diskMap) ==> forall i :: 0 <= i < |order| ==>
      diskMap[order[i]].lun == LowestFree(UsedLuns(read.value, occupied), |diskMap|)[i]
    ensures res.Assigned? && uri in diskMap && LowerKeys(diskMap, uri) && Distinct(diskMap) ==>
      res.lun == diskMap[uri].lun
    ensures res.Assigned? && uri !in diskMap && LowerKeys(diskMap, uri) ==> res.lun == AttachedLun(read.value, uri)
    ensures res.Assigned? ==> res.lun >= 0
  {
    order := [];
    var plan := PlanLuns(read, uri, diskMap.Keys, occupied);
    if plan.Refused? {
      return Failed(plan.error), order;
    }
    LowestFreeIsLowest(UsedLuns(read.value, occupied), |diskMap.Keys|);
    var lun, nil;
    lun, nil, order := WriteLuns(diskMap, uri, plan.attached, plan.luns);
    if nil {
      return Failed(NilOption), order;
    }
    // The source's last check, for a lun that is still negative, never fires.
    assert lun >= 0;
    return Assigned(lun), order;
  }
}
