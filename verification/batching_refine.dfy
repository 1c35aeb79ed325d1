/**
 * The allocator on shared objects implements the protocol's allocation step: whatever `SetDiskLun` does to the options
 * objects of a batch is a step that the protocol allows, and when it fails the protocol allows the error.
 */
module BatchingRefinement {
  import opened Text
  import opened Luns
  import opened Batching
  import opened BatchingInvariant
  import opened BatchingSafety

  type Objects = map<Tid, AttachDiskOptions>

  /** The option objects of the calls, by value: the protocol's `opts`. */
  ghost function LunFields(objects: Objects): (opts: map<Tid, int>)
    reads objects.Values
  {
    map t | t in objects :: objects[t].lun
  }

  ghost predicate OwnObjects(objects: Objects) {
    forall t, u :: t in objects && u in objects && objects[t] == objects[u] ==> t == u
  }

  /** The batch as the Go map that holds pointers to the options. */
  function Deref(batch: map<string, Tid>, objects: Objects): map<string, AttachDiskOptions?>
    requires forall u :: u in batch ==> batch[u] in objects
  {
    map u | u in batch :: objects[batch[u]]
  }

  /** One order in which the VM's disks may be listed. */
  function Listing(vms: seq<VmDisk>): (list: seq<DataDisk>)
    ensures |list| == |vms|
  {
    seq(|vms|, i requires 0 <= i < |vms| => AsListed(vms[i]))
  }

  lemma ListedLuns(vms: seq<VmDisk>, vm: multiset<VmDisk>)
    requires multiset(vms) == vm && DistinctLuns(vm)
    ensures LunsInRange(Listing(vms)) && DiskLuns(Listing(vms)) == VmLuns(vm)
  {
    var list := Listing(vms);
    forall i | 0 <= i < |list|
      ensures list[i].lun.Some? && InRange(list[i].lun.value) && list[i].lun.value in VmLuns(vm)
    {
      assert vms[i] in vm;
    }
    forall l | l in VmLuns(vm) ensures l in DiskLuns(list) {
      var d :| d in vm && d.lun == l;
      assert d in vms;
      var i :| 0 <= i < |vms| && vms[i] == d;
      assert list[i].lun == Some(l);
    }
  }

  /** The disk at whose LUN SetDiskLun finds the call's disk listed. */
  lemma FoundInListing(vms: seq<VmDisk>, vm: multiset<VmDisk>, th: Thread, lun: int) returns (at: VmDisk)
    requires multiset(vms) == vm && lun == AttachedLun(Listing(vms), th.disk) && lun >= 0
    ensures at in vm && IsOwn(th, at) && at.lun == lun
  {
    var list := Listing(vms);
    assert exists i :: 0 <= i < |list| && Matches(list[i], th.disk);
    var i :| 0 <= i < |list| && Matches(list[i], th.disk) && lun == list[i].lun.value;
    at := vms[i];
    assert at in vms;
  }

  lemma {:induction false} WriteOptsLeaves(opts: map<Tid, int>, pointers: seq<Tid>, luns: seq<int>, x: Tid)
    requires |pointers| == |luns| && x !in pointers
    ensures x in WriteOpts(opts, pointers, luns) <==> x in opts
    ensures x in opts ==> WriteOpts(opts, pointers, luns)[x] == opts[x]
  {
    if pointers != [] {
      WriteOptsLeaves(opts, pointers[..|pointers| - 1], luns[..|pointers| - 1], x);
    }
  }

  /** Fields written one-to-one are what the protocol's write sequence yields. */
  lemma WritesAgree(opts: map<Tid, int>, opts': map<Tid, int>, batch: map<string, Tid>, order: seq<string>,
      luns: seq<int>)
    requires Enumerates(order, batch) && (forall i :: 0 <= i < |order| ==> order[i] in batch) && |luns| == |order|
    requires forall u, v :: u in batch && v in batch && u != v ==> batch[u] != batch[v]
    requires forall u :: u in batch ==> batch[u] in opts
    requires opts'.Keys == opts.Keys
    requires forall i :: 0 <= i < |order| ==> opts'[batch[order[i]]] == luns[i]
    requires forall x :: x in opts && x !in batch.Values ==> opts'[x] == opts[x]
    ensures opts' == WriteOpts(opts, Pointers(batch, order), luns)
  {
    var pointers := Pointers(batch, order);
    WriteOptsWrites(opts, pointers, luns);
    var written := WriteOpts(opts, pointers, luns);
    forall x | x in batch.Values ensures x in pointers {
      var u :| u in batch && batch[u] == x;
      assert u in order;
      var i :| 0 <= i < |order| && order[i] == u;
      assert pointers[i] == x;
    }
    forall x | x in opts ensures written[x] == opts'[x] {
      if x in pointers {
        var i :| 0 <= i < |pointers| && pointers[i] == x;
        assert batch[order[i]] == x;
      } else {
        WriteOptsLeaves(opts, pointers, luns, x);
      }
    }
  }

  /** A call about to allocate, and the concrete objects that stand for its part of the state. */
  ghost predicate Represents(s: State, t: Tid, objects: Objects, vms: seq<VmDisk>, occupied: seq<int>)
    reads objects.Values
  {
    && MapInv(s) && LunInv(s) && At(s, t, Trimmed)
    && objects.Keys == s.opts.Keys && OwnObjects(objects) && LunFields(objects) == s.opts
    && multiset(vms) == s.vm && s.threads[t].occupied == (set i | 0 <= i < |occupied| :: occupied[i])
    && LowerKeys(BatchAt(s, t), s.threads[t].disk)
  }

  ghost function BatchAt(s: State, t: Tid): map<string, Tid> {
    if t in s.threads && Attach in s.tabs && s.threads[t].ref in s.tabs[Attach].heap
    then s.tabs[Attach].heap[s.threads[t].ref]
    else map[]
  }

  lemma BatchFacts(s: State, t: Tid)
    requires MapInv(s) && LunInv(s) && At(s, t, Trimmed)
    ensures s.threads[t].kind == Attach && s.threads[t].ref in s.tabs[Attach].heap
    ensures var batch := BatchAt(s, t);
      && (forall u :: u in batch ==> batch[u] in s.opts)
      && (forall u, v :: u in batch && v in batch && u != v ==> batch[u] != batch[v])
  {
    assert ThreadInv(s, t) && TableInv(s, Attach, s.tabs[Attach]);
    var batch := BatchAt(s, t);
    forall u | u in batch ensures batch[u] in s.opts {
      assert EntryOk(s, Attach, u, batch[u]);
    }
    forall u, v | u in batch && v in batch && u != v ensures batch[u] != batch[v] {
      PointersDiffer(s, s.threads[t].ref, u, v);
    }
  }

  lemma UsedAgree(s: State, t: Tid, vms: seq<VmDisk>, occupied: seq<int>)
    requires t in s.threads && multiset(vms) == s.vm && DistinctLuns(s.vm)
    requires s.threads[t].occupied == (set i | 0 <= i < |occupied| :: occupied[i])
    ensures LunsInRange(Listing(vms)) && UsedLuns(Listing(vms), occupied) == UsedBy(s, s.threads[t])
  {
    ListedLuns(vms, s.vm);
    assert OccupiedInRange(occupied) == s.threads[t].occupied * Range(0);
  }

  /** What the protocol makes of an allocation with this outcome, option fields and map order. */
  ghost predicate Allocates(c: Config, s: State, t: Tid, res: SetLunResult, order: seq<string>, opts: map<Tid, int>) {
    match res
    case Assigned(lun) =>
      exists at, s' :: SetLunsStep(s, t, order, at, s') && s'.opts == opts && t in s'.threads
        && s'.threads[t].lun == lun
    case Failed(_) => opts == s.opts && exists s' :: FinishStep(c, s, t, Errored, None, s')
  }

  lemma AssignedIsStep(c: Config, s: State, t: Tid, order: seq<string>, at: VmDisk, opts: map<Tid, int>, lun: int)
    requires At(s, t, Trimmed) && Attach in s.tabs && s.threads[t].ref in s.tabs[Attach].heap
    requires var batch := BatchAt(s, t);
      && CanSetLuns(s, s.threads[t], batch, order, at) && (forall u :: u in batch ==> batch[u] in opts)
      && opts == WriteOpts(s.opts, Pointers(batch, order), LowestFree(UsedBy(s, s.threads[t]), |batch|))
      && lun == if s.threads[t].disk in batch then opts[batch[s.threads[t].disk]] else at.lun
    ensures Allocates(c, s, t, Assigned(lun), order, opts)
  {
    var th := s.threads[t];
    var s' := Put(s, t, if th.disk in BatchAt(s, t) then th.(pc := LunsSet, lun := lun)
                        else th.(pc := LunsSet, lun := at.lun, seen := th.seen + {at})).(opts := opts);
    assert SetLunsStep(s, t, order, at, s');
  }

  lemma FailedIsStep(c: Config, s: State, t: Tid, error: SetLunError, order: seq<string>)
    requires At(s, t, Trimmed) && s.threads[t].kind == Attach
    ensures Allocates(c, s, t, Failed(error), order, s.opts)
  {
    var s' := Put(s, t, s.threads[t].(pc := Answered, outcome := Errored));
    assert FinishStep(c, s, t, Errored, None, s');
  }

  /** The batch's requests are those of different calls, each with its own object. */
  ghost predicate Points(batch: map<string, Tid>, objects: Objects, diskMap: map<string, AttachDiskOptions?>) {
    && (forall u :: u in batch ==> batch[u] in objects) && OwnObjects(objects)
    && (forall u, v :: u in batch && v in batch && u != v ==> batch[u] != batch[v])
    && diskMap == Deref(batch, objects)
  }

  /** SetDiskLun in terms of the option fields by value. */
  ghost predicate Wrote(list: seq<DataDisk>, uri: string, occupied: seq<int>, batch: map<string, Tid>,
      opts: map<Tid, int>, opts': map<Tid, int>, res: SetLunResult, order: seq<string>) {
    match res
    case Failed(_) => opts' == opts
    case Assigned(lun) =>
      var luns := LowestFree(UsedLuns(list, occupied), |batch|);
      && Enumerates(order, batch) && (forall i :: 0 <= i < |order| ==> order[i] in batch)
      && |luns| == |batch| == |order| && (forall u :: u in batch ==> batch[u] in opts')
      && opts' == WriteOpts(opts, Pointers(batch, order), luns)
      && (if uri in batch then lun == opts'[batch[uri]] else lun == AttachedLun(list, uri) && lun >= 0)
  }

  lemma DerefFacts(batch: map<string, Tid>, objects: Objects, diskMap: map<string, AttachDiskOptions?>)
    requires Points(batch, objects, diskMap)
    ensures diskMap.Keys == batch.Keys && |diskMap| == |batch|
    ensures Options(diskMap) <= objects.Values && NoNil(diskMap) && Distinct(diskMap)
    ensures forall x :: x in objects && x !in batch.Values ==> objects[x] !in Options(diskMap)
  {
    assert diskMap.Keys == batch.Keys;
    assert |diskMap.Keys| == |diskMap| && |batch.Keys| == |batch|;
    forall x | x in objects && x !in batch.Values ensures objects[x] !in Options(diskMap) {
      forall u | u in batch ensures objects[batch[u]] != objects[x] {
        assert batch[u] in batch.Values;
      }
    }
  }

  /** What an allocation that went through leaves in the objects. */
  lemma FieldsWrote(list: seq<DataDisk>, uri: string, occupied: seq<int>, batch: map<string, Tid>, objects: Objects,
      diskMap: map<string, AttachDiskOptions?>, opts: map<Tid, int>, lun: int, order: seq<string>)
    requires Points(batch, objects, diskMap) && opts.Keys == objects.Keys && Enumerates(order, batch)
    requires forall x :: x in objects && x !in batch.Values ==> objects[x].lun == opts[x]
    requires var luns := LowestFree(UsedLuns(list, occupied), |batch|);
      && |luns| == |batch| == |order|
      && forall i :: 0 <= i < |order| ==>
        order[i] in diskMap && diskMap[order[i]] != null && diskMap[order[i]].lun == luns[i]
    requires if uri in batch then lun == objects[batch[uri]].lun else lun == AttachedLun(list, uri) && lun >= 0
    ensures Wrote(list, uri, occupied, batch, opts, LunFields(objects), Assigned(lun), order)
  {
    var luns := LowestFree(UsedLuns(list, occupied), |batch|);
    var opts' := LunFields(objects);
    assert forall i :: 0 <= i < |order| ==> order[i] in batch;
    forall i | 0 <= i < |order| ensures opts'[batch[order[i]]] == luns[i] {
      assert diskMap[order[i]] == objects[batch[order[i]]];
    }
    WritesAgree(opts, opts', batch, order, luns);
  }

  method SetDiskLunByValue(ghost batch: map<string, Tid>, ghost objects: Objects, list: seq<DataDisk>, uri: string,
      diskMap: map<string, AttachDiskOptions?>, occupied: seq<int>)
    returns (res: SetLunResult, ghost order: seq<string>)
    requires Points(batch, objects, diskMap) && LowerKeys(batch, uri) && LunsInRange(list)
    modifies objects.Values
    ensures Wrote(list, uri, occupied, batch, old(LunFields(objects)), LunFields(objects), res, order)
  {
    DerefFacts(batch, objects, diskMap);
    ghost var opts := LunFields(objects);
    res, order := SetDiskLun(Some(list), uri, diskMap, occupied);
    if res.Assigned? {
      FieldsWrote(list, uri, occupied, batch, objects, diskMap, opts, res.lun, order);
    }
  }

  /** By value, what SetDiskLun did is the protocol's step. */
  lemma WroteIsStep(c: Config, s: State, t: Tid, vms: seq<VmDisk>, occupied: seq<int>, opts: map<Tid, int>,
      res: SetLunResult, order: seq<string>)
    requires MapInv(s) && LunInv(s) && At(s, t, Trimmed) && multiset(vms) == s.vm
    requires s.threads[t].occupied == (set i | 0 <= i < |occupied| :: occupied[i])
    requires Wrote(Listing(vms), s.threads[t].disk, occupied, BatchAt(s, t), s.opts, opts, res, order)
    ensures Allocates(c, s, t, res, order, opts)
  {
    BatchFacts(s, t);
    UsedAgree(s, t, vms, occupied);
    match res
    case Failed(error) => FailedIsStep(c, s, t, error, order);
    case Assigned(lun) =>
      var th := s.threads[t];
      var at := VmDisk("", "", 0);
      if th.disk !in BatchAt(s, t) {
        at := FoundInListing(vms, s.vm, th, lun);
      }
      AssignedIsStep(c, s, t, order, at, opts, lun);
  }

  lemma RepresentsPoints(s: State, t: Tid, objects: Objects, vms: seq<VmDisk>, occupied: seq<int>)
    requires Represents(s, t, objects, vms, occupied)
    ensures (forall u :: u in BatchAt(s, t) ==> BatchAt(s, t)[u] in objects) && LunsInRange(Listing(vms))
    ensures Points(BatchAt(s, t), objects, Deref(BatchAt(s, t), objects))
  {
    BatchFacts(s, t);
    UsedAgree(s, t, vms, occupied);
  }

  /**
   * SetDiskLun, on the objects of a call that has trimmed its batch, takes the protocol's allocation step, or fails as
   * the protocol lets it.
   */
  method SetDiskLunTakesTheStep(ghost c: Config, ghost s: State, ghost t: Tid, ghost objects: Objects,
      ghost vms: seq<VmDisk>,
      list: seq<DataDisk>, uri: string, diskMap: map<string, AttachDiskOptions?>, occupied: seq<int>)
    returns (res: SetLunResult, ghost order: seq<string>)
    requires Represents(s, t, objects, vms, occupied) && list == Listing(vms) && uri == s.threads[t].disk
    requires (forall u :: u in BatchAt(s, t) ==> BatchAt(s, t)[u] in objects)
      && diskMap == Deref(BatchAt(s, t), objects)
    modifies objects.Values
    ensures Allocates(c, s, t, res, order, LunFields(objects))
  {
    RepresentsPoints(s, t, objects, vms, occupied);
    res, order := SetDiskLunByValue(BatchAt(s, t), objects, list, uri, diskMap, occupied);
    WroteIsStep(c, s, t, vms, occupied, LunFields(objects), res, order);
  }
}
