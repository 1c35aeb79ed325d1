/**
 * Pending request maps: filled by callers, swapped out whole by the caller that drains them, trimmed to VM capacity.
 */
module PendingMaps {
  import opened Text
  import opened Luns

  /** A second request for the same disk keeps the first one's options. */
  function Enqueue<V>(m: map<string, V>, uri: string, v: V): map<string, V> {
    if uri in m then m else m[uri := v]
  }

  /** How many requests a batch keeps; None is math.MaxInt, the value used when the count is not checked. */
  function Kept(size: nat, allowed: Option<nat>): nat {
    if allowed.Some? && allowed.value < size then allowed.value else size
  }

  /** Data disks that still fit; None when the VM size is unknown or checking is off. */
  function Allowed(max: Option<nat>, attached: nat): Option<nat> {
    match max
    case None => None
    case Some(m) => if m > attached then Some(m - attached) else Some(0)
  }

  /** A Go map value: several variables can refer to the same one. */
  class DiskMap<V> {
    var entries: map<string, V>

    constructor ()
      ensures entries == map[]
    {
      entries := map[];
    }
  }

  /** The `attachDiskMap` (or `detachDiskMap`) field: per node, a reference to the map being filled. */
  class PendingMap<V> {
    var requests: map<string, DiskMap<V>>

    constructor ()
      ensures Valid() && requests == map[]
    {
      requests := map[];
    }

    /** Nodes never share a map. */
    ghost predicate Valid()
      reads this
    {
      forall k, l :: k in requests && l in requests && requests[k] == requests[l] ==> k == l
    }

    /** What is pending for each node. */
    ghost function Pending(node: string): map<string, V>
      reads this, requests.Values
    {
      if node in requests then requests[node].entries else map[]
    }

    /** batchAttachDiskRequest and batchDetachDiskRequest; returns the queue length. */
    method Batch(uri: string, node: string, v: V) returns (length: nat)
      requires Valid()
      modifies this, requests.Values
      ensures Valid()
      ensures Pending(node) == Enqueue(old(Pending(node)), uri, v) && length == |Pending(node)|
      ensures forall n :: n != node ==> Pending(n) == old(Pending(n))
      ensures forall n :: n in requests ==>
        (if n in old(requests) then requests[n] == old(requests[n]) else fresh(requests[n]))
    {
      if node !in requests {
        var m := new DiskMap<V>();
        requests := requests[node := m];
      }
      var diskMap := requests[node];
      if uri !in diskMap.entries {
        diskMap.entries := diskMap.entries[uri := v];
      }
      return |diskMap.entries|;
    }

    /** Swaps in an empty map and hands the old one to the caller, unless the caller's disk is no longer pending. */
    method Retrieve(node: string, uri: string) returns (batch: DiskMap?<V>)
      requires Valid()
      modifies this
      ensures Valid()
      ensures (batch != null) == (uri in old(Pending(node)))
      ensures batch == null ==> requests == old(requests)
      ensures batch != null ==>
        && node in old(requests) && batch == old(requests[node]) && batch.entries == old(Pending(node))
        && Pending(node) == map[]
        && batch !in requests.Values
      ensures forall n :: n != node ==> Pending(n) == old(Pending(n))
      ensures forall n :: n in requests ==>
        fresh(requests[n]) || (n in old(requests) && requests[n] == old(requests[n]))
    {
      if node !in requests {
        return null;
      }
      var diskMap := requests[node];
      if uri !in diskMap.entries {
        return null;
      }
      var m := new DiskMap<V>();
      requests := requests[node := m];
      return diskMap;
    }
  }

  /** A drained batch is private: no sequence of later requests, for any node, changes it or is lost to it. */
  method HandOff<V>(p: PendingMap<V>, node: string, uri: string, later: seq<(string, string, V)>)
    returns (batch: DiskMap?<V>)
    requires p.Valid()
    modifies p, p.requests.Values
    ensures p.Valid()
    ensures batch != null ==> batch.entries == old(p.Pending(node)) && batch !in p.requests.Values
    ensures batch != null ==> forall i :: 0 <= i < |later| && later[i].1 == node ==> later[i].0 in p.Pending(node)
  {
    batch := p.Retrieve(node, uri);
    ghost var drained := batch;
    for i := 0 to |later|
      invariant p.Valid()
      invariant forall n :: n in p.requests ==> fresh(p.requests[n]) || p.requests[n] in old(p.requests.Values)
      invariant batch != null ==> batch.entries == old(p.Pending(node)) && batch !in p.requests.Values && !fresh(batch)
      invariant batch != null ==> forall j :: 0 <= j < i && later[j].1 == node ==> later[j].0 in p.Pending(node)
    {
      var _ := p.Batch(later[i].0, later[i].1, later[i].2);
    }
  }

  /** Deletes entries in map order until only `allowed` are left; a nil entry is counted but not deleted. */
  method Trim(batch: DiskMap<AttachDiskOptions?>, allowed: Option<nat>)
    modifies batch
    ensures batch.entries.Keys <= old(batch.entries.Keys)
    ensures forall k :: k in batch.entries ==> batch.entries[k] == old(batch.entries)[k]
    ensures NoNil(old(batch.entries)) ==> |batch.entries| == Kept(|old(batch.entries)|, allowed)
    ensures |batch.entries| >= Kept(|old(batch.entries)|, allowed)
  {
    if allowed.None? {
      return;
    }
    var removeDisks := |batch.entries| - allowed.value;
    if removeDisks > 0 {
      ghost var before := batch.entries;
      var rest := batch.entries.Keys;
      while rest != {} && removeDisks != 0
        invariant rest <= batch.entries.Keys <= before.Keys
        invariant forall k :: k in batch.entries ==> batch.entries[k] == before[k]
        invariant removeDisks >= 0 && |batch.entries| >= removeDisks + allowed.value
        invariant NoNil(before) ==> rest == batch.entries.Keys && |batch.entries| == removeDisks + allowed.value
        decreases |rest|
      {
        var k :| k in rest;
        rest := rest - {k};
        if batch.entries[k] != null {
          batch.entries := batch.entries - {k};
        }
        removeDisks := removeDisks - 1;
      }
    }
  }
}
