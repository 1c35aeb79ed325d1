/**
 * AttachDisk between taking and leaving the node lock: count, drain, trim, allocate, update, verify. The pending map is
 * in whatever state other calls have left it.
 */
module Attach {
  import opened Text
  import opened Luns
  import opened PendingMaps
  import Detach

  /** `counting` is CheckDiskCountForBatching; `lunCheck` is the negation of DisableDiskLunCheck. */
  datatype Config = Config(counting: bool, lunCheck: bool)

  datatype UpdateReply = Ok | Failed | Preempted(retried: bool)

  /**
   * What the cloud answers: the VM size's limit if it is known, the number of disks and the disk list (None when a read
   * fails), whether there is a VM set to talk to, the VM update's outcome, and the disk list that verifyAttach reads.
   */
  datatype World = World(
    maxDisks: Option<nat>, counted: Option<nat>, disks: Option<seq<DataDisk>>, vmset: bool, update: UpdateReply,
    after: Detach.ListReply)

  /** The LUN at which the list shows a disk that GetDiskLun takes for the call's; the first such disk decides. */
  ghost predicate Shows(list: Detach.ListReply, call: Detach.Call, lun: Option<int>) {
    exists r :: Detach.LunReplyOf(list, call, r) && lun == if r.At? then Some(r.lun) else None
  }

  /** The list holds the call's disk, not on its way out, at this LUN. */
  ghost predicate HeldAt(list: Detach.ListReply, call: Detach.Call, lun: int) {
    list.Listed? && exists i :: 0 <= i < |list.disks| && Detach.IsDisk(list.disks[i], call)
                                && !list.disks[i].toBeDetached && list.disks[i].lun == Some(lun)
  }

  /** None stands for an error, or for a match without a LUN, which is dereferenced. */
  method VerifyAttach(list: Detach.ListReply, call: Detach.Call) returns (lun: Option<int>)
    ensures Shows(list, call, lun)
    ensures lun.Some? ==> HeldAt(list, call, lun.value)
  {
    var r := Detach.GetDiskLun(list, call);
    lun := if r.At? then Some(r.lun) else None;
  }

  predicate CountFails(cfg: Config, w: World) {
    cfg.counting && w.maxDisks.Some? && w.counted.None?
  }

  /** How many disks still fit; None when nothing is counted. */
  function DisksAllowed(cfg: Config, w: World): Option<nat> {
    if cfg.counting && w.maxDisks.Some? && w.counted.Some? then Allowed(w.maxDisks, w.counted.value) else None
  }

  predicate Updates(reply: UpdateReply) {
    reply.Ok? || (reply.Preempted? && reply.retried)
  }

  /** The options of a batch by disk, as the VM update reads them. */
  ghost function LunsOf(batch: map<string, AttachDiskOptions?>): map<string, int>
    reads Options(batch)
  {
    map u | u in batch && batch[u] != null :: batch[u].lun
  }

  /** A request is safe to send: its LUNs differ from each other and from those in use, and are the lowest such. */
  ghost predicate SafeRequest(sent: map<string, int>, used: set<int>) {
    && (forall u, v :: u in sent && v in sent && sent[u] == sent[v] ==> u == v)
    && (forall u :: u in sent ==> sent[u] in Free(used))
    && (forall u, f :: u in sent && f in Free(used) && f !in sent.Values ==> sent[u] < f)
  }

  lemma IndexOf(order: seq<string>, sent: map<string, int>, u: string) returns (i: nat)
    requires Enumerates(order, sent) && u in sent
    ensures i < |order| && order[i] == u
  {
    assert u in order;
    i :| 0 <= i < |order| && order[i] == u;
  }

  lemma AscendingLunsAreSafe(sent: map<string, int>, order: seq<string>, used: set<int>, luns: seq<int>)
    requires Enumerates(order, sent) && |luns| == |order|
    requires forall i :: 0 <= i < |order| ==> sent[order[i]] == luns[i]
    requires forall i, j :: 0 <= i < j < |luns| ==> luns[i] < luns[j]
    requires forall i :: 0 <= i < |luns| ==> luns[i] in Free(used)
    requires forall f :: f in Free(used) && f !in luns ==> forall i :: 0 <= i < |luns| ==> luns[i] < f
    ensures SafeRequest(sent, used)
  {
    forall u, v | u in sent && v in sent && sent[u] == sent[v] ensures u == v {
      var i := IndexOf(order, sent, u);
      var j := IndexOf(order, sent, v);
      assert luns[i] == luns[j];
    }
    forall u | u in sent ensures sent[u] in Free(used) {
      var i := IndexOf(order, sent, u);
    }
    forall u, f | u in sent && f in Free(used) && f !in sent.Values ensures sent[u] < f {
      var i := IndexOf(order, sent, u);
      forall j | 0 <= j < |luns| ensures luns[j] != f {
        assert sent[order[j]] in sent.Values;
      }
    }
  }

  lemma LowestLunsAreSafe(sent: map<string, int>, order: seq<string>, used: set<int>)
    requires Enumerates(order, sent)
    requires |LowestFree(used, |sent|)| == |order|
    requires forall i :: 0 <= i < |order| ==> sent[order[i]] == LowestFree(used, |sent|)[i]
    ensures SafeRequest(sent, used)
  {
    LowestFreeIsLowest(used, |sent|);
    AscendingLunsAreSafe(sent, order, used, LowestFree(used, |sent|));
  }

  /** The requests waiting for a node come from distinct AttachDisk calls, under lower-case URIs. */
  ghost predicate Orderly(requests: map<string, AttachDiskOptions?>) {
    Distinct(requests) && NoNil(requests) && forall u :: u in requests ==> IsLower(u)
  }

  /** How AttachDisk queues its request, before it waits for the node lock. */
  method RequestAttach(pending: PendingMap<AttachDiskOptions?>, node: string, diskURI: string)
    returns (uri: string, length: nat)
    requires pending.Valid() && Orderly(pending.Pending(node))
    modifies pending, pending.requests.Values
    ensures pending.Valid() && Orderly(pending.Pending(node))
    ensures forall n :: n != node ==> pending.Pending(n) == old(pending.Pending(n))
    ensures uri == ToLower(diskURI) && uri in pending.Pending(node) && length == |pending.Pending(node)|
    ensures forall u :: u in old(pending.Pending(node)) ==>
      u in pending.Pending(node) && pending.Pending(node)[u] == old(pending.Pending(node))[u]
  {
    uri := ToLower(diskURI);
    ToLowerIdempotent(diskURI);
    var options := new AttachDiskOptions();
    length := pending.Batch(uri, node, options);
  }

  /** The LUN that answers for a disk: the one sent for it, or else one at which the VM lists it already. */
  ghost predicate Answers(lun: int, uri: string, sent: map<string, int>, disks: seq<DataDisk>) {
    if uri in sent then lun == sent[uri]
    else exists i :: 0 <= i < |disks| && Matches(disks[i], uri) && disks[i].lun == Some(lun)
  }

  method AllocateLuns(requests: map<string, AttachDiskOptions?>, uri: string, occupied: seq<int>, w: World)
    returns (lun: Option<int>, ghost sent: map<string, int>)
    requires Orderly(requests) && IsLower(uri)
    modifies Options(requests)
    ensures sent == LunsOf(requests)
    ensures lun.Some? <==> Refusal(w.disks, uri, requests.Keys, occupied).None?
    ensures lun.Some? ==> w.disks.Some? && SafeRequest(sent, UsedLuns(w.disks.value, occupied))
    ensures lun.Some? ==> sent.Keys == requests.Keys && Answers(lun.value, uri, sent, w.disks.value)
  {
    var res, order := SetDiskLun(w.disks, uri, requests, occupied);
    sent := LunsOf(requests);
    assert sent.Keys == requests.Keys;
    assert res.Assigned? <==> Refusal(w.disks, uri, requests.Keys, occupied).None?;
    if res.Failed? {
      return None, sent;
    }
    EnumerationLength(order, requests);
    EnumerationLength(order, sent);
    LowestLunsAreSafe(sent, order, UsedLuns(w.disks.value, occupied));
    return Some(res.lun), sent;
  }

  /** What trimming may leave of a drained batch. */
  ghost predicate Trimmed(cfg: Config, w: World, keys: set<string>, kept: set<string>) {
    kept <= keys && |kept| == Kept(|keys|, DisksAllowed(cfg, w))
  }

  method PrepareBatch(batch: DiskMap<AttachDiskOptions?>, uri: string, occupied: seq<int>, cfg: Config, w: World)
    returns (lun: Option<int>, ghost sent: map<string, int>)
    requires Orderly(batch.entries) && IsLower(uri)
    modifies batch, Options(batch.entries)
    ensures Trimmed(cfg, w, old(batch.entries.Keys), sent.Keys)
    ensures lun.Some? <==> Refusal(w.disks, uri, sent.Keys, occupied).None?
    ensures lun.Some? ==> w.disks.Some? && SafeRequest(sent, UsedLuns(w.disks.value, occupied))
    ensures lun.Some? ==> Answers(lun.value, uri, sent, w.disks.value)
  {
    ghost var all := batch.entries;
    Trim(batch, DisksAllowed(cfg, w));
    assert Options(batch.entries) <= Options(all);
    assert |batch.entries.Keys| == |batch.entries| && |all.Keys| == |all|;
    lun, sent := AllocateLuns(batch.entries, uri, occupied, w);
    assert sent.Keys == batch.entries.Keys;
  }

  ghost predicate Verifies(w: World, call: Detach.Call) {
    exists lun: Option<int> :: lun.Some? && Shows(w.after, call, lun)
  }

  /**
   * What becomes of a drained batch: `kept` is what trimming left, `sent` what the VM update was asked for, if it was.
   */
  ghost predicate Processed(cfg: Config, w: World, call: Detach.Call, uri: string, occupied: seq<int>,
      keys: set<string>, kept: set<string>, sent: Option<map<string, int>>, lun: Option<int>) {
    && Trimmed(cfg, w, keys, kept)
    && (sent.Some? <==> w.vmset && Refusal(w.disks, uri, kept, occupied).None?)
    && (sent.Some? ==>
      sent.value.Keys == kept && w.disks.Some? && SafeRequest(sent.value, UsedLuns(w.disks.value, occupied)))
    && (lun.Some? <==> sent.Some? && Updates(w.update) && (cfg.lunCheck ==> Verifies(w, call)))
    && (lun.Some? ==> if cfg.lunCheck then Shows(w.after, call, lun)
      else Answers(lun.value, uri, sent.value, w.disks.value))
  }

  /** A list shows one answer. */
  lemma VerifiedOnce(w: World, call: Detach.Call, lun: Option<int>)
    requires Shows(w.after, call, lun)
    ensures Verifies(w, call) <==> lun.Some?
  {
    forall r ensures Detach.LunReplyOf(w.after, call, r) <==> r == Detach.Reply(w.after, call) {
      Detach.ReplyIsLunReply(w.after, call, r);
    }
  }

  method ProcessBatch(batch: DiskMap<AttachDiskOptions?>, call: Detach.Call, uri: string, occupied: seq<int>,
      cfg: Config, w: World)
    returns (lun: Option<int>, ghost sent: Option<map<string, int>>, ghost kept: set<string>)
    requires Orderly(batch.entries) && IsLower(uri)
    modifies batch, Options(batch.entries)
    ensures Processed(cfg, w, call, uri, occupied, old(batch.entries.Keys), kept, sent, lun)
  {
    var chosen, request := PrepareBatch(batch, uri, occupied, cfg, w);
    sent, kept := None, request.Keys;
    if chosen.None? || !w.vmset {
      return None, sent, kept;
    }
    sent := Some(request);
    if !Updates(w.update) {
      return None, sent, kept;
    }
    if !cfg.lunCheck {
      return chosen, sent, kept;
    }
    lun := VerifyAttach(w.after, call);
    VerifiedOnce(w, call, lun);
  }

  /** `uri` is the key under which the call queued its request. */
  method AttachUnderNodeLock(pending: PendingMap<AttachDiskOptions?>, node: string, call: Detach.Call, uri: string,
      occupied: seq<int>, cfg: Config, w: World)
    returns (lun: Option<int>, ghost sent: Option<map<string, int>>, ghost kept: set<string>)
    requires pending.Valid() && Orderly(pending.Pending(node)) && uri == ToLower(call.diskURI)
    modifies pending, pending.requests.Values, Options(pending.Pending(node))
    ensures pending.Valid() && forall n :: n != node ==> pending.Pending(n) == old(pending.Pending(n))
    ensures CountFails(cfg, w) ==> lun.None? && sent.None? && pending.Pending(node) == old(pending.Pending(node))
    ensures !CountFails(cfg, w) && uri !in old(pending.Pending(node)) ==>
      sent.None? && Shows(w.after, call, lun) && pending.Pending(node) == old(pending.Pending(node))
    ensures !CountFails(cfg, w) && uri in old(pending.Pending(node)) ==>
      pending.Pending(node) == map[]
      && Processed(cfg, w, call, uri, occupied, old(pending.Pending(node)).Keys, kept, sent, lun)
  {
    sent, kept := None, {};
    if CountFails(cfg, w) {
      return None, sent, kept;
    }
    ToLowerIdempotent(call.diskURI);
    var batch := pending.Retrieve(node, uri);
    if batch == null {
      lun := VerifyAttach(w.after, call);
      return;
    }
    lun, sent, kept := ProcessBatch(batch, call, uri, occupied, cfg, w);
  }
}
