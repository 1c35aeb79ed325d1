/**
 * One DetachDisk call against an arbitrary cloud. The requests it makes and the replies it gets are recorded in order;
 * what the call answers is then a property of that record.
 */
module Detach {
  import opened Text
  import Luns

  const CANNOT_FIND := "cannot find Lun"
  const IN_PROGRESS := "detach in progress"
  const BACKOFF_STEPS := 7

  // ---------------------------------------------------------------------------------------------
  // The cloud's replies

  /** A Go error: its text, the HTTP status of an Azure SDK error in its chain, and the sentinel errors it wraps. */
  datatype CloudError = CloudError(text: string, status: Option<int>, deadline: bool, missing: bool)

  /** The node's instance and its VM set: NoVMSet when the instance is known but its VM set cannot be had. */
  datatype Lookup = Known | Missing | LookupFailed(text: string) | NoVMSet(text: string)

  datatype ListReply = Listed(disks: seq<Luns.DataDisk>) | Unlisted(text: string)
  datatype Holder = OnNode(node: string) | Unresolved(error: CloudError)
  datatype DiskReply = Unread(text: string) | Free | HeldBy(holder: Holder)

  /** What the i-th request of the call would be answered; `expired` tells whether its context is done by then. */
  datatype World = World(
    lookups: nat -> Lookup, batch: map<string, string>, updates: nat -> Option<CloudError>, lists: nat -> ListReply,
    disks: nat -> DiskReply, expired: nat -> bool)

  datatype Config = Config(lunCheck: bool, waitForDetach: bool, forceDetachBackoff: bool)

  /** `uriParses` tells whether GetInfoFromURI accepts the disk's URI. */
  datatype Call = Call(diskName: string, diskURI: string, node: string, uriParses: bool)

  datatype Outcome = Detached | Failed(text: string) | Panicked

  datatype Event =
    | Looked(lookup: Lookup)
    | Drained(batch: map<string, string>)
    | Updated(disks: map<string, string>, force: bool, error: Option<CloudError>)
    | Polled(list: ListReply)
    | Verified(list: ListReply)
    | DiskRead(disk: DiskReply)

  predicate InstanceGone(e: CloudError) {
    var text := ToLower(e.text);
    || e.status == Some(404)
    || Contains(text, ToLower("not an active Virtual Machine Scale Set VM instanceId"))
    || (Contains(text, "statuscode=400") && Contains(text, "code=\"invalidparameter\"")
      && Contains(text, "target=\"instanceids\""))
  }

  predicate Preempted(e: CloudError) {
    Contains(ToLower(e.text), ToLower("DataDisksForceDetached"))
  }

  // ---------------------------------------------------------------------------------------------
  // GetDiskLun

  datatype LunReply = At(lun: int) | NoLun(text: string) | NilLun

  /** Go's `&&` binds tighter than `||`: only the match by name asks for a LUN. */
  predicate IsDisk(d: Luns.DataDisk, call: Call) {
    || (d.lun.Some? && d.name.Some? && call.diskName != "" && EqualFold(d.name.value, call.diskName))
    || (d.vhdUri.Some? && call.diskURI != "" && EqualFold(d.vhdUri.value, call.diskURI))
    || (d.managedId.Some? && EqualFold(d.managedId.value, call.diskURI))
  }

  function InProgressText(call: Call): string {
    "disk(" + call.diskURI + ") is in ToBeDetached state on node(" + call.node + "): " + IN_PROGRESS
  }

  function MissingText(call: Call): string {
    CANNOT_FIND + " for disk " + call.diskName
  }

  function LunOf(d: Luns.DataDisk, call: Call): LunReply {
    if d.lun.None? then NilLun else if d.toBeDetached then NoLun(InProgressText(call)) else At(d.lun.value)
  }

  predicate FirstMatch(disks: seq<Luns.DataDisk>, call: Call, i: nat) {
    i < |disks| && IsDisk(disks[i], call) && forall j :: 0 <= j < i ==> !IsDisk(disks[j], call)
  }

  predicate Lists(list: ListReply, call: Call) {
    list.Listed? && exists i :: 0 <= i < |list.disks| && IsDisk(list.disks[i], call)
  }

  /** What GetDiskLun makes of a reply, independently of how it searches. */
  ghost predicate LunReplyOf(list: ListReply, call: Call, r: LunReply) {
    match list
    case Unlisted(text) => r == NoLun(text)
    case Listed(disks) =>
      || (!Lists(list, call) && r == NoLun(MissingText(call)))
      || exists i: nat :: FirstMatch(disks, call, i) && r == LunOf(disks[i], call)
  }

  function Scan(disks: seq<Luns.DataDisk>, call: Call): LunReply {
    if disks == [] then NoLun(MissingText(call))
    else if IsDisk(disks[0], call) then LunOf(disks[0], call)
    else Scan(disks[1..], call)
  }

  function Reply(list: ListReply, call: Call): LunReply {
    match list
    case Unlisted(text) => NoLun(text)
    case Listed(disks) => Scan(disks, call)
  }

  lemma {:induction false} ScanFindsFirst(disks: seq<Luns.DataDisk>, call: Call)
    ensures LunReplyOf(Listed(disks), call, Scan(disks, call))
  {
    if disks != [] && IsDisk(disks[0], call) {
      assert FirstMatch(disks, call, 0);
    } else if disks != [] {
      ScanFindsFirst(disks[1..], call);
      if Lists(Listed(disks[1..]), call) {
        var i: nat :| FirstMatch(disks[1..], call, i) && Scan(disks, call) == LunOf(disks[1..][i], call);
        assert forall j :: 0 < j < |disks| ==> disks[j] == disks[1..][j - 1];
        assert FirstMatch(disks, call, i + 1);
      } else {
        assert forall j :: 0 < j < |disks| ==> disks[j] == disks[1..][j - 1];
      }
    }
  }

  /** The first match decides, so the answer is unique. */
  lemma ReplyIsLunReply(list: ListReply, call: Call, r: LunReply)
    ensures LunReplyOf(list, call, r) <==> r == Reply(list, call)
  {
    if list.Listed? {
      ScanFindsFirst(list.disks, call);
      forall i: nat, j: nat | FirstMatch(list.disks, call, i) && FirstMatch(list.disks, call, j) ensures i == j {
      }
    }
  }

  method GetDiskLun(list: ListReply, call: Call) returns (r: LunReply)
    ensures LunReplyOf(list, call, r) && r == Reply(list, call)
  {
    if list.Unlisted? {
      return NoLun(list.text);
    }
    for i := 0 to |list.disks|
      invariant forall j :: 0 <= j < i ==> !IsDisk(list.disks[j], call)
      invariant Scan(list.disks, call) == Scan(list.disks[i..], call)
    {
      if IsDisk(list.disks[i], call) {
        r := LunOf(list.disks[i], call);
        ReplyIsLunReply(list, call, r);
        return;
      }
    }
    r := NoLun(MissingText(call));
    ReplyIsLunReply(list, call, r);
  }

  // ---------------------------------------------------------------------------------------------
  // What the call reads as "detached"

  /** The test both readers make: the error's text mentions that no LUN was found. */
  predicate Accepts(list: ListReply, call: Call) {
    var r := Reply(list, call);
    r.NoLun? && Contains(r.text, CANNOT_FIND)
  }

  /** The poll asks again. */
  predicate KeepsPolling(list: ListReply, call: Call) {
    var r := Reply(list, call);
    r.At? || (r.NoLun? && !Contains(r.text, CANNOT_FIND) && Contains(r.text, IN_PROGRESS))
  }

  predicate Released(reply: DiskReply, call: Call) {
    || reply.Free?
    || (reply.HeldBy? && reply.holder.OnNode? && !EqualFold(reply.holder.node, call.node))
  }

  predicate KeepsWaiting(reply: DiskReply, call: Call) {
    && reply.HeldBy?
    && match reply.holder
       case OnNode(node) => EqualFold(node, call.node)
       case Unresolved(e) => e.missing || InstanceGone(e)
  }

  // ---------------------------------------------------------------------------------------------
  // The order of requests

  /** The instance is taken to be gone; with waiting on, the disk itself is asked next. */
  predicate FindsNoInstance(e: Event) {
    || (e.Looked? && e.lookup.Missing?)
    || (e.Updated? && !e.force && e.error.Some? && InstanceGone(e.error.value))
  }

  predicate FallsBackToForce(cfg: Config, batch: map<string, string>, next: Event) {
    cfg.forceDetachBackoff && next.Updated? && next.force && next.disks == batch
  }

  /** Which request may come right after which reply. */
  predicate Follows(cfg: Config, call: Call, batch: map<string, string>, e: Event, next: Event) {
    if FindsNoInstance(e) then cfg.waitForDetach && call.uriParses && next.DiskRead?
    else match e
      case Looked(lookup) => lookup.Known? && next == Drained(batch)
      case Drained(b) =>
        if |b| == 0 then next.Verified? else next.Updated? && !next.force && next.disks == batch
      case Updated(_, force, error) =>
        if error.None? then cfg.lunCheck && next.Verified?
        else if force then false
        else if Preempted(error.value) then next.Verified?
        else (error.value.deadline && next.Polled?) || FallsBackToForce(cfg, batch, next)
      case Polled(list) =>
        if Accepts(list, call) then cfg.lunCheck && next.Verified?
        else if Reply(list, call).NilLun? then false
        else (KeepsPolling(list, call) && next.Polled?) || FallsBackToForce(cfg, batch, next)
      case Verified(_) => false
      case DiskRead(reply) => KeepsWaiting(reply, call) && next.DiskRead?
  }

  /** What the call may answer when this was its last reply. */
  predicate Ends(cfg: Config, call: Call, e: Event, outcome: Outcome) {
    if FindsNoInstance(e) then (if cfg.waitForDetach then outcome.Failed? else outcome.Detached?)
    else match e
      case Looked(lookup) => (lookup.LookupFailed? || lookup.NoVMSet?) && outcome == Failed(lookup.text)
      case Drained(_) => false
      case Updated(_, force, error) =>
        if error.None? then !cfg.lunCheck && outcome.Detached?
        else if force then outcome == Failed(error.value.text)
        else if Preempted(error.value) || cfg.forceDetachBackoff then false
        else outcome.Failed? && (outcome.text == error.value.text || error.value.deadline)
      case Polled(list) =>
        if Accepts(list, call) then !cfg.lunCheck && outcome.Detached?
        else if Reply(list, call).NilLun? then outcome.Panicked?
        else !cfg.forceDetachBackoff && outcome.Failed?
      case Verified(list) =>
        if Accepts(list, call) then outcome.Detached?
        else if Reply(list, call).NilLun? then outcome.Panicked?
        else outcome.Failed?
      case DiskRead(reply) => if Released(reply, call) then outcome.Detached? else outcome.Failed?
  }

  ghost predicate IsRun(cfg: Config, call: Call, batch: map<string, string>, run: seq<Event>) {
    && |run| > 0 && run[0].Looked?
    && forall i :: 0 < i < |run| ==> Follows(cfg, call, batch, run[i - 1], run[i])
  }

  ghost predicate Answered(w: World, i: nat, e: Event) {
    match e
    case Looked(lookup) => lookup == w.lookups(i)
    case Drained(batch) => batch == w.batch
    case Updated(_, _, error) => error == w.updates(i)
    case Polled(list) => list == w.lists(i)
    case Verified(list) => list == w.lists(i)
    case DiskRead(reply) => reply == w.disks(i)
  }

  /** The replies are the cloud's, in order. */
  ghost predicate Recorded(w: World, run: seq<Event>) {
    forall i :: 0 <= i < |run| ==> Answered(w, i, run[i])
  }

  function Last(run: seq<Event>): Event
    requires run != []
  {
    run[|run| - 1]
  }

  // ---------------------------------------------------------------------------------------------
  // What a call asks next, in a given world

  /** How many requests precede a wait: the lookup, or lookup, drain and update. */
  function Before(run: seq<Event>): nat
    requires run != []
  {
    if run[0] == Looked(Missing) then 1 else 3
  }

  /** Another round of a backoff: at most seven, and none once the context is done. */
  predicate AnotherRound(w: World, run: seq<Event>)
    requires run != []
  {
    |run| < Before(run) + BACKOFF_STEPS && !w.expired(|run|)
  }

  function Checked(w: World, cfg: Config, run: seq<Event>): Option<Event> {
    if cfg.lunCheck then Some(Verified(w.lists(|run|))) else None
  }

  function Forced(w: World, cfg: Config, run: seq<Event>): Option<Event> {
    if cfg.forceDetachBackoff then Some(Updated(w.batch, true, w.updates(|run|))) else None
  }

  /** The next request of a call with its reply; None when the call returns. */
  function NextEvent(w: World, cfg: Config, call: Call, run: seq<Event>): Option<Event>
    requires run != []
  {
    var n, e := |run|, run[|run| - 1];
    if FindsNoInstance(e) then
      if cfg.waitForDetach && call.uriParses && AnotherRound(w, run) then Some(DiskRead(w.disks(n))) else None
    else match e
      case Looked(lookup) => if lookup.Known? then Some(Drained(w.batch)) else None
      case Drained(b) => Some(if |b| == 0 then Verified(w.lists(n)) else Updated(w.batch, false, w.updates(n)))
      case Updated(_, force, error) =>
        if error.None? then Checked(w, cfg, run)
        else if force then None
        else if Preempted(error.value) then Some(Verified(w.lists(n)))
        else if error.value.deadline && AnotherRound(w, run) then Some(Polled(w.lists(n)))
        else Forced(w, cfg, run)
      case Polled(list) =>
        if Accepts(list, call) then Checked(w, cfg, run)
        else if Reply(list, call).NilLun? then None
        else if KeepsPolling(list, call) && AnotherRound(w, run) then Some(Polled(w.lists(n)))
        else Forced(w, cfg, run)
      case Verified(_) => None
      case DiskRead(reply) =>
        if KeepsWaiting(reply, call) && AnotherRound(w, run) then Some(DiskRead(w.disks(n))) else None
  }

  ghost predicate PlaysAt(w: World, cfg: Config, call: Call, run: seq<Event>, i: nat)
    requires 0 < i < |run|
  {
    NextEvent(w, cfg, call, run[..i]) == Some(run[i])
  }

  /** The requests are those of the call in this world, as far as they go. */
  ghost predicate Plays(w: World, cfg: Config, call: Call, run: seq<Event>) {
    run != [] && run[0] == Looked(w.lookups(0)) && forall i :: 0 < i < |run| ==> PlaysAt(w, cfg, call, run, i)
  }

  ghost predicate IsWhole(w: World, cfg: Config, call: Call, run: seq<Event>) {
    Plays(w, cfg, call, run) && NextEvent(w, cfg, call, run) == None
  }

  /** A world fixes the call's requests. */
  lemma {:induction false} PlaysAgree(w: World, cfg: Config, call: Call, run: seq<Event>, other: seq<Event>, n: nat)
    requires Plays(w, cfg, call, run) && Plays(w, cfg, call, other) && n <= |run| && n <= |other|
    ensures run[..n] == other[..n]
  {
    if n > 1 {
      PlaysAgree(w, cfg, call, run, other, n - 1);
      assert PlaysAt(w, cfg, call, run, n - 1) && PlaysAt(w, cfg, call, other, n - 1);
      assert run[..n] == run[..n - 1] + [run[n - 1]] && other[..n] == other[..n - 1] + [other[n - 1]];
    } else if n == 1 {
      assert run[..1] == [run[0]] && other[..1] == [other[0]];
    }
  }

  lemma WholeRunsAreUnique(w: World, cfg: Config, call: Call, run: seq<Event>, other: seq<Event>)
    requires IsWhole(w, cfg, call, run) && IsWhole(w, cfg, call, other)
    ensures run == other
  {
    var n := if |run| < |other| then |run| else |other|;
    PlaysAgree(w, cfg, call, run, other, n);
    assert run[..|run|] == run && other[..|other|] == other;
    assert |run| < |other| ==> PlaysAt(w, cfg, call, other, |run|);
    assert |other| < |run| ==> PlaysAt(w, cfg, call, run, |other|);
  }

  /** What a call asks next is permitted, and answered by the world. */
  lemma NextIsPermitted(w: World, cfg: Config, call: Call, run: seq<Event>)
    requires run != [] && NextEvent(w, cfg, call, run).Some? && (Last(run).Drained? ==> Last(run) == Drained(w.batch))
    ensures Follows(cfg, call, w.batch, Last(run), NextEvent(w, cfg, call, run).value)
    ensures Answered(w, |run|, NextEvent(w, cfg, call, run).value)
  {
  }

  // ---------------------------------------------------------------------------------------------
  // The call

  ghost predicate SoFar(w: World, cfg: Config, call: Call, run: seq<Event>) {
    IsRun(cfg, call, w.batch, run) && Recorded(w, run) && Plays(w, cfg, call, run)
  }

  lemma Ask(w: World, cfg: Config, call: Call, run: seq<Event>, e: Event)
    requires SoFar(w, cfg, call, run) && NextEvent(w, cfg, call, run) == Some(e)
    ensures SoFar(w, cfg, call, run + [e])
  {
    var longer := run + [e];
    assert Answered(w, |run| - 1, run[|run| - 1]);
    NextIsPermitted(w, cfg, call, run);
    forall i | 0 < i < |longer| ensures Follows(cfg, call, w.batch, longer[i - 1], longer[i]) {
      if i < |run| {
        assert Follows(cfg, call, w.batch, run[i - 1], run[i]);
      }
    }
    forall i | 0 <= i < |longer| ensures Answered(w, i, longer[i]) {
      if i < |run| {
        assert Answered(w, i, run[i]);
      }
    }
    forall i | 0 < i < |longer| ensures PlaysAt(w, cfg, call, longer, i) {
      assert longer[..i] == run[..i];
      if i < |run| {
        assert PlaysAt(w, cfg, call, run, i);
      } else {
        assert run[..i] == run;
      }
    }
  }

  method VerifyDetach(w: World, cfg: Config, call: Call, run: seq<Event>) returns (outcome: Outcome, after: seq<Event>)
    requires SoFar(w, cfg, call, run) && NextEvent(w, cfg, call, run) == Some(Verified(w.lists(|run|)))
    ensures SoFar(w, cfg, call, after) && |after| == |run| + 1 && NextEvent(w, cfg, call, after) == None
    ensures Ends(cfg, call, Last(after), outcome)
  {
    var list := w.lists(|run|);
    Ask(w, cfg, call, run, Verified(list));
    after := run + [Verified(list)];
    var r := GetDiskLun(list, call);
    match r
    case NoLun(text) => outcome := if Contains(text, CANNOT_FIND) then Detached else Failed(text);
    case At(lun) =>
      outcome := Failed("disk(" + call.diskURI + ") is still attached to node(" + call.node
                        + ") on lun(" + Itoa(lun) + ")");
    case NilLun => outcome := Panicked;
  }

  /** Polls the VM's disk list; None when the list says the disk is gone. */
  method PollForDetachCompletion(w: World, cfg: Config, call: Call, run: seq<Event>)
    returns (error: Option<Outcome>, after: seq<Event>)
    requires SoFar(w, cfg, call, run) && |run| == 3 && Last(run).Updated? && !Last(run).force
      && !FindsNoInstance(Last(run))
    requires Last(run).error.Some? && Last(run).error.value.deadline && !Preempted(Last(run).error.value)
    ensures SoFar(w, cfg, call, after) && |run| <= |after| <= |run| + BACKOFF_STEPS
    ensures error.None? ==> Last(after).Polled? && Accepts(Last(after).list, call)
    ensures error.Some? && error.value.Panicked? ==> Last(after).Polled? && Reply(Last(after).list, call).NilLun?
    ensures error.Some? && !error.value.Panicked? ==>
      && error.value.Failed? && NextEvent(w, cfg, call, after) == Forced(w, cfg, after)
      && (after == run || (Last(after).Polled? && !Accepts(Last(after).list, call)
        && !Reply(Last(after).list, call).NilLun?))
  {
    after := run;
    FirstLookup(w, cfg, call, run);
    for i := 0 to BACKOFF_STEPS
      invariant SoFar(w, cfg, call, after) && |after| == |run| + i && Before(after) == 3
      invariant if i == 0 then after == run else Last(after).Polled? && KeepsPolling(Last(after).list, call)
    {
      if w.expired(|after|) {
        return Some(Failed("context done")), after;
      }
      var list := w.lists(|after|);
      Ask(w, cfg, call, after, Polled(list));
      after := after + [Polled(list)];
      var r := GetDiskLun(list, call);
      if r.NoLun? && Contains(r.text, CANNOT_FIND) {
        return None, after;
      } else if r.NilLun? {
        return Some(Panicked), after;
      } else if r.NoLun? && !Contains(r.text, IN_PROGRESS) {
        return Some(Failed(r.text)), after;
      }
    }
    return Some(Failed("timed out waiting for the condition")), after;
  }

  /** A missing instance is found out at once or by the update. */
  lemma FirstLookup(w: World, cfg: Config, call: Call, run: seq<Event>)
    requires SoFar(w, cfg, call, run) && |run| > 1 && !Last(run).DiskRead?
    ensures Before(run) == 3
  {
    assert Follows(cfg, call, w.batch, run[0], run[1]);
    if run[0] == Looked(Missing) {
      OnlyDiskReads(cfg, call, w.batch, run, |run| - 1);
      assert false;
    }
  }

  lemma {:induction false} OnlyDiskReads(cfg: Config, call: Call, batch: map<string, string>, run: seq<Event>, k: nat)
    requires IsRun(cfg, call, batch, run) && run[0] == Looked(Missing) && 0 < k < |run|
    ensures run[k].DiskRead?
  {
    assert Follows(cfg, call, batch, run[k - 1], run[k]);
    if k > 1 {
      OnlyDiskReads(cfg, call, batch, run, k - 1);
    }
  }

  /** One look at the disk: an answer, or None to look again. */
  method JudgeDisk(reply: DiskReply, call: Call) returns (answer: Option<Outcome>)
    ensures answer.None? <==> KeepsWaiting(reply, call)
    ensures answer.Some? ==> if Released(reply, call) then answer.value.Detached? else answer.value.Failed?
  {
    match reply
    case Unread(text) => return Some(Failed(text));
    case Free => return Some(Detached);
    case HeldBy(OnNode(node)) => return if EqualFold(node, call.node) then None else Some(Detached);
    case HeldBy(Unresolved(e)) => return if e.missing || InstanceGone(e) then None else Some(Failed(e.text));
  }

  method WaitForDiskManagedByTobeRemoved(w: World, cfg: Config, call: Call, run: seq<Event>)
    returns (outcome: Outcome, after: seq<Event>)
    requires SoFar(w, cfg, call, run) && FindsNoInstance(Last(run)) && |run| == Before(run)
    ensures SoFar(w, cfg, call, after) && |run| <= |after| <= |run| + BACKOFF_STEPS
    ensures NextEvent(w, cfg, call, after) == None && Ends(cfg, call, Last(after), outcome)
  {
    after := run;
    if !cfg.waitForDetach {
      return Detached, after;
    }
    if !call.uriParses {
      return Failed("invalid disk URI"), after;
    }
    for i := 0 to BACKOFF_STEPS
      invariant SoFar(w, cfg, call, after) && |after| == |run| + i && Before(after) == |run|
      invariant if i == 0 then after == run else Last(after).DiskRead? && KeepsWaiting(Last(after).disk, call)
    {
      if w.expired(|after|) {
        return Failed("context done"), after;
      }
      var reply := w.disks(|after|);
      Ask(w, cfg, call, after, DiskRead(reply));
      after := after + [DiskRead(reply)];
      var answer := JudgeDisk(reply, call);
      if answer.Some? {
        return answer.value, after;
      }
    }
    return Failed("timed out waiting for the condition"), after;
  }

  /** The last answer before the final check: an error that the call returns, or None when the batch went through. */
  ghost predicate Settled(w: World, cfg: Config, call: Call, run: seq<Event>, result: Option<Outcome>)
    requires run != []
  {
    var e := Last(run);
    match result
    case Some(outcome) => Ends(cfg, call, e, outcome) && NextEvent(w, cfg, call, run) == None
    case None =>
      || (e.Updated? && e.error.None?)
      || (e.Polled? && Accepts(e.list, call))
  }

  /** Where a failed plain detach leaves the call: the update's own error, or a poll that did not end well. */
  predicate Stuck(call: Call, e: Event, outcome: Outcome) {
    && !FindsNoInstance(e)
    && outcome.Failed?
    && (e.Polled? ==> !Accepts(e.list, call) && !Reply(e.list, call).NilLun?)
    && (!e.Polled? ==>
      && e.Updated? && !e.force && e.error.Some? && !Preempted(e.error.value)
      && (outcome.text == e.error.value.text || e.error.value.deadline))
  }

  method ForceDetach(w: World, cfg: Config, call: Call, run: seq<Event>, failure: Outcome)
    returns (result: Option<Outcome>, after: seq<Event>)
    requires SoFar(w, cfg, call, run) && Stuck(call, Last(run), failure)
    requires NextEvent(w, cfg, call, run) == Forced(w, cfg, run)
    ensures SoFar(w, cfg, call, after) && |run| <= |after| <= |run| + 1
    ensures Settled(w, cfg, call, after, result)
  {
    if !cfg.forceDetachBackoff {
      return Some(failure), run;
    }
    var error := w.updates(|run|);
    Ask(w, cfg, call, run, Updated(w.batch, true, error));
    after := run + [Updated(w.batch, true, error)];
    result := if error.Some? then Some(Failed(error.value.text)) else None;
  }

  /** The plain detach failed. */
  method AfterFailure(w: World, cfg: Config, call: Call, before: seq<Event>) returns (outcome: Outcome, run: seq<Event>)
    requires SoFar(w, cfg, call, before) && |before| == 3
    requires Last(before).Updated? && !Last(before).force && Last(before).error.Some?
    ensures SoFar(w, cfg, call, run) && |run| <= |before| + BACKOFF_STEPS + 2
    ensures NextEvent(w, cfg, call, run) == None && Ends(cfg, call, Last(run), outcome)
  {
    var error := Last(before).error.value;
    FirstLookup(w, cfg, call, before);
    if InstanceGone(error) {
      outcome, run := WaitForDiskManagedByTobeRemoved(w, cfg, call, before);
      return;
    }
    if Preempted(error) {
      outcome, run := VerifyDetach(w, cfg, call, before);
      return;
    }
    var result := Some(Failed(error.text));
    run := before;
    if error.deadline {
      result, run := PollForDetachCompletion(w, cfg, call, before);
    }
    if result.Some? && !result.value.Panicked? {
      result, run := ForceDetach(w, cfg, call, run, result.value);
    }
    outcome, run := Finish(w, cfg, call, run, result);
  }

  method DetachBatch(w: World, cfg: Config, call: Call, before: seq<Event>) returns (outcome: Outcome, run: seq<Event>)
    requires SoFar(w, cfg, call, before) && |before| == 2 && Last(before) == Drained(w.batch) && |w.batch| > 0
    ensures SoFar(w, cfg, call, run) && |run| <= |before| + BACKOFF_STEPS + 3
    ensures NextEvent(w, cfg, call, run) == None && Ends(cfg, call, Last(run), outcome)
  {
    var error := w.updates(|before|);
    Ask(w, cfg, call, before, Updated(w.batch, false, error));
    run := before + [Updated(w.batch, false, error)];
    if error.Some? {
      outcome, run := AfterFailure(w, cfg, call, run);
    } else {
      outcome, run := Finish(w, cfg, call, run, None);
    }
  }

  method Finish(w: World, cfg: Config, call: Call, run: seq<Event>, result: Option<Outcome>)
    returns (outcome: Outcome, after: seq<Event>)
    requires SoFar(w, cfg, call, run) && Settled(w, cfg, call, run, result)
    ensures SoFar(w, cfg, call, after) && |after| <= |run| + 1
    ensures NextEvent(w, cfg, call, after) == None && Ends(cfg, call, Last(after), outcome)
  {
    if result.Some? {
      return result.value, run;
    }
    if cfg.lunCheck {
      outcome, after := VerifyDetach(w, cfg, call, run);
      return;
    }
    return Detached, run;
  }

  /** `w.batch` is what retrieveDetachBatchedDiskRequests hands over. */
  method DetachDisk(w: World, cfg: Config, call: Call) returns (outcome: Outcome, run: seq<Event>)
    ensures SoFar(w, cfg, call, run) && |run| <= 12
    ensures IsWhole(w, cfg, call, run) && Ends(cfg, call, Last(run), outcome)
  {
    var lookup := w.lookups(0);
    run := [Looked(lookup)];
    match lookup {
      case Missing => outcome, run := WaitForDiskManagedByTobeRemoved(w, cfg, call, run); return;
      case LookupFailed(text) => return Failed(text), run;
      case NoVMSet(text) => return Failed(text), run;
      case Known =>
    }
    var diskMap := w.batch;
    Ask(w, cfg, call, run, Drained(diskMap));
    run := run + [Drained(diskMap)];
    if |diskMap| == 0 {
      outcome, run := VerifyDetach(w, cfg, call, run);
      return;
    }
    outcome, run := DetachBatch(w, cfg, call, run);
  }

  // ---------------------------------------------------------------------------------------------
  // What success means

  /**
   * The last thing the cloud said: the VM lists no such disk, or the instance is gone and the disk is not on the node.
   */
  predicate Witnesses(e: Event, call: Call) {
    || (e.Verified? && e.list.Listed? && !Lists(e.list, call))
    || (e.DiskRead? && Released(e.disk, call))
  }

  /**
   * A reply that is read as "not found" although it is not a list without the disk: a failed read, or a disk marked
   * ToBeDetached, whose text happens to hold the words the test looks for.
   */
  predicate Misleads(list: ListReply, call: Call) {
    match list
    case Unlisted(text) => Contains(text, CANNOT_FIND)
    case Listed(disks) =>
      && Reply(list, call) == NoLun(InProgressText(call)) && Lists(list, call)
      && Contains(InProgressText(call), CANNOT_FIND)
  }

  lemma AcceptsExactly(list: ListReply, call: Call)
    ensures Accepts(list, call) <==> (list.Listed? && !Lists(list, call)) || Misleads(list, call)
  {
    ReplyIsLunReply(list, call, Reply(list, call));
    if list.Listed? && !Lists(list, call) {
      ContainsInMiddle("", CANNOT_FIND, " for disk " + call.diskName);
      assert "" + CANNOT_FIND + (" for disk " + call.diskName) == MissingText(call);
    }
  }

  /** With checking and waiting on, a call succeeds exactly when its last reply is a witness, misleading texts aside. */
  lemma SuccessIsWitnessed(cfg: Config, call: Call, batch: map<string, string>, run: seq<Event>, outcome: Outcome)
    requires cfg.lunCheck && cfg.waitForDetach
    requires IsRun(cfg, call, batch, run) && Ends(cfg, call, Last(run), outcome)
    ensures outcome.Detached? <==>
      Witnesses(Last(run), call) || (Last(run).Verified? && Misleads(Last(run).list, call))
  {
    var e := Last(run);
    if e.Verified? {
      AcceptsExactly(e.list, call);
    }
  }

  /** Names without spaces, such as Azure resource IDs and Kubernetes node names, never make the text misleading. */
  lemma PlainNamesDoNotMislead(call: Call)
    requires ' ' !in call.diskURI && ' ' !in call.node
    ensures !Contains(InProgressText(call), CANNOT_FIND)
  {
    var uri, node := call.diskURI, call.node;
    JoinNoWordWith("disk(", uri, 'f');
    JoinNoWordWith("disk(" + uri, ") is in ToBeDetached state on node(", 'f');
    JoinNoWordWith("disk(" + uri + ") is in ToBeDetached state on node(", node, 'f');
    JoinNoWordWith("disk(" + uri + ") is in ToBeDetached state on node(" + node, "): ", 'f');
    JoinNoWordWith("disk(" + uri + ") is in ToBeDetached state on node(" + node + "): ", IN_PROGRESS, 'f');
    PhraseAbsent(InProgressText(call), CANNOT_FIND, 6);
  }

  lemma TimeoutIsNoAnswer(e: CloudError)
    requires e == CloudError("", None, true, false)
    ensures !InstanceGone(e) && !Preempted(e)
  {
  }

  /** The update times out, the first list shows the disk, and every later read fails in the words of the test. */
  function UnreadableWorld(disk: Luns.DataDisk, batch: map<string, string>): World {
    World(n => Known, batch, n => Some(CloudError("", None, true, false)),
          n => if n == 3 then Listed([disk]) else Unlisted(CANNOT_FIND), n => Free, n => false)
  }

  function UnreadableRun(disk: Luns.DataDisk, batch: map<string, string>): seq<Event> {
    [Looked(Known), Drained(batch), Updated(batch, false, Some(CloudError("", None, true, false))),
     Polled(Listed([disk])), Polled(Unlisted(CANNOT_FIND)), Verified(Unlisted(CANNOT_FIND))]
  }

  lemma CannotFindIsAccepted(call: Call)
    ensures Accepts(Unlisted(CANNOT_FIND), call)
  {
    assert OccursAt(CANNOT_FIND, CANNOT_FIND, 0);
  }

  lemma UnreadableStart(cfg: Config, call: Call, disk: Luns.DataDisk, batch: map<string, string>)
    requires |batch| > 0
    ensures var w, run := UnreadableWorld(disk, batch), UnreadableRun(disk, batch);
            PlaysAt(w, cfg, call, run, 1) && PlaysAt(w, cfg, call, run, 2)
  {
    var run := UnreadableRun(disk, batch);
    assert run[..1] == [run[0]] && run[..2] == [run[0], run[1]];
  }

  lemma UnreadableTimeout(cfg: Config, call: Call, disk: Luns.DataDisk, batch: map<string, string>)
    ensures PlaysAt(UnreadableWorld(disk, batch), cfg, call, UnreadableRun(disk, batch), 3)
  {
    var run := UnreadableRun(disk, batch);
    TimeoutIsNoAnswer(CloudError("", None, true, false));
    assert run[..3] == [run[0], run[1], run[2]];
  }

  lemma UnreadableEnd(cfg: Config, call: Call, disk: Luns.DataDisk, batch: map<string, string>)
    requires cfg.lunCheck && IsDisk(disk, call) && disk.lun.Some? && !disk.toBeDetached
    ensures var w, run := UnreadableWorld(disk, batch), UnreadableRun(disk, batch);
            PlaysAt(w, cfg, call, run, 4) && PlaysAt(w, cfg, call, run, 5) && NextEvent(w, cfg, call, run) == None
    ensures Reply(Listed([disk]), call) == At(disk.lun.value)
  {
    var run := UnreadableRun(disk, batch);
    CannotFindIsAccepted(call);
    assert run[..4] == [run[0], run[1], run[2], run[3]] && run[..5] == run[..4] + [run[4]];
  }

  lemma UnreadablePlaysAt(cfg: Config, call: Call, disk: Luns.DataDisk, batch: map<string, string>, i: nat)
    requires cfg.lunCheck && IsDisk(disk, call) && disk.lun.Some? && !disk.toBeDetached && |batch| > 0 && 0 < i < 6
    ensures PlaysAt(UnreadableWorld(disk, batch), cfg, call, UnreadableRun(disk, batch), i)
  {
    if i <= 2 {
      UnreadableStart(cfg, call, disk, batch);
    } else if i == 3 {
      UnreadableTimeout(cfg, call, disk, batch);
    } else {
      UnreadableEnd(cfg, call, disk, batch);
    }
  }

  lemma UnreadableRunIsWhole(cfg: Config, call: Call, disk: Luns.DataDisk, batch: map<string, string>)
    requires cfg.lunCheck && IsDisk(disk, call) && disk.lun.Some? && !disk.toBeDetached && |batch| > 0
    ensures IsWhole(UnreadableWorld(disk, batch), cfg, call, UnreadableRun(disk, batch))
    ensures Reply(Listed([disk]), call) == At(disk.lun.value)
  {
    forall i | 0 < i < 6 ensures PlaysAt(UnreadableWorld(disk, batch), cfg, call, UnreadableRun(disk, batch), i) {
      UnreadablePlaysAt(cfg, call, disk, batch, i);
    }
    UnreadableEnd(cfg, call, disk, batch);
  }

  /**
   * The test does misfire, and a whole call with it: the update times out, the one list that is read shows the disk
   * attached, the next two reads fail in those words, and the call reports the disk detached.
   */
  method FailedReadCanPassForDetached(cfg: Config, call: Call, disk: Luns.DataDisk, batch: map<string, string>)
    returns (outcome: Outcome, run: seq<Event>)
    requires cfg.lunCheck && IsDisk(disk, call) && disk.lun.Some? && !disk.toBeDetached && |batch| > 0
    ensures outcome == Detached && IsWhole(UnreadableWorld(disk, batch), cfg, call, run)
    ensures |run| == 6 && run[2].Updated? && run[2].error.Some? && run[3] == Polled(Listed([disk]))
    ensures Reply(Listed([disk]), call) == At(disk.lun.value)
    ensures forall k :: 3 < k < |run| ==> (run[k].Polled? || run[k].Verified?) && run[k].list.Unlisted?
  {
    outcome, run := DetachDisk(UnreadableWorld(disk, batch), cfg, call);
    UnreadableRunIsWhole(cfg, call, disk, batch);
    WholeRunsAreUnique(UnreadableWorld(disk, batch), cfg, call, run, UnreadableRun(disk, batch));
    CannotFindIsAccepted(call);
  }

  // ---------------------------------------------------------------------------------------------
  // What the call does to the VM

  /** Where in a call each kind of request can stand. */
  predicate InPlace(cfg: Config, call: Call, run: seq<Event>, k: nat)
    requires k < |run|
  {
    match run[k]
    case Looked(_) => k == 0
    case Drained(_) => k == 1
    case Updated(_, false, _) => k == 2
    case Updated(_, true, _) => k > 2 && AfterFailedUpdate(cfg, call, run, k)
    case Polled(_) => k > 2 && AfterFailedUpdate(cfg, call, run, k) && run[2].error.value.deadline
    case Verified(_) => k > 1
    case DiskRead(_) => k > 0
  }

  /**
   * The plain update failed, and not because the instance is gone or a forced one took over; no poll since saw success.
   */
  predicate AfterFailedUpdate(cfg: Config, call: Call, run: seq<Event>, k: nat) {
    && 2 < k <= |run|
    && run[2].Updated? && !run[2].force && run[2].error.Some?
    && !InstanceGone(run[2].error.value) && !Preempted(run[2].error.value)
    && forall i :: 2 < i < k ==> run[i].Polled? && !Accepts(run[i].list, call) && run[2].error.value.deadline
  }

  lemma NextInPlace(cfg: Config, call: Call, batch: map<string, string>, run: seq<Event>, k: nat)
    requires 0 < k < |run| && InPlace(cfg, call, run, k - 1) && Follows(cfg, call, batch, run[k - 1], run[k])
    ensures InPlace(cfg, call, run, k)
  {
  }

  lemma {:induction false} EverythingInPlace(cfg: Config, call: Call, batch: map<string, string>, run: seq<Event>,
      k: nat)
    requires IsRun(cfg, call, batch, run) && k < |run|
    ensures InPlace(cfg, call, run, k)
    ensures run[k].Updated? ==> run[k].disks == batch && |batch| > 0
    ensures run[k].Polled? ==> |batch| > 0
  {
    if k > 0 {
      EverythingInPlace(cfg, call, batch, run, k - 1);
      NextInPlace(cfg, call, batch, run, k);
    }
  }

  lemma NothingAfterVerify(cfg: Config, call: Call, batch: map<string, string>, run: seq<Event>, k: nat)
    requires IsRun(cfg, call, batch, run) && k < |run| && run[k].Verified?
    ensures |run| == k + 1
  {
    assert k + 1 < |run| ==> Follows(cfg, call, batch, run[k], run[k + 1]);
  }

  /**
   * A forced detach is a last resort: it follows a plain detach of the same drained batch that failed on its own, no
   * reply in between said that the disk was gone, and nothing but the final check comes after it.
   */
  lemma ForceIsTheLastResort(cfg: Config, call: Call, batch: map<string, string>, run: seq<Event>, k: nat)
    requires IsRun(cfg, call, batch, run) && k < |run| && run[k].Updated? && run[k].force
    ensures AfterFailedUpdate(cfg, call, run, k)
    ensures cfg.forceDetachBackoff && run[k].disks == run[2].disks == batch
    ensures forall i :: k < i < |run| ==> run[i].Verified? && i == k + 1
  {
    EverythingInPlace(cfg, call, batch, run, k);
    EverythingInPlace(cfg, call, batch, run, 2);
    assert Follows(cfg, call, batch, run[k - 1], run[k]);
    if k + 1 < |run| {
      assert Follows(cfg, call, batch, run[k], run[k + 1]);
      NothingAfterVerify(cfg, call, batch, run, k + 1);
    }
  }

  /** A call that drained nothing leaves the VM alone and answers from one look at it. */
  lemma EmptyHandedCallsOnlyVerify(cfg: Config, call: Call, batch: map<string, string>, run: seq<Event>,
      outcome: Outcome)
    requires IsRun(cfg, call, batch, run) && Ends(cfg, call, Last(run), outcome)
    requires |run| > 1 && run[1] == Drained(map[])
    ensures |run| == 3 && run[2].Verified?
  {
    EverythingInPlace(cfg, call, batch, run, 1);
    if |run| > 2 {
      assert Follows(cfg, call, batch, run[1], run[2]);
      NothingAfterVerify(cfg, call, batch, run, 2);
    }
  }
}
