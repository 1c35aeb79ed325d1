/** Listing in pages: snapshots, and the cluster's volumes. A page's token is the index at which the next one starts. */
module Paging {
  import opened Text

  /** A list element as one request sees it: filtered out, or an entry, or an element no entry can be made of. */
  datatype Item<+E> = Hidden | Shown(entry: Option<E>)

  datatype ListError = BadToken | NegativeToken | TokenTooLarge | InvalidElement | ListFailed

  datatype Response<+E> = Page(entries: seq<E>, nextToken: string) | Refused(error: ListError)

  // ---------------------------------------------------------------------------------------------
  // What a page is

  /** The entries of a stretch of the list, in order. */
  function Entries<E>(items: seq<Item<E>>, start: nat, stop: nat): seq<E>
    requires start <= stop <= |items|
    decreases stop, items
  {
    if start == stop then []
    else
      var front := Entries(items, start, stop - 1);
      match items[stop - 1]
      case Shown(Some(e)) => front + [e]
      case _ => front
  }

  predicate Valid<E>(items: seq<Item<E>>, start: nat, stop: nat)
    requires start <= stop <= |items|
  {
    forall i :: start <= i < stop ==> items[i] != Shown(None)
  }

  /** Entries asked for; anything below 1 means no limit. */
  function Limit(maxEntries: int): Option<nat> {
    if maxEntries > 0 then Some(maxEntries) else None
  }

  /** The page from `start` on ends at `stop`: it is full and ends with an entry, or it ends with the list. */
  ghost predicate StopsAt<E>(items: seq<Item<E>>, start: nat, limit: Option<nat>, stop: nat) {
    && start <= stop <= |items|
    && (limit.Some? ==> |Entries(items, start, stop)| <= limit.value)
    && (stop < |items| ==> limit.Some? && stop > start && items[stop - 1].Shown?
                           && |Entries(items, start, stop)| == limit.value)
  }

  datatype Start = From(index: nat) | NoStart(error: ListError)

  /**
   * Where a list begins for a token; the two listings differ in whether they take a token at the end of an empty list.
   */
  function StartOf(token: string, length: nat, strict: bool): Start {
    if token == "" then From(0)
    else match Atoi(token)
      case None => NoStart(BadToken)
      case Some(n) =>
        if n >= length && (strict || n > 0) then NoStart(TokenTooLarge)
        else if n < 0 then NoStart(NegativeToken)
        else From(n)
  }

  /** The only answer a request may get. */
  ghost predicate Answers<E>(items: seq<Item<E>>, strict: bool, token: string, maxEntries: int, r: Response<E>) {
    match StartOf(token, |items|, strict)
    case NoStart(error) => r == Refused(error)
    case From(start) => start <= |items| && exists stop: nat :: PageAt(items, start, Limit(maxEntries), stop, r)
  }

  ghost predicate PageAt<E>(items: seq<Item<E>>, start: nat, limit: Option<nat>, stop: nat, r: Response<E>) {
    && start <= stop <= |items|
    && if r.Page? then
         && StopsAt(items, start, limit, stop) && Valid(items, start, stop)
         && r.entries == Entries(items, start, stop) && r.nextToken == TokenFor(items, stop)
       else
         && r.error.InvalidElement? && stop < |items| && items[stop] == Shown(None) && Valid(items, start, stop)
         && (limit.Some? ==> |Entries(items, start, stop)| < limit.value)
  }

  function TokenFor<E>(items: seq<Item<E>>, stop: nat): string {
    if stop < |items| then Itoa(stop) else ""
  }

  lemma {:induction false} EntriesConcat<E>(items: seq<Item<E>>, a: nat, b: nat, c: nat)
    requires a <= b <= c <= |items|
    ensures Entries(items, a, c) == Entries(items, a, b) + Entries(items, b, c)
    decreases c
  {
    if b < c {
      EntriesConcat(items, a, b, c - 1);
    }
  }

  // ---------------------------------------------------------------------------------------------
  // Walking through the pages

  ghost predicate IsWalk<E>(items: seq<Item<E>>, strict: bool, sizes: seq<int>, pages: seq<Response<E>>) {
    && pages != [] && |sizes| == |pages|
    && (forall i :: 0 <= i < |pages| ==> AnsweredAt(items, strict, sizes, pages, i))
    && (forall i :: 0 <= i < |pages| - 1 ==> pages[i].Page? && pages[i].nextToken != "")
  }

  ghost predicate AnsweredAt<E>(items: seq<Item<E>>, strict: bool, sizes: seq<int>, pages: seq<Response<E>>, i: nat)
    requires i < |pages| == |sizes|
  {
    Answers(items, strict, TokenBefore(pages, i), sizes[i], pages[i])
  }

  /** The token sent with request i: none at first, then the one just received. */
  function TokenBefore<E>(pages: seq<Response<E>>, i: nat): string
    requires i <= |pages|
  {
    if i == 0 || pages[i - 1].Refused? then "" else pages[i - 1].nextToken
  }

  /** What the first k pages delivered. */
  function Collected<E>(pages: seq<Response<E>>, k: nat): seq<E>
    requires k <= |pages|
    decreases k, pages
  {
    if k == 0 then []
    else Collected(pages, k - 1) + if pages[k - 1].Page? then pages[k - 1].entries else []
  }

  /** The list index that a token stands for. */
  ghost predicate Means(length: nat, token: string, strict: bool, start: nat) {
    start <= length && StartOf(token, length, strict) == From(start)
  }

  lemma NextTokenMeans<E>(items: seq<Item<E>>, strict: bool, stop: nat)
    requires stop < |items| <= MAX_INT
    ensures TokenFor(items, stop) != "" && Means(|items|, TokenFor(items, stop), strict, stop)
  {
    AtoiItoa(stop);
  }

  /** Where a page ended, and what its token stands for. */
  lemma EndOfPage<E>(items: seq<Item<E>>, strict: bool, token: string, size: int, r: Response<E>, start: nat)
    returns (stop: nat)
    requires Answers(items, strict, token, size, r) && r.Page? && Means(|items|, token, strict, start)
      && |items| <= MAX_INT
    ensures start <= stop <= |items| && Valid(items, start, stop) && r.entries == Entries(items, start, stop)
    ensures r.nextToken == "" <==> stop == |items|
    ensures stop < |items| ==> stop > start && Means(|items|, r.nextToken, strict, stop)
  {
    stop :| PageAt(items, start, Limit(size), stop, r);
    if stop < |items| {
      NextTokenMeans(items, strict, stop);
    }
  }

  /** After k pages: everything up to the next page's start has been delivered, and each page moved on. */
  lemma {:induction false} WalkDelivers<E>(items: seq<Item<E>>, strict: bool, sizes: seq<int>, pages: seq<Response<E>>,
      k: nat)
    returns (start: nat)
    requires IsWalk(items, strict, sizes, pages) && |items| <= MAX_INT && k < |pages|
    ensures k <= start <= |items| && Means(|items|, TokenBefore(pages, k), strict, start)
    ensures Collected(pages, k) == Entries(items, 0, start) && Valid(items, 0, start)
    ensures k > 0 ==> start < |items|
  {
    if k == 0 {
      start := 0;
    } else {
      var before := WalkDelivers(items, strict, sizes, pages, k - 1);
      assert AnsweredAt(items, strict, sizes, pages, k - 1);
      start := EndOfPage(items, strict, TokenBefore(pages, k - 1), sizes[k - 1], pages[k - 1], before);
      Deliver(items, pages, k, before, start);
    }
  }

  lemma Deliver<E>(items: seq<Item<E>>, pages: seq<Response<E>>, k: nat, before: nat, stop: nat)
    requires 0 < k <= |pages| && before <= stop <= |items| && pages[k - 1].Page?
    requires Collected(pages, k - 1) == Entries(items, 0, before)
      && pages[k - 1].entries == Entries(items, before, stop)
    requires Valid(items, 0, before) && Valid(items, before, stop)
    ensures Collected(pages, k) == Entries(items, 0, stop) && Valid(items, 0, stop)
  {
    EntriesConcat(items, 0, before, stop);
  }

  /** A walk takes at most as many pages as the list is long, and only an element no entry can be made of stops it. */
  lemma WalksAreShort<E>(items: seq<Item<E>>, strict: bool, sizes: seq<int>, pages: seq<Response<E>>)
    requires IsWalk(items, strict, sizes, pages) && |items| <= MAX_INT
    ensures |pages| <= if items == [] then 1 else |items|
    ensures Valid(items, 0, |items|) ==> pages[|pages| - 1].Page?
  {
    var k := |pages| - 1;
    var start := WalkDelivers(items, strict, sizes, pages, k);
    assert AnsweredAt(items, strict, sizes, pages, k);
  }

  /**
   * However the page sizes are chosen from call to call, following the tokens to the end delivers exactly what one
   * unlimited request would, in the same order.
   */
  lemma PagingIsLossless<E>(items: seq<Item<E>>, strict: bool, sizes: seq<int>, pages: seq<Response<E>>)
    requires IsWalk(items, strict, sizes, pages) && |items| <= MAX_INT
    requires pages[|pages| - 1].Page? && pages[|pages| - 1].nextToken == ""
    ensures Valid(items, 0, |items|) && Collected(pages, |pages|) == Entries(items, 0, |items|)
    ensures Answers(items, strict, "", 0, Page(Collected(pages, |pages|), ""))
  {
    var k := |pages| - 1;
    var start := WalkDelivers(items, strict, sizes, pages, k);
    assert AnsweredAt(items, strict, sizes, pages, k);
    var stop := EndOfPage(items, strict, TokenBefore(pages, k), sizes[k], pages[k], start);
    Deliver(items, pages, |pages|, start, stop);
    WholeList(items, strict);
  }

  lemma WholeList<E>(items: seq<Item<E>>, strict: bool)
    requires Valid(items, 0, |items|)
    ensures Answers(items, strict, "", 0, Page(Entries(items, 0, |items|), ""))
  {
    var r := Page(Entries(items, 0, |items|), "");
    assert StopsAt(items, 0, None, |items|);
    assert PageAt(items, 0, Limit(0), |items|, r);
    assert StartOf("", |items|, strict) == From(0);
  }

  /** Every token a page hands out is accepted, so a walk can always go on. */
  lemma TokensAreAccepted<E>(items: seq<Item<E>>, strict: bool, token: string, maxEntries: int, r: Response<E>)
    requires Answers(items, strict, token, maxEntries, r) && r.Page? && r.nextToken != "" && |items| <= MAX_INT
    ensures StartOf(r.nextToken, |items|, strict).From? && StartOf(r.nextToken, |items|, strict).index < |items|
  {
    var start := StartOf(token, |items|, strict).index;
    var stop: nat :| PageAt(items, start, Limit(maxEntries), stop, r);
    NextTokenMeans(items, strict, stop);
  }

  // ---------------------------------------------------------------------------------------------
  // Snapshots

  datatype SnapshotProperties = SnapshotProperties(
    timeCreated: Option<int>, diskSizeGB: Option<int>, provisioningState: string, completionPercent: Option<real>,
    instantAccess: bool, sourceResourceID: Option<string>)

  datatype Snapshot = Snapshot(id: string, properties: Option<SnapshotProperties>)

  datatype CsiSnapshot = CsiSnapshot(id: string, source: string, sizeBytes: int, created: int, ready: bool)

  const GIB := 1024 * 1024 * 1024

  function GetSourceVolumeID(s: Snapshot): string {
    if s.properties.Some? && s.properties.value.sourceResourceID.Some?
    then s.properties.value.sourceResourceID.value
    else ""
  }

  /** Background copies that are not finished are not ready, unless the snapshot has instant access. */
  function IsReady(p: SnapshotProperties): bool {
    && ToLower(p.provisioningState) == "succeeded"
    && (p.instantAccess || p.completionPercent.None? || p.completionPercent.value >= 100.0)
  }

  function GenerateCSISnapshot(sourceVolumeID: string, s: Snapshot): Option<CsiSnapshot> {
    match s.properties
    case None => None
    case Some(p) =>
      if p.timeCreated.None? || p.diskSizeGB.None? then None
      else Some(CsiSnapshot(s.id, if sourceVolumeID == "" then GetSourceVolumeID(s) else sourceVolumeID,
                            p.diskSizeGB.value * GIB, p.timeCreated.value, IsReady(p)))
  }

  function SnapshotItem(sourceVolumeID: string, s: Snapshot): Item<CsiSnapshot> {
    if sourceVolumeID == "" || sourceVolumeID == GetSourceVolumeID(s) then Shown(GenerateCSISnapshot(sourceVolumeID, s))
    else Hidden
  }

  function SnapshotItems(sourceVolumeID: string, snapshots: seq<Snapshot>): (items: seq<Item<CsiSnapshot>>)
    ensures |items| == |snapshots|
  {
    seq(|snapshots|, i requires 0 <= i < |snapshots| => SnapshotItem(sourceVolumeID, snapshots[i]))
  }

  /** The loop: from `first` on, up to `maxEntries` matching snapshots. */
  method CollectSnapshots(first: nat, maxEntries: nat, sourceVolumeID: string, snapshots: seq<Snapshot>)
    returns (entries: Option<seq<CsiSnapshot>>, stop: nat)
    requires first <= |snapshots|
    ensures first <= stop <= |snapshots|
    ensures var items := SnapshotItems(sourceVolumeID, snapshots);
      && Valid(items, first, stop)
      && var page := Entries(items, first, stop);
      && |page| <= stop - first
      && match entries
         case None => stop < |items| && items[stop] == Shown(None) && |page| < maxEntries
         case Some(e) =>
           && e == page && |page| <= maxEntries
           && (stop < |items| ==> |page| == maxEntries && (maxEntries > 0 ==> stop > first && items[stop - 1].Shown?))
  {
    ghost var items := SnapshotItems(sourceVolumeID, snapshots);
    var found := [];
    stop := first;
    while stop < |snapshots| && |found| < maxEntries
      invariant first <= stop <= |snapshots| && |found| <= maxEntries && |found| <= stop - first
      invariant found == Entries(items, first, stop) && Valid(items, first, stop)
      invariant maxEntries > 0 && |found| == maxEntries ==> stop > first && items[stop - 1].Shown?
    {
      match SnapshotItem(sourceVolumeID, snapshots[stop]) {
        case Hidden =>
        case Shown(None) => return None, stop;
        case Shown(Some(csiSnapshot)) => found := found + [csiSnapshot];
      }
      stop := stop + 1;
    }
    entries := Some(found);
  }

  method GetEntriesAndNextToken(startingToken: string, requested: int, sourceVolumeID: string, snapshots: seq<Snapshot>)
    returns (r: Response<CsiSnapshot>)
    ensures Answers(SnapshotItems(sourceVolumeID, snapshots), true, startingToken, requested, r)
  {
    var start := 0;
    if startingToken != "" {
      var n := Atoi(startingToken);
      if n.None? {
        return Refused(BadToken);
      }
      start := n.value;
      if start >= |snapshots| {
        return Refused(TokenTooLarge);
      }
      if start < 0 {
        return Refused(NegativeToken);
      }
    }
    var maxEntries := |snapshots| - start;
    if requested > 0 && requested < maxEntries {
      maxEntries := requested;
    }
    var entries, stop := CollectSnapshots(start, maxEntries, sourceVolumeID, snapshots);
    if entries.None? {
      r := Refused(InvalidElement);
    } else {
      r := Page(entries.value, if stop < |snapshots| then Itoa(stop) else "");
    }
    assert PageAt(SnapshotItems(sourceVolumeID, snapshots), start, Limit(requested), stop, r);
  }

  // ---------------------------------------------------------------------------------------------
  // Volumes

  /** Who holds a disk: nobody, a node, or a VM whose node cannot be found out. */
  datatype Holder = Nobody | Node(name: string) | Unresolved

  datatype Disk = Disk(id: string, osDisk: bool, managedBy: Holder)

  datatype VolumeEntry = VolumeEntry(id: string, nodes: seq<string>)

  /** A PersistentVolume of this driver: its handle and the resource group in it, if it parses. */
  datatype PersistentVolume = PersistentVolume(handle: string, group: Option<string>)

  function VolumeItem(d: Disk, vols: set<string>): Item<VolumeEntry> {
    if ToLower(d.id) !in vols || d.osDisk then Hidden
    else match d.managedBy
      case Nobody => Shown(Some(VolumeEntry(d.id, [])))
      case Node(name) => Shown(Some(VolumeEntry(d.id, [name])))
      case Unresolved => Shown(None)
  }

  function VolumeItems(disks: seq<Disk>, vols: set<string>): (items: seq<Item<VolumeEntry>>)
    ensures |items| == |disks|
  {
    seq(|disks|, i requires 0 <= i < |disks| => VolumeItem(disks[i], vols))
  }

  /** The resource groups to look in and the disks to look for. */
  method CollectVolumes(pvs: seq<PersistentVolume>) returns (groups: set<string>, vols: set<string>)
    ensures forall g :: g in groups <==> exists pv :: pv in pvs && pv.group.Some? && ToLower(pv.group.value) == g
    ensures forall v :: v in vols <==> exists pv :: pv in pvs && pv.group.Some? && ToLower(pv.handle) == v
    ensures groups == {} <==> vols == {}
  {
    groups, vols := {}, {};
    for i := 0 to |pvs|
      invariant forall g :: g in groups <==>
        exists j :: 0 <= j < i && pvs[j].group.Some? && ToLower(pvs[j].group.value) == g
      invariant forall v :: v in vols <==> exists j :: 0 <= j < i && pvs[j].group.Some? && ToLower(pvs[j].handle) == v
      invariant groups == {} <==> vols == {}
    {
      var pv := pvs[i];
      if pv.group.Some? {
        vols := vols + {ToLower(pv.handle)};
        groups := groups + {ToLower(pv.group.value)};
      }
    }
  }

  /**
   * Where the loop over one group stops that has `have` entries already: at its limit, at an unresolvable disk, or at
   * the end.
   */
  function StopOf<E>(items: seq<Item<E>>, i: nat, have: nat, limit: int): (stop: nat)
    requires i <= |items|
    ensures i <= stop <= |items|
    decreases |items| - i
  {
    if i == |items| || (limit > 0 && have >= limit) || items[i] == Shown(None) then i
    else StopOf(items, i + 1, have + (if items[i].Shown? then 1 else 0), limit)
  }

  lemma {:induction false} StopOfStops<E>(items: seq<Item<E>>, i: nat, have: nat, limit: int)
    requires i <= |items|
    ensures var stop := StopOf(items, i, have, limit);
            var n := have + |Entries(items, i, stop)|;
            && Valid(items, i, stop) && (limit > 0 ==> n <= if have < limit then limit else have)
            && (stop < |items| ==> (limit > 0 && n >= limit) || items[stop] == Shown(None))
            && (limit > 0 && have < limit <= n ==> stop > i && items[stop - 1].Shown?)
    decreases |items| - i
  {
    if i < |items| && !(limit > 0 && have >= limit) && items[i] != Shown(None) {
      var more := if items[i].Shown? then 1 else 0;
      var stop := StopOf(items, i, have, limit);
      StopOfStops(items, i + 1, have + more, limit);
      EntriesConcat(items, i, i + 1, stop);
      assert |Entries(items, i, i + 1)| == more;
    }
  }

  function ItemsOf(disks: Option<seq<Disk>>, vols: set<string>): Option<seq<Item<VolumeEntry>>> {
    match disks case None => None case Some(list) => Some(VolumeItems(list, vols))
  }

  datatype ListStatus = ListStatus(numVisited: int, isCompleteRun: bool, entries: seq<VolumeEntry>,
    error: Option<ListError>)

  /** What a resource group contributes when it is the first one. */
  ghost predicate IsStatus(disks: Option<seq<Disk>>, start: nat, maxEntries: int, vols: set<string>, r: ListStatus) {
    match disks
    case None => r.error == Some(ListFailed)
    case Some(list) =>
      if start > 0 && start >= |list| then r.error == Some(TokenTooLarge)
      else if r.error.None? then
        var stop := start + r.numVisited;
        && stop >= start && (r.isCompleteRun <==> stop == |list|)
        && PageAt(VolumeItems(list, vols), start, Limit(maxEntries), stop,
          Page(r.entries, if stop < |list| then Itoa(stop) else ""))
      else
        && r.error == Some(InvalidElement)
        && exists stop: nat :: PageAt(VolumeItems(list, vols), start, Limit(maxEntries), stop, Refused(InvalidElement))
  }

  /** What a resource group contributes after the entries of others. */
  function StatusOf(items: Option<seq<Item<VolumeEntry>>>, entries: seq<VolumeEntry>, start: int,
      maxEntries: int): ListStatus {
    if items.None? then ListStatus(0, false, [], Some(ListFailed))
    else if start > 0 && start >= |items.value| then ListStatus(|items.value|, false, [], Some(TokenTooLarge))
    else
      var list, first := items.value, if start < 0 then 0 else start;
      var stop := StopOf(list, first, |entries|, maxEntries);
      var all := entries + Entries(list, first, stop);
      if stop < |list| && !(maxEntries > 0 && |all| >= maxEntries) then ListStatus(0, false, [], Some(InvalidElement))
      else ListStatus(stop - first, stop == |list|, all, None)
  }

  /** Appends to `entries`; TokenTooLarge tells the caller to go on with the next resource group. */
  method ListVolumesByResourceGroup(disks: Option<seq<Disk>>, entries: seq<VolumeEntry>, start: int, maxEntries: int,
      vols: set<string>) returns (r: ListStatus)
    requires vols != {}
    ensures entries == [] && start >= 0 ==> IsStatus(disks, start, maxEntries, vols, r)
    ensures r == StatusOf(ItemsOf(disks, vols), entries, start, maxEntries)
  {
    if disks.None? {
      return ListStatus(0, false, [], Some(ListFailed));
    }
    var list := disks.value;
    if start > 0 && start >= |list| {
      return ListStatus(|list|, false, [], Some(TokenTooLarge));
    }
    var entry, stop, complete := CollectDisks(list, entries, if start < 0 then 0 else start, maxEntries, vols);
    if entry.None? {
      assert entries == [] && start >= 0 ==>
        PageAt(VolumeItems(list, vols), start, Limit(maxEntries), stop, Refused(InvalidElement));
      return ListStatus(0, false, [], Some(InvalidElement));
    }
    return ListStatus(stop - (if start < 0 then 0 else start), complete, entry.value, None);
  }

  /**
   * The loop: from `first` on, appending to `entries` until it holds `maxEntries`; None when a disk's node is unknown.
   */
  method CollectDisks(list: seq<Disk>, entries: seq<VolumeEntry>, first: nat, maxEntries: int, vols: set<string>)
    returns (found: Option<seq<VolumeEntry>>, stop: nat, complete: bool)
    requires first <= |list|
    ensures first <= stop <= |list|
    ensures stop == StopOf(VolumeItems(list, vols), first, |entries|, maxEntries)
    ensures found.Some? && stop < |list| ==> maxEntries > 0 && |found.value| >= maxEntries
    ensures var items := VolumeItems(list, vols);
      && Valid(items, first, stop)
      && var page := Entries(items, first, stop);
      && (complete <==> found.Some? && stop == |list|)
      && (maxEntries > 0 && entries == [] ==> |page| <= maxEntries)
      && match found
         case None => stop < |items| && items[stop] == Shown(None)
           && (maxEntries > 0 ==> |entries| + |page| < maxEntries)
         case Some(e) =>
           && e == entries + page
           && (stop < |items| && entries == [] ==>
                 maxEntries > 0 && |page| == maxEntries && stop > first && items[stop - 1].Shown?)
  {
    ghost var items := VolumeItems(list, vols);
    var sofar := entries;
    stop := first;
    while stop < |list|
      invariant first <= stop <= |list|
      invariant StopOf(items, first, |entries|, maxEntries) == StopOf(items, stop, |sofar|, maxEntries)
      invariant sofar == entries + Entries(items, first, stop) && Valid(items, first, stop)
      invariant entries == [] && maxEntries > 0 ==> |sofar| <= maxEntries
      invariant entries == [] && maxEntries > 0 && |sofar| == maxEntries ==> stop > first && items[stop - 1].Shown?
    {
      if maxEntries > 0 && |sofar| >= maxEntries {
        return Some(sofar), stop, false;
      }
      match VolumeItem(list[stop], vols) {
        case Hidden =>
        case Shown(None) => return None, stop, false;
        case Shown(Some(volume)) => sofar := sofar + [volume];
      }
      stop := stop + 1;
    }
    return Some(sofar), stop, true;
  }

  /** What ListVolumes answers when all its disks are in one resource group, or there are none. */
  ghost predicate AnswersVolumes(disks: Option<seq<Disk>>, vols: set<string>, token: string, maxEntries: int,
      r: Response<VolumeEntry>) {
    match disks
    case Some(list) => Answers(VolumeItems(list, vols), false, token, maxEntries, r)
    case None =>
      if token != "" && Atoi(token).None? then r == Refused(BadToken)
      else if token != "" && Atoi(token).value < 0 then r == Refused(NegativeToken)
      else r == Refused(ListFailed)
  }

  /** Where a token says to begin, before any list is known. */
  function StartIn(token: string): Start {
    if token == "" then From(0)
    else match Atoi(token)
      case None => NoStart(BadToken)
      case Some(n) => if n < 0 then NoStart(NegativeToken) else From(n)
  }

  lemma NoGroupPage(start: nat, maxEntries: int, vols: set<string>)
    ensures PageOfGroup(Some([]), vols, start, maxEntries, ClusterPage([], start, maxEntries))
  {
    assert start == 0 ==> PageAt(VolumeItems([], vols), 0, Limit(maxEntries), 0, ClusterPage([], start, maxEntries));
  }

  /**
   * ListVolumes over the cluster: `groups` are the resource groups in order, `disksOf` what the cloud lists for each.
   */
  method ListVolumes(token: string, maxEntries: int, groups: seq<string>, disksOf: string -> Option<seq<Disk>>,
      vols: set<string>) returns (r: Response<VolumeEntry>)
    requires groups == [] <==> vols == {}
    ensures |groups| == 1 ==> AnswersVolumes(disksOf(groups[0]), vols, token, maxEntries, r)
    ensures |groups| == 0 ==> AnswersVolumes(Some([]), vols, token, maxEntries, r)
    ensures StartIn(token).From? ==> r == ClusterPage(Lists(groups, disksOf, vols), StartIn(token).index, maxEntries)
    ensures StartIn(token).NoStart? ==> r == Refused(StartIn(token).error)
  {
    var start := 0;
    if token != "" {
      var n := Atoi(token);
      if n.None? {
        return Refused(BadToken);
      }
      start := n.value;
      if start < 0 {
        return Refused(NegativeToken);
      }
    }
    r := ListVolumesInCluster(start, maxEntries, groups, disksOf, vols);
    if |groups| == 1 {
      assert Lists(groups, disksOf, vols) == [ItemsOf(disksOf(groups[0]), vols)];
      SingleGroupPage(disksOf(groups[0]), vols, start, maxEntries);
    } else if |groups| == 0 {
      assert Lists(groups, disksOf, vols) == [];
      NoGroupPage(start, maxEntries, vols);
    }
  }

  ghost predicate PageOfGroup(disks: Option<seq<Disk>>, vols: set<string>, start: nat, maxEntries: int,
      r: Response<VolumeEntry>) {
    match disks
    case None => r == Refused(ListFailed)
    case Some(list) =>
      if start > 0 && start >= |list| then r == Refused(TokenTooLarge)
      else exists stop: nat :: PageAt(VolumeItems(list, vols), start, Limit(maxEntries), stop, r)
  }

  /** The loop over the groups after some of them; `stopped` once it was left early. */
  datatype Scan = Scan(entries: seq<VolumeEntry>, numVisited: int, isCompleteRun: bool, startFound: bool, stopped: bool)
                | Broken(error: ListError)

  function ScanGroup(s: Scan, items: Option<seq<Item<VolumeEntry>>>, start: int, maxEntries: int): Scan {
    if s.Broken? || s.stopped then s
    else if !s.isCompleteRun || (maxEntries > 0 && |s.entries| >= maxEntries)
    then s.(isCompleteRun := false, stopped := true)
    else
      var localStart := if s.startFound then 0 else start - s.numVisited;
      var list := StatusOf(items, s.entries, localStart, maxEntries - |s.entries|);
      match list.error
      case None => Scan(list.entries, s.numVisited + list.numVisited, list.isCompleteRun, true, false)
      case Some(TokenTooLarge) => s.(numVisited := s.numVisited + list.numVisited)
      case Some(error) => Broken(error)
  }

  function ScanOf(groups: seq<Option<seq<Item<VolumeEntry>>>>, start: int, maxEntries: int): Scan {
    if groups == [] then Scan([], 0, true, false, false)
    else ScanGroup(ScanOf(groups[..|groups| - 1], start, maxEntries), groups[|groups| - 1], start, maxEntries)
  }

  /** The page over the groups, in order. */
  function ClusterPage(groups: seq<Option<seq<Item<VolumeEntry>>>>, start: nat,
      maxEntries: int): Response<VolumeEntry> {
    match ScanOf(groups, start, maxEntries)
    case Broken(error) => Refused(error)
    case Scan(entries, numVisited, isCompleteRun, startFound, _) =>
      if start > 0 && !startFound then Refused(TokenTooLarge)
      else Page(entries, if isCompleteRun then "" else Itoa(start + numVisited))
  }

  function Lists(groups: seq<string>, disksOf: string -> Option<seq<Disk>>, vols: set<string>)
    : (lists: seq<Option<seq<Item<VolumeEntry>>>>)
    ensures |lists| == |groups|
  {
    seq(|groups|, i requires 0 <= i < |groups| => ItemsOf(disksOf(groups[i]), vols))
  }

  lemma {:induction false} ScanEnds(groups: seq<Option<seq<Item<VolumeEntry>>>>, start: int, maxEntries: int, n: nat)
    requires n <= |groups|
    requires var s := ScanOf(groups[..n], start, maxEntries); s.Broken? || s.stopped
    ensures ScanOf(groups, start, maxEntries) == ScanOf(groups[..n], start, maxEntries)
    decreases |groups|
  {
    if n == |groups| {
      assert groups[..n] == groups;
    } else {
      var front := groups[..|groups| - 1];
      assert front[..n] == groups[..n];
      ScanEnds(front, start, maxEntries, n);
    }
  }

  lemma ScanGrows(groups: seq<Option<seq<Item<VolumeEntry>>>>, start: int, maxEntries: int, g: nat)
    requires g < |groups|
    ensures ScanOf(groups[..g + 1], start, maxEntries)
            == ScanGroup(ScanOf(groups[..g], start, maxEntries), groups[g], start, maxEntries)
  {
    assert groups[..g + 1][..g] == groups[..g];
  }

  /** The loop body for one more group. */
  method VisitGroup(s: Scan, disks: Option<seq<Disk>>, start: int, maxEntries: int, vols: set<string>)
    returns (s': Scan)
    requires s.Scan? && !s.stopped && vols != {}
    ensures s' == ScanGroup(s, ItemsOf(disks, vols), start, maxEntries)
  {
    if !s.isCompleteRun || (maxEntries > 0 && |s.entries| >= maxEntries) {
      return s.(isCompleteRun := false, stopped := true);
    }
    var localStart := if s.startFound then 0 else start - s.numVisited;
    var list := ListVolumesByResourceGroup(disks, s.entries, localStart, maxEntries - |s.entries|, vols);
    if list.error.Some? {
      if list.error.value.TokenTooLarge? {
        return s.(numVisited := s.numVisited + list.numVisited);
      }
      return Broken(list.error.value);
    }
    return Scan(list.entries, s.numVisited + list.numVisited, list.isCompleteRun, true, false);
  }

  method ListVolumesInCluster(start: nat, maxEntries: int, groups: seq<string>, disksOf: string -> Option<seq<Disk>>,
      vols: set<string>) returns (r: Response<VolumeEntry>)
    requires groups == [] <==> vols == {}
    ensures r == ClusterPage(Lists(groups, disksOf, vols), start, maxEntries)
  {
    ghost var lists := Lists(groups, disksOf, vols);
    var s := Scan([], 0, true, false, false);
    for g := 0 to |groups|
      invariant s.Scan? && !s.stopped && s == ScanOf(lists[..g], start, maxEntries)
    {
      ScanGrows(lists, start, maxEntries, g);
      s := VisitGroup(s, disksOf(groups[g]), start, maxEntries, vols);
      if s.Broken? || s.stopped {
        ScanEnds(lists, start, maxEntries, g + 1);
        break;
      }
    }
    assert lists[..|groups|] == lists;
    if s.Broken? {
      return Refused(s.error);
    }
    if start > 0 && !s.startFound {
      return Refused(TokenTooLarge);
    }
    r := Page(s.entries, if s.isCompleteRun then "" else Itoa(start + s.numVisited));
  }

  lemma SingleGroupStatus(disks: Option<seq<Disk>>, vols: set<string>, start: nat, maxEntries: int, st: ListStatus)
    requires st == StatusOf(ItemsOf(disks, vols), [], start, maxEntries)
    ensures IsStatus(disks, start, maxEntries, vols, st)
  {
    if disks.Some? && !(start > 0 && start >= |disks.value|) {
      var items := VolumeItems(disks.value, vols);
      var stop := StopOf(items, start, 0, maxEntries);
      StopOfStops(items, start, 0, maxEntries);
      assert st.error == Some(InvalidElement) ==>
        PageAt(items, start, Limit(maxEntries), stop, Refused(InvalidElement));
    }
  }

  function PageFrom(st: ListStatus, start: nat): Response<VolumeEntry> {
    match st.error
    case Some(error) => Refused(error)
    case None => Page(st.entries, if st.isCompleteRun then "" else Itoa(start + st.numVisited))
  }

  lemma OneGroup(items: Option<seq<Item<VolumeEntry>>>, start: nat, maxEntries: int)
    ensures ClusterPage([items], start, maxEntries) == PageFrom(StatusOf(items, [], start, maxEntries), start)
  {
    assert [items][..0] == [];
    assert ScanOf([], start, maxEntries) == Scan([], 0, true, false, false);
  }

  lemma StatusGivesPage(disks: Option<seq<Disk>>, vols: set<string>, start: nat, maxEntries: int, st: ListStatus)
    requires IsStatus(disks, start, maxEntries, vols, st)
    ensures PageOfGroup(disks, vols, start, maxEntries, PageFrom(st, start))
  {
    if disks.Some? && !(start > 0 && start >= |disks.value|) && st.error.None? {
      assert PageAt(VolumeItems(disks.value, vols), start, Limit(maxEntries), start + st.numVisited,
        PageFrom(st, start));
    }
  }

  lemma SingleGroupPage(disks: Option<seq<Disk>>, vols: set<string>, start: nat, maxEntries: int)
    ensures PageOfGroup(disks, vols, start, maxEntries, ClusterPage([ItemsOf(disks, vols)], start, maxEntries))
  {
    var st := StatusOf(ItemsOf(disks, vols), [], start, maxEntries);
    OneGroup(ItemsOf(disks, vols), start, maxEntries);
    SingleGroupStatus(disks, vols, start, maxEntries, st);
    StatusGivesPage(disks, vols, start, maxEntries, st);
  }
}
