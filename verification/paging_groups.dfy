/**
 * Pages of volumes that are spread over several resource groups, whose lists are read one after the other. A page is a
 * stretch of the groups' lists put end to end, but its token counts the groups that the page left out in front twice.
 */
module PagingGroups {
  import opened Text
  import opened Paging

  type Group = Option<seq<Item<VolumeEntry>>>

  ghost predicate Listed(groups: seq<Group>) {
    forall g :: 0 <= g < |groups| ==> groups[g].Some?
  }

  /** The groups' lists, end to end. */
  function All(groups: seq<Group>): seq<Item<VolumeEntry>> {
    if groups == [] then []
    else
      var last := groups[|groups| - 1];
      All(groups[..|groups| - 1]) + if last.Some? then last.value else []
  }

  /** All the groups end before the token's start, so that the page leaves them out. */
  predicate Skips(groups: seq<Group>, start: nat) {
    groups == [] ||
    (var front, last := groups[..|groups| - 1], groups[|groups| - 1];
     last.Some? && Skips(front, start) && start - |All(front)| > 0 && start - |All(front)| >= |last.value|)
  }

  /** The length of the groups in front that the page leaves out. */
  function Skipped(groups: seq<Group>, start: nat): nat {
    if Skips(groups, start) then |All(groups)|
    else Skipped(groups[..|groups| - 1], start)
  }

  lemma {:induction false} EntriesOfFront<E>(a: seq<Item<E>>, b: seq<Item<E>>, i: nat, j: nat)
    requires i <= j <= |a|
    ensures Entries(a + b, i, j) == Entries(a, i, j) && (Valid(a + b, i, j) <==> Valid(a, i, j))
    decreases j
  {
    if i < j {
      EntriesOfFront(a, b, i, j - 1);
    }
  }

  lemma {:induction false} EntriesOfBack<E>(a: seq<Item<E>>, b: seq<Item<E>>, i: nat, j: nat)
    requires i <= j <= |b|
    ensures Entries(a + b, |a| + i, |a| + j) == Entries(b, i, j)
    ensures Valid(b, i, j) ==> Valid(a + b, |a| + i, |a| + j)
    decreases j
  {
    if i < j {
      EntriesOfBack(a, b, i, j - 1);
    }
  }

  /** Where the page stands after the groups: what it holds is the stretch up to there. */
  ghost predicate Reached(items: seq<Item<VolumeEntry>>, start: nat, maxEntries: int, stop: int, s: Scan) {
    && s.Scan? && start <= stop <= |items|
    && Valid(items, start, stop) && s.entries == Entries(items, start, stop)
    && (maxEntries > 0 ==> |s.entries| <= maxEntries)
    && (s.isCompleteRun ==> stop == |items| && !s.stopped)
  }

  ghost predicate StandsAt(groups: seq<Group>, start: nat, maxEntries: int, s: Scan) {
    s.Broken? ||
    if Skips(groups, start) then s == Scan([], |All(groups)|, true, false, false) && start >= |All(groups)|
    else s.startFound && Reached(All(groups), start, maxEntries, start + s.numVisited - Skipped(groups, start), s)
  }

  lemma ReachedStays(items: seq<Item<VolumeEntry>>, more: seq<Item<VolumeEntry>>, start: nat, maxEntries: int,
      stop: int, s: Scan)
    requires Reached(items, start, maxEntries, stop, s)
    ensures Reached(items + more, start, maxEntries, stop, s.(isCompleteRun := false, stopped := true))
  {
    EntriesOfFront(items, more, start, stop);
  }

  /** The first group that is visited. */
  lemma ReachedStarts(items: seq<Item<VolumeEntry>>, list: seq<Item<VolumeEntry>>, maxEntries: int, first: nat,
      stop: nat, s: Scan)
    requires first <= |list| && stop == StopOf(list, first, 0, maxEntries)
    requires s.Scan? && s.entries == Entries(list, first, stop) && s.isCompleteRun == (stop == |list|) && !s.stopped
    ensures Reached(items + list, |items| + first, maxEntries, |items| + stop, s)
  {
    StopOfStops(list, first, 0, maxEntries);
    EntriesOfBack(items, list, first, stop);
  }

  /** A later group, visited by a page that stood at the end of the groups before it. */
  lemma ReachedGrows(items: seq<Item<VolumeEntry>>, list: seq<Item<VolumeEntry>>, start: nat, maxEntries: int,
      have: nat, stop: nat, s: Scan)
    requires start <= |items| && Valid(items, start, |items|) && have == |Entries(items, start, |items|)|
    requires maxEntries > 0 ==> have < maxEntries
    requires stop == StopOf(list, 0, have, maxEntries - have)
    requires s.Scan? && s.entries == Entries(items, start, |items|) + Entries(list, 0, stop)
    requires s.isCompleteRun == (stop == |list|) && !s.stopped
    ensures Reached(items + list, start, maxEntries, |items| + stop, s)
  {
    StopOfStops(list, 0, have, maxEntries - have);
    EntriesOfBack(items, list, 0, stop);
    EntriesOfFront(items, list, start, |items|);
    EntriesConcat(items + list, start, |items|, |items| + stop);
  }

  lemma SkipOneMore(front: seq<Group>, last: Group, start: nat)
    ensures All(front + [last]) == All(front) + if last.Some? then last.value else []
    ensures Skips(front + [last], start) <==>
      last.Some? && Skips(front, start) && start - |All(front)| > 0 && start - |All(front)| >= |last.value|
    ensures !Skips(front + [last], start) ==> Skipped(front + [last], start) == Skipped(front, start)
  {
    assert (front + [last])[..|front|] == front;
  }

  lemma {:induction false} SkippedWhole(groups: seq<Group>, start: nat)
    ensures Skipped(groups, start) <= |All(groups)|
    ensures Skips(groups, start) ==> Skipped(groups, start) == |All(groups)| <= start
  {
    if groups != [] {
      SkippedWhole(groups[..|groups| - 1], start);
    }
  }

  lemma ScanGroupVisits(s: Scan, list: seq<Item<VolumeEntry>>, start: nat, maxEntries: int, local: int, stop: nat)
    requires s.Scan? && !s.stopped && s.isCompleteRun && !(maxEntries > 0 && |s.entries| >= maxEntries)
    requires local == (if s.startFound then 0 else start - s.numVisited) && 0 <= local <= |list|
    requires stop == StopOf(list, local, |s.entries|, maxEntries - |s.entries|)
    requires !(local > 0 && local >= |list|)
    ensures var s' := ScanGroup(s, Some(list), start, maxEntries);
            s'.Broken? || s' == Scan(s.entries + Entries(list, local, stop), s.numVisited + stop - local,
              stop == |list|, true, false)
  {
  }

  lemma StartReaches(items: seq<Item<VolumeEntry>>, list: seq<Item<VolumeEntry>>, start: nat, maxEntries: int, s: Scan,
      s': Scan)
    requires s == Scan([], |items|, true, false, false) && s' == ScanGroup(s, Some(list), start, maxEntries)
    requires |items| <= start && !(start > |items| && start - |items| >= |list|)
    ensures s'.Broken? || s'.startFound
    ensures s'.Scan? ==> Reached(items + list, start, maxEntries, start + s'.numVisited - |items|, s')
  {
    var local := start - |items|;
    var stop := StopOf(list, local, 0, maxEntries);
    ScanGroupVisits(s, list, start, maxEntries, local, stop);
    assert [] + Entries(list, local, stop) == Entries(list, local, stop);
    if s'.Scan? {
      ReachedStarts(items, list, maxEntries, local, stop, s');
    }
  }

  lemma FoundStands(front: seq<Group>, list: seq<Item<VolumeEntry>>, start: nat, maxEntries: int, s': Scan)
    requires Skips(front, start) && !Skips(front + [Some(list)], start)
    requires s'.Broken? || (s'.startFound
      && Reached(All(front) + list, start, maxEntries, start + s'.numVisited - |All(front)|, s'))
    ensures StandsAt(front + [Some(list)], start, maxEntries, s')
  {
    SkipOneMore(front, Some(list), start);
    SkippedWhole(front, start);
  }

  /** The page's start is in this group. */
  lemma StartStands(front: seq<Group>, list: seq<Item<VolumeEntry>>, start: nat, maxEntries: int, s: Scan, s': Scan)
    requires s == Scan([], |All(front)|, true, false, false) && Skips(front, start)
    requires s' == ScanGroup(s, Some(list), start, maxEntries)
    requires start >= |All(front)| && !Skips(front + [Some(list)], start)
    ensures StandsAt(front + [Some(list)], start, maxEntries, s')
  {
    SkipOneMore(front, Some(list), start);
    StartReaches(All(front), list, start, maxEntries, s, s');
    FoundStands(front, list, start, maxEntries, s');
  }

  /** The page goes on into this group. */
  lemma RestStands(front: seq<Group>, list: seq<Item<VolumeEntry>>, start: nat, maxEntries: int, s: Scan)
    requires s.Scan? && !s.stopped && s.isCompleteRun && !(maxEntries > 0 && |s.entries| >= maxEntries)
    requires !Skips(front, start) && StandsAt(front, start, maxEntries, s)
    ensures StandsAt(front + [Some(list)], start, maxEntries, ScanGroup(s, Some(list), start, maxEntries))
  {
    SkipOneMore(front, Some(list), start);
    SkippedWhole(front, start);
    var have := |s.entries|;
    var stop := StopOf(list, 0, have, maxEntries - have);
    ScanGroupVisits(s, list, start, maxEntries, 0, stop);
    var s' := Scan(s.entries + Entries(list, 0, stop), s.numVisited + stop, stop == |list|, true, false);
    ReachedGrows(All(front), list, start, maxEntries, have, stop, s');
  }

  lemma VisitStands(front: seq<Group>, last: Group, start: nat, maxEntries: int, s: Scan)
    requires StandsAt(front, start, maxEntries, s) && last.Some? && s.Scan? && !s.stopped
    requires s.isCompleteRun && !(maxEntries > 0 && |s.entries| >= maxEntries)
    ensures StandsAt(front + [last], start, maxEntries, ScanGroup(s, last, start, maxEntries))
  {
    SkipOneMore(front, last, start);
    if !Skips(front, start) {
      RestStands(front, last.value, start, maxEntries, s);
    } else if !Skips(front + [last], start) {
      StartStands(front, last.value, start, maxEntries, s, ScanGroup(s, last, start, maxEntries));
    }
  }

  lemma {:induction false} ScanStands(groups: seq<Group>, start: nat, maxEntries: int)
    requires Listed(groups)
    ensures StandsAt(groups, start, maxEntries, ScanOf(groups, start, maxEntries))
  {
    if groups != [] {
      var front, last := groups[..|groups| - 1], groups[|groups| - 1];
      var s := ScanOf(front, start, maxEntries);
      ScanStands(front, start, maxEntries);
      assert groups == front + [last];
      SkipOneMore(front, last, start);
      if s.Scan? && !s.stopped && s.isCompleteRun && !(maxEntries > 0 && |s.entries| >= maxEntries) {
        VisitStands(front, last, start, maxEntries, s);
      } else if s.Scan? {
        ReachedStays(All(front), last.value, start, maxEntries, start + s.numVisited - Skipped(front, start), s);
      }
    }
  }

  // ---------------------------------------------------------------------------------------------
  // Pages and tokens

  /** Twice the number of disks fits an integer, so that no token overflows. */
  ghost predicate Countable(groups: seq<Group>) {
    Listed(groups) && 2 * |All(groups)| <= MAX_INT
  }

  /**
   * A page holds the entries of a stretch of the groups' lists, end to end, and is the last one only when it reaches
   * the end. Its token is where the stretch stops plus the length of the groups that the page left out in front.
   */
  lemma PageIsAStretch(groups: seq<Group>, start: nat, maxEntries: int) returns (stop: nat)
    requires Countable(groups) && ClusterPage(groups, start, maxEntries).Page?
    ensures var items := All(groups); var page := ClusterPage(groups, start, maxEntries);
            && start <= stop <= |items| && Valid(items, start, stop) && page.entries == Entries(items, start, stop)
            && (maxEntries > 0 ==> |page.entries| <= maxEntries)
            && if page.nextToken == "" then stop == |items|
              else Atoi(page.nextToken) == Some(stop + Skipped(groups, start))
  {
    var s := ScanOf(groups, start, maxEntries);
    ScanStands(groups, start, maxEntries);
    SkippedWhole(groups, start);
    if Skips(groups, start) {
      assert groups == [];
      stop := 0;
    } else {
      stop := start + s.numVisited - Skipped(groups, start);
      AtoiItoa(start + s.numVisited);
    }
  }

  /**
   * Two pages in a row lose just the entries right behind the first one, as many elements as that left out in front.
   */
  lemma LossIsExact(groups: seq<Group>, start: nat, size: int, next: nat, nextSize: int) returns (stop: nat, end: nat)
    requires Countable(groups) && ClusterPage(groups, start, size).Page? && ClusterPage(groups, next, nextSize).Page?
    requires Atoi(ClusterPage(groups, start, size).nextToken) == Some(next)
    ensures start <= stop <= next == stop + Skipped(groups, start) <= end <= |All(groups)|
    ensures ClusterPage(groups, start, size).entries == Entries(All(groups), start, stop)
    ensures ClusterPage(groups, next, nextSize).entries == Entries(All(groups), next, end)
    ensures ClusterPage(groups, start, size).entries + ClusterPage(groups, next, nextSize).entries
            == Entries(All(groups), start, end)
            <==> Entries(All(groups), stop, next) == []
  {
    stop := PageIsAStretch(groups, start, size);
    end := PageIsAStretch(groups, next, nextSize);
    EntriesConcat(All(groups), start, stop, end);
    EntriesConcat(All(groups), stop, next, end);
    Appended(Entries(All(groups), start, stop), Entries(All(groups), stop, next), Entries(All(groups), next, end));
  }

  lemma Appended<E>(a: seq<E>, b: seq<E>, c: seq<E>)
    ensures a + c == a + (b + c) <==> b == []
  {
    assert |a + c| == |a + (b + c)| <==> |b| == 0;
  }

  lemma ScanOfTwo(a: Group, b: Group, start: nat, maxEntries: int)
    ensures ScanOf([a, b], start, maxEntries)
            == ScanGroup(ScanGroup(Scan([], 0, true, false, false), a, start, maxEntries), b, start, maxEntries)
  {
    assert [a, b][..1] == [a] && [a][..0] == [];
    assert ScanOf([], start, maxEntries) == Scan([], 0, true, false, false);
  }

  /** One volume is taken from a list of volumes. */
  lemma TakesOne(list: seq<Item<VolumeEntry>>, i: nat, v: VolumeEntry)
    requires i < |list| && list[i] == Shown(Some(v))
    ensures StopOf(list, i, 0, 1) == i + 1 && Entries(list, i, i + 1) == [v]
  {
    assert Entries(list, i, i) == [];
    assert StopOf(list, i + 1, 1, 1) == i + 1;
  }

  lemma FirstPage(first: seq<Item<VolumeEntry>>, second: seq<Item<VolumeEntry>>, v: VolumeEntry)
    requires first == [Shown(Some(v))] && |second| > 0
    ensures ClusterPage([Some(first), Some(second)], 0, 1) == Page([v], Itoa(1))
  {
    ScanOfTwo(Some(first), Some(second), 0, 1);
    TakesOne(first, 0, v);
    assert [] + [v] == [v];
  }

  /** The page that begins inside the second group counts the first one twice. */
  lemma LaterPage(first: seq<Item<VolumeEntry>>, second: seq<Item<VolumeEntry>>, i: nat, v: VolumeEntry)
    requires |first| == 1 && i < |second| && second[i] == Shown(Some(v))
    ensures ClusterPage([Some(first), Some(second)], 1 + i, 1)
            == Page([v], if i + 1 == |second| then "" else Itoa(3 + i))
  {
    ScanOfTwo(Some(first), Some(second), 1 + i, 1);
    TakesOne(second, i, v);
    assert [] + [v] == [v];
  }

  /** Two groups, of one volume and of three, read one at a time: the third volume is on no page. */
  lemma AnEntryIsLost(v: VolumeEntry, w: VolumeEntry, x: VolumeEntry, y: VolumeEntry)
    ensures var groups := [Some([Shown(Some(v))]), Some([Shown(Some(w)), Shown(Some(x)), Shown(Some(y))])];
            && ClusterPage(groups, 0, 1) == Page([v], Itoa(1))
            && ClusterPage(groups, 1, 1) == Page([w], Itoa(3))
            && ClusterPage(groups, 3, 1) == Page([y], "")
  {
    var first, second: seq<Item<VolumeEntry>> := [Shown(Some(v))], [Shown(Some(w)), Shown(Some(x)), Shown(Some(y))];
    FirstPage(first, second, v);
    LaterPage(first, second, 0, w);
    LaterPage(first, second, 2, y);
  }
}
