/** LUNs that VolumeAttachments claim but the VM does not list yet, and why SetDiskLun then avoids both kinds. */
module OccupiedLuns {
  import opened Text
  import opened Luns

  datatype VolumeAttachment = VolumeAttachment(attacher: string, nodeName: string, attached: bool, lun: Option<string>)

  ghost predicate Sorted(s: seq<int>) {
    forall i, j :: 0 <= i < j < |s| ==> s[i] <= s[j]
  }

  function Insert(x: int, s: seq<int>): seq<int> {
    if s == [] || x <= s[0] then [x] + s else [s[0]] + Insert(x, s[1..])
  }

  function SortInts(s: seq<int>): seq<int> {
    if s == [] then [] else Insert(s[0], SortInts(s[1..]))
  }

  lemma {:induction false} InsertSorts(x: int, s: seq<int>)
    requires Sorted(s)
    ensures var r := Insert(x, s);
      Sorted(r) && r != [] && (r[0] == x || (s != [] && r[0] == s[0]))
  {
    if s != [] && x > s[0] {
      InsertSorts(x, s[1..]);
    }
  }

  lemma {:induction false} InsertAdds(x: int, s: seq<int>)
    ensures multiset(Insert(x, s)) == multiset{x} + multiset(s)
    ensures |Insert(x, s)| == |s| + 1
  {
    if s != [] && x > s[0] {
      InsertAdds(x, s[1..]);
      assert s == [s[0]] + s[1..];
    }
  }

  lemma {:induction false} SortIntsSorts(s: seq<int>)
    ensures Sorted(SortInts(s)) && multiset(SortInts(s)) == multiset(s) && |SortInts(s)| == |s|
  {
    if s != [] {
      SortIntsSorts(s[1..]);
      InsertSorts(s[0], SortInts(s[1..]));
      InsertAdds(s[0], SortInts(s[1..]));
      assert s == [s[0]] + s[1..];
    }
  }

  lemma {:induction false} SortedStays(s: seq<int>)
    requires Sorted(s)
    ensures SortInts(s) == s
  {
    if s != [] {
      SortedStays(s[1..]);
      assert s == [s[0]] + s[1..];
    }
  }

  /** The walk over the two sorted slices. */
  function Merge(a: seq<int>, b: seq<int>): seq<int>
    decreases |a| + |b|
  {
    if a == [] || b == [] then a
    else if a[0] < b[0] then [a[0]] + Merge(a[1..], b)
    else if a[0] > b[0] then Merge(a, b[1..])
    else Merge(a[1..], b[1..])
  }

  lemma Difference(x: int, a: multiset<int>, b: multiset<int>)
    ensures x !in b ==> (multiset{x} + a) - b == multiset{x} + (a - b)
    ensures x !in a ==> a - (multiset{x} + b) == a - b
    ensures (multiset{x} + a) - (multiset{x} + b) == a - b
  {
  }

  lemma Head(s: seq<int>)
    requires s != []
    ensures multiset(s) == multiset{s[0]} + multiset(s[1..])
  {
    assert s == [s[0]] + s[1..];
  }

  lemma Below(x: int, s: seq<int>)
    requires Sorted(s) && s != [] && x < s[0]
    ensures x !in multiset(s)
  {
    assert x !in s;
  }

  lemma {:induction false} MergeIsDifference(a: seq<int>, b: seq<int>)
    requires Sorted(a) && Sorted(b)
    ensures multiset(Merge(a, b)) == multiset(a) - multiset(b)
    decreases |a| + |b|
  {
    if a != [] && b != [] {
      Head(a);
      Head(b);
      if a[0] < b[0] {
        Below(a[0], b);
        MergeIsDifference(a[1..], b);
        Difference(a[0], multiset(a[1..]), multiset(b));
      } else if a[0] > b[0] {
        Below(b[0], a);
        MergeIsDifference(a, b[1..]);
        Difference(b[0], multiset(a), multiset(b[1..]));
      } else {
        MergeIsDifference(a[1..], b[1..]);
        Difference(a[0], multiset(a[1..]), multiset(b[1..]));
      }
    }
  }

  /** What the walk has produced so far followed by what it has yet to produce. */
  ghost function Outcome(done: seq<int>, a: seq<int>, b: seq<int>, i: nat, j: nat): seq<int>
    requires i <= |a| && j <= |b|
  {
    done + Merge(a[i..], b[j..])
  }

  lemma OutcomeStep(done: seq<int>, a: seq<int>, b: seq<int>, i: nat, j: nat)
    requires i < |a| && j <= |b|
    ensures j == |b| || a[i] < b[j] ==> Outcome(done, a, b, i, j) == Outcome(done + [a[i]], a, b, i + 1, j)
    ensures j < |b| && a[i] > b[j] ==> Outcome(done, a, b, i, j) == Outcome(done, a, b, i, j + 1)
    ensures j < |b| && a[i] == b[j] ==> Outcome(done, a, b, i, j) == Outcome(done, a, b, i + 1, j + 1)
  {
    assert a[i..] == [a[i]] + a[i + 1..];
    if j < |b| {
      assert b[j..] == [b[j]] + b[j + 1..];
    }
  }

  /** `sort.Ints`: in place. */
  method SortInPlace(a: array<int>)
    modifies a
    ensures a[..] == SortInts(old(a[..]))
  {
    var sorted := SortInts(a[..]);
    SortIntsSorts(a[..]);
    forall i | 0 <= i < a.Length {
      a[i] := sorted[i];
    }
    assert a[..] == sorted;
  }

  /** The walk on two slices that are already sorted. */
  method Walk(arr1: array<int>, arr2: array<int>) returns (result: seq<int>)
    ensures result == Merge(arr1[..], arr2[..])
  {
    ghost var a, b := arr1[..], arr2[..];
    var i, j := 0, 0;
    result := [];
    assert a[0..] == a && b[0..] == b;
    while i < arr1.Length && j < arr2.Length
      invariant 0 <= i <= arr1.Length && 0 <= j <= arr2.Length
      invariant Outcome(result, a, b, i, j) == Merge(a, b)
    {
      OutcomeStep(result, a, b, i, j);
      if arr1[i] < arr2[j] {
        result := result + [arr1[i]];
        i := i + 1;
      } else if arr1[i] > arr2[j] {
        j := j + 1;
      } else {
        i, j := i + 1, j + 1;
      }
    }
    ghost var end := |b|;
    assert Outcome(result, a, b, i, j) == Outcome(result, a, b, i, end);
    while i < arr1.Length
      invariant 0 <= i <= arr1.Length
      invariant Outcome(result, a, b, i, end) == Merge(a, b)
    {
      OutcomeStep(result, a, b, i, end);
      result := result + [arr1[i]];
      i := i + 1;
    }
  }

  /**
   * The result is the multiset difference of the unsorted inputs; both, even if they are one array, are left sorted.
   */
  method GetElementsInArray1NotInArray2(arr1: array<int>, arr2: array<int>) returns (result: seq<int>)
    modifies arr1, arr2
    ensures multiset(result) == multiset(old(arr1[..])) - multiset(old(arr2[..]))
    ensures arr1[..] == SortInts(old(arr1[..])) && arr2[..] == SortInts(old(arr2[..]))
  {
    SortIntsSorts(arr1[..]);
    SortIntsSorts(arr2[..]);
    SortedStays(SortInts(arr1[..]));
    SortInPlace(arr1);
    SortInPlace(arr2);
    result := Walk(arr1, arr2);
    MergeIsDifference(arr1[..], arr2[..]);
  }

  /** LUNs that this driver's attached VolumeAttachments on `node` carry; text that is not an integer is skipped. */
  predicate Claims(va: VolumeAttachment, driver: string, node: string, lun: int) {
    va.attacher == driver && EqualFold(va.nodeName, node) && va.attached && va.lun.Some?
      && Atoi(va.lun.value) == Some(lun)
  }

  method GetUsedLunsFromVolumeAttachments(vas: seq<VolumeAttachment>, driver: string, node: string)
    returns (usedLuns: seq<int>)
    ensures forall lun :: lun in usedLuns <==> exists i :: 0 <= i < |vas| && Claims(vas[i], driver, node, lun)
    ensures |usedLuns| <= |vas|
  {
    usedLuns := [];
    for n := 0 to |vas|
      invariant forall lun :: lun in usedLuns <==> exists i :: 0 <= i < n && Claims(vas[i], driver, node, lun)
      invariant |usedLuns| <= n
    {
      var va := vas[n];
      if va.attacher == driver && EqualFold(va.nodeName, node) && va.attached {
        if va.lun.Some? {
          var lun := Atoi(va.lun.value);
          if lun.Some? {
            usedLuns := usedLuns + [lun.value];
          }
        }
      }
    }
  }

  method GetUsedLunsFromNode(disks: seq<DataDisk>) returns (usedLuns: seq<int>)
    ensures forall lun :: lun in usedLuns <==> lun in DiskLuns(disks)
  {
    usedLuns := [];
    for n := 0 to |disks|
      invariant forall lun :: lun in usedLuns <==> lun in DiskLuns(disks[..n])
    {
      DiskLunsStep(disks, n);
      if disks[n].lun.Some? {
        usedLuns := usedLuns + [disks[n].lun.value];
      }
    }
    assert disks[..|disks|] == disks;
  }

  /** `occupied` closes the gap between what VolumeAttachments claim and what the node lists. */
  ghost predicate CoversClaims(vas: seq<VolumeAttachment>, driver: string, node: string, disks: seq<DataDisk>,
      occupied: seq<int>) {
    forall i, lun :: 0 <= i < |vas| && Claims(vas[i], driver, node, lun) ==> lun in DiskLuns(disks) || lun in occupied
  }

  /** None stands for a failed read. With the check off, throttled or unreadable, nothing is reported as occupied. */
  method GetOccupiedLunsFromNode(enabled: bool, throttled: bool, vas: Option<seq<VolumeAttachment>>, driver: string,
                                 node: string, disks: Option<seq<DataDisk>>)
    returns (occupied: seq<int>)
    ensures enabled && !throttled && vas.Some? && disks.Some? ==>
      CoversClaims(vas.value, driver, node, disks.value, occupied)
    ensures !enabled || throttled || vas.None? || disks.None? ==> occupied == []
    ensures forall lun :: lun in occupied ==>
      vas.Some? && exists i :: 0 <= i < |vas.value| && Claims(vas.value[i], driver, node, lun)
  {
    occupied := [];
    if enabled && !throttled && vas.Some? {
      var fromVA := GetUsedLunsFromVolumeAttachments(vas.value, driver, node);
      if |fromVA| > 0 {
        if disks.Some? {
          var fromNode := GetUsedLunsFromNode(disks.value);
          var a := new int[|fromVA|](i requires 0 <= i < |fromVA| => fromVA[i]);
          var b := new int[|fromNode|](i requires 0 <= i < |fromNode| => fromNode[i]);
          assert a[..] == fromVA && b[..] == fromNode;
          occupied := GetElementsInArray1NotInArray2(a, b);
          assert forall lun :: lun in fromVA <==> lun in multiset(fromVA);
          assert forall lun :: lun in fromNode <==> lun in multiset(fromNode);
          assert forall lun :: lun in occupied <==> lun in multiset(occupied);
        }
      } else {
        assert forall lun :: lun !in fromVA;
      }
    }
  }

  /**
   * No LUN handed out collides: when SetDiskLun sees the node list the claims were compared with, every LUN it
   * takes avoids every listed disk and every in-range claim, so in particular nothing two attachments could share.
   */
  lemma ChosenLunsAvoidEveryClaim(
    vas: seq<VolumeAttachment>, driver: string, node: string, disks: seq<DataDisk>, occupied: seq<int>, n: nat,
      lun: int)
    requires CoversClaims(vas, driver, node, disks, occupied)
    requires lun in LowestFree(UsedLuns(disks, occupied), n)
    ensures InRange(lun)
    ensures forall d :: 0 <= d < |disks| ==> disks[d].lun != Some(lun)
    ensures forall i :: 0 <= i < |vas| ==> !Claims(vas[i], driver, node, lun)
  {
    LowestFreeIsLowest(UsedLuns(disks, occupied), n);
    assert lun in Free(UsedLuns(disks, occupied));
    assert forall d :: 0 <= d < |disks| && disks[d].lun == Some(lun) ==> lun in DiskLuns(disks);
    assert forall j :: 0 <= j < |occupied| && occupied[j] == lun ==> lun in OccupiedInRange(occupied);
  }
}
