/**
 * Block device tuning: which disk SKU a volume is taken for, and the queue settings derived from it, over the reals.
 */
module DeviceTuning {
  import opened Text

  datatype DiskSku = DiskSku(maxSizeGiB: int, maxIops: int, maxBwMbps: int, maxBurstIops: int, maxBurstBwMbps: int)

  /** What is published for the VM size; 0 when it is not. */
  datatype NodeInfo = NodeInfo(maxBurstIops: int, maxBurstBwMbps: int)

  // ---------------------------------------------------------------------------------------------
  // Choosing the SKU

  predicate MeetsRequest(sku: DiskSku, sizeGiB: int, iops: int, bwMbps: int) {
    sku.maxSizeGiB >= sizeGiB && sku.maxBwMbps >= bwMbps && sku.maxIops >= iops
  }

  /** A requirement that does not parse counts as none. */
  function OrNone(s: string): int {
    match Atoi(s) case Some(n) => n case None => 0
  }

  ghost predicate IsMatch(skus: map<string, DiskSku>, name: string, size: int, iops: string, bw: string) {
    name in skus && MeetsRequest(skus[name], size, OrNone(iops), OrNone(bw))
  }

  /** The SKUs of the account type; any order of the map gives a smallest match, and none only if there is none. */
  method GetMatchingDiskSku(table: map<string, map<string, DiskSku>>, accountType: string, sizeGiB: string,
      iops: string, bwMbps: string) returns (r: Option<DiskSku>)
    ensures r.Some? <==>
      && ToLower(accountType) in table && Atoi(sizeGiB).Some?
      && exists name :: IsMatch(table[ToLower(accountType)], name, Atoi(sizeGiB).value, iops, bwMbps)
    ensures r.Some? ==>
      var skus, size := table[ToLower(accountType)], Atoi(sizeGiB).value;
      && (exists name :: IsMatch(skus, name, size, iops, bwMbps) && skus[name] == r.value)
      && (forall name :: IsMatch(skus, name, size, iops, bwMbps) ==> r.value.maxSizeGiB <= skus[name].maxSizeGiB)
  {
    var account := ToLower(accountType);
    if account !in table || |table[account]| == 0 {
      return None;
    }
    var skus := table[account];
    var parsed := Atoi(sizeGiB);
    if parsed.None? {
      return None;
    }
    var size, minIops, minBw := parsed.value, OrNone(iops), OrNone(bwMbps);
    r := None;
    var rest := skus.Keys;
    while rest != {}
      invariant rest <= skus.Keys
      invariant r.None? ==> forall n :: n in skus.Keys - rest ==> !IsMatch(skus, n, size, iops, bwMbps)
      invariant r.Some? ==>
        exists n :: n in skus.Keys - rest && IsMatch(skus, n, size, iops, bwMbps) && skus[n] == r.value
      invariant r.Some? ==> forall n :: n in skus.Keys - rest && IsMatch(skus, n, size, iops, bwMbps) ==>
        r.value.maxSizeGiB <= skus[n].maxSizeGiB
      decreases |rest|
    {
      var name :| name in rest;
      rest := rest - {name};
      var sku := skus[name];
      if MeetsRequest(sku, size, minIops, minBw) {
        assert IsMatch(skus, name, size, iops, bwMbps);
        if r.None? || sku.maxSizeGiB < r.value.maxSizeGiB {
          r := Some(sku);
        }
      }
    }
  }

  // ---------------------------------------------------------------------------------------------
  // Queue settings

  const IOPS_HEAD_ROOM := 0.25
  const MAX_HW_SECTORS_KB := 512.0

  function Ceil(x: real): int {
    -(-x).Floor
  }

  function Min(a: real, b: real): real {
    if a < b then a else b
  }

  function Max(a: real, b: real): real {
    if a < b then b else a
  }

  /** Estimated latencies in seconds, by disk size. */
  function RandomLatency(sku: DiskSku): real {
    if sku.maxSizeGiB <= 4096 then 0.0022 else if sku.maxSizeGiB <= 8192 then 0.0028
    else if sku.maxSizeGiB <= 16384 then 0.0034 else 0.004
  }

  function SequentialLatency(sku: DiskSku): real {
    if sku.maxSizeGiB <= 4096 then 0.0033 else if sku.maxSizeGiB <= 8192 then 0.0041
    else if sku.maxSizeGiB <= 16384 then 0.0046 else 0.0052
  }

  /** The disk's limit, or the VM's if that is published and lower. */
  function BurstIops(sku: DiskSku, node: NodeInfo): real {
    var least := Min(sku.maxBurstIops as real, node.maxBurstIops as real);
    if least <= 0.0 then sku.maxBurstIops as real else least
  }

  /** In kB per second; a limit taken from the disk alone is not converted from MB. */
  function BurstBandwidth(sku: DiskSku, node: NodeInfo): real {
    var least := Min(sku.maxBurstBwMbps as real, node.maxBurstBwMbps as real) * 1000.0;
    if least <= 0.0 then sku.maxBurstBwMbps as real else least
  }

  datatype Settings = Settings(queueDepth: int, maxSectorsKb: int, readAheadKb: int)

  predicate PositiveLimits(sku: DiskSku) {
    sku.maxBurstIops > 0 && sku.maxBurstBwMbps > 0
  }

  lemma LimitsArePositive(sku: DiskSku, node: NodeInfo)
    requires PositiveLimits(sku)
    ensures BurstIops(sku, node) > 0.0 && BurstBandwidth(sku, node) > 0.0
  {
  }

  lemma CeilBounds(x: real)
    ensures Ceil(x) as real - 1.0 < x <= Ceil(x) as real
  {
  }

  lemma QuotientTimes(a: real, b: real)
    requires b > 0.0
    ensures a / b * b == a
  {
  }

  lemma TimesMonotone(a: real, b: real, c: real)
    requires a <= b && c >= 0.0
    ensures a * c <= b * c
  {
  }

  /**
   * The request size, for the quotient q of bandwidth and rate: an integer in [1, 512], enough for the bandwidth at
   * that rate, and no larger than needed.
   */
  lemma RequestSizeFits(bw: real, rate: real, q: real, rs: int)
    requires bw > 0.0 && rate > 0.0 && q * rate == bw && rs == Ceil(Min(MAX_HW_SECTORS_KB, q))
    ensures 1 <= rs <= 512
    ensures rs as real * rate >= Min(bw, MAX_HW_SECTORS_KB * rate)
    ensures (rs - 1) as real * rate < bw
  {
    if q <= 0.0 {
      TimesMonotone(q, 0.0, rate);
    }
    var x := Min(MAX_HW_SECTORS_KB, q);
    CeilBounds(x);
    TimesMonotone(x, rs as real, rate);
    BelowQuotient((rs - 1) as real, x, q, rate, bw);
  }

  lemma BelowQuotient(a: real, x: real, q: real, rate: real, bw: real)
    requires a < x <= q && rate > 0.0 && q * rate == bw
    ensures a * rate < bw
  {
    StrictTimes(a, q, rate);
  }

  lemma StrictTimes(a: real, b: real, c: real)
    requires a < b && c > 0.0
    ensures a * c < b * c
  {
  }

  /** Enough requests of that size to keep `inFlight` kB under way. */
  lemma QueueDepthCovers(inFlight: real, rs: int, qd: int)
    requires rs >= 1 && qd == Ceil(inFlight / rs as real)
    ensures qd as real * rs as real >= inFlight
  {
    CeilBounds(inFlight / rs as real);
    QuotientTimes(inFlight, rs as real);
    TimesMonotone(inFlight / rs as real, qd as real, rs as real);
  }

  /** The total depth carries the sequential requests and the random ones, and is an integer. */
  lemma TotalDepth(rs: int, qdSeq: int, qdRandom: int, qd: int)
    requires rs >= 1 && qdRandom >= 0
    requires qd == Ceil(Max(qdRandom as real * IOPS_HEAD_ROOM + qdSeq as real, qdRandom as real))
    ensures qd >= qdSeq && qd >= qdRandom
    ensures qd as real * rs as real >= qdSeq as real * rs as real
    ensures Ceil(qdSeq as real * rs as real) == qdSeq * rs <= qd * rs
  {
    CeilBounds(Max(qdRandom as real * IOPS_HEAD_ROOM + qdSeq as real, qdRandom as real));
    assert qd as real >= qdSeq as real;
    TimesMonotone(qdSeq as real, qd as real, rs as real);
    assert qdSeq as real * rs as real == (qdSeq * rs) as real;
    assert qd as real * rs as real == (qd * rs) as real;
  }

  lemma PositiveTimes(a: real, b: real)
    requires a > 0.0 && b > 0.0
    ensures a * b > 0.0
  {
  }

  /** Rounding up adds less than three requests to what is asked for. */
  lemma QueueIsNotLarger(rs: int, inFlight: real, small: real, qdSeq: int, qdRandom: int, qd: int)
    requires rs >= 1 && small > 0.0 && inFlight > 0.0
    requires qdSeq == Ceil(inFlight / rs as real) && qdRandom == Ceil(small)
    requires qd == Ceil(Max(qdRandom as real * IOPS_HEAD_ROOM + qdSeq as real, qdRandom as real))
    ensures qd as real * rs as real <= inFlight + (small + 3.0) * rs as real
  {
    var seqDepth := inFlight / rs as real;
    QuotientTimes(inFlight, rs as real);
    CeilBounds(small);
    CeilBounds(seqDepth);
    CeilBounds(Max(qdRandom as real * IOPS_HEAD_ROOM + qdSeq as real, qdRandom as real));
    TimesMonotone(qd as real, seqDepth + small + 3.0, rs as real);
    assert (seqDepth + small + 3.0) * rs as real == seqDepth * rs as real + (small + 3.0) * rs as real;
  }

  /** Queue depth and read-ahead for `inFlight` kB in requests of `rs` kB, and `small` random requests. */
  method SizeQueue(rs: int, inFlight: real, small: real) returns (queueDepth: int, readAhead: int)
    requires rs >= 1 && small > 0.0 && inFlight > 0.0
    ensures inFlight <= queueDepth as real * rs as real <= inFlight + (small + 3.0) * rs as real
    ensures queueDepth >= Ceil(small) > 0
    ensures readAhead as real >= inFlight && readAhead <= queueDepth * rs
  {
    var qdSeq, qdRandom := Ceil(inFlight / rs as real), Ceil(small);
    CeilBounds(small);
    QueueDepthCovers(inFlight, rs, qdSeq);
    queueDepth := Ceil(Max(qdRandom as real * IOPS_HEAD_ROOM + qdSeq as real, qdRandom as real));
    TotalDepth(rs, qdSeq, qdRandom, queueDepth);
    QueueIsNotLarger(rs, inFlight, small, qdSeq, qdRandom, queueDepth);
    var readable := qdSeq as real * rs as real;
    readAhead := Ceil(readable);
    CeilBounds(readable);
  }

  // ---------------------------------------------------------------------------------------------
  // Which bandwidth the settings are for

  /** The limit that applies, in MB per second: the disk's, or the VM's if that is published and lower. */
  function ApplicableMbps(sku: DiskSku, node: NodeInfo): int {
    if 0 < node.maxBurstBwMbps < sku.maxBurstBwMbps then node.maxBurstBwMbps else sku.maxBurstBwMbps
  }

  /** Megabytes become kilobytes exactly for VM sizes with a published bandwidth. */
  lemma BandwidthIsConvertedExactly(sku: DiskSku, node: NodeInfo)
    requires PositiveLimits(sku)
    ensures BurstBandwidth(sku, node) == 1000.0 * ApplicableMbps(sku, node) as real <==> node.maxBurstBwMbps > 0
    ensures BurstBandwidth(sku, node) == ApplicableMbps(sku, node) as real <==> node.maxBurstBwMbps <= 0
  {
  }

  /** The settings keep the applicable bandwidth under way for the time that one request takes. */
  predicate CoversBandwidth(s: Settings, sku: DiskSku, node: NodeInfo) {
    InFlight(s) >= 1000.0 * (ApplicableMbps(sku, node) as real * SequentialLatency(sku))
  }

  /** At least 2 MB per second in requests of at least 2 kB, and at least 40 requests per second. */
  predicate Ordinary(sku: DiskSku, node: NodeInfo) {
    sku.maxBurstBwMbps >= 2 && 40.0 <= BurstIops(sku, node) <= 500.0 * sku.maxBurstBwMbps as real
  }

  /** What rounding the request size up adds, for the unconverted bandwidth. */
  lemma RequestsAreSmall(bw: real, iops: real, latency: real, rs: real)
    requires bw > 0.0 && iops >= 40.0 && latency > 0.0 && rs >= 1.0
    requires (rs - 1.0) * (iops * 0.75) < bw
    ensures (iops * latency + 3.0) * rs <= iops * latency + 3.0 + bw * latency * 4.0 / 3.0 + bw / 10.0
  {
    var extra := rs - 1.0;
    var perRequest := iops * extra;
    assert extra * (iops * 0.75) == perRequest * 0.75;
    TimesMonotone(perRequest, bw * 4.0 / 3.0, latency);
    TimesMonotone(40.0, iops, extra);
    assert 40.0 * extra <= perRequest <= bw * 4.0 / 3.0;
    assert (iops * latency + 3.0) * rs == iops * latency + 3.0 + perRequest * latency + 3.0 * extra;
    assert bw * 4.0 / 3.0 * latency == bw * latency * 4.0 / 3.0;
  }

  lemma FewInFlight(bw: real, iops: real, latency: real, randomLatency: real, inFlight: real, rs: real)
    requires bw >= 2.0 && 40.0 <= iops <= 500.0 * bw && 0.0033 <= latency && 0.0 < randomLatency <= latency
    requires rs >= 1.0 && (rs - 1.0) * (iops * 0.75) < bw
    requires inFlight <= bw * latency + (iops * randomLatency + 3.0) * rs
    ensures inFlight < 1000.0 * (bw * latency)
  {
    var carried, random := bw * latency, bw * randomLatency;
    RequestsAreSmall(bw, iops, randomLatency, rs);
    assert 0.0033 * bw <= carried by { TimesMonotone(0.0033, latency, bw); }
    assert random <= carried by { TimesMonotone(randomLatency, latency, bw); }
    assert iops * randomLatency <= 500.0 * random by { TimesMonotone(iops, 500.0 * bw, randomLatency); }
  }

  /** What disk and VM allow: requests and kB per second, and the seconds that a request takes. */
  datatype Limits = Limits(iops: real, bw: real, latency: real, randomLatency: real) {
    /** The rate kept for sequential access. */
    function SequentialIops(): real {
      iops * (1.0 - IOPS_HEAD_ROOM)
    }

    predicate Positive() {
      iops > 0.0 && bw > 0.0 && latency > 0.0 && randomLatency > 0.0
    }
  }

  function LimitsOf(sku: DiskSku, node: NodeInfo): Limits {
    Limits(BurstIops(sku, node), BurstBandwidth(sku, node), SequentialLatency(sku), RandomLatency(sku))
  }

  /** The request size is the least whole one that carries the bandwidth, within [1, 512]. */
  predicate SizedFor(s: Settings, l: Limits) {
    && 1 <= s.maxSectorsKb <= 512
    && s.maxSectorsKb as real * l.SequentialIops() >= Min(l.bw, MAX_HW_SECTORS_KB * l.SequentialIops())
    && (s.maxSectorsKb - 1) as real * l.SequentialIops() < l.bw
  }

  function InFlight(s: Settings): real {
    s.queueDepth as real * s.maxSectorsKb as real
  }

  /** The queue covers bandwidth times latency, and the random requests in flight, and is little larger. */
  predicate QueuedFor(s: Settings, l: Limits) {
    && l.bw * l.latency <= InFlight(s) <= l.bw * l.latency + (l.iops * l.randomLatency + 3.0) * s.maxSectorsKb as real
    && s.queueDepth >= Ceil(l.iops * l.randomLatency) > 0
    && s.readAheadKb as real >= l.bw * l.latency && s.readAheadKb <= s.queueDepth * s.maxSectorsKb
  }

  method Sized(iops: real, bw: real, rate: real, latency: real, randomLatency: real) returns (s: Settings)
    requires iops > 0.0 && bw > 0.0 && rate > 0.0 && latency > 0.0 && randomLatency > 0.0
    ensures 1 <= s.maxSectorsKb <= 512
    ensures s.maxSectorsKb as real * rate >= Min(bw, MAX_HW_SECTORS_KB * rate)
      && (s.maxSectorsKb - 1) as real * rate < bw
    ensures bw * latency <= InFlight(s) <= bw * latency + (iops * randomLatency + 3.0) * s.maxSectorsKb as real
    ensures s.queueDepth >= Ceil(iops * randomLatency) > 0
    ensures s.readAheadKb as real >= bw * latency && s.readAheadKb <= s.queueDepth * s.maxSectorsKb
  {
    var q, inFlight, small := bw / rate, bw * latency, iops * randomLatency;
    QuotientTimes(bw, rate);
    PositiveTimes(bw, latency);
    PositiveTimes(iops, randomLatency);
    var rs := Ceil(Min(MAX_HW_SECTORS_KB, q));
    RequestSizeFits(bw, rate, q, rs);
    var queueDepth, readAhead := SizeQueue(rs, inFlight, small);
    s := Settings(queueDepth, rs, readAhead);
  }

  method SettingsFor(l: Limits) returns (s: Settings)
    requires l.Positive()
    ensures SizedFor(s, l) && QueuedFor(s, l)
  {
    s := Sized(l.iops, l.bw, l.SequentialIops(), l.latency, l.randomLatency);
  }

  /**
   * getOptimalDeviceSettings, once the SKU is known; the queue depth is used for nr_requests too. The bandwidth that
   * disk and VM allow is carried whenever the VM size publishes its own; for disks of an ordinary shape, only then.
   */
  method GetOptimalDeviceSettings(sku: DiskSku, node: NodeInfo) returns (s: Settings)
    requires PositiveLimits(sku)
    ensures SizedFor(s, LimitsOf(sku, node)) && QueuedFor(s, LimitsOf(sku, node))
    ensures node.maxBurstBwMbps > 0 ==> CoversBandwidth(s, sku, node)
    ensures Ordinary(sku, node) ==> (CoversBandwidth(s, sku, node) <==> node.maxBurstBwMbps > 0)
  {
    LimitsArePositive(sku, node);
    s := SettingsFor(LimitsOf(sku, node));
    if node.maxBurstBwMbps > 0 {
      ConvertedIsEnough(sku, node, s, LimitsOf(sku, node));
    } else if Ordinary(sku, node) {
      UnconvertedIsTooLittle(sku, node, s, LimitsOf(sku, node));
    }
  }

  lemma ConvertedIsEnough(sku: DiskSku, node: NodeInfo, s: Settings, l: Limits)
    requires PositiveLimits(sku) && l == LimitsOf(sku, node) && QueuedFor(s, l) && node.maxBurstBwMbps > 0
    ensures CoversBandwidth(s, sku, node)
  {
    BandwidthIsConvertedExactly(sku, node);
    Regroup(1000.0, ApplicableMbps(sku, node) as real, l.latency);
  }

  lemma UnconvertedIsTooLittle(sku: DiskSku, node: NodeInfo, s: Settings, l: Limits)
    requires PositiveLimits(sku) && l == LimitsOf(sku, node) && SizedFor(s, l) && QueuedFor(s, l)
    requires Ordinary(sku, node) && node.maxBurstBwMbps <= 0
    ensures !CoversBandwidth(s, sku, node)
  {
    assert l.bw == ApplicableMbps(sku, node) as real;
    LittleInFlight(s, l);
  }

  lemma LittleInFlight(s: Settings, l: Limits)
    requires l.bw >= 2.0 && 40.0 <= l.iops <= 500.0 * l.bw && 0.0033 <= l.latency && 0.0 < l.randomLatency <= l.latency
    requires SizedFor(s, l) && QueuedFor(s, l)
    ensures InFlight(s) < 1000.0 * (l.bw * l.latency)
  {
    FewInFlight(l.bw, l.iops, l.latency, l.randomLatency, InFlight(s), s.maxSectorsKb as real);
  }

  lemma Regroup(a: real, b: real, c: real)
    ensures a * b * c == a * (b * c)
  {
  }

  /** A disk of 100 MB per second on a VM size that publishes nothing: less under way than the 330 kB needed. */
  method UnpublishedBandwidthIsNotConverted() returns (s: Settings)
    ensures s.queueDepth * s.maxSectorsKb < 330
    ensures !CoversBandwidth(s, DiskSku(1024, 1000, 100, 1000, 100), NodeInfo(0, 0))
  {
    s := GetOptimalDeviceSettings(DiskSku(1024, 1000, 100, 1000, 100), NodeInfo(0, 0));
    assert InFlight(s) == (s.queueDepth * s.maxSectorsKb) as real;
  }
}
