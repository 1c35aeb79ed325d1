/**
 * Volume parameters: the mutable ones of a VolumeAttributesClass are normalised, override the StorageClass's whatever
 * their spelling, and the result is parsed. Go visits map entries in any order; so do the loops here.
 */
module DiskParameters {
  import opened Text

  const SKU_NAME := "skuname"
  const STORAGE_ACCOUNT_TYPE := "storageaccounttype"
  const IOPS := "diskiopsreadwrite"
  const MBPS := "diskmbpsreadwrite"

  type Parameters = map<string, string>

  datatype Error = UnsupportedMutable | DuplicateMutable | InvalidParameter

  datatype Result<+T> = Ok(value: T) | Err(error: Error)

  /** What the model keeps of ManagedDiskParameters; each field is "" when no parameter sets it. */
  datatype Settings = Settings(accountType: string, iops: string, mbps: string)

  function MutableKey(key: string): string {
    if ToLower(key) == STORAGE_ACCOUNT_TYPE then SKU_NAME else ToLower(key)
  }

  predicate IsSetting(canonical: string) {
    canonical == SKU_NAME || canonical == IOPS || canonical == MBPS
  }

  // ---------------------------------------------------------------------------------------------
  // Normalisation

  /** Only settings, and no two spellings of one. */
  ghost predicate Acceptable(p: Parameters) {
    && (forall k :: k in p ==> IsSetting(MutableKey(k)))
    && (forall k, l :: k in p && l in p && MutableKey(k) == MutableKey(l) ==> k == l)
  }

  /** `n` has exactly the values of `p` under their canonical names. */
  ghost predicate Normalizes(p: Parameters, n: Parameters) {
    && (forall k :: k in p ==> MutableKey(k) in n && n[MutableKey(k)] == p[k])
    && (forall c :: c in n ==> exists k :: k in p && MutableKey(k) == c)
  }

  method NormalizeMutableDiskParameters(p: Parameters) returns (r: Result<Parameters>)
    ensures r.Ok? <==> Acceptable(p)
    ensures r.Ok? ==> Normalizes(p, r.value)
    ensures r == Err(UnsupportedMutable) ==> exists k :: k in p && !IsSetting(MutableKey(k))
    ensures r == Err(DuplicateMutable) ==> exists k, l :: k in p && l in p && k != l && MutableKey(k) == MutableKey(l)
    ensures r != Err(InvalidParameter)
  {
    var normalized: Parameters := map[];
    var rest := p.Keys;
    while rest != {}
      invariant rest <= p.Keys
      invariant forall k :: k in p.Keys - rest ==>
        IsSetting(MutableKey(k)) && MutableKey(k) in normalized && normalized[MutableKey(k)] == p[k]
      invariant forall c :: c in normalized ==> exists k :: k in p.Keys - rest && MutableKey(k) == c
      invariant forall k, l :: k in p.Keys - rest && l in p.Keys - rest && MutableKey(k) == MutableKey(l) ==> k == l
      decreases |rest|
    {
      var key :| key in rest;
      rest := rest - {key};
      var canonicalKey := MutableKey(key);
      if !IsSetting(canonicalKey) {
        return Err(UnsupportedMutable);
      }
      if canonicalKey in normalized {
        return Err(DuplicateMutable);
      }
      normalized := normalized[canonicalKey := p[key]];
    }
    return Ok(normalized);
  }

  /** The outcome does not depend on the order in which the map is visited. */
  lemma NormalizationIsUnique(p: Parameters, n: Parameters, n': Parameters)
    requires Normalizes(p, n) && Normalizes(p, n')
    ensures n == n'
  {
    forall c ensures c in n <==> c in n' {
    }
    forall c | c in n ensures n[c] == n'[c] {
      var k :| k in p && MutableKey(k) == c;
    }
  }

  // ---------------------------------------------------------------------------------------------
  // Merging and parsing

  /** The class's parameters that no mutable one overrides, and the mutable ones. */
  function Merged(p: Parameters, m: Parameters): Parameters {
    (map k | k in p && MutableKey(k) !in m :: p[k]) + m
  }

  method KeepUnoverridden(p: Parameters, m: Parameters) returns (kept: Parameters)
    ensures forall k :: k in kept <==> k in p && MutableKey(k) !in m
    ensures forall k :: k in kept ==> kept[k] == p[k]
  {
    kept := map[];
    var rest := p.Keys;
    while rest != {}
      invariant rest <= p.Keys
      invariant forall k :: k in kept <==> k in p && k !in rest && MutableKey(k) !in m
      invariant forall k :: k in kept ==> kept[k] == p[k]
      decreases |rest|
    {
      var k :| k in rest;
      rest := rest - {k};
      if MutableKey(k) !in m {
        kept := kept[k := p[k]];
      }
    }
  }

  /** `merged` has the values of `m` for its keys outside `rest`, and those of `kept` for the others. */
  ghost predicate Overlaid(kept: Parameters, m: Parameters, rest: set<string>, merged: Parameters) {
    && (forall k :: k in merged <==> k in kept || (k in m && k !in rest))
    && (forall k :: k in merged ==> merged[k] == if k in m && k !in rest then m[k] else kept[k])
  }

  lemma OverlaidIsSum(kept: Parameters, m: Parameters, merged: Parameters)
    requires Overlaid(kept, m, {}, merged)
    ensures merged == kept + m
  {
  }

  lemma OverlayStep(kept: Parameters, m: Parameters, rest: set<string>, merged: Parameters, k: string)
    requires Overlaid(kept, m, rest, merged) && k in rest && k in m
    ensures Overlaid(kept, m, rest - {k}, merged[k := m[k]])
  {
  }

  method Overlay(kept: Parameters, m: Parameters) returns (merged: Parameters)
    ensures merged == kept + m
  {
    merged := kept;
    var rest := m.Keys;
    while rest != {}
      invariant rest <= m.Keys && Overlaid(kept, m, rest, merged)
      decreases |rest|
    {
      var k :| k in rest;
      OverlayStep(kept, m, rest, merged, k);
      rest := rest - {k};
      merged := merged[k := m[k]];
    }
    OverlaidIsSum(kept, m, merged);
  }

  method Merge(p: Parameters, m: Parameters) returns (merged: Parameters)
    ensures merged == Merged(p, m)
  {
    var kept := KeepUnoverridden(p, m);
    assert kept == map k | k in p && MutableKey(k) !in m :: p[k];
    merged := Overlay(kept, m);
  }

  /** The parameter keys that set one thing. */
  predicate Sets(key: string, setting: string) {
    MutableKey(key) == setting
  }

  /** Whether a parameter is accepted; `other` judges those that are no mutable setting. */
  predicate Parses(key: string, value: string, other: (string, string) -> bool) {
    var k := MutableKey(key);
    if k == SKU_NAME then true
    else if k == IOPS || k == MBPS then Atoi(value).Some?
    else other(key, value)
  }

  /** A field has the value of one of the parameters that set it, and none if there are none. */
  ghost predicate TakenFrom(p: Parameters, keys: set<string>, setting: string, value: string) {
    if exists k :: k in keys && k in p && Sets(k, setting)
    then exists k :: k in keys && k in p && Sets(k, setting) && p[k] == value
    else value == ""
  }

  ghost predicate FieldsFrom(p: Parameters, keys: set<string>, s: Settings) {
    && TakenFrom(p, keys, SKU_NAME, s.accountType)
    && TakenFrom(p, keys, IOPS, s.iops)
    && TakenFrom(p, keys, MBPS, s.mbps)
  }

  lemma TakenStep(p: Parameters, keys: set<string>, key: string, setting: string, before: string, after: string)
    requires TakenFrom(p, keys, setting, before) && key in p && key !in keys
    requires after == if Sets(key, setting) then p[key] else before
    ensures TakenFrom(p, keys + {key}, setting, after)
  {
    var more := keys + {key};
    if Sets(key, setting) {
      assert key in more;
    } else {
      forall k ensures k in more && k in p && Sets(k, setting) <==> k in keys && k in p && Sets(k, setting) {
      }
    }
  }

  lemma FieldsStep(p: Parameters, keys: set<string>, key: string, s: Settings, s': Settings)
    requires FieldsFrom(p, keys, s) && key in p && key !in keys
    requires s' == (if Sets(key, SKU_NAME) then s.(accountType := p[key])
                    else if Sets(key, IOPS) then s.(iops := p[key])
                    else if Sets(key, MBPS) then s.(mbps := p[key])
                    else s)
    ensures FieldsFrom(p, keys + {key}, s')
  {
    assert SKU_NAME != IOPS && SKU_NAME != MBPS && IOPS != MBPS;
    TakenStep(p, keys, key, SKU_NAME, s.accountType, s'.accountType);
    TakenStep(p, keys, key, IOPS, s.iops, s'.iops);
    TakenStep(p, keys, key, MBPS, s.mbps, s'.mbps);
  }

  ghost predicate ParsedFrom(p: Parameters, other: (string, string) -> bool, rest: bool, r: Result<Settings>) {
    && (r.Ok? <==> rest && forall k :: k in p ==> Parses(k, p[k], other))
    && (r.Ok? ==> FieldsFrom(p, p.Keys, r.value))
  }

  /** `rest` stands for what follows the loop: tags, caching mode and disk name. */
  method ParseDiskParameters(p: Parameters, other: (string, string) -> bool, rest: bool) returns (r: Result<Settings>)
    ensures ParsedFrom(p, other, rest, r)
  {
    var s := Settings("", "", "");
    var left := p.Keys;
    while left != {}
      invariant left <= p.Keys
      invariant forall k :: k in p.Keys - left ==> Parses(k, p[k], other)
      invariant FieldsFrom(p, p.Keys - left, s)
      decreases |left|
    {
      var k :| k in left;
      ghost var seen, before := p.Keys - left, s;
      left := left - {k};
      var v := p[k];
      var lower := ToLower(k);
      if lower == SKU_NAME || lower == STORAGE_ACCOUNT_TYPE {
        s := s.(accountType := v);
      } else if lower == IOPS {
        if Atoi(v).None? {
          return Err(InvalidParameter);
        }
        s := s.(iops := v);
      } else if lower == MBPS {
        if Atoi(v).None? {
          return Err(InvalidParameter);
        }
        s := s.(mbps := v);
      } else if !other(k, v) {
        return Err(InvalidParameter);
      }
      assert p.Keys - left == seen + {k};
      FieldsStep(p, seen, k, before, s);
    }
    assert p.Keys - left == p.Keys;
    return if rest then Ok(s) else Err(InvalidParameter);
  }

  // ---------------------------------------------------------------------------------------------
  // Mutable parameters win

  lemma CanonicalKeysAreFixed(c: string)
    requires IsSetting(c)
    ensures MutableKey(c) == c
  {
    assert forall i :: 0 <= i < |SKU_NAME| ==> LowerChar(SKU_NAME[i]) == SKU_NAME[i];
    assert forall i :: 0 <= i < |IOPS| ==> LowerChar(IOPS[i]) == IOPS[i];
    assert forall i :: 0 <= i < |MBPS| ==> LowerChar(MBPS[i]) == MBPS[i];
    assert SKU_NAME != STORAGE_ACCOUNT_TYPE && IOPS != STORAGE_ACCOUNT_TYPE && MBPS != STORAGE_ACCOUNT_TYPE;
  }

  /** In the merged map an overridden setting is set by its canonical key alone, to the mutable value. */
  lemma OverriddenOnce(p: Parameters, m: Parameters, m0: Parameters, setting: string, key: string)
    requires Acceptable(m0) && Normalizes(m0, m) && setting in m
    requires key in Merged(p, m) && Sets(key, setting)
    ensures key == setting && Merged(p, m)[key] == m[setting]
  {
    if key in m {
      var k :| k in m0 && MutableKey(k) == key;
      CanonicalKeysAreFixed(key);
    }
  }

  lemma MutableValueWins(p: Parameters, m: Parameters, m0: Parameters, setting: string, value: string)
    requires Acceptable(m0) && Normalizes(m0, m) && setting in m
    requires TakenFrom(Merged(p, m), Merged(p, m).Keys, setting, value)
    ensures value == m[setting]
  {
    var merged := Merged(p, m);
    var k0 :| k0 in m0 && MutableKey(k0) == setting;
    CanonicalKeysAreFixed(setting);
    assert setting in merged.Keys && Sets(setting, setting);
    var k :| k in merged.Keys && k in merged && Sets(k, setting) && merged[k] == value;
    OverriddenOnce(p, m, m0, setting, k);
  }

  /** A setting that no mutable parameter names keeps whatever the class's parameters give it. */
  lemma OtherValuesStay(p: Parameters, m: Parameters, m0: Parameters, setting: string, value: string)
    requires Acceptable(m0) && Normalizes(m0, m) && setting !in m
    requires TakenFrom(Merged(p, m), Merged(p, m).Keys, setting, value)
    ensures TakenFrom(p, p.Keys, setting, value)
  {
    var merged := Merged(p, m);
    forall k ensures k in merged && Sets(k, setting) <==> k in p && Sets(k, setting) {
      if k in m {
        var k0 :| k0 in m0 && MutableKey(k0) == k;
        CanonicalKeysAreFixed(k);
      }
    }
    forall k | k in p && Sets(k, setting) ensures merged[k] == p[k] {
      if k in m {
        var k0 :| k0 in m0 && MutableKey(k0) == k;
        CanonicalKeysAreFixed(k);
      }
    }
    if exists k :: k in p && Sets(k, setting) {
      var k0 :| k0 in p && Sets(k0, setting);
      assert k0 in merged.Keys;
      var k :| k in merged.Keys && k in merged && Sets(k, setting) && merged[k] == value;
      assert k in p.Keys && p[k] == value;
    }
  }

  /** The value a mutable parameter of any spelling asks for. */
  ghost predicate Asks(requested: Parameters, setting: string, value: string) {
    exists k :: k in requested && Sets(k, setting) && requested[k] == value
  }

  /** Whatever the class says and however the maps are visited, the mutable values are the ones parsed. */
  lemma MutableSettingsWin(p: Parameters, m: Parameters, m0: Parameters, s: Settings)
    requires Acceptable(m0) && Normalizes(m0, m) && FieldsFrom(Merged(p, m), Merged(p, m).Keys, s)
    ensures SKU_NAME in m ==> s.accountType == m[SKU_NAME]
    ensures IOPS in m ==> s.iops == m[IOPS]
    ensures MBPS in m ==> s.mbps == m[MBPS]
  {
    if SKU_NAME in m {
      MutableValueWins(p, m, m0, SKU_NAME, s.accountType);
    }
    if IOPS in m {
      MutableValueWins(p, m, m0, IOPS, s.iops);
    }
    if MBPS in m {
      MutableValueWins(p, m, m0, MBPS, s.mbps);
    }
  }

  lemma AskedIsNormalized(m0: Parameters, m: Parameters, setting: string, value: string)
    requires Normalizes(m0, m) && Asks(m0, setting, value)
    ensures setting in m && m[setting] == value
  {
    var k :| k in m0 && Sets(k, setting) && m0[k] == value;
    assert MutableKey(k) in m;
  }

  /** The parameter handling of CreateVolume, from the request to the parsed settings. */
  method CreateVolumeSettings(p: Parameters, requested: Parameters, other: (string, string) -> bool, rest: bool)
    returns (r: Result<Settings>)
    ensures !Acceptable(requested) ==> r.Err? && !r.error.InvalidParameter?
    ensures Acceptable(requested) ==> exists m :: Normalizes(requested, m) && ParsedFrom(Merged(p, m), other, rest, r)
    ensures r.Ok? ==> forall v :: Asks(requested, SKU_NAME, v) ==> r.value.accountType == v
    ensures r.Ok? ==> forall v :: Asks(requested, IOPS, v) ==> r.value.iops == v
    ensures r.Ok? ==> forall v :: Asks(requested, MBPS, v) ==> r.value.mbps == v
  {
    var normalized := NormalizeMutableDiskParameters(requested);
    if normalized.Err? {
      return Err(normalized.error);
    }
    var merged := Merge(p, normalized.value);
    r := ParseDiskParameters(merged, other, rest);
    if r.Ok? {
      MutableSettingsWin(p, normalized.value, requested, r.value);
      forall setting, v | Asks(requested, setting, v)
        ensures setting in normalized.value && normalized.value[setting] == v
      {
        AskedIsNormalized(requested, normalized.value, setting, v);
      }
    }
  }
}
