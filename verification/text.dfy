/** The few functions of Go's `strings` and `strconv` packages that the driver's decisions rest on. */
module Text {

  datatype Option<+T> = None | Some(value: T)

  /** ASCII lower-casing; Azure resource identifiers and parameter keys are ASCII. */
  function LowerChar(c: char): char {
    if 'A' <= c <= 'Z' then c - 'A' + 'a' else c
  }

  function ToLower(s: string): (r: string)
    ensures |r| == |s|
  {
    seq(|s|, i requires 0 <= i < |s| => LowerChar(s[i]))
  }

  predicate EqualFold(a: string, b: string) {
    ToLower(a) == ToLower(b)
  }

  predicate IsLower(s: string) {
    ToLower(s) == s
  }

  lemma ToLowerIdempotent(s: string)
    ensures IsLower(ToLower(s))
  {
  }

  predicate OccursAt(s: string, part: string, i: int) {
    0 <= i <= |s| - |part| && s[i..i + |part|] == part
  }

  /** `strings.Contains`. */
  predicate Contains(s: string, part: string) {
    exists i | 0 <= i <= |s| :: OccursAt(s, part, i)
  }

  lemma ContainsInMiddle(before: string, part: string, after: string)
    ensures Contains(before + part + after, part)
  {
    var s := before + part + after;
    assert OccursAt(s, part, |before|);
  }

  const MAX_INT := 0x7FFF_FFFF_FFFF_FFFF

  predicate IsDigit(c: char) {
    '0' <= c <= '9'
  }

  function DigitChar(d: int): (c: char)
    requires 0 <= d < 10
    ensures IsDigit(c)
  {
    d as char + '0'
  }

  function DigitValue(c: char): (d: int)
    requires IsDigit(c)
  {
    (c - '0') as int
  }

  function NatToString(n: nat): (s: string)
    ensures s != [] && forall i :: 0 <= i < |s| ==> IsDigit(s[i])
  {
    if n < 10 then [DigitChar(n)] else NatToString(n / 10) + [DigitChar(n % 10)]
  }

  function DigitsValue(s: string): (n: nat)
    requires forall i :: 0 <= i < |s| ==> IsDigit(s[i])
  {
    if s == [] then 0 else 10 * DigitsValue(s[..|s| - 1]) + DigitValue(s[|s| - 1])
  }

  /** `strconv.Itoa`. */
  function Itoa(n: int): string {
    if n < 0 then "-" + NatToString(-n) else NatToString(n)
  }

  /** `strconv.Atoi` on a 64-bit platform: an optional sign, then at least one digit, then a range check. */
  function Atoi(s: string): Option<int> {
    var signed := s != [] && (s[0] == '-' || s[0] == '+');
    var digits := if signed then s[1..] else s;
    if digits == [] || exists i :: 0 <= i < |digits| && !IsDigit(digits[i]) then None
    else
      var n: int := DigitsValue(digits);
      var v: int := if signed && s[0] == '-' then -n else n;
      if -MAX_INT - 1 <= v <= MAX_INT then Some(v) else None
  }

  lemma {:induction false} DigitsRoundTrip(n: nat)
    ensures DigitsValue(NatToString(n)) == n
  {
    if n >= 10 {
      var s := NatToString(n);
      DigitsRoundTrip(n / 10);
      assert s[..|s| - 1] == NatToString(n / 10);
    } else {
      var s := NatToString(n);
      assert s[..|s| - 1] == [];
    }
  }

  /** What one call prints the next call reads back: the paging tokens, LUNs and attach sequences all travel as text. */
  lemma AtoiItoa(n: int)
    requires -MAX_INT - 1 <= n <= MAX_INT
    ensures Atoi(Itoa(n)) == Some(n)
  {
    var m: nat := if n < 0 then -n else n;
    DigitsRoundTrip(m);
    var s := Itoa(n);
    if n < 0 {
      assert s[1..] == NatToString(m);
    } else {
      assert IsDigit(s[0]);
    }
  }

  lemma ItoaInjective(m: int, n: int)
    requires -MAX_INT - 1 <= m <= MAX_INT && -MAX_INT - 1 <= n <= MAX_INT
    ensures Itoa(m) == Itoa(n) ==> m == n
  {
    AtoiItoa(m);
    AtoiItoa(n);
  }

  // ---------------------------------------------------------------------------------------------
  // A phrase of several words does not occur in a text none of whose words starts like its second one.

  ghost predicate NoWordWith(s: string, c: char) {
    forall j :: 0 <= j < |s| - 1 && s[j] == ' ' ==> s[j + 1] != c
  }

  lemma JoinNoWordWith(s: string, t: string, c: char)
    requires NoWordWith(s, c) && NoWordWith(t, c)
    requires s == "" || s[|s| - 1] != ' ' || t == "" || t[0] != c
    ensures NoWordWith(s + t, c)
  {
  }

  lemma PhraseAbsent(s: string, phrase: string, i: nat)
    requires i + 1 < |phrase| && phrase[i] == ' ' && NoWordWith(s, phrase[i + 1])
    ensures !Contains(s, phrase)
  {
    forall k | 0 <= k <= |s| - |phrase| ensures !OccursAt(s, phrase, k) {
      var part := s[k..k + |phrase|];
      assert part[i] == s[k + i] && part[i + 1] == s[k + i + 1];
    }
  }
}

/** Facts about finite sets that the standard theory leaves to the user. */
module Sets {

  lemma SubsetSize<T>(a: set<T>, b: set<T>)
    requires a <= b
    ensures |a| <= |b|
  {
    assert b == a + (b - a);
  }
}
