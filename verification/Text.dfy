/** The string operations the parsers rely on. */
module Text {
  import opened Common

  /** `str::find` for a fixed pattern: the first position it occurs at. */
  function Find(s: string, pattern: string): (found: Option<nat>)
    ensures found.Some? ==> found.value + |pattern| <= |s|
  {
    if pattern <= s then Some(0)
    else if s == [] then None
    else match Find(s[1..], pattern)
      case Some(at) => Some(at + 1)
      case None => None
  }

  predicate OccursAt(s: string, pattern: string, at: nat) {
    at + |pattern| <= |s| && s[at..at + |pattern|] == pattern
  }

  lemma OccursInTail(s: string, pattern: string, at: nat)
    requires s != [] && at > 0
    ensures OccursAt(s, pattern, at) <==> OccursAt(s[1..], pattern, at - 1)
  {
    if at + |pattern| <= |s| {
      assert s[at..at + |pattern|] == s[1..][at - 1..at - 1 + |pattern|];
    }
  }

  lemma OccursAtHead(s: string, pattern: string)
    ensures OccursAt(s, pattern, 0) <==> pattern <= s
    ensures s == [] && !(pattern <= s) ==> forall at: nat :: !OccursAt(s, pattern, at)
  {
  }

  lemma {:induction false} FindIsFirst(s: string, pattern: string)
    ensures match Find(s, pattern)
            case Some(at) => OccursAt(s, pattern, at) && forall i: nat :: i < at ==> !OccursAt(s, pattern, i)
            case None => forall i: nat :: !OccursAt(s, pattern, i)
  {
    hide OccursAt;
    OccursAtHead(s, pattern);
    if !(pattern <= s) && s != [] {
      FindIsFirst(s[1..], pattern);
      forall i: nat | 0 < i ensures OccursAt(s, pattern, i) <==> OccursAt(s[1..], pattern, i - 1) {
        OccursInTail(s, pattern, i);
      }
    }
  }

  lemma FindOccurs(s: string, pattern: string)
    ensures Find(s, pattern).Some? ==> OccursAt(s, pattern, Find(s, pattern).value)
  {
    FindIsFirst(s, pattern);
  }

  lemma SliceAround(s: string, pattern: string, at: nat)
    requires OccursAt(s, pattern, at)
    ensures s == s[..at] + pattern + s[at + |pattern|..]
  {
    assert s == s[..at] + s[at..at + |pattern|] + s[at + |pattern|..];
  }

  lemma FindUnique(s: string, pattern: string, at: nat)
    requires OccursAt(s, pattern, at) && forall i: nat :: i < at ==> !OccursAt(s, pattern, i)
    ensures Find(s, pattern) == Some(at)
  {
    FindIsFirst(s, pattern);
  }

  /** A first one-character separator, after text free of it. */
  lemma FindChar(before: string, c: char, after: string)
    requires c !in before
    ensures Find(before + [c] + after, [c]) == Some(|before|)
  {
    var s := before + [c] + after;
    forall i: nat | i < |before| ensures !OccursAt(s, [c], i) {
      assert s[i..i + 1][0] == before[i];
    }
    assert s[|before|..|before| + 1] == [c];
    FindUnique(s, [c], |before|);
  }

  lemma FindNoChar(s: string, c: char)
    ensures Find(s, [c]).None? <==> c !in s
  {
    FindIsFirst(s, [c]);
    if c in s {
      var i :| 0 <= i < |s| && s[i] == c;
      assert s[i..i + 1] == [c];
      assert OccursAt(s, [c], i);
    }
    if Find(s, [c]).Some? {
      var at := Find(s, [c]).value;
      assert s[at..at + 1][0] == c;
    }
  }

  /** `split_once`: around the first occurrence. */
  function SplitOnce(s: string, pattern: string): (r: Option<(string, string)>)
    ensures r.Some? ==> s == r.value.0 + pattern + r.value.1
  {
    FindIsFirst(s, pattern);
    match Find(s, pattern)
    case Some(at) => Some((s[..at], s[at + |pattern|..]))
    case None => None
  }

  lemma SplitOnceChar(before: string, c: char, after: string)
    requires c !in before
    ensures SplitOnce(before + [c] + after, [c]) == Some((before, after))
  {
    FindChar(before, c, after);
    var s := before + [c] + after;
    assert s[..|before|] == before && s[|before| + 1..] == after;
  }

  lemma SplitOnceCharBefore(s: string, c: char)
    ensures SplitOnce(s, [c]).Some? ==> c !in SplitOnce(s, [c]).value.0
  {
    FindIsFirst(s, [c]);
    if SplitOnce(s, [c]).Some? {
      var at := Find(s, [c]).value;
      forall i | 0 <= i < at ensures s[i] != c {
        assert !OccursAt(s, [c], i);
        assert s[i..i + 1] == [s[i]];
      }
    }
  }

  function Occurrences(s: string, c: char): nat {
    if s == [] then 0 else Occurrences(s[1..], c) + if s[0] == c then 1 else 0
  }

  lemma {:induction false} OccurrencesConcat(s: string, t: string, c: char)
    ensures Occurrences(s + t, c) == Occurrences(s, c) + Occurrences(t, c)
  {
    if s == [] {
      assert s + t == t;
    } else {
      assert (s + t)[1..] == s[1..] + t;
      OccurrencesConcat(s[1..], t, c);
    }
  }

  lemma {:induction false} NoOccurrence(s: string, c: char)
    ensures Occurrences(s, c) == 0 <==> c !in s
  {
    if s != [] {
      NoOccurrence(s[1..], c);
    }
  }

  // ---------------------------------------------------------------------
  // Unsigned decimal numbers, as Rust's integer `FromStr` reads them
  // ---------------------------------------------------------------------

  predicate IsDigit(c: char) {
    '0' <= c <= '9'
  }

  function DigitsValue(s: string): Option<nat> {
    if s == [] then Some(0)
    else match DigitsValue(Front(s))
      case Some(n) => if IsDigit(Last(s)) then Some(n * 10 + (Last(s) as nat - '0' as nat)) else None
      case None => None
  }

  /** An optional `+`, at least one digit, and no overflow past `max`. */
  function ParseUint(s: string, max: nat): Option<nat> {
    var digits := if s != [] && s[0] == '+' then s[1..] else s;
    if digits == [] then None
    else match DigitsValue(digits)
      case Some(n) => if n <= max then Some(n) else None
      case None => None
  }

  function Digit(d: nat): char
    requires d < 10
  {
    ('0' as nat + d) as char
  }

  function Decimal(n: nat): (s: string)
    ensures s != [] && forall i :: 0 <= i < |s| ==> IsDigit(s[i])
  {
    if n < 10 then [Digit(n)] else Decimal(n / 10) + [Digit(n % 10)]
  }

  lemma {:induction false} DecimalValue(n: nat)
    ensures DigitsValue(Decimal(n)) == Some(n)
  {
    if n < 10 {
      assert Front([Digit(n)]) == [];
    } else {
      DecimalValue(n / 10);
      SnocParts(Decimal(n / 10), Digit(n % 10));
    }
  }

  lemma ParseDecimal(n: nat, max: nat)
    requires n <= max
    ensures ParseUint(Decimal(n), max) == Some(n)
  {
    DecimalValue(n);
    assert IsDigit(Decimal(n)[0]);
  }

  function Zeros(k: nat): string {
    if k == 0 then "" else Zeros(k - 1) + "0"
  }

  lemma {:induction false} ZerosValue(k: nat)
    ensures DigitsValue(Zeros(k)) == Some(0)
  {
    if k > 0 {
      ZerosValue(k - 1);
      SnocParts(Zeros(k - 1), '0');
    }
  }

  lemma {:induction false} PaddedValue(k: nat, n: nat)
    ensures DigitsValue(Zeros(k) + Decimal(n)) == Some(n)
  {
    if n < 10 {
      ZerosValue(k);
      SnocParts(Zeros(k), Digit(n));
    } else {
      PaddedValue(k, n / 10);
      ConcatAssociates(Zeros(k), Decimal(n / 10), [Digit(n % 10)]);
      SnocParts(Zeros(k) + Decimal(n / 10), Digit(n % 10));
    }
  }

  lemma DigitOf(c: char)
    requires IsDigit(c)
    ensures Digit(c as nat - '0' as nat) == c
  {
  }

  /** One digit more. */
  lemma AppendDigit(k: nat, m: nat, d: nat)
    requires d < 10
    ensures m == 0 ==> Zeros(k) + Decimal(m) + [Digit(d)] == Zeros(k + 1) + Decimal(d)
    ensures m > 0 ==> Zeros(k) + Decimal(m) + [Digit(d)] == Zeros(k) + Decimal(m * 10 + d)
  {
    if m > 0 {
      assert (m * 10 + d) / 10 == m && (m * 10 + d) % 10 == d;
      ConcatAssociates(Zeros(k), Decimal(m), [Digit(d)]);
    }
  }

  lemma ValueSnoc(s: string)
    requires s != [] && DigitsValue(s).Some?
    ensures DigitsValue(Front(s)).Some? && IsDigit(Last(s))
    ensures DigitsValue(s).value == DigitsValue(Front(s)).value * 10 + (Last(s) as nat - '0' as nat)
    ensures Front(s) == [] ==> DigitsValue(Front(s)).value == 0
  {
  }

  lemma OneDigit(c: char)
    requires IsDigit(c)
    ensures [c] == Zeros(0) + Decimal(c as nat - '0' as nat)
  {
  }

  lemma {:induction false} ValueIsDecimal(s: string) returns (zeros: nat)
    requires s != [] && DigitsValue(s).Some?
    ensures s == Zeros(zeros) + Decimal(DigitsValue(s).value)
    decreases |s|
  {
    hide DigitsValue, Zeros, Decimal;
    var front, c := Front(s), Last(s);
    ValueSnoc(s);
    DigitOf(c);
    assert s == front + [c];
    if front == [] {
      zeros := 0;
      OneDigit(c);
    } else {
      var k := ValueIsDecimal(front);
      var m := DigitsValue(front).value;
      AppendDigit(k, m, c as nat - '0' as nat);
      zeros := if m == 0 then k + 1 else k;
    }
  }

  /** A decimal numeral may start with zeros, and with one `+` before them. */
  ghost predicate IsNumeral(s: string, n: nat) {
    exists zeros: nat :: s == Zeros(zeros) + Decimal(n) || s == "+" + (Zeros(zeros) + Decimal(n))
  }

  lemma {:induction false} ZerosAreDigits(k: nat)
    ensures forall i :: 0 <= i < |Zeros(k)| ==> Zeros(k)[i] == '0'
  {
    if k > 0 {
      ZerosAreDigits(k - 1);
    }
  }

  /** What reads as a number: exactly the numerals of those that fit. */
  lemma ParseUintIff(s: string, max: nat, n: nat)
    ensures ParseUint(s, max) == Some(n) <==> n <= max && IsNumeral(s, n)
  {
    if ParseUint(s, max) == Some(n) {
      var digits := if s != [] && s[0] == '+' then s[1..] else s;
      var zeros := ValueIsDecimal(digits);
      assert s == digits || s == "+" + digits;
    }
    if n <= max && IsNumeral(s, n) {
      var zeros: nat :| s == Zeros(zeros) + Decimal(n) || s == "+" + (Zeros(zeros) + Decimal(n));
      var digits := Zeros(zeros) + Decimal(n);
      PaddedValue(zeros, n);
      ZerosAreDigits(zeros);
      assert digits[0] == if zeros > 0 then Zeros(zeros)[0] else Decimal(n)[0];
      assert IsDigit(digits[0]);
      assert ("+" + digits)[1..] == digits;
    }
  }

  lemma DecimalHasOnlyDigits(n: nat, c: char)
    requires !IsDigit(c)
    ensures c !in Decimal(n)
  {
    assert forall i :: 0 <= i < |Decimal(n)| ==> IsDigit(Decimal(n)[i]);
  }
}
