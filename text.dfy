/**
 * The string operations of the Rust standard library that the templating
 * engine relies on: substring search (`str::find`, `str::contains`),
 * non-overlapping match counting (`str::matches(..).count()` and
 * `Regex::find_iter(..).count()` for a literal pattern), `str::split` on a
 * literal separator, decimal formatting (`format!("{}", n)`) and decimal
 * parsing (`str::parse::<usize>()`, `str::parse::<i32>()`).
 * Strings are sequences of Unicode scalar values; the Rust code indexes
 * bytes, which agrees with character positions for the ASCII markers used.
 */
module Text {
  import opened Wrappers

  /** `p` occurs in `s` at position `i`. */
  predicate OccursAt(s: string, p: string, i: nat)
  {
    i + |p| <= |s| && s[i..i + |p|] == p
  }

  /** The first occurrence of `p` in `s` at or after position `from`. */
  function FindFrom(s: string, p: string, from: nat): (r: Option<nat>)
    requires from <= |s|
    ensures r.Some? ==> from <= r.value <= |s| && OccursAt(s, p, r.value)
    ensures r.Some? ==> forall j :: from <= j < r.value ==> !OccursAt(s, p, j)
    ensures r.None? ==> forall j :: from <= j <= |s| ==> !OccursAt(s, p, j)
    decreases |s| - from
  {
    if OccursAt(s, p, from) then Some(from)
    else if from + |p| >= |s| then
      assert forall j :: from < j <= |s| ==> !OccursAt(s, p, j);
      None
    else FindFrom(s, p, from + 1)
  }

  /** `s.find(p)`: the position of the first occurrence of `p` in `s`. */
  function Find(s: string, p: string): (r: Option<nat>)
    ensures r.Some? ==> OccursAt(s, p, r.value) && forall j :: 0 <= j < r.value ==> !OccursAt(s, p, j)
    ensures r.None? ==> forall j :: 0 <= j <= |s| ==> !OccursAt(s, p, j)
  {
    FindFrom(s, p, 0)
  }

  /** `s.contains(p)` */
  predicate Contains(s: string, p: string)
  {
    Find(s, p).Some?
  }

  lemma ContainsAt(s: string, p: string, i: nat)
    requires OccursAt(s, p, i)
    ensures Contains(s, p)
  {
  }

  /** An occurrence inside a slice is an occurrence in the whole string. */
  lemma ContainsSlice(s: string, p: string, lo: nat, hi: nat)
    requires lo <= hi <= |s| && Contains(s[lo..hi], p)
    ensures Contains(s, p)
  {
    var t := s[lo..hi];
    var i := Find(t, p).value;
    assert OccursAt(t, p, i);
    var a, b := t[i..i + |p|], s[lo + i..lo + i + |p|];
    assert |a| == |b| && forall k :: 0 <= k < |a| ==> a[k] == b[k];
    assert a == b;
    ContainsAt(s, p, lo + i);
  }

  /** A string holding `p + q` holds `p`. */
  lemma ContainsInitial(s: string, p: string, q: string)
    requires Contains(s, p + q)
    ensures Contains(s, p)
  {
    var i := Find(s, p + q).value;
    assert s[i..i + |p|] == (p + q)[..|p|] == p;
    ContainsAt(s, p, i);
  }

  lemma ContainsPrefix(a: string, b: string, p: string)
    requires Contains(a, p)
    ensures Contains(a + b, p)
  {
    assert (a + b)[..|a|] == a;
    ContainsSlice(a + b, p, 0, |a|);
  }

  lemma ContainsSuffix(a: string, b: string, p: string)
    requires Contains(b, p)
    ensures Contains(a + b, p)
  {
    assert (a + b)[|a|..|a + b|] == b;
    ContainsSlice(a + b, p, |a|, |a + b|);
  }

  /** The number of non-overlapping occurrences of `p`, searched left to right. */
  function Count(s: string, p: string): (r: nat)
    requires |p| > 0
    decreases |s|
  {
    match Find(s, p)
    case None => 0
    case Some(i) => 1 + Count(s[i + |p|..], p)
  }

  lemma {:induction false} CountBound(s: string, p: string)
    requires |p| > 0
    ensures Count(s, p) <= |s|
    decreases |s|
  {
    var f := Find(s, p);
    if f.Some? {
      var rest := s[f.value + |p|..];
      CountBound(rest, p);
      assert Count(s, p) == 1 + Count(rest, p);
    }
  }

  lemma CountZeroIff(s: string, p: string)
    requires |p| > 0
    ensures Count(s, p) == 0 <==> !Contains(s, p)
  {
  }

  /** `s.split(sep)`: the pieces between the non-overlapping occurrences of `sep`. */
  function Split(s: string, sep: string): (r: seq<string>)
    requires |sep| > 0
    ensures |r| >= 1
    decreases |s|
  {
    match Find(s, sep)
    case None => [s]
    case Some(i) => [s[..i]] + Split(s[i + |sep|..], sep)
  }

  /** `pieces.join(sep)`. */
  function Join(pieces: seq<string>, sep: string): string
    decreases |pieces|
  {
    if pieces == [] then ""
    else if |pieces| == 1 then pieces[0]
    else pieces[0] + sep + Join(pieces[1..], sep)
  }

  lemma JoinCons(a: string, tail: seq<string>, sep: string)
    requires |tail| >= 1
    ensures Join([a] + tail, sep) == a + sep + Join(tail, sep)
  {
    assert ([a] + tail)[1..] == tail;
  }

  /** Joining the pieces of a split with the same separator gives back the input. */
  lemma {:induction false} JoinSplit(s: string, sep: string)
    requires |sep| > 0
    ensures Join(Split(s, sep), sep) == s
    decreases |s|
  {
    var f := Find(s, sep);
    if f.Some? {
      var i := f.value;
      var rest := s[i + |sep|..];
      JoinSplit(rest, sep);
      JoinCons(s[..i], Split(rest, sep), sep);
      Around(s, sep, i);
    }
  }

  lemma Around(s: string, p: string, i: nat)
    requires OccursAt(s, p, i)
    ensures s == s[..i] + p + s[i + |p|..]
  {
    assert s == s[..i] + s[i..i + |p|] + s[i + |p|..];
  }

  /** No piece of a split contains the separator. */
  lemma {:induction false} SplitPiecesFree(s: string, sep: string)
    requires |sep| > 0
    ensures forall k :: 0 <= k < |Split(s, sep)| ==> !Contains(Split(s, sep)[k], sep)
    decreases |s|
  {
    match Find(s, sep)
    case None =>
    case Some(i) =>
      var rest := s[i + |sep|..];
      SplitPiecesFree(rest, sep);
      if Contains(s[..i], sep) {
        var j := Find(s[..i], sep).value;
        assert s[..i][j..j + |sep|] == s[j..j + |sep|];
        assert OccursAt(s, sep, j);
        assert false;
      }
      forall k | 0 <= k < |Split(s, sep)|
        ensures !Contains(Split(s, sep)[k], sep)
      {
        if k > 0 {
          assert Split(s, sep)[k] == Split(rest, sep)[k - 1];
        }
      }
  }

  /** A string with no occurrence of the separator splits into itself alone. */
  lemma SplitWithout(s: string, sep: string)
    requires |sep| > 0 && !Contains(s, sep)
    ensures Split(s, sep) == [s]
  {
  }

  // ---------------------------------------------------------------------
  // Decimal formatting and parsing

  predicate IsDigit(c: char)
  {
    '0' <= c <= '9'
  }

  function DigitChar(d: nat): (c: char)
    requires d < 10
    ensures IsDigit(c) && (c as int) - ('0' as int) == d
  {
    (('0' as int) + d) as char
  }

  /** `format!("{}", n)` for an unsigned integer. */
  function NatToString(n: nat): (r: string)
    ensures |r| >= 1 && forall k :: 0 <= k < |r| ==> IsDigit(r[k])
    ensures |r| > 1 ==> r[0] != '0'
    decreases n
  {
    if n < 10 then [DigitChar(n)] else NatToString(n / 10) + [DigitChar(n % 10)]
  }

  /** `format!("{}", i)` for a signed integer. */
  function IntToString(i: int): (r: string)
    ensures |r| >= 1
    ensures (i < 0) <==> r[0] == '-'
  {
    if i < 0 then "-" + NatToString(-i) else NatToString(i)
  }

  predicate AllDigits(s: string)
  {
    forall k :: 0 <= k < |s| ==> IsDigit(s[k])
  }

  /** The value of a string of decimal digits. */
  function DigitsValue(s: string): nat
    requires AllDigits(s)
    decreases |s|
  {
    if s == [] then 0
    else DigitsValue(s[..|s| - 1]) * 10 + ((s[|s| - 1] as int) - ('0' as int))
  }

  /** Reading back a formatted number gives the number. */
  lemma {:induction false} DigitsValueOfNatToString(n: nat)
    ensures AllDigits(NatToString(n)) && DigitsValue(NatToString(n)) == n
    decreases n
  {
    if n >= 10 {
      DigitsValueOfNatToString(n / 10);
      var s := NatToString(n);
      assert s[..|s| - 1] == NatToString(n / 10);
    }
  }

  /** `s.parse::<u…>()`: an optional `+`, then one or more digits, at most `max`. */
  function ParseUnsigned(s: string, max: nat): (r: Option<nat>)
    ensures r.Some? ==> r.value <= max
  {
    var digits := if |s| > 0 && s[0] == '+' then s[1..] else s;
    if |digits| == 0 || !AllDigits(digits) then None
    else if DigitsValue(digits) > max then None
    else Some(DigitsValue(digits))
  }

  /** `s.parse::<i…>()`: an optional sign, then one or more digits, within `[min, max]`. */
  function ParseSigned(s: string, min: int, max: int): (r: Option<int>)
    ensures r.Some? ==> min <= r.value <= max
  {
    var negative := |s| > 0 && s[0] == '-';
    var digits := if |s| > 0 && (s[0] == '+' || s[0] == '-') then s[1..] else s;
    if |digits| == 0 || !AllDigits(digits) then None
    else
      var v: int := if negative then -(DigitsValue(digits) as int) else DigitsValue(digits);
      if v < min || v > max then None else Some(v)
  }

  /** Formatting then parsing an unsigned number is the identity. */
  lemma ParseUnsignedOfNatToString(n: nat, max: nat)
    requires n <= max
    ensures ParseUnsigned(NatToString(n), max) == Some(n)
  {
    DigitsValueOfNatToString(n);
  }

  const U32_MAX: nat := 0xFFFF_FFFF
  const USIZE_MAX: nat := 0xFFFF_FFFF_FFFF_FFFF
  const I32_MIN: int := -0x8000_0000
  const I32_MAX: int := 0x7FFF_FFFF

  /** `/` on Rust integers: truncates toward zero. */
  function TruncDiv(a: int, b: int): (q: int)
    requires b != 0
    ensures (a >= 0 && b > 0) ==> q == a / b
  {
    if (a >= 0) == (b > 0) then
      (if a >= 0 then a / b else (-a) / (-b))
    else -((if a >= 0 then a else -a) / (if b >= 0 then b else -b))
  }
}
