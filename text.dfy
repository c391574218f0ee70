/**
 * The few pieces of java.lang.String behaviour the app relies on, on `seq<char>`:
 * `trim`, `isEmpty`, `startsWith`, `contains`, `indexOf`, ASCII/Cyrillic lower-casing,
 * decimal rendering of an `int` and `Integer.parseInt`.
 */
module Text {
  import opened Wrappers

  /** `String.trim` strips every code unit at or below U+0020 from both ends. */
  predicate IsTrimmable(c: char) { c <= ' ' }

  function TrimStart(s: string): (r: string)
    ensures |r| <= |s| && r == s[|s| - |r|..]
    ensures r == [] || !IsTrimmable(r[0])
    ensures forall i :: 0 <= i < |s| - |r| ==> IsTrimmable(s[i])
  {
    if s == [] || !IsTrimmable(s[0]) then s else TrimStart(s[1..])
  }

  function TrimEnd(s: string): (r: string)
    ensures |r| <= |s| && r == s[..|r|]
    ensures r == [] || !IsTrimmable(r[|r| - 1])
    ensures forall i :: |r| <= i < |s| ==> IsTrimmable(s[i])
  {
    if s == [] || !IsTrimmable(s[|s| - 1]) then s else TrimEnd(s[..|s| - 1])
  }

  /** Starts and ends with a character `trim` keeps. */
  predicate IsTrimmed(s: string)
  {
    s == [] || (!IsTrimmable(s[0]) && !IsTrimmable(s[|s| - 1]))
  }

  /** Java's `s.trim()`. */
  function Trim(s: string): (t: string)
    ensures IsTrimmed(t)
  {
    TrimEnd(TrimStart(s))
  }

  /** `s.trim().isEmpty()`, the "blank" test used all over the app. */
  predicate IsBlank(s: string) { Trim(s) == [] }

  /** Being trimmed is being a fixed point of `trim`. */
  lemma TrimmedIffFixed(s: string)
    ensures IsTrimmed(s) <==> Trim(s) == s
  {
    if IsTrimmed(s) && s != [] {
      assert TrimStart(s) == s;
      assert TrimEnd(s) == s;
    }
  }

  /** Trimming twice is trimming once. */
  lemma TrimIdempotent(s: string)
    ensures Trim(Trim(s)) == Trim(s)
  {
    var t := Trim(s);
    if t != [] {
      assert TrimStart(t) == t;
      assert TrimEnd(t) == t;
    }
  }

  /** Blank means "nothing but characters that trim removes". */
  lemma BlankIffAllTrimmable(s: string)
    ensures IsBlank(s) <==> forall i :: 0 <= i < |s| ==> IsTrimmable(s[i])
  {
    var a := TrimStart(s);
    assert a != [] ==> a[0] == s[|s| - |a|];
  }

  /** A trimmed value is never blank unless it is empty. */
  lemma TrimmedBlankIsEmpty(s: string)
    ensures IsBlank(Trim(s)) <==> Trim(s) == []
  {
    TrimIdempotent(s);
  }

  /** When the first character is visible, `trim` only cuts from the end: the result is a prefix. */
  lemma TrimIsPrefixWhenStartVisible(s: string)
    requires s != [] && !IsTrimmable(s[0])
    ensures StartsWith(s, Trim(s))
  {
    assert TrimStart(s) == s;
  }

  /** Trimming a string that starts with a visible character keeps it up to any later visible character. */
  lemma TrimKeepsPrefix(s: string, k: int)
    requires 0 <= k < |s| && !IsTrimmable(s[0]) && !IsTrimmable(s[k])
    ensures StartsWith(Trim(s), s[..k + 1])
  {
    assert TrimStart(s) == s;
    var r := TrimEnd(s);
    assert k < |r|;
  }

  /** `s == null || s.trim().isEmpty() ? null : s.trim()`, the app's "normalise nullable" idiom. */
  function TrimToNone(s: Option<string>): (r: Option<string>)
    ensures r.None? <==> s.None? || IsBlank(s.value)
    ensures r.Some? ==> r.value == Trim(s.value) && r.value != []
  {
    if s.None? || IsBlank(s.value) then None else Some(Trim(s.value))
  }

  /** Normalising an already normalised value changes nothing. */
  lemma TrimToNoneIdempotent(s: Option<string>)
    ensures TrimToNone(TrimToNone(s)) == TrimToNone(s)
  {
  }

  /** `s != null ? s.trim() : ""`. */
  function TrimOrEmpty(s: Option<string>): string
  {
    if s.None? then [] else Trim(s.value)
  }

  /** The trimmed value when it is non-blank, `fallback` otherwise. */
  function TrimOr(s: Option<string>, fallback: string): (r: string)
    ensures r == fallback || (s.Some? && r == Trim(s.value) && r != [])
    ensures s.Some? && !IsBlank(s.value) ==> r == Trim(s.value)
    ensures fallback != [] && IsTrimmed(fallback) ==> r != [] && IsTrimmed(r)
  {
    match TrimToNone(s)
    case None => fallback
    case Some(t) => t
  }

  predicate StartsWith(s: string, prefix: string)
  {
    |prefix| <= |s| && s[..|prefix|] == prefix
  }

  /** `sub` sits in `s` at offset `k`. */
  predicate OccursAt(s: string, sub: string, k: int)
  {
    0 <= k <= |s| - |sub| && s[k..k + |sub|] == sub
  }

  /** `s.contains(sub)`: `sub` occurs at some offset of `s`. */
  predicate Contains(s: string, sub: string)
    decreases |s|
  {
    StartsWith(s, sub) || (s != [] && Contains(s[1..], sub))
  }

  lemma {:induction false} ContainsIffOccurs(s: string, sub: string)
    ensures Contains(s, sub) <==> exists k :: OccursAt(s, sub, k)
    decreases |s|
  {
    if StartsWith(s, sub) {
      assert OccursAt(s, sub, 0);
    } else if s != [] {
      ContainsIffOccurs(s[1..], sub);
      if Contains(s[1..], sub) {
        var k :| OccursAt(s[1..], sub, k);
        assert OccursAt(s, sub, k + 1);
      }
      if exists k :: OccursAt(s, sub, k) {
        var k :| OccursAt(s, sub, k);
        assert k != 0;
        assert OccursAt(s[1..], sub, k - 1);
      }
    }
  }

  /** Whatever contains `sub + more` contains `sub`. */
  lemma ContainsPrefixOfFound(s: string, sub: string, more: string)
    requires Contains(s, sub + more)
    ensures Contains(s, sub)
  {
    ContainsIffOccurs(s, sub + more);
    var k :| OccursAt(s, sub + more, k);
    assert s[k..k + |sub|] == (sub + more)[..|sub|];
    assert OccursAt(s, sub, k);
    ContainsIffOccurs(s, sub);
  }

  /** A piece that starts and ends with a visible character survives `trim` wherever it sits. */
  lemma TrimKeepsVisibleInfix(s: string, sub: string, k: int)
    requires sub != [] && !IsTrimmable(sub[0]) && !IsTrimmable(sub[|sub| - 1])
    requires OccursAt(s, sub, k)
    ensures Contains(Trim(s), sub)
  {
    var a := TrimStart(s);
    var d := |s| - |a|;
    TrimStartKeeps(s, sub, k);
    TrimEndKeeps(a, sub, k - d);
    ContainsIffOccurs(Trim(s), sub);
  }

  /** Cutting leading blanks keeps a piece that starts with a visible character. */
  lemma TrimStartKeeps(s: string, sub: string, k: int)
    requires sub != [] && !IsTrimmable(sub[0]) && OccursAt(s, sub, k)
    ensures OccursAt(TrimStart(s), sub, k - (|s| - |TrimStart(s)|))
  {
    var a := TrimStart(s);
    var d := |s| - |a|;
    assert s[k] == sub[0];
    assert d <= k;
    assert a[k - d..k - d + |sub|] == s[k..k + |sub|];
  }

  /** Cutting trailing blanks keeps a piece that ends with a visible character. */
  lemma TrimEndKeeps(s: string, sub: string, k: int)
    requires sub != [] && !IsTrimmable(sub[|sub| - 1]) && OccursAt(s, sub, k)
    ensures OccursAt(TrimEnd(s), sub, k)
  {
    var t := TrimEnd(s);
    assert s[k + |sub| - 1] == sub[|sub| - 1];
    assert k + |sub| <= |t|;
    assert t[k..k + |sub|] == s[k..k + |sub|];
  }

  /** Whatever the trimmed string contains, the original contains. */
  lemma ContainsOfTrim(s: string, sub: string)
    requires Contains(Trim(s), sub)
    ensures Contains(s, sub)
  {
    var a := TrimStart(s);
    var t := TrimEnd(a);
    ContainsOfPrefix(a, |t|, sub);
    ContainsOfSuffix(s, |s| - |a|, sub);
  }

  /** Whatever a prefix contains, the whole string contains. */
  lemma ContainsOfPrefix(s: string, n: int, sub: string)
    requires 0 <= n <= |s| && Contains(s[..n], sub)
    ensures Contains(s, sub)
  {
    assert s[..n] == s[0..n];
    ContainsOfSlice(s, 0, n, sub);
  }

  /** Whatever a suffix contains, the whole string contains. */
  lemma ContainsOfSuffix(s: string, n: int, sub: string)
    requires 0 <= n <= |s| && Contains(s[n..], sub)
    ensures Contains(s, sub)
  {
    assert s[n..] == s[n..|s|];
    ContainsOfSlice(s, n, |s|, sub);
  }

  /** Whatever a slice contains, the whole string contains. */
  lemma ContainsOfSlice(s: string, lo: int, hi: int, sub: string)
    requires 0 <= lo <= hi <= |s| && Contains(s[lo..hi], sub)
    ensures Contains(s, sub)
  {
    ContainsIffOccurs(s[lo..hi], sub);
    var k :| OccursAt(s[lo..hi], sub, k);
    OccursInSlice(s, lo, hi, sub, k);
    ContainsIffOccurs(s, sub);
  }

  /** An occurrence inside a slice is an occurrence in the whole string, shifted by the slice's start. */
  lemma OccursInSlice(s: string, lo: int, hi: int, sub: string, k: int)
    requires 0 <= lo <= hi <= |s| && OccursAt(s[lo..hi], sub, k)
    ensures OccursAt(s, sub, lo + k)
  {
    var piece := s[lo..hi];
    forall i | 0 <= i < |sub|
      ensures s[lo + k + i] == sub[i]
    {
      assert piece[k..k + |sub|][i] == piece[k + i];
    }
    assert s[lo + k..lo + k + |sub|] == sub;
  }

  /** An occurrence in a join lies in the first half, in the second, or across the seam. */
  lemma OccursInJoin(a: string, b: string, sub: string, k: int)
    requires sub != [] && OccursAt(a + b, sub, k)
    ensures k + |sub| <= |a| ==> OccursAt(a, sub, k)
    ensures k >= |a| ==> OccursAt(b, sub, k - |a|)
    ensures k < |a| ==> a[k] == sub[0]
    ensures k < |a| < k + |sub| ==> b[0] == sub[|a| - k]
  {
    var ab := a + b;
    if k < |a| {
      assert ab[k..k + |sub|][0] == a[k];
    }
    if k + |sub| <= |a| {
      assert ab[k..k + |sub|] == a[k..k + |sub|];
    } else if k >= |a| {
      assert ab[k..k + |sub|] == b[k - |a|..k - |a| + |sub|];
    } else {
      assert ab[k..k + |sub|][0] == a[k];
      assert ab[k..k + |sub|][|a| - k] == b[0];
    }
  }

  /** A piece found in neither half is not in the join when the first half lacks its first character. */
  lemma NotContainsAfter(a: string, b: string, sub: string)
    requires sub != [] && !Contains(b, sub)
    requires forall i :: 0 <= i < |a| ==> a[i] != sub[0]
    ensures !Contains(a + b, sub)
  {
    ContainsIffOccurs(b, sub);
    forall k | 0 <= k <= |a + b| - |sub|
      ensures !OccursAt(a + b, sub, k)
    {
      if OccursAt(a + b, sub, k) {
        OccursInJoin(a, b, sub, k);
      }
    }
    ContainsIffOccurs(a + b, sub);
  }

  /** A piece found in neither half is not in the join when the second half starts with a character it lacks. */
  lemma NotContainsJoin(a: string, b: string, sub: string)
    requires sub != [] && !Contains(a, sub) && !Contains(b, sub)
    requires b != [] && forall j :: 0 <= j < |sub| ==> sub[j] != b[0]
    ensures !Contains(a + b, sub)
  {
    ContainsIffOccurs(a, sub);
    ContainsIffOccurs(b, sub);
    forall k | 0 <= k <= |a + b| - |sub|
      ensures !OccursAt(a + b, sub, k)
    {
      if OccursAt(a + b, sub, k) {
        OccursInJoin(a, b, sub, k);
      }
    }
    ContainsIffOccurs(a + b, sub);
  }

  /** `a.compareTo(b) <= 0`: the first differing code unit decides, else the shorter string comes first. */
  predicate LexLe(a: string, b: string)
    decreases |a|
  {
    a == [] || (b != [] && (a[0] < b[0] || (a[0] == b[0] && LexLe(a[1..], b[1..]))))
  }

  lemma {:induction false} LexLeTotal(a: string, b: string)
    ensures LexLe(a, b) || LexLe(b, a)
    decreases |a|
  {
    if a != [] && b != [] && a[0] == b[0] {
      LexLeTotal(a[1..], b[1..]);
    }
  }

  lemma {:induction false} LexLeTransitive(a: string, b: string, c: string)
    requires LexLe(a, b) && LexLe(b, c)
    ensures LexLe(a, c)
    decreases |a|
  {
    if a != [] && a[0] == b[0] && b[0] == c[0] {
      LexLeTransitive(a[1..], b[1..], c[1..]);
    }
  }

  /** `s.indexOf(c)`: the first position holding `c`, or -1. */
  function IndexOf(s: string, c: char): (r: int)
    ensures -1 <= r < |s|
    ensures r >= 0 ==> s[r] == c && forall i :: 0 <= i < r ==> s[i] != c
    ensures r == -1 ==> forall i :: 0 <= i < |s| ==> s[i] != c
  {
    if s == [] then -1
    else if s[0] == c then 0
    else var j := IndexOf(s[1..], c); if j == -1 then -1 else j + 1
  }

  /**
   * `Character.toLowerCase` on the Latin and Cyrillic letters the app compares:
   * A-Z, А-Я and Ё. Every other character is left as it is.
   */
  function LowerChar(c: char): char
  {
    if 'A' <= c <= 'Z' then (c as int + 32) as char
    else if 'А' <= c <= 'Я' then (c as int + 32) as char
    else if c == 'Ё' then 'ё'
    else c
  }

  function ToLower(s: string): (r: string)
    ensures |r| == |s|
    ensures forall i :: 0 <= i < |s| ==> r[i] == LowerChar(s[i])
  {
    if s == [] then [] else [LowerChar(s[0])] + ToLower(s[1..])
  }

  lemma LowerCharIdempotent(c: char)
    ensures LowerChar(LowerChar(c)) == LowerChar(c)
  {
  }

  lemma ToLowerIdempotent(s: string)
    ensures ToLower(ToLower(s)) == ToLower(s)
  {
    forall i | 0 <= i < |s| ensures ToLower(ToLower(s))[i] == ToLower(s)[i] {
      LowerCharIdempotent(s[i]);
    }
  }

  predicate IsLowerAscii(s: string)
  {
    forall i :: 0 <= i < |s| ==> 'a' <= s[i] <= 'z'
  }

  /** A word of lowercase Latin letters is its own lowercase form. */
  lemma LowerAsciiFixed(s: string)
    requires IsLowerAscii(s)
    ensures ToLower(s) == s
  {
    assert forall i :: 0 <= i < |s| ==> ToLower(s)[i] == s[i];
  }

  lemma ToLowerAppend(a: string, b: string)
    ensures ToLower(a + b) == ToLower(a) + ToLower(b)
  {
  }

  /** Lowering both sides keeps an occurrence: a verbatim match is a case-insensitive one. */
  lemma ContainsToLower(s: string, sub: string)
    requires Contains(s, sub)
    ensures Contains(ToLower(s), ToLower(sub))
  {
    ContainsIffOccurs(s, sub);
    var k :| OccursAt(s, sub, k);
    assert ToLower(s)[k..k + |sub|] == ToLower(sub);
    assert OccursAt(ToLower(s), ToLower(sub), k);
    ContainsIffOccurs(ToLower(s), ToLower(sub));
  }

  /** Lower-casing never turns a visible character into one `trim` strips, nor the reverse. */
  lemma LowerCharKeepsTrimmable(c: char)
    ensures IsTrimmable(LowerChar(c)) <==> IsTrimmable(c)
  {
  }

  lemma {:induction false} TrimStartToLower(s: string)
    ensures TrimStart(ToLower(s)) == ToLower(TrimStart(s))
    decreases |s|
  {
    if s != [] {
      LowerCharKeepsTrimmable(s[0]);
      if IsTrimmable(s[0]) {
        assert ToLower(s)[1..] == ToLower(s[1..]);
        TrimStartToLower(s[1..]);
      }
    }
  }

  lemma {:induction false} TrimEndToLower(s: string)
    ensures TrimEnd(ToLower(s)) == ToLower(TrimEnd(s))
    decreases |s|
  {
    if s != [] {
      LowerCharKeepsTrimmable(s[|s| - 1]);
      if IsTrimmable(s[|s| - 1]) {
        assert ToLower(s)[..|s| - 1] == ToLower(s[..|s| - 1]);
        TrimEndToLower(s[..|s| - 1]);
      }
    }
  }

  /** Trimming and lower-casing commute. */
  lemma TrimToLower(s: string)
    ensures Trim(ToLower(s)) == ToLower(Trim(s))
  {
    TrimStartToLower(s);
    TrimEndToLower(TrimStart(s));
  }

  /** `a.equalsIgnoreCase(b)` for the letters `LowerChar` knows. */
  predicate EqualsIgnoreCase(a: string, b: string)
  {
    ToLower(a) == ToLower(b)
  }

  /** `Character.isDigit` on ASCII digits. */
  predicate IsDigit(c: char) { '0' <= c <= '9' }

  predicate AllDigits(s: string)
  {
    forall i :: 0 <= i < |s| ==> IsDigit(s[i])
  }

  // ---------------------------------------------------------------------------
  // Decimal rendering and parsing of int values.

  function DigitChar(d: nat): (c: char)
    requires d < 10
    ensures IsDigit(c)
  {
    ('0' as int + d) as char
  }

  function DigitValue(c: char): (d: nat)
    requires IsDigit(c)
    ensures d < 10 && DigitChar(d) == c
  {
    (c as int - '0' as int) as nat
  }

  /** The decimal digits of `n`, without sign or leading zeros. */
  function NatToString(n: nat): (s: string)
    ensures |s| > 0 && AllDigits(s)
    ensures |s| > 1 ==> s[0] != '0'
  {
    if n < 10 then [DigitChar(n)] else NatToString(n / 10) + [DigitChar(n % 10)]
  }

  /** `String.valueOf(int)` / string concatenation of an int. */
  function IntToString(i: int): (s: string)
    ensures |s| > 0
  {
    if i < 0 then "-" + NatToString(-i) else NatToString(i)
  }

  /** The value of a string of decimal digits. */
  function DigitsValue(s: string): (n: nat)
    requires AllDigits(s)
  {
    if s == [] then 0 else DigitsValue(s[..|s| - 1]) * 10 + DigitValue(s[|s| - 1])
  }

  lemma {:induction false} DigitsValueOfNatToString(n: nat)
    ensures DigitsValue(NatToString(n)) == n
  {
    if n >= 10 {
      var s := NatToString(n);
      DigitsValueOfNatToString(n / 10);
      assert s[..|s| - 1] == NatToString(n / 10);
    }
  }

  const IntMin: int := -0x8000_0000
  const IntMax: int := 0x7FFF_FFFF

  /**
   * `Integer.parseInt(s)`: an optional '+' or '-' then at least one digit, and the
   * value must fit in 32 bits; anything else is a NumberFormatException (None).
   */
  function ParseInt(s: string): (r: Option<int>)
    ensures r.Some? ==> IntMin <= r.value <= IntMax
  {
    if s == [] then None
    else
      var neg := s[0] == '-';
      var body := if s[0] == '-' || s[0] == '+' then s[1..] else s;
      if body == [] || !AllDigits(body) then None
      else
        var v: int := if neg then -(DigitsValue(body) as int) else DigitsValue(body);
        if IntMin <= v <= IntMax then Some(v) else None
  }

  /** Rendering a 32-bit int and parsing it back gives the same int. */
  lemma ParseIntOfIntToString(i: int)
    requires IntMin <= i <= IntMax
    ensures ParseInt(IntToString(i)) == Some(i)
  {
    if i < 0 {
      ParseNegative(-i);
    } else {
      var digits := NatToString(i);
      assert IntToString(i) == digits && IsDigit(digits[0]);
      DigitsValueOfNatToString(i);
    }
  }

  /** "-" followed by the digits of `n` parses as -n when that fits in 32 bits. */
  lemma ParseNegative(n: nat)
    requires 0 < n <= -IntMin
    ensures ParseInt("-" + NatToString(n)) == Some(-(n as int))
  {
    var digits := NatToString(n);
    var s := "-" + digits;
    assert s[0] == '-' && s[1..] == digits;
    DigitsValueOfNatToString(n);
  }

  /** A string with a non-digit past its sign position is a NumberFormatException. */
  lemma ParseIntRejectsNonDigits(s: string)
    requires s != [] && !AllDigits(s) && s[0] != '-' && s[0] != '+'
    ensures ParseInt(s) == None
  {
  }
}
