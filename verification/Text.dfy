/** The string functions the program takes from its standard library. */
module Text {
  import opened Options

  // ------------------------------------------------------------- whitespace

  /** The Unicode White_Space property. */
  predicate IsSpace(c: char) {
    || '\U{0009}' <= c <= '\U{000D}' || c == ' ' || c == '\U{0085}' || c == '\U{00A0}' || c == '\U{1680}'
    || '\U{2000}' <= c <= '\U{200A}' || c == '\U{2028}' || c == '\U{2029}' || c == '\U{202F}' || c == '\U{205F}'
    || c == '\U{3000}'
  }

  function TrimStart(s: string): string {
    if s != [] && IsSpace(s[0]) then TrimStart(s[1..]) else s
  }

  function TrimEnd(s: string): string {
    if s != [] && IsSpace(s[|s| - 1]) then TrimEnd(s[..|s| - 1]) else s
  }

  function Trim(s: string): string {
    TrimEnd(TrimStart(s))
  }

  lemma {:induction false} NothingToTrim(s: string)
    requires s != [] && !IsSpace(s[0]) && !IsSpace(s[|s| - 1])
    ensures Trim(s) == s
  {
  }

  // -------------------------------------------------------------- splitting

  /** The first position of this character, or the length. */
  function IndexOf(s: string, c: char): (i: nat)
    ensures i <= |s| && (i < |s| ==> s[i] == c) && forall k :: 0 <= k < i ==> s[k] != c
  {
    if s == [] || s[0] == c then 0 else 1 + IndexOf(s[1..], c)
  }

  function SplitOnce(s: string, c: char): Option<(string, string)> {
    var i := IndexOf(s, c);
    if i == |s| then None else Some((s[..i], s[i + 1..]))
  }

  /** Where the first of these characters stands, or the length. */
  function IndexOfAny(s: string, cs: string): (i: nat)
    ensures i <= |s| && (i < |s| ==> s[i] in cs) && forall k :: 0 <= k < i ==> s[k] !in cs
  {
    if s == [] || s[0] in cs then 0 else 1 + IndexOfAny(s[1..], cs)
  }

  /** The parts between these characters; there is always at least one. */
  function SplitAny(s: string, cs: string): (parts: seq<string>)
    ensures |parts| >= 1
    decreases |s|
  {
    var i := IndexOfAny(s, cs);
    if i == |s| then [s] else [s[..i]] + SplitAny(s[i + 1..], cs)
  }

  function Join(parts: seq<string>, sep: string): string {
    if parts == [] then "" else if |parts| == 1 then parts[0] else parts[0] + sep + Join(parts[1..], sep)
  }

  /** Splitting at a separator that no part contains undoes the joining. */
  lemma {:induction false} SplitJoin(parts: seq<string>, c: char, cs: string)
    requires |parts| >= 1 && c in cs
    requires forall p, k :: p in parts && 0 <= k < |p| ==> p[k] !in cs
    ensures SplitAny(Join(parts, [c]), cs) == parts
  {
    var s := Join(parts, [c]);
    var p := parts[0];
    var i := IndexOfAny(s, cs);
    assert p in parts;
    if |parts| == 1 {
      assert parts == [p];
    } else {
      var rest := Join(parts[1..], [c]);
      assert s == p + [c] + rest && s[|p|] == c;
      assert forall k :: 0 <= k < |p| ==> s[k] == p[k];
      assert i == |p|;
      assert s[..i] == p && s[i + 1..] == rest;
      assert forall q :: q in parts[1..] ==> q in parts;
      SplitJoin(parts[1..], c, cs);
      assert parts == [p] + parts[1..];
    }
  }

  // ---------------------------------------------------------------- numbers

  const DIGITS := "0123456789"
  const I32_MAX := 0x7FFF_FFFF
  const I32_MIN := -0x8000_0000

  predicate IsDigit(c: char) {
    '0' <= c <= '9'
  }

  predicate Digits(s: string) {
    s != [] && forall k :: 0 <= k < |s| ==> IsDigit(s[k])
  }

  function Decimal(n: nat): (s: string)
    ensures s != [] && forall k :: 0 <= k < |s| ==> IsDigit(s[k])
  {
    (if n < 10 then [] else Decimal(n / 10)) + [DIGITS[n % 10]]
  }

  function Value(digits: string): nat
    requires forall k :: 0 <= k < |digits| ==> IsDigit(digits[k])
  {
    if digits == [] then 0
    else
      var last := digits[|digits| - 1];
      assert IsDigit(last);
      10 * Value(digits[..|digits| - 1]) + (last as int - '0' as int)
  }

  lemma {:induction false} ValueOfDecimal(n: nat)
    ensures Value(Decimal(n)) == n
  {
    var s := Decimal(n);
    assert s[..|s| - 1] == if n < 10 then [] else Decimal(n / 10);
    assert DIGITS[n % 10] as int - '0' as int == n % 10;
    if n >= 10 {
      ValueOfDecimal(n / 10);
    }
  }

  lemma {:induction false} DecimalIsInjective(m: nat, n: nat)
    requires Decimal(m) == Decimal(n)
    ensures m == n
  {
    ValueOfDecimal(m);
    ValueOfDecimal(n);
  }

  function ParseI32(s: string): Option<int> {
    var digits := if s != [] && (s[0] == '+' || s[0] == '-') then s[1..] else s;
    if !Digits(digits) then None
    else
      var v: int := if s[0] == '-' then 0 - Value(digits) else Value(digits);
      if I32_MIN <= v <= I32_MAX then Some(v) else None
  }

  lemma {:induction false} ParseDecimal(n: nat)
    requires n <= I32_MAX
    ensures ParseI32(Decimal(n)) == Some(n)
  {
    ValueOfDecimal(n);
    assert IsDigit(Decimal(n)[0]);
  }

  // ------------------------------------------------------------ what they mean

  const WHITE_SPACE: string := [
    '\U{0009}', '\U{000A}', '\U{000B}', '\U{000C}', '\U{000D}', '\U{0020}', '\U{0085}', '\U{00A0}', '\U{1680}',
    '\U{2000}', '\U{2001}', '\U{2002}', '\U{2003}', '\U{2004}', '\U{2005}', '\U{2006}', '\U{2007}', '\U{2008}',
    '\U{2009}', '\U{200A}', '\U{2028}', '\U{2029}', '\U{202F}', '\U{205F}', '\U{3000}']

  /** White space is these 25 characters. */
  lemma {:induction false} WhiteSpaceIs(c: char)
    ensures IsSpace(c) <==> c in WHITE_SPACE
  {
    var all := WHITE_SPACE;
    assert |all| == 25;
    if '\U{0009}' <= c <= '\U{000D}' {
      assert all[c as int - 9] == c;
    } else if '\U{2000}' <= c <= '\U{200A}' {
      assert all[c as int - 0x2000 + 9] == c;
    } else if IsSpace(c) {
      assert all[5] == ' ' && all[6] == '\U{0085}' && all[7] == '\U{00A0}' && all[8] == '\U{1680}';
      assert all[20] == '\U{2028}' && all[21] == '\U{2029}' && all[22] == '\U{202F}' && all[23] == '\U{205F}';
      assert all[24] == '\U{3000}';
    }
  }

  /** Trimming takes the white space off both ends and nothing else. */
  lemma {:induction false} TrimMeans(s: string) returns (before: string, behind: string)
    ensures s == before + Trim(s) + behind
    ensures (forall k :: 0 <= k < |before| ==> IsSpace(before[k]))
            && forall k :: 0 <= k < |behind| ==> IsSpace(behind[k])
    ensures Trim(s) != [] ==> !IsSpace(Trim(s)[0]) && !IsSpace(Trim(s)[|Trim(s)| - 1])
  {
    before := StartMeans(s);
    behind := EndMeans(TrimStart(s));
    var t := TrimStart(s);
    hide IsSpace; hide TrimStart; hide TrimEnd;
    assert t == TrimEnd(t) + behind;
    assert s == before + (Trim(s) + behind);
    assert Trim(s) != [] ==> t[0] == Trim(s)[0];
  }

  lemma {:induction false} StartMeans(s: string) returns (before: string)
    ensures s == before + TrimStart(s) && forall k :: 0 <= k < |before| ==> IsSpace(before[k])
    ensures TrimStart(s) != [] ==> !IsSpace(TrimStart(s)[0])
  {
    hide IsSpace;
    if s != [] && IsSpace(s[0]) {
      before := StartMeans(s[1..]);
      before := [s[0]] + before;
    } else {
      before := [];
    }
  }

  lemma {:induction false} EndMeans(s: string) returns (behind: string)
    ensures s == TrimEnd(s) + behind && forall k :: 0 <= k < |behind| ==> IsSpace(behind[k])
    ensures TrimEnd(s) != [] ==> !IsSpace(TrimEnd(s)[|TrimEnd(s)| - 1])
    decreases |s|
  {
    hide IsSpace;
    if s != [] && IsSpace(s[|s| - 1]) {
      behind := EndMeans(s[..|s| - 1]);
      behind := behind + [s[|s| - 1]];
    } else {
      behind := [];
    }
  }

  /** Reading a number: digits with at most one sign before them, if they fit into 32 bits. */
  lemma {:induction false} ParseI32Means(digits: string)
    requires Digits(digits)
    ensures var v: int := Value(digits);
            && ParseI32(digits) == (if v <= 0x7FFF_FFFF then Some(v) else None)
            && ParseI32("+" + digits) == (if v <= 0x7FFF_FFFF then Some(v) else None)
            && ParseI32("-" + digits) == (if v <= 0x8000_0000 then Some(-v) else None)
  {
    assert ("+" + digits)[1..] == digits && ("-" + digits)[1..] == digits;
    assert IsDigit(digits[0]);
    hide Value; hide IsDigit;
  }

  /** Anything else is no number. */
  lemma {:induction false} NoNumber(s: string)
    requires !Digits(s) && (s == "" || (s[0] != '+' && s[0] != '-') || !Digits(s[1..]))
    ensures ParseI32(s) == None
  {
    hide Value; hide Digits;
  }

  /** A digit more is ten times as much and the digit. */
  lemma {:induction false} ValueMeans(digits: string, last: nat)
    requires Digits(digits) && last <= 9
    ensures Value([]) == 0 && Digits(digits + Decimal(last))
            && Value(digits + Decimal(last)) == 10 * Value(digits) + last
  {
    ValueOfDecimal(last);
    var d := Decimal(last);
    assert d == [DIGITS[last]];
    assert (digits + d)[..|digits|] == digits;
    assert DIGITS[last] as int - '0' as int == last;
  }
}
