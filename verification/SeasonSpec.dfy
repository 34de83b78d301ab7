/** What a request for seasons asks for, in the words of the request, and which texts of a
    season spec mean which seasons. */
module SeasonSpec {
  import opened Options
  import opened Text
  import opened Season

  // -------------------------------------------------------------- the requests

  lemma {:induction false} ListedIsCovered(r: Request, n: int)
    ensures n in ParseSeason(r).seasons <==> Covers(Requested(r), n)
  {
    ResponseListsCoverage(r, n);
  }

  /** A list, without a spec: its members from 1 to 99, or season 1 if there are none. */
  lemma {:induction false} ListRequested(r: Request, n: int)
    requires Trim(r.spec) == [] && r.list.Some? && r.list.value != []
    ensures n in ParseSeason(r).seasons <==>
            if exists x :: x in r.list.value && 1 <= x <= 99 then n in r.list.value && 1 <= n <= 99 else n == 1
  {
    ListedIsCovered(r, n);
    NormalizeListCovers(r.list.value, n);
    hide Trim; hide NormalizeList; hide ParseSeason; hide Covers;
    if x :| x in r.list.value && 1 <= x <= 99 {
      assert InRange(x);
    }
    if x :| x in r.list.value && InRange(x) {
      assert 1 <= x <= 99;
    }
  }

  /** Neither spec nor list: from the start, which is 1 unless given, to the end if that is
      later, both brought into 1 to 99. */
  lemma {:induction false} BoundsRequested(r: Request, n: int)
    requires Trim(r.spec) == [] && (r.list.None? || r.list.value == [])
    ensures var first := if r.season.None? || r.season.value < 1 then 1 else if r.season.value > 99 then 99
            else r.season.value;
            var end := if r.end.None? then first else if r.end.value < 1 then 1 else if r.end.value > 99 then 99
              else r.end.value;
            n in ParseSeason(r).seasons <==> first <= n <= if first < end then end else first
  {
    ListedIsCovered(r, n);
    hide Trim; hide ParseSeason;
  }

  /** A spec: the seasons it parses to, whatever else the request says. */
  lemma {:induction false} SpecRequested(r: Request, n: int)
    requires Trim(r.spec) != []
    ensures n in ParseSeason(r).seasons <==> n in SeasonsOf(r.spec)
  {
    var list := SeasonsOf(r.spec);
    ListedIsCovered(r, n);
    ParsedIsClean(r.spec);
    NormalizeListCovers(list, n);
    assert list[0] in list;
    hide Trim; hide NormalizeList; hide ParseSeason; hide Covers; hide SeasonsOf;
  }

  /** The other parts of the answer, said of the seasons: the first, the last if there are
      several, the whole list if they have a gap, and whether there are several. */
  lemma {:induction false} AnswerMeans(r: Request)
    ensures var a := ParseSeason(r); var seasons, last := a.seasons, |a.seasons| - 1;
            && Ascending(seasons) && seasons != []
            && (a.multiSeason <==> |seasons| > 1)
            && a.selection.season == seasons[0]
            && a.selection.end == (if |seasons| > 1 then Some(seasons[last]) else None)
            && a.selection.list == if |seasons| == seasons[last] - seasons[0] + 1 then None else Some(seasons)
  {
    var s, seasons := Requested(r), ParseSeason(r).seasons;
    RequestedIsNormal(r);
    ResponseListsCoverage(r, 0);
    CoversIsMembership(s, 0);
    if s.list.Some? {
      hide Requested;
      GapMeans(s.list.value);
    } else {
      assert seasons == Span(s.season, s.end.GetOr(s.season));
      hide Requested;
    }
  }

  lemma {:induction false} KeptNormalizes(list: seq<int>)
    requires SortDedup(KeepInRange(list)) == list && list != []
    ensures var first, last := list[0], list[|list| - 1];
            NormalizeList(list)
            == if |list| == last - first + 1 then Selection(first, if last > first then Some(last) else None, None)
               else Selection(first, Some(last), Some(list))
  {
    hide SortDedup; hide KeepInRange;
  }

  /** A list in normal form has a gap, and its ends are those of the selection. */
  lemma {:induction false} GapMeans(list: seq<int>)
    requires list != [] && Ascending(list) && NormalizeList(list).list == Some(list)
    requires forall n :: n in list ==> InRange(n)
    ensures var last := |list| - 1;
            && |list| > 1 && |list| != list[last] - list[0] + 1
            && NormalizeList(list).season == list[0] && NormalizeList(list).end == Some(list[last])
  {
    AllInRangeKept(list);
    SortedStays(list);
    hide SortDedup; hide KeepInRange; hide Ascending;
    KeptNormalizes(list);
    hide NormalizeList;
  }

  // ------------------------------------------------- stored subscriptions

  /** What a stored selection covers: the members of its list, or else from its start, at
      least 1, to its end if that is later. */
  lemma {:induction false} StoredCovers(s: Selection, n: int)
    ensures Covers(s, n) <==>
            if s.list.Some? && s.list.value != [] then n in s.list.value
            else
              var first := if s.season < 1 then 1 else s.season;
              first <= n <= if s.end.Some? && s.end.value > first then s.end.value else first
  {
  }

  /** What normalising makes of it: the members from 1 to 99, or season 1 if there are none;
      without a list, the same start, and an end of at most 99. */
  lemma {:induction false} NormalizedCovers(s: Selection, n: int)
    ensures Covers(Normalized(s), n) <==>
            match s.list
            case Some(list) =>
              if exists x :: x in list && 1 <= x <= 99 then n in list && 1 <= n <= 99 else n == 1
            case None =>
              var first := if s.season < 1 then 1 else s.season;
              var end := if s.end.None? then first else if s.end.value > 99 then 99 else s.end.value;
              first <= n <= if end > first then end else first
  {
    match s.list
    case Some(list) =>
      NormalizeListCovers(list, n);
      if x :| x in list && 1 <= x <= 99 {
        assert InRange(x);
      }
      if x :| x in list && InRange(x) {
        assert 1 <= x <= 99;
      }
      hide NormalizeList;
    case None =>
  }

  // ----------------------------------------------------------- printed specs

  /** A part of a spec: a number, or two numbers with a sign between them. */
  datatype Part = Number(n: nat) | Range(a: nat, sign: char, b: nat)

  /** The signs between the ends of a range. */
  predicate IsSign(c: char) {
    c == '-' || c == '~' || c == '\U{FF5E}' || c == '\U{5230}' || c == '\U{81F3}'
  }

  /** The signs between two parts. */
  predicate IsComma(c: char) {
    c == ',' || c == '\U{FF0C}' || c == ' ' || c == '\t'
  }

  predicate PartOk(p: Part) {
    match p
    case Number(n) => n <= I32_MAX
    case Range(a, sign, b) => a <= I32_MAX && b <= I32_MAX && IsSign(sign)
  }

  function Spelled(p: Part): string {
    match p
    case Number(n) => Decimal(n)
    case Range(a, sign, b) => Decimal(a) + [sign] + Decimal(b)
  }

  function Spellings(parts: seq<Part>): seq<string> {
    if parts == [] then [] else [Spelled(parts[0])] + Spellings(parts[1..])
  }

  /** The texts one after the other, each comma between two of them. */
  function Separated(texts: seq<string>, commas: string): string
    requires |texts| == |commas| + 1
  {
    if commas == [] then texts[0] else texts[0] + [commas[0]] + Separated(texts[1..], commas[1..])
  }

  /** The part means this season: it is the number, or lies between the two in either
      order; numbers beyond 99 count as 99, and a zero makes the part mean nothing. */
  predicate Means(p: Part, n: int) {
    match p
    case Number(m) => m >= 1 && n == if m > 99 then 99 else m
    case Range(a, _, b) =>
      && a >= 1 && b >= 1
      && (if a < b then (if a > 99 then 99 else a) else if b > 99 then 99 else b) <= n
      && n <= if a < b then (if b > 99 then 99 else b) else if a > 99 then 99 else a
  }

  lemma {:induction false} CommasAreSeparators(c: char)
    ensures IsComma(c) <==> c in PART_SEPARATORS
    ensures IsSign(c) <==> c in RANGE_SEPARATORS
  {
  }

  lemma {:induction false} SignsArePlain(c: char)
    requires IsSign(c)
    ensures !IsSpace(c) && !IsComma(c) && !IsDigit(c)
  {
  }

  /** Nothing to trim, and no comma inside. */
  lemma {:induction false} TextIsPlain(p: Part)
    requires PartOk(p)
    ensures var s := Spelled(p);
            s != [] && Trim(s) == s && forall k :: 0 <= k < |s| ==> s[k] !in PART_SEPARATORS && !IsSpace(s[k])
  {
    var s := Spelled(p);
    forall k | 0 <= k < |s| ensures s[k] !in PART_SEPARATORS && !IsSpace(s[k]) {
      match p
      case Number(n) => DigitsArePlain(Decimal(n)[k]);
      case Range(a, sign, b) =>
        SignsArePlain(sign);
        CommasAreSeparators(sign);
        if k < |Decimal(a)| {
          DigitsArePlain(Decimal(a)[k]);
        } else if k > |Decimal(a)| {
          DigitsArePlain(Decimal(b)[k - |Decimal(a)| - 1]);
        }
    }
    NothingToTrim(s);
    hide IsSpace; hide Trim;
  }

  lemma {:induction false} DecimalParses(n: nat)
    requires n <= I32_MAX
    ensures Digits(Decimal(n)) && ParsePositive(Decimal(n)) == if n >= 1 then Some(n) else None
  {
    var s := Decimal(n);
    DigitsArePlain(s[0]);
    DigitsArePlain(s[|s| - 1]);
    NothingToTrim(s);
    ParseDecimal(n);
    hide Decimal; hide Trim; hide ParseI32;
  }

  lemma {:induction false} NumberMeans(m: nat)
    requires m <= I32_MAX
    ensures ParsePart(Decimal(m)) == if m >= 1 then [Clamped(m)] else []
  {
    TextIsPlain(Number(m));
    DecimalParses(m);
    NoRange(Decimal(m), RANGE_SEPARATORS);
    hide Decimal; hide ParsePositive; hide ParseRange; hide Trim;
  }

  lemma {:induction false} SplitAtSign(l: string, sign: char, r: string, sep: char)
    requires Digits(l) && Digits(r) && IsSign(sign) && IsSign(sep)
    ensures SplitOnce(l + [sign] + r, sep) == if sep == sign then Some((l, r)) else None
  {
    var s := l + [sign] + r;
    assert s[|l|] == sign;
    SignsArePlain(sep);
    forall k | 0 <= k < |s| && k != |l| ensures s[k] != sep {
      if k < |l| {
        assert IsDigit(l[k]);
      } else {
        assert IsDigit(r[k - |l| - 1]);
      }
    }
    assert IndexOf(s, sep) == if sep == sign then |l| else |s|;
    assert s[..|l|] == l && s[|l| + 1..] == r;
    hide IsDigit; hide IsSign;
  }

  lemma {:induction false} RangeAtSign(a: nat, sign: char, b: nat, sep: char)
    requires PartOk(Range(a, sign, b)) && IsSign(sep)
    ensures RangeAt(Spelled(Range(a, sign, b)), sep)
            == if sep != sign || a == 0 || b == 0 then None
               else if a <= b then Some((Clamped(a), Clamped(b))) else Some((Clamped(b), Clamped(a)))
  {
    DecimalParses(a);
    DecimalParses(b);
    SplitAtSign(Decimal(a), sign, Decimal(b), sep);
    hide Decimal; hide ParsePositive; hide SplitOnce; hide IsSign; hide Digits; hide Clamped;
  }

  lemma {:induction false} RangeFound(a: nat, sign: char, b: nat, seps: string)
    requires PartOk(Range(a, sign, b)) && forall c :: c in seps ==> IsSign(c)
    ensures ParseRange(Spelled(Range(a, sign, b)), seps)
            == if sign !in seps || a == 0 || b == 0 then None
               else if a <= b then Some((Clamped(a), Clamped(b))) else Some((Clamped(b), Clamped(a)))
    decreases |seps|
  {
    hide RangeAt; hide IsSign; hide Spelled; hide Clamped;
    if seps != [] {
      assert seps[0] in seps;
      RangeAtSign(a, sign, b, seps[0]);
      assert forall c :: c in seps <==> c == seps[0] || c in seps[1..];
      RangeFound(a, sign, b, seps[1..]);
    }
  }

  lemma {:induction false} NoDigits(s: string, i: nat)
    requires i < |s| && !IsDigit(s[i]) && s[0] != '+' && s[0] != '-'
    ensures ParseI32(s) == None
  {
  }

  lemma {:induction false} RangeIsNoNumber(a: nat, sign: char, b: nat)
    requires PartOk(Range(a, sign, b))
    ensures ParsePositive(Spelled(Range(a, sign, b))) == None
  {
    var s := Spelled(Range(a, sign, b));
    TextIsPlain(Range(a, sign, b));
    SignsArePlain(sign);
    var l := Decimal(a);
    assert s[|l|] == sign && IsDigit(l[0]) && s[0] == l[0];
    assert s[0] != '+' && s[0] != '-' && !IsDigit(s[|l|]);
    NoDigits(s, |l|);
    hide Trim; hide Decimal; hide ParseI32;
  }

  lemma {:induction false} RangeMeans(a: nat, sign: char, b: nat)
    requires PartOk(Range(a, sign, b))
    ensures ParsePart(Spelled(Range(a, sign, b)))
            == if a == 0 || b == 0 then [] else if a <= b then Span(Clamped(a), Clamped(b))
                 else Span(Clamped(b), Clamped(a))
  {
    TextIsPlain(Range(a, sign, b));
    forall c | c in RANGE_SEPARATORS ensures IsSign(c) {
      CommasAreSeparators(c);
    }
    CommasAreSeparators(sign);
    RangeFound(a, sign, b, RANGE_SEPARATORS);
    RangeIsNoNumber(a, sign, b);
    hide Spelled; hide ParseRange; hide ParsePositive; hide Trim; hide IsSign; hide Clamped; hide Span;
  }

  /** A part is read as what it means. */
  lemma {:induction false} PartMeans(p: Part, n: int)
    requires PartOk(p)
    ensures n in ParsePart(Spelled(p)) <==> Means(p, n)
  {
    match p
    case Number(m) => NumberMeans(m);
      hide ParsePart; hide Decimal;
    case Range(a, sign, b) =>
      RangeMeans(a, sign, b);
      SpanMeans(Clamped(a), Clamped(b));
      SpanMeans(Clamped(b), Clamped(a));
      hide ParsePart; hide Spelled; hide Span; hide IsSign;
  }

  // ------------------------------------------------------------- whole specs

  lemma {:induction false} SpellingsAre(parts: seq<Part>)
    ensures |Spellings(parts)| == |parts| && forall i :: 0 <= i < |parts| ==> Spellings(parts)[i] == Spelled(parts[i])
  {
    hide Spelled;
    if parts != [] {
      SpellingsAre(parts[1..]);
    }
  }

  lemma {:induction false} SplitsFirst(first: string, c: char, rest: string)
    requires c in PART_SEPARATORS && forall k :: 0 <= k < |first| ==> first[k] !in PART_SEPARATORS
    ensures SplitAny(first + [c] + rest, PART_SEPARATORS) == [first] + SplitAny(rest, PART_SEPARATORS)
  {
    var s := first + [c] + rest;
    assert s[|first|] == c;
    assert forall k :: 0 <= k < |first| ==> s[k] == first[k];
    assert IndexOfAny(s, PART_SEPARATORS) == |first|;
    assert s[..|first|] == first && s[|first| + 1..] == rest;
  }

  lemma {:induction false} SplitsNowhere(s: string)
    requires forall k :: 0 <= k < |s| ==> s[k] !in PART_SEPARATORS
    ensures SplitAny(s, PART_SEPARATORS) == [s]
  {
    assert IndexOfAny(s, PART_SEPARATORS) == |s|;
  }

  /** Splitting at the commas gives the texts back, whatever the commas are. */
  lemma {:induction false} SeparatedSplits(texts: seq<string>, commas: string)
    requires |texts| == |commas| + 1 && forall c :: c in commas ==> IsComma(c)
    requires forall i, k :: 0 <= i < |texts| && 0 <= k < |texts[i]| ==> texts[i][k] !in PART_SEPARATORS
    ensures SplitAny(Separated(texts, commas), PART_SEPARATORS) == texts
    decreases |texts|
  {
    hide SplitAny; hide IsComma;
    if commas == [] {
      SplitsNowhere(texts[0]);
    } else {
      assert commas[0] in commas;
      CommasAreSeparators(commas[0]);
      assert forall c :: c in commas[1..] ==> c in commas;
      SeparatedSplits(texts[1..], commas[1..]);
      SplitsFirst(texts[0], commas[0], Separated(texts[1..], commas[1..]));
      assert texts == [texts[0]] + texts[1..];
    }
  }

  lemma {:induction false} SeparatedEnds(texts: seq<string>, commas: string)
    requires |texts| == |commas| + 1 && forall i :: 0 <= i < |texts| ==> texts[i] != []
    ensures var s, last := Separated(texts, commas), texts[|texts| - 1];
            s != [] && s[0] == texts[0][0] && s[|s| - 1] == last[|last| - 1]
    decreases |texts|
  {
    if commas != [] {
      SeparatedEnds(texts[1..], commas[1..]);
      assert texts[1..][|texts| - 2] == texts[|texts| - 1];
      var rest := Separated(texts[1..], commas[1..]);
      assert Separated(texts, commas) == texts[0] + [commas[0]] + rest;
    }
  }

  /** Some part means this season. */
  ghost predicate Meant(parts: seq<Part>, n: int) {
    exists i :: 0 <= i < |parts| && Means(parts[i], n)
  }

  lemma {:induction false} MeantStep(parts: seq<Part>, n: int)
    requires parts != []
    ensures Meant(parts, n) <==> Meant(parts[..|parts| - 1], n) || Means(parts[|parts| - 1], n)
  {
    var init := parts[..|parts| - 1];
    hide Means;
    assert forall i :: 0 <= i < |init| ==> parts[i] == init[i];
    if Meant(init, n) {
      var i :| 0 <= i < |init| && Means(init[i], n);
      assert Means(parts[i], n);
    }
  }

  lemma {:induction false} SpellingsEnd(parts: seq<Part>)
    requires parts != []
    ensures Spellings(parts) == Spellings(parts[..|parts| - 1]) + [Spelled(parts[|parts| - 1])]
  {
    SpellingsAre(parts);
    SpellingsAre(parts[..|parts| - 1]);
    hide Spelled; hide Spellings;
  }

  lemma {:induction false} ParsePartsMeans(parts: seq<Part>, n: int)
    requires forall i :: 0 <= i < |parts| ==> PartOk(parts[i])
    ensures n in ParseParts(Spellings(parts)) <==> Meant(parts, n)
    decreases |parts|
  {
    if parts != [] {
      var init, last := parts[..|parts| - 1], parts[|parts| - 1];
      hide Spelled; hide Means; hide PartOk; hide ParsePart; hide Spellings; hide ParseParts; hide Meant;
      ParsePartsMeans(init, n);
      PartMeans(last, n);
      SpellingsEnd(parts);
      ParsePartsEnds(Spellings(init), Spelled(last));
      MeantStep(parts, n);
    }
  }

  lemma {:induction false} SpecIsPlain(parts: seq<Part>, commas: string)
    requires |parts| == |commas| + 1 && forall c :: c in commas ==> IsComma(c)
    requires forall i :: 0 <= i < |parts| ==> PartOk(parts[i])
    ensures |Spellings(parts)| == |parts|
    ensures var s := Separated(Spellings(parts), commas);
            s != [] && Trim(s) == s && SplitAny(s, PART_SEPARATORS) == Spellings(parts)
  {
    var texts := Spellings(parts);
    SpellingsAre(parts);
    forall i | 0 <= i < |texts|
      ensures texts[i] != []
              && forall k :: 0 <= k < |texts[i]| ==> texts[i][k] !in PART_SEPARATORS && !IsSpace(texts[i][k])
    {
      TextIsPlain(parts[i]);
    }
    hide Spelled; hide PartOk; hide IsComma; hide Spellings; hide IsSpace; hide Trim;
    SeparatedSplits(texts, commas);
    SeparatedEnds(texts, commas);
    NothingToTrim(Separated(texts, commas));
  }

  /** Parts in any number, each a number or a range in either order, with any signs and any
      commas: the spec means the seasons of its parts, or season 1 if they mean none. */
  lemma {:induction false} SpecMeans(parts: seq<Part>, commas: string, n: int)
    requires |parts| == |commas| + 1 && forall c :: c in commas ==> IsComma(c)
    requires forall i :: 0 <= i < |parts| ==> PartOk(parts[i])
    ensures |Spellings(parts)| == |parts|
    ensures n in SeasonsOf(Separated(Spellings(parts), commas)) <==>
            if exists m :: Meant(parts, m) then Meant(parts, n) else n == 1
  {
    SpecIsPlain(parts, commas);
    var numbers := ParseParts(Spellings(parts));
    SortDedupMeans(numbers);
    ParsePartsMeans(parts, n);
    hide Means; hide Spellings; hide Separated; hide Trim; hide SplitAny; hide ParseParts; hide PartOk; hide IsComma;
    hide SortDedup; hide Meant;
    var sorted := SortDedup(numbers);
    if sorted == [] {
      forall m ensures !Meant(parts, m) {
        ParsePartsMeans(parts, m);
        assert m !in sorted;
      }
    } else {
      assert sorted[0] in sorted;
      ParsePartsMeans(parts, sorted[0]);
    }
  }

  /** So a request with such a spec gets exactly those seasons. */
  lemma {:induction false} SpecIsAnswered(r: Request, parts: seq<Part>, commas: string, n: int)
    requires |parts| == |commas| + 1 && forall c :: c in commas ==> IsComma(c)
    requires forall i :: 0 <= i < |parts| ==> PartOk(parts[i])
    requires |Spellings(parts)| == |parts| && r.spec == Separated(Spellings(parts), commas)
    ensures n in ParseSeason(r).seasons <==>
            if exists m :: Meant(parts, m) then Meant(parts, n) else n == 1
  {
    SpecIsPlain(parts, commas);
    hide Means; hide Spellings; hide Separated; hide Trim; hide SplitAny; hide PartOk; hide IsComma; hide SeasonsOf;
    hide ParseSeason; hide Meant;
    SpecRequested(r, n);
    SpecMeans(parts, commas, n);
  }
}
