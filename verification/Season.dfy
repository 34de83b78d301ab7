/** Season selections: the parser and the normaliser of `src/models/subscription.rs`
    and the printer of `src/api/utils.rs`. */
module Season {
  import opened Options
  import opened Text

  const MIN_SEASON := 1
  const MAX_SEASON := 99

  predicate InRange(n: int) {
    MIN_SEASON <= n <= MAX_SEASON
  }

  function Clamped(n: int): int {
    if n < MIN_SEASON then MIN_SEASON else if n > MAX_SEASON then MAX_SEASON else n
  }

  function Max(a: int, b: int): int {
    if a < b then b else a
  }

  // ---------------------------------------------------------- sort and dedup

  function Insert(n: int, sorted: seq<int>): seq<int> {
    if sorted == [] || n < sorted[0] then [n] + sorted
    else if n == sorted[0] then sorted
    else [sorted[0]] + Insert(n, sorted[1..])
  }

  /** Sorted ascending, each number once. */
  function SortDedup(list: seq<int>): seq<int> {
    if list == [] then [] else Insert(list[0], SortDedup(list[1..]))
  }

  ghost predicate Ascending(list: seq<int>) {
    forall i, j :: 0 <= i < j < |list| ==> list[i] < list[j]
  }

  lemma {:induction false} InsertMeans(n: int, sorted: seq<int>)
    requires Ascending(sorted)
    ensures Ascending(Insert(n, sorted)) && forall x :: x in Insert(n, sorted) <==> x == n || x in sorted
  {
    if sorted != [] && n > sorted[0] {
      var rest := sorted[1..];
      InsertMeans(n, rest);
      var r := Insert(n, rest);
      assert Insert(n, sorted) == [sorted[0]] + r;
      assert sorted == [sorted[0]] + rest;
      forall i | 0 <= i < |r| ensures sorted[0] < r[i] {
        assert r[i] in r;
      }
    }
  }

  lemma {:induction false} SortDedupMeans(list: seq<int>)
    ensures Ascending(SortDedup(list)) && forall x :: x in SortDedup(list) <==> x in list
  {
    if list != [] {
      SortDedupMeans(list[1..]);
      InsertMeans(list[0], SortDedup(list[1..]));
    }
  }

  /** A strictly ascending list is determined by its members. */
  lemma {:induction false} AscendingIsUnique(a: seq<int>, b: seq<int>)
    requires Ascending(a) && Ascending(b) && forall x :: x in a <==> x in b
    ensures a == b
  {
    assert a == [] || a[0] in a;
    assert b == [] || b[0] in b;
    if a != [] && b != [] {
      forall x ensures x in a[1..] <==> x in b[1..] {
        if x in a[1..] { assert x in b; }
        if x in b[1..] { assert x in a; }
      }
      AscendingIsUnique(a[1..], b[1..]);
    }
  }

  lemma {:induction false} SortedStays(list: seq<int>)
    requires Ascending(list)
    ensures SortDedup(list) == list
  {
    SortDedupMeans(list);
    AscendingIsUnique(SortDedup(list), list);
  }

  // ------------------------------------------------------------- normalising

  /** The numbers `from..=to`. */
  function Span(from: int, to: int): (r: seq<int>)
    ensures |r| == if from <= to then to - from + 1 else 0
    ensures forall i :: 0 <= i < |r| ==> r[i] == from + i
  {
    seq(if from <= to then to - from + 1 else 0, i => from + i)
  }

  lemma {:induction false} SpanMeans(from: int, to: int)
    ensures Ascending(Span(from, to)) && forall x :: x in Span(from, to) <==> from <= x <= to
  {
    forall x | from <= x <= to ensures x in Span(from, to) {
      assert Span(from, to)[x - from] == x;
    }
  }

  /** What the program stores of a selection. */
  datatype Selection = Selection(season: int, end: Option<int>, list: Option<seq<int>>)

  function KeepInRange(list: seq<int>): seq<int> {
    if list == [] then [] else (if InRange(list[0]) then [list[0]] else []) + KeepInRange(list[1..])
  }

  lemma {:induction false} KeepInRangeMeans(list: seq<int>)
    ensures forall x :: x in KeepInRange(list) <==> x in list && InRange(x)
  {
    if list != [] {
      KeepInRangeMeans(list[1..]);
    }
  }

  /** `normalize_season_list`. */
  function NormalizeList(list: seq<int>): Selection {
    var kept := SortDedup(KeepInRange(list));
    if kept == [] then Selection(1, None, None)
    else
      var start, end := kept[0], kept[|kept| - 1];
      if |kept| == end - start + 1 then Selection(start, if end > start then Some(end) else None, None)
      else Selection(start, Some(end), Some(kept))
  }

  function NormalizeBounds(start: int, end: Option<int>): (int, Option<int>) {
    var s := Clamped(start);
    (s, if end.Some? && Clamped(end.value) > s then Some(Clamped(end.value)) else None)
  }

  // ------------------------------------------------- the stored subscription

  predicate HasList(s: Selection) {
    s.list.Some? && s.list.value != []
  }

  function StartOf(s: Selection): int {
    Max(s.season, 1)
  }

  function EndOf(s: Selection): int {
    Max(s.end.GetOr(StartOf(s)), StartOf(s))
  }

  function SeasonNumbers(s: Selection): seq<int> {
    if HasList(s) then SortDedup(s.list.value) else Span(StartOf(s), EndOf(s))
  }

  predicate Covers(s: Selection, n: int) {
    if HasList(s) then n in s.list.value else StartOf(s) <= n <= EndOf(s)
  }

  function Bounded(s: Selection): Selection {
    var start := StartOf(s);
    match s.end
    case None => s.(season := start)
    case Some(e) =>
      s.(season := start, end := if Max(e, 1) <= start then None else Some(if e < MAX_SEASON then e else MAX_SEASON))
  }

  function Normalized(s: Selection): Selection {
    if s.list.Some? then NormalizeList(s.list.value) else Bounded(s)
  }

  /** The season fields of `Subscription`. */
  class Subscription {
    var season: int
    var seasonEnd: Option<int>
    var seasonList: Option<seq<int>>

    function View(): Selection
      reads this
    {
      Selection(season, seasonEnd, seasonList)
    }

    constructor (s: Selection)
      ensures View() == s
    {
      season, seasonEnd, seasonList := s.season, s.end, s.list;
    }

    method NormalizeSeasonRange()
      modifies this
      ensures View() == Normalized(old(View()))
    {
      season := Max(season, 1);
      if seasonEnd.Some? {
        var end := Max(seasonEnd.value, 1);
        if end <= season {
          seasonEnd := None;
        } else {
          seasonEnd := Some(if end < MAX_SEASON then end else MAX_SEASON);
        }
      }
      if seasonList.Some? {
        var n := NormalizeList(seasonList.value);
        season, seasonEnd, seasonList := n.season, n.end, n.list;
      }
    }
  }

  /** `covers_season` and `season_numbers` agree on every subscription and season, and
      the numbers come in order, each once. */
  lemma {:induction false} CoversIsMembership(s: Selection, n: int)
    ensures Covers(s, n) <==> n in SeasonNumbers(s)
    ensures Ascending(SeasonNumbers(s)) && SeasonNumbers(s) != []
  {
    if HasList(s) {
      SortDedupMeans(s.list.value);
      assert s.list.value[0] in SortDedup(s.list.value);
    } else {
      SpanMeans(StartOf(s), EndOf(s));
    }
  }

  // ------------------------------------------- what normalising means

  lemma {:induction false} AscendingLength(list: seq<int>, i: nat)
    requires Ascending(list) && i < |list|
    ensures list[i] - list[0] >= i
    ensures list[i] - list[0] == i ==> forall k :: 0 <= k <= i ==> list[k] == list[0] + k
  {
    if i > 0 {
      AscendingLength(list, i - 1);
    }
  }

  /** A normalised list covers what of the list is in range, or season 1 if nothing is;
      and it keeps an explicit list only when there is a gap. */
  lemma {:induction false} NormalizeListCovers(list: seq<int>, n: int)
    ensures var s := NormalizeList(list);
            && (Covers(s, n) <==> if exists x :: x in list && InRange(x) then n in list && InRange(n) else n == 1)
            && (s.list.Some? ==>
               HasList(s) && Ascending(s.list.value) && exists g :: s.season < g < s.end.GetOr(0) && g !in s.list.value)
  {
    var kept := SortDedup(KeepInRange(list));
    SortDedupMeans(KeepInRange(list));
    KeepInRangeMeans(list);
    if kept != [] {
      var last := |kept| - 1;
      assert kept[0] in kept && kept[last] in kept;
      assert kept[0] in list;
      AscendingLength(kept, last);
      if |kept| == kept[last] - kept[0] + 1 {
        assert n in kept <==> kept[0] <= n <= kept[last] by {
          if kept[0] <= n <= kept[last] {
            assert kept[n - kept[0]] == n;
          }
        }
      } else {
        GapIn(kept);
      }
    } else {
      forall x | x in list ensures !InRange(x) {
        assert x !in kept;
      }
    }
  }

  lemma {:induction false} GapIn(list: seq<int>)
    requires Ascending(list) && list != [] && |list| != list[|list| - 1] - list[0] + 1
    ensures exists g :: list[0] < g < list[|list| - 1] && g !in list
  {
    var last := |list| - 1;
    AscendingLength(list, last);
    if forall g :: list[0] < g < list[last] ==> g in list {
      var span := Span(list[0], list[last]);
      SpanMeans(list[0], list[last]);
      forall x ensures x in span <==> x in list {
        if x in list {
          var k :| 0 <= k < |list| && list[k] == x;
        }
      }
      AscendingIsUnique(span, list);
      assert false;
    }
  }

  /** Normal forms are canonical: two lists normalise alike exactly when they select the same seasons. */
  lemma {:induction false} NormalFormIff(a: seq<int>, b: seq<int>)
    ensures NormalizeList(a) == NormalizeList(b)
            <==> forall n :: Covers(NormalizeList(a), n) <==> Covers(NormalizeList(b), n)
  {
    var s, t := NormalizeList(a), NormalizeList(b);
    if forall n :: Covers(s, n) <==> Covers(t, n) {
      NormalIsDetermined(a);
      NormalIsDetermined(b);
      forall n ensures n in SeasonNumbers(s) <==> n in SeasonNumbers(t) {
        CoversIsMembership(s, n);
        CoversIsMembership(t, n);
        assert Covers(s, n) <==> Covers(t, n);
      }
      CoversIsMembership(s, 0);
      CoversIsMembership(t, 0);
      AscendingIsUnique(SeasonNumbers(s), SeasonNumbers(t));
    }
  }

  /** The normal form is computed from the numbers it covers. */
  lemma {:induction false} NormalIsDetermined(list: seq<int>)
    ensures var s := NormalizeList(list);
            && SeasonNumbers(s) != [] && (forall n :: n in SeasonNumbers(s) ==> InRange(n))
            && s == NormalizeList(SeasonNumbers(s))
  {
    var s := NormalizeList(list);
    var numbers, kept := SeasonNumbers(s), SortDedup(KeepInRange(list));
    CoversIsMembership(s, 0);
    forall n ensures n in numbers <==> Covers(s, n) {
      CoversIsMembership(s, n);
    }
    forall n | n in numbers ensures InRange(n) {
      NormalizeListCovers(list, n);
    }
    KeptMeans(list);
    if kept == [] {
      assert numbers == [1];
      assert NormalizeList([1]) == s by { SortedStays([1]); }
    } else {
      assert kept[0] in kept;
      forall x ensures x in kept <==> x in numbers {
        NormalizeListCovers(list, x);
      }
      hide NormalizeList; hide SeasonNumbers; hide Covers; hide SortDedup; hide KeepInRange;
      AscendingIsUnique(kept, numbers);
      SameKept(list, numbers);
    }
  }

  lemma {:induction false} KeptMeans(list: seq<int>)
    ensures var kept := SortDedup(KeepInRange(list));
            Ascending(kept) && forall x :: x in kept <==> x in list && InRange(x)
  {
    SortDedupMeans(KeepInRange(list));
    KeepInRangeMeans(list);
  }

  /** Normalising depends on the sorted in-range numbers alone. */
  lemma {:induction false} SameKept(list: seq<int>, numbers: seq<int>)
    requires SortDedup(KeepInRange(list)) == numbers && Ascending(numbers) && forall n :: n in numbers ==> InRange(n)
    ensures NormalizeList(numbers) == NormalizeList(list)
  {
    AllInRangeKept(numbers);
    SortedStays(numbers);
  }

  lemma {:induction false} AllInRangeKept(list: seq<int>)
    requires forall n :: n in list ==> InRange(n)
    ensures KeepInRange(list) == list
  {
    if list != [] {
      AllInRangeKept(list[1..]);
    }
  }

  // ------------------------------------------ normalising a subscription

  ghost predicate SameCoverage(s: Selection, t: Selection) {
    forall n :: Covers(s, n) <==> Covers(t, n)
  }

  /** What a caller can check beforehand: nothing is out of range, and an empty list
      does not hide a wider range. */
  predicate Representable(s: Selection) {
    match s.list
    case None => s.end.None? || s.end.value <= Max(MAX_SEASON, StartOf(s))
    case Some(list) => if list == [] then StartOf(s) == 1 && EndOf(s) == 1 else forall x :: x in list ==> InRange(x)
  }

  /** Normalising a subscription keeps what it covers exactly when it is representable. */
  lemma {:induction false} NormalizingKeepsCoverageIff(s: Selection)
    ensures SameCoverage(s, Normalized(s)) <==> Representable(s)
  {
    var t := Normalized(s);
    match s.list
    case None =>
      if s.end.Some? && s.end.value > Max(MAX_SEASON, StartOf(s)) {
        assert Covers(s, s.end.value) && !Covers(t, s.end.value);
      }
    case Some(list) =>
      forall n
        ensures Covers(t, n) <==> if exists x :: x in list && InRange(x) then n in list && InRange(n) else n == 1
      {
        NormalizeListCovers(list, n);
      }
      if list == [] {
        assert Covers(t, 1) && !Covers(t, EndOf(s) + 1);
        assert Covers(s, StartOf(s)) && Covers(s, EndOf(s));
        if SameCoverage(s, t) {
          assert Covers(t, StartOf(s)) && Covers(t, EndOf(s));
        }
      } else {
        forall x | x in list && !InRange(x) ensures !SameCoverage(s, t) {
          assert Covers(s, x);
          assert Covers(t, x) ==> x == 1;
        }
        assert list[0] in list;
      }
  }

  /** Normalising twice is normalising once, except for a range that starts at or
      beyond the last season and ends later. */
  lemma {:induction false} NormalizingTwiceIff(s: Selection)
    ensures Normalized(Normalized(s)) == Normalized(s)
            <==> !(s.list.None? && StartOf(s) >= MAX_SEASON && s.end.Some? && s.end.value > StartOf(s))
  {
    if s.list.Some? {
      var list := s.list.value;
      var t := NormalizeList(list);
      NormalIsDetermined(list);
      forall n ensures n in SeasonNumbers(t) ==> InRange(n) {
      }
      if t.list.Some? {
        NormalizeListCovers(list, 0);
        SortedStays(t.list.value);
        assert t == NormalizeList(t.list.value);
      } else {
        assert Covers(t, t.season) ==> t.season in SeasonNumbers(t) by { CoversIsMembership(t, t.season); }
        NormalizeListIs(list);
      }
    }
  }

  lemma {:induction false} NormalizeListIs(list: seq<int>)
    ensures var t := NormalizeList(list);
            1 <= t.season <= MAX_SEASON && (t.end.Some? ==> t.season < t.end.value <= MAX_SEASON)
  {
    var kept := SortDedup(KeepInRange(list));
    SortDedupMeans(KeepInRange(list));
    KeepInRangeMeans(list);
    if kept != [] {
      assert kept[0] in kept && kept[|kept| - 1] in kept;
    }
  }

  // --------------------------------------------------------------- the parser

  // The separators of the parts of a spec, and of the two ends of a range.
  const PART_SEPARATORS: string := [',', '\U{FF0C}', ' ', '\t']
  const RANGE_SEPARATORS: string := ['-', '~', '\U{FF5E}', '\U{5230}', '\U{81F3}']

  function ParsePositive(s: string): Option<int> {
    match ParseI32(Trim(s))
    case None => None
    case Some(n) => if n > 0 then Some(n) else None
  }

  /** The range read at this separator, its ends clamped and in order. */
  function RangeAt(part: string, sep: char): Option<(int, int)> {
    match SplitOnce(part, sep)
    case None => None
    case Some((left, right)) =>
      var a, b := ParsePositive(left), ParsePositive(right);
      if a.None? || b.None? then None
      else if a.value <= b.value then Some((Clamped(a.value), Clamped(b.value)))
      else Some((Clamped(b.value), Clamped(a.value)))
  }

  /** The range read at the first separator that gives one. */
  function ParseRange(part: string, seps: string): Option<(int, int)> {
    if seps == [] then None
    else if RangeAt(part, seps[0]).Some? then RangeAt(part, seps[0])
    else ParseRange(part, seps[1..])
  }

  function ParsePart(raw: string): seq<int> {
    var part := Trim(raw);
    if part == [] then []
    else
      match ParseRange(part, RANGE_SEPARATORS)
      case Some((a, b)) => Span(a, b)
      case None =>
        match ParsePositive(part)
        case Some(n) => [Clamped(n)]
        case None => []
  }

  function ParseParts(parts: seq<string>): seq<int> {
    if parts == [] then [] else ParseParts(parts[..|parts| - 1]) + ParsePart(parts[|parts| - 1])
  }

  function SeasonsOf(value: string): seq<int> {
    if Trim(value) == [] then [1]
    else
      var seasons := SortDedup(ParseParts(SplitAny(Trim(value), PART_SEPARATORS)));
      if seasons == [] then [1] else seasons
  }

  lemma {:induction false} PartsStep(parts: seq<string>, p: nat)
    requires p < |parts|
    ensures ParseParts(parts[..p + 1]) == ParseParts(parts[..p]) + ParsePart(parts[p])
  {
    hide ParsePart;
    assert parts[..p + 1][..p] == parts[..p];
  }

  lemma {:induction false} RangeStep(part: string, seps: string, i: nat)
    requires i <= |seps|
    ensures i == |seps| ==> ParseRange(part, seps[i..]).None?
    ensures i < |seps| ==>
              ParseRange(part, seps[i..])
              == if RangeAt(part, seps[i]).Some? then RangeAt(part, seps[i]) else ParseRange(part, seps[i + 1..])
  {
    hide RangeAt;
    if i < |seps| {
      assert seps[i..][1..] == seps[i + 1..];
    }
  }

  /** The inner loop of `parse_season_spec_list`: the separators in turn. */
  method TryRange(part: string) returns (range: Option<(int, int)>)
    ensures range == ParseRange(part, RANGE_SEPARATORS)
  {
    hide RangeAt; hide ParseRange;
    assert RANGE_SEPARATORS[0..] == RANGE_SEPARATORS;
    for i := 0 to |RANGE_SEPARATORS|
      invariant ParseRange(part, RANGE_SEPARATORS) == ParseRange(part, RANGE_SEPARATORS[i..])
    {
      RangeStep(part, RANGE_SEPARATORS, i);
      range := RangeAt(part, RANGE_SEPARATORS[i]);
      if range.Some? {
        return;
      }
    }
    RangeStep(part, RANGE_SEPARATORS, |RANGE_SEPARATORS|);
    return None;
  }

  /** `parse_season_spec_list`. */
  method ParseSeasonSpecList(value: string) returns (seasons: seq<int>)
    ensures seasons == SeasonsOf(value)
  {
    hide Trim; hide ParseParts; hide ParseRange; hide ParsePositive; hide SplitAny; hide SortDedup; hide Span;
    var raw := Trim(value);
    if raw == [] {
      return [1];
    }
    seasons := [];
    var parts := SplitAny(raw, PART_SEPARATORS);
    assert ParseParts(parts[..0]) == [] by { NoParts(parts); }
    for p := 0 to |parts|
      invariant seasons == ParseParts(parts[..p])
    {
      PartsStep(parts, p);
      var part := Trim(parts[p]);
      if part == [] {
        continue;
      }
      var range := TryRange(part);
      if range.Some? {
        seasons := seasons + Span(range.value.0, range.value.1);
      } else {
        var season := ParsePositive(part);
        if season.Some? {
          seasons := seasons + [Clamped(season.value)];
        }
      }
    }
    assert parts[..|parts|] == parts;
    seasons := SortDedup(seasons);
    if seasons == [] {
      seasons := [1];
    }
  }

  lemma {:induction false} NoParts(parts: seq<string>)
    ensures ParseParts(parts[..0]) == []
  {
  }

  /** Whatever the text, the parsed list is not empty, in order, and in range. */
  lemma {:induction false} ParsedIsClean(value: string)
    ensures SeasonsOf(value) != [] && Ascending(SeasonsOf(value)) && forall n :: n in SeasonsOf(value) ==> InRange(n)
  {
    if Trim(value) != [] {
      var parts := SplitAny(Trim(value), PART_SEPARATORS);
      PartsInRange(parts);
      SortDedupMeans(ParseParts(parts));
    }
  }

  lemma {:induction false} RangeInRange(part: string, seps: string)
    ensures match ParseRange(part, seps) case Some((a, b)) => InRange(a) && InRange(b) case None => true
  {
    if seps != [] {
      RangeInRange(part, seps[1..]);
    }
  }

  lemma {:induction false} PartsInRange(parts: seq<string>)
    ensures forall n :: n in ParseParts(parts) ==> InRange(n)
  {
    if parts != [] {
      PartsInRange(parts[..|parts| - 1]);
      RangeInRange(Trim(parts[|parts| - 1]), RANGE_SEPARATORS);
    }
  }

  // -------------------------------------------------------------- the printer

  datatype Request = Request(spec: string, list: Option<seq<int>>, season: Option<int>, end: Option<int>)

  datatype Response = Response(selection: Selection, seasons: seq<int>, multiSeason: bool, spec: string)

  function Requested(r: Request): Selection {
    if Trim(r.spec) != [] then NormalizeList(SeasonsOf(r.spec))
    else if r.list.Some? && r.list.value != [] then NormalizeList(r.list.value)
    else
      var (season, end) := NormalizeBounds(r.season.GetOr(1), r.end);
      Selection(season, end, None)
  }

  function Listed(s: Selection): seq<int> {
    match s.list
    case Some(list) => list
    case None => Span(s.season, s.end.GetOr(s.season))
  }

  function Printed(n: int): string {
    if n < 0 then "-" + Decimal(-n) else Decimal(n)
  }

  function PrintAll(list: seq<int>): seq<string> {
    if list == [] then [] else [Printed(list[0])] + PrintAll(list[1..])
  }

  function SpecOf(s: Selection): string {
    match s.list
    case Some(list) => Join(PrintAll(list), ",")
    case None =>
      if |Listed(s)| > 1 then Printed(s.season) + "-" + Printed(s.end.GetOr(s.season)) else Printed(s.season)
  }

  /** `parse_season`, whose `season_spec` prints what it understood. */
  function ParseSeason(r: Request): Response {
    var s := Requested(r);
    Response(s, Listed(s), |Listed(s)| > 1, SpecOf(s))
  }

  // ----------------------------------------------------------- the round trip

  lemma {:induction false} DigitsArePlain(c: char)
    requires IsDigit(c)
    ensures !IsSpace(c) && c !in PART_SEPARATORS && c !in RANGE_SEPARATORS
  {
  }

  lemma {:induction false} PrintedParses(n: int)
    requires InRange(n)
    ensures Digits(Printed(n)) && Trim(Printed(n)) == Printed(n) && ParsePositive(Printed(n)) == Some(n)
  {
    var s := Printed(n);
    DigitsArePlain(s[0]);
    DigitsArePlain(s[|s| - 1]);
    NothingToTrim(s);
    ParseDecimal(n);
    hide Decimal;
  }

  lemma {:induction false} NoRange(part: string, seps: string)
    requires Digits(part) && forall c :: c in seps ==> c in RANGE_SEPARATORS
    ensures ParseRange(part, seps) == None
  {
    if seps != [] {
      var i := IndexOf(part, seps[0]);
      if i < |part| {
        DigitsArePlain(part[i]);
      }
      NoRange(part, seps[1..]);
    }
  }

  lemma {:induction false} PartOfNumber(n: int)
    requires InRange(n)
    ensures ParsePart(Printed(n)) == [n]
  {
    PrintedParses(n);
    NoRange(Printed(n), RANGE_SEPARATORS);
  }

  /** Two numbers around a dash: no other separator, nothing to trim, split at the dash. */
  lemma {:induction false} DashSplits(l: string, r: string)
    requires Digits(l) && Digits(r)
    ensures var s := l + "-" + r;
            && s != [] && Trim(s) == s && SplitOnce(s, '-') == Some((l, r))
            && forall k :: 0 <= k < |s| ==> s[k] !in PART_SEPARATORS
  {
    var s := l + "-" + r;
    assert s[|l|] == '-' && s[0] == l[0] && s[|s| - 1] == r[|r| - 1];
    DigitsArePlain(s[0]);
    DigitsArePlain(s[|s| - 1]);
    NothingToTrim(s);
    forall k | 0 <= k < |s| ensures s[k] !in PART_SEPARATORS && (k < |l| ==> s[k] != '-') {
      if k < |l| {
        DigitsArePlain(l[k]);
      } else if k > |l| {
        DigitsArePlain(r[k - |l| - 1]);
      }
    }
    assert IndexOf(s, '-') == |l|;
    assert s[..|l|] == l && s[|l| + 1..] == r;
  }

  lemma {:induction false} PartOfRange(a: int, b: int)
    requires InRange(a) && InRange(b) && a < b
    ensures var s := Printed(a) + "-" + Printed(b);
            Trim(s) == s && s != [] && ParsePart(s) == Span(a, b)
              && forall k :: 0 <= k < |s| ==> s[k] !in PART_SEPARATORS
  {
    PrintedParses(a);
    PrintedParses(b);
    DashSplits(Printed(a), Printed(b));
    hide Printed; hide ParsePositive; hide Span; hide Trim; hide SplitOnce; hide Digits;
    assert RangeAt(Printed(a) + "-" + Printed(b), RANGE_SEPARATORS[0]) == Some((a, b));
  }

  lemma {:induction false} OnePart(s: string)
    requires s != [] && Trim(s) == s && forall k :: 0 <= k < |s| ==> s[k] !in PART_SEPARATORS
    ensures SeasonsOf(s) == if ParsePart(s) == [] then [1] else SortDedup(ParsePart(s))
  {
    assert Join([s], [',']) == s;
    SplitJoin([s], ',', PART_SEPARATORS);
    assert [s][..0] == [];
    assert ParseParts([s]) == ParsePart(s);
    SortDedupMeans(ParsePart(s));
    hide ParsePart;
    if ParsePart(s) != [] {
      assert ParsePart(s)[0] in SortDedup(ParsePart(s));
    }
  }

  lemma {:induction false} PrintAllIs(list: seq<int>)
    ensures |PrintAll(list)| == |list| && forall i :: 0 <= i < |list| ==> PrintAll(list)[i] == Printed(list[i])
  {
    if list != [] {
      PrintAllIs(list[1..]);
    }
  }

  lemma {:induction false} PrintAllEnds(list: seq<int>)
    requires list != []
    ensures PrintAll(list) == PrintAll(list[..|list| - 1]) + [Printed(list[|list| - 1])]
  {
    PrintAllIs(list);
    PrintAllIs(list[..|list| - 1]);
    hide PrintAll; hide Printed;
    assert |PrintAll(list)| == |list|;
  }

  lemma {:induction false} ParsePartsEnds(parts: seq<string>, last: string)
    ensures ParseParts(parts + [last]) == ParseParts(parts) + ParsePart(last)
  {
    hide ParsePart;
    assert (parts + [last])[..|parts|] == parts;
  }

  lemma {:induction false} PartsOfList(list: seq<int>)
    requires forall n :: n in list ==> InRange(n)
    ensures ParseParts(PrintAll(list)) == list
    decreases |list|
  {
    if list != [] {
      var init, last := list[..|list| - 1], list[|list| - 1];
      assert last in list && list == init + [last];
      PrintAllEnds(list);
      hide PrintAll; hide Printed; hide ParsePart;
      PartsOfList(init);
      PartOfNumber(last);
      ParsePartsEnds(PrintAll(init), Printed(last));
    }
  }

  lemma {:induction false} JoinEnds(parts: seq<string>, sep: string)
    requires parts != [] && forall i :: 0 <= i < |parts| ==> parts[i] != []
    ensures var s, last := Join(parts, sep), parts[|parts| - 1];
            s != [] && s[0] == parts[0][0] && s[|s| - 1] == last[|last| - 1]
  {
    if |parts| > 1 {
      var rest := parts[1..];
      JoinEnds(rest, sep);
      assert rest[|rest| - 1] == parts[|parts| - 1];
      assert Join(parts, sep) == parts[0] + sep + Join(rest, sep);
    }
  }

  /** Joined numbers: nothing to trim, and splitting gives the numbers back. */
  lemma {:induction false} JoinedSplits(parts: seq<string>)
    requires parts != [] && forall i :: 0 <= i < |parts| ==> Digits(parts[i])
    ensures var s := Join(parts, ","); s != [] && Trim(s) == s && SplitAny(s, PART_SEPARATORS) == parts
  {
    var s := Join(parts, ",");
    JoinEnds(parts, ",");
    DigitsArePlain(s[0]);
    DigitsArePlain(s[|s| - 1]);
    NothingToTrim(s);
    forall p, k | p in parts && 0 <= k < |p| ensures p[k] !in PART_SEPARATORS {
      DigitsArePlain(p[k]);
    }
    assert "," == [','];
    hide Trim; hide Join; hide SplitAny;
    SplitJoin(parts, ',', PART_SEPARATORS);
  }

  lemma {:induction false} SeasonsOfList(list: seq<int>)
    requires list != [] && Ascending(list) && forall n :: n in list ==> InRange(n)
    ensures SeasonsOf(Join(PrintAll(list), ",")) == list && Trim(Join(PrintAll(list), ",")) != []
  {
    var parts := PrintAll(list);
    PrintAllIs(list);
    forall i | 0 <= i < |parts| ensures Digits(parts[i]) {
      assert list[i] in list;
      PrintedParses(list[i]);
    }
    hide Printed; hide Digits; hide Join; hide Trim; hide SplitAny; hide PrintAll; hide ParseParts; hide SortDedup;
    JoinedSplits(parts);
    PartsOfList(list);
    SortedStays(list);
  }

  lemma {:induction false} SpanNormal(a: int, b: int)
    requires InRange(a) && InRange(b) && a <= b
    ensures NormalizeList(Span(a, b)) == Selection(a, if a < b then Some(b) else None, None)
  {
    SpanMeans(a, b);
    AllInRangeKept(Span(a, b));
    SortedStays(Span(a, b));
  }

  /** Every selection that a request can lead to is printed so that reading the print
      leads to the same selection. */
  lemma {:induction false} PrintedSelectionParses(r: Request)
    ensures var s := Requested(r); Trim(SpecOf(s)) != [] && NormalizeList(SeasonsOf(SpecOf(s))) == s
  {
    var s := Requested(r);
    RequestedIsNormal(r);
    hide Requested; hide SeasonsOf; hide NormalizeList; hide Trim;
    if s.list.Some? {
      SeasonsOfList(s.list.value);
    } else if s.end.Some? {
      SeasonsOfRange(s.season, s.end.value);
      hide Printed;
      assert |Listed(s)| > 1;
    } else {
      SeasonsOfNumber(s.season);
      hide Printed;
    }
  }

  lemma {:induction false} SeasonsOfRange(a: int, b: int)
    requires InRange(a) && InRange(b) && a < b
    ensures var text := Printed(a) + "-" + Printed(b);
            Trim(text) != [] && NormalizeList(SeasonsOf(text)) == Selection(a, Some(b), None)
  {
    PartOfRange(a, b);
    OnePart(Printed(a) + "-" + Printed(b));
    SpanMeans(a, b);
    SortedStays(Span(a, b));
    SpanNormal(a, b);
    hide ParsePart; hide Printed; hide SeasonsOf; hide Trim; hide SortDedup; hide NormalizeList;
  }

  lemma {:induction false} NumberIsPlain(n: int)
    requires InRange(n)
    ensures forall k :: 0 <= k < |Printed(n)| ==> Printed(n)[k] !in PART_SEPARATORS
  {
    var text := Printed(n);
    PrintedParses(n);
    hide Printed; hide ParsePositive; hide Trim;
    forall k | 0 <= k < |text| ensures text[k] !in PART_SEPARATORS {
      DigitsArePlain(text[k]);
    }
  }

  lemma {:induction false} NumberIsRead(n: int)
    requires InRange(n)
    ensures Trim(Printed(n)) != [] && SeasonsOf(Printed(n)) == [n]
  {
    hide Printed; hide ParsePositive; hide Trim; hide ParsePart; hide SortDedup; hide SeasonsOf;
    PrintedParses(n);
    PartOfNumber(n);
    NumberIsPlain(n);
    OnePart(Printed(n));
    SortedStays([n]);
  }

  lemma {:induction false} SeasonsOfNumber(n: int)
    requires InRange(n)
    ensures Trim(Printed(n)) != [] && NormalizeList(SeasonsOf(Printed(n))) == Selection(n, None, None)
  {
    hide Printed; hide Trim; hide SeasonsOf; hide NormalizeList;
    NumberIsRead(n);
    assert Span(n, n) == [n];
    SpanNormal(n, n);
  }

  lemma {:induction false} RequestedIsNormal(r: Request)
    ensures var s := Requested(r);
            && InRange(s.season) && (s.end.Some? ==> InRange(s.end.value) && s.season < s.end.value)
            && (s.list.Some? ==> s.list.value != [] && Ascending(s.list.value) && NormalizeList(s.list.value) == s
                                 && forall n :: n in s.list.value ==> InRange(n))
  {
    if Trim(r.spec) != [] {
      NormalListIs(SeasonsOf(r.spec));
    } else if r.list.Some? && r.list.value != [] {
      NormalListIs(r.list.value);
    }
  }

  lemma {:induction false} NormalListIs(list: seq<int>)
    ensures var s := NormalizeList(list);
            && InRange(s.season) && (s.end.Some? ==> InRange(s.end.value) && s.season < s.end.value)
            && (s.list.Some? ==> s.list.value != [] && Ascending(s.list.value) && NormalizeList(s.list.value) == s
                                 && forall n :: n in s.list.value ==> InRange(n))
  {
    NormalizeListIs(list);
    NormalIsDetermined(list);
    var s := NormalizeList(list);
    if s.list.Some? {
      NormalizeListCovers(list, 0);
      SortedStays(s.list.value);
    }
  }

  /** Reading back the printed spec gives the whole response again, for every request,
      whatever else the second request says. */
  lemma {:induction false} SpecRoundTrip(r: Request, list: Option<seq<int>>, season: Option<int>, end: Option<int>)
    ensures ParseSeason(Request(ParseSeason(r).spec, list, season, end)) == ParseSeason(r)
  {
    PrintedSelectionParses(r);
  }

  /** The seasons the response lists are those the stored selection covers. */
  lemma {:induction false} ResponseListsCoverage(r: Request, n: int)
    ensures ParseSeason(r).seasons == SeasonNumbers(ParseSeason(r).selection)
    ensures n in ParseSeason(r).seasons <==> Covers(ParseSeason(r).selection, n)
  {
    var s := Requested(r);
    RequestedIsNormal(r);
    CoversIsMembership(s, n);
    if s.list.Some? {
      SortedStays(s.list.value);
    }
  }
}
