/*
 * Pattern detection over turning points (src/patterns/pattern.rs). The
 * detector keeps the latest maxima and minima, merges them newest first,
 * slides a fixed-size window over them and records, for each window, the
 * first chart pattern the window matches; it always finishes by recording a
 * "no pattern" marker. Patterns go to the local or the extrema list.
 *
 * The sixteen shape tests (triangles, rectangles, channels, broadenings,
 * doubles) live in modules that are not part of this model; they are passed
 * in as one predicate `matches(kind, window, current_price)`. The three
 * `PATTERNS_*` settings are passed in as `Settings`.
 */
module PatternDetection {
  import opened Shared

  datatype PatternType =
    | TriangleSymmetricalTop | TriangleSymmetricalBottom
    | TriangleDescendantTop | TriangleDescendantBottom
    | TriangleAscendantTop | TriangleAscendantBottom
    | RectangleTop | RectangleBottom
    | ChannelUpTop | ChannelUpBottom | ChannelDownTop | ChannelDownBottom
    | BroadeningTop | BroadeningBottom
    | DoubleBottom | DoubleTop
    | NoShape

  datatype PatternSize = Local | Extrema

  datatype Pattern = Pattern(patternType: PatternType, patternSize: PatternSize, dataPoints: seq<Point>)

  /** `PATTERNS_MAX_POINTS`, `PATTERNS_MIN_POINTS` and `PATTERNS_WINDOW_SIZE`. */
  datatype Settings = Settings(localMaxPoints: nat, minPoints: nat, windowSize: nat)

  /** The order in which `detect_pattern` tries the shapes on a window. */
  const DetectionOrder: seq<PatternType> :=
    [TriangleAscendantTop, TriangleAscendantBottom, TriangleDescendantTop, TriangleDescendantBottom,
     TriangleSymmetricalTop, TriangleSymmetricalBottom, RectangleTop, RectangleBottom,
     ChannelUpTop, ChannelUpBottom, ChannelDownTop, ChannelDownBottom,
     BroadeningTop, BroadeningBottom, DoubleTop, DoubleBottom]

  /** The marker recorded when no (further) window is left. */
  function NoPatternMarker(size: PatternSize): Pattern {
    Pattern(NoShape, size, [Point(0, 0.0)])
  }

  /** The first kind among `kinds[k..]` that the window matches. */
  function FirstMatch(kinds: seq<PatternType>, k: nat, window: seq<Point>, price: real,
                      matches: (PatternType, seq<Point>, real) -> bool): Option<PatternType>
    requires k <= |kinds|
    decreases |kinds| - k
  {
    if k == |kinds| then None
    else if matches(kinds[k], window, price) then Some(kinds[k])
    else FirstMatch(kinds, k + 1, window, price, matches)
  }

  lemma {:induction false} FirstMatchIsFirst(kinds: seq<PatternType>, k: nat, window: seq<Point>, price: real,
                                             matches: (PatternType, seq<Point>, real) -> bool)
    requires k <= |kinds|
    ensures var m := FirstMatch(kinds, k, window, price, matches);
      m.None? <==> forall j :: k <= j < |kinds| ==> !matches(kinds[j], window, price)
    ensures var m := FirstMatch(kinds, k, window, price, matches);
      m.Some? ==> exists i :: k <= i < |kinds| && kinds[i] == m.value && matches(m.value, window, price)
                              && forall j :: k <= j < i ==> !matches(kinds[j], window, price)
    decreases |kinds| - k
  {
    if k < |kinds| && !matches(kinds[k], window, price) {
      FirstMatchIsFirst(kinds, k + 1, window, price, matches);
    }
  }

  /** The pattern, if any, that one window yields: `detect_pattern`'s if-chain,
      trying the shapes in `DetectionOrder`. */
  function Detect(window: seq<Point>, price: real, matches: (PatternType, seq<Point>, real) -> bool): Option<PatternType> {
    FirstMatch(DetectionOrder, 0, window, price, matches)
  }

  /** A window yields the first shape in `DetectionOrder` that it matches, and
      nothing exactly when it matches none. */
  lemma DetectIsFirstMatch(window: seq<Point>, price: real, matches: (PatternType, seq<Point>, real) -> bool)
    ensures var m := Detect(window, price, matches);
      m.None? <==> forall j :: 0 <= j < |DetectionOrder| ==> !matches(DetectionOrder[j], window, price)
    ensures var m := Detect(window, price, matches);
      m.Some? ==> exists i :: 0 <= i < |DetectionOrder| && DetectionOrder[i] == m.value
                              && matches(m.value, window, price)
                              && forall j :: 0 <= j < i ==> !matches(DetectionOrder[j], window, price)
  {
    FirstMatchIsFirst(DetectionOrder, 0, window, price, matches);
  }

  /** The last `n` points of `s`, or all of them when there are no more than `n`. */
  function Latest(s: seq<Point>, n: nat): (r: seq<Point>)
    ensures |r| == if |s| > n then n else |s|
    ensures r == s[|s| - |r|..]
  {
    if |s| > n then s[|s| - n..] else s
  }

  predicate Ascending(s: seq<Point>) {
    forall i :: 0 <= i < |s| - 1 ==> s[i].index <= s[i + 1].index
  }

  predicate Descending(s: seq<Point>) {
    forall i :: 0 <= i < |s| - 1 ==> s[i].index >= s[i + 1].index
  }

  /** Inserts `x` into `s` after the trailing points whose index exceeds its own. */
  function Insert(s: seq<Point>, x: Point): seq<Point> {
    if |s| == 0 then [x]
    else if s[|s| - 1].index <= x.index then s + [x]
    else Insert(s[..|s| - 1], x) + [s[|s| - 1]]
  }

  /** `Insert` adds one point; the new last point is `x` or the old last point. */
  lemma {:induction false} InsertShape(s: seq<Point>, x: Point)
    ensures |Insert(s, x)| == |s| + 1
    ensures var r := Insert(s, x); r[|r| - 1] == x || (|s| > 0 && r[|r| - 1] == s[|s| - 1])
  {
    if |s| > 0 && s[|s| - 1].index > x.index {
      InsertShape(s[..|s| - 1], x);
    }
  }

  /** `Insert` adds exactly `x`. */
  lemma {:induction false} InsertKeepsPoints(s: seq<Point>, x: Point)
    ensures multiset(Insert(s, x)) == multiset(s) + multiset{x}
    ensures |Insert(s, x)| == |s| + 1
  {
    if |s| > 0 && s[|s| - 1].index > x.index {
      var init := s[..|s| - 1];
      InsertKeepsPoints(init, x);
      assert s == init + [s[|s| - 1]];
    }
  }

  lemma AscendingInit(s: seq<Point>)
    requires Ascending(s) && |s| > 0
    ensures Ascending(s[..|s| - 1])
  {
    var init := s[..|s| - 1];
    forall i | 0 <= i < |init| - 1
      ensures init[i].index <= init[i + 1].index
    {
      assert init[i] == s[i] && init[i + 1] == s[i + 1];
    }
  }

  lemma AscendingSnoc(s: seq<Point>, y: Point)
    requires Ascending(s) && (|s| == 0 || s[|s| - 1].index <= y.index)
    ensures Ascending(s + [y])
  {
    var r := s + [y];
    forall i | 0 <= i < |r| - 1
      ensures r[i].index <= r[i + 1].index
    {
      if i < |s| - 1 {
        assert r[i] == s[i] && r[i + 1] == s[i + 1];
      } else {
        assert r[i] == s[|s| - 1] && r[i + 1] == y;
      }
    }
  }

  /** Into an ascending sequence, `Insert` keeps it ascending. */
  lemma {:induction false} InsertSorted(s: seq<Point>, x: Point)
    requires Ascending(s)
    ensures Ascending(Insert(s, x))
  {
    if |s| == 0 {
    } else if s[|s| - 1].index <= x.index {
      AscendingSnoc(s, x);
    } else {
      var last := s[|s| - 1];
      var init := s[..|s| - 1];
      AscendingInit(s);
      InsertSorted(init, x);
      InsertShape(init, x);
      var rest := Insert(init, x);
      if rest[|rest| - 1] != x {
        assert rest[|rest| - 1] == s[|s| - 2];
      }
      AscendingSnoc(rest, last);
    }
  }

  /** `sort_by` on the indices: a stable sort, here an insertion sort. */
  function SortByIndex(s: seq<Point>): seq<Point> {
    if |s| == 0 then [] else Insert(SortByIndex(s[..|s| - 1]), s[|s| - 1])
  }

  lemma {:induction false} SortByIndexAscending(s: seq<Point>)
    ensures Ascending(SortByIndex(s))
  {
    if |s| > 0 {
      SortByIndexAscending(s[..|s| - 1]);
      InsertSorted(SortByIndex(s[..|s| - 1]), s[|s| - 1]);
    }
  }

  lemma {:induction false} SortByIndexPermutes(s: seq<Point>)
    ensures multiset(SortByIndex(s)) == multiset(s)
  {
    if |s| > 0 {
      SortByIndexPermutes(s[..|s| - 1]);
      InsertKeepsPoints(SortByIndex(s[..|s| - 1]), s[|s| - 1]);
      assert s == s[..|s| - 1] + [s[|s| - 1]];
    }
  }

  /** `SortByIndex` orders the points by index and keeps exactly the same points. */
  lemma SortByIndexSorts(s: seq<Point>)
    ensures Ascending(SortByIndex(s))
    ensures multiset(SortByIndex(s)) == multiset(s)
  {
    SortByIndexAscending(s);
    SortByIndexPermutes(s);
  }

  lemma {:induction false} ReverseKeepsPoints(s: seq<Point>)
    ensures multiset(Reverse(s)) == multiset(s)
    ensures Ascending(s) ==> Descending(Reverse(s))
  {
    ReverseMirrors(s);
    if |s| > 0 {
      ReverseKeepsPoints(s[..|s| - 1]);
      assert s == s[..|s| - 1] + [s[|s| - 1]];
    }
    if Ascending(s) {
      var r := Reverse(s);
      forall i | 0 <= i < |r| - 1
        ensures r[i].index >= r[i + 1].index
      {
        assert r[i] == s[|s| - 1 - i] && r[i + 1] == s[|s| - 1 - (i + 1)];
      }
    }
  }

  /** The latest maxima and minima, merged newest first. */
  function Merged(maxima: seq<Point>, minima: seq<Point>, localMaxPoints: nat): seq<Point> {
    Reverse(SortByIndex(Latest(maxima, localMaxPoints) + Latest(minima, localMaxPoints)))
  }

  /** The merge holds exactly the latest `localMaxPoints` maxima and minima,
      ordered by index, newest first. */
  lemma MergedIsNewestFirst(maxima: seq<Point>, minima: seq<Point>, localMaxPoints: nat)
    ensures Descending(Merged(maxima, minima, localMaxPoints))
    ensures multiset(Merged(maxima, minima, localMaxPoints))
            == multiset(Latest(maxima, localMaxPoints)) + multiset(Latest(minima, localMaxPoints))
  {
    SortByIndexSorts(Latest(maxima, localMaxPoints) + Latest(minima, localMaxPoints));
    ReverseKeepsPoints(SortByIndex(Latest(maxima, localMaxPoints) + Latest(minima, localMaxPoints)));
  }

  /** How many windows of size `ws` fit in `n` points. */
  function NumWindows(n: nat, ws: nat): nat
    requires ws > 0
  {
    if n >= ws then n - ws + 1 else 0
  }

  /** What window `i` yields: its detected pattern, or nothing. */
  function Yield(points: seq<Point>, ws: nat, i: nat, size: PatternSize, price: real,
                 matches: (PatternType, seq<Point>, real) -> bool): seq<Pattern>
    requires i + ws <= |points|
  {
    var window := points[i..i + ws];
    match Detect(window, price, matches)
    case Some(t) => [Pattern(t, size, window)]
    case None => []
  }

  /** The patterns the first `k` windows yield, in window order. */
  function WindowPatterns(points: seq<Point>, ws: nat, k: nat, size: PatternSize, price: real,
                          matches: (PatternType, seq<Point>, real) -> bool): seq<Pattern>
    requires ws > 0 && k <= NumWindows(|points|, ws)
  {
    if k == 0 then []
    else WindowPatterns(points, ws, k - 1, size, price, matches) + Yield(points, ws, k - 1, size, price, matches)
  }

  /** Each window yields at most one pattern, and every recorded pattern is
      the detected shape of one of the windows, carrying that window. */
  lemma {:induction false} WindowPatternsFromWindows(points: seq<Point>, ws: nat, k: nat, size: PatternSize, price: real,
                                                     matches: (PatternType, seq<Point>, real) -> bool)
    requires ws > 0 && k <= NumWindows(|points|, ws)
    ensures |WindowPatterns(points, ws, k, size, price, matches)| <= k
    ensures forall q :: 0 <= q < |WindowPatterns(points, ws, k, size, price, matches)| ==>
      exists i :: 0 <= i < k && Yield(points, ws, i, size, price, matches)
                                == [WindowPatterns(points, ws, k, size, price, matches)[q]]
  {
    if k > 0 {
      WindowPatternsFromWindows(points, ws, k - 1, size, price, matches);
      var before := WindowPatterns(points, ws, k - 1, size, price, matches);
      var y := Yield(points, ws, k - 1, size, price, matches);
      var all := WindowPatterns(points, ws, k, size, price, matches);
      assert all == before + y;
      forall q | 0 <= q < |all|
        ensures exists i :: 0 <= i < k && Yield(points, ws, i, size, price, matches) == [all[q]]
      {
        if q < |before| {
          assert all[q] == before[q];
        } else {
          assert y == [all[q]];
        }
      }
    }
  }

  /** A yielded pattern is the first matching shape of its window and carries that window. */
  lemma YieldIsDetection(points: seq<Point>, ws: nat, i: nat, size: PatternSize, price: real,
                         matches: (PatternType, seq<Point>, real) -> bool)
    requires i + ws <= |points|
    ensures var y := Yield(points, ws, i, size, price, matches);
      |y| <= 1
      && (|y| == 1 <==> exists j :: 0 <= j < |DetectionOrder| && matches(DetectionOrder[j], points[i..i + ws], price))
      && (|y| == 1 ==> y[0].dataPoints == points[i..i + ws] && y[0].patternSize == size
                       && matches(y[0].patternType, points[i..i + ws], price))
  {
    DetectIsFirstMatch(points[i..i + ws], price, matches);
  }

  predicate EnoughPoints(maxima: seq<Point>, minima: seq<Point>, settings: Settings) {
    |maxima| >= settings.minPoints && |minima| >= settings.minPoints
  }

  /** What one `detect_pattern` call appends to the list of its size. */
  function Detected(size: PatternSize, maxima: seq<Point>, minima: seq<Point>, price: real, settings: Settings,
                    matches: (PatternType, seq<Point>, real) -> bool): seq<Pattern>
    requires EnoughPoints(maxima, minima, settings) ==> settings.windowSize > 0
  {
    if EnoughPoints(maxima, minima, settings) then
      var points := Merged(maxima, minima, settings.localMaxPoints);
      WindowPatterns(points, settings.windowSize, NumWindows(|points|, settings.windowSize), size, price, matches)
      + [NoPatternMarker(size)]
    else [NoPatternMarker(size)]
  }

  /** A call appends between one and (number of windows + 1) patterns and
      always ends with the "no pattern" marker; with too few points that
      marker is all it appends. */
  lemma DetectedShape(size: PatternSize, maxima: seq<Point>, minima: seq<Point>, price: real, settings: Settings,
                      matches: (PatternType, seq<Point>, real) -> bool)
    requires EnoughPoints(maxima, minima, settings) ==> settings.windowSize > 0
    ensures var d := Detected(size, maxima, minima, price, settings, matches);
      |d| >= 1 && d[|d| - 1] == NoPatternMarker(size)
    ensures !EnoughPoints(maxima, minima, settings) ==>
      Detected(size, maxima, minima, price, settings, matches) == [NoPatternMarker(size)]
    ensures EnoughPoints(maxima, minima, settings) ==>
      var points := Merged(maxima, minima, settings.localMaxPoints);
      |Detected(size, maxima, minima, price, settings, matches)| <= NumWindows(|points|, settings.windowSize) + 1
  {
    if EnoughPoints(maxima, minima, settings) {
      var points := Merged(maxima, minima, settings.localMaxPoints);
      WindowPatternsFromWindows(points, settings.windowSize, NumWindows(|points|, settings.windowSize), size, price, matches);
    }
  }

  function Other(size: PatternSize): PatternSize {
    if size == Local then Extrema else Local
  }

  class Patterns {
    var localPatterns: seq<Pattern>
    var extremaPatterns: seq<Pattern>

    constructor ()
      ensures localPatterns == [] && extremaPatterns == []
    {
      localPatterns := [];
      extremaPatterns := [];
    }

    function PatternsOf(size: PatternSize): seq<Pattern>
      reads this
    {
      if size == Local then localPatterns else extremaPatterns
    }

    /** `set_pattern`: appends the pattern to the list of its size. */
    method SetPattern(dataPoints: seq<Point>, size: PatternSize, patternType: PatternType)
      modifies this
      ensures PatternsOf(size) == old(PatternsOf(size)) + [Pattern(patternType, size, dataPoints)]
      ensures PatternsOf(Other(size)) == old(PatternsOf(Other(size)))
    {
      match size {
        case Local => localPatterns := localPatterns + [Pattern(patternType, size, dataPoints)];
        case Extrema => extremaPatterns := extremaPatterns + [Pattern(patternType, size, dataPoints)];
      }
    }

    /** The `while no_pattern` loop of `detect_pattern`: records each window's
        pattern in turn, then the "no pattern" marker once the windows run out. */
    method ScanWindows(size: PatternSize, locals: seq<Point>, windowSize: nat, currentPrice: real,
                       matches: (PatternType, seq<Point>, real) -> bool)
      requires windowSize > 0
      modifies this
      ensures PatternsOf(size) == old(PatternsOf(size))
        + WindowPatterns(locals, windowSize, NumWindows(|locals|, windowSize), size, currentPrice, matches)
        + [NoPatternMarker(size)]
      ensures PatternsOf(Other(size)) == old(PatternsOf(Other(size)))
    {
      var windows := NumWindows(|locals|, windowSize);
      ghost var before := PatternsOf(size);
      ghost var other := PatternsOf(Other(size));
      var next := 0;
      var noPattern := true;
      while noPattern
        invariant next <= windows
        invariant noPattern ==>
          PatternsOf(size) == before + WindowPatterns(locals, windowSize, next, size, currentPrice, matches)
        invariant !noPattern ==>
          PatternsOf(size) == before + WindowPatterns(locals, windowSize, windows, size, currentPrice, matches)
                              + [NoPatternMarker(size)]
        invariant PatternsOf(Other(size)) == other
        decreases windows - next + (if noPattern then 1 else 0)
      {
        if next < windows {
          var dataPoints := locals[next..next + windowSize];
          var detected := Detect(dataPoints, currentPrice, matches);
          ghost var found := WindowPatterns(locals, windowSize, next, size, currentPrice, matches);
          ghost var y := Yield(locals, windowSize, next, size, currentPrice, matches);
          assert y == if detected.Some? then [Pattern(detected.value, size, dataPoints)] else [];
          if detected.Some? {
            SetPattern(dataPoints, size, detected.value);
          }
          assert PatternsOf(size) == before + found + y;
          assert WindowPatterns(locals, windowSize, next + 1, size, currentPrice, matches) == found + y;
          next := next + 1;
        } else {
          SetPattern([Point(0, 0.0)], size, NoShape);
          noPattern := false;
        }
      }
    }

    /** `detect_pattern`: appends `Detected(...)` to the list of `size` and
        leaves the other list alone. */
    method DetectPattern(size: PatternSize, maxima: seq<Point>, minima: seq<Point>, currentPrice: real,
                         settings: Settings, matches: (PatternType, seq<Point>, real) -> bool)
      requires EnoughPoints(maxima, minima, settings) ==> settings.windowSize > 0
      modifies this
      ensures PatternsOf(size) == old(PatternsOf(size)) + Detected(size, maxima, minima, currentPrice, settings, matches)
      ensures PatternsOf(Other(size)) == old(PatternsOf(Other(size)))
    {
      var localMaxPoints := settings.localMaxPoints;
      var windowSize := settings.windowSize;
      var maxStart := 0;
      var maxEnd := 0;
      var minStart := 0;
      var minEnd := 0;
      var maximaLength := |maxima|;
      var minimaLength := |minima|;
      if maximaLength >= settings.minPoints && minimaLength >= settings.minPoints {
        if maximaLength > localMaxPoints {
          maxStart := maximaLength - localMaxPoints;
          maxEnd := maximaLength;
        } else {
          maxStart := 0;
          maxEnd := maximaLength;
        }
        assert maxima[maxStart..maxEnd] == Latest(maxima, localMaxPoints);
        if minimaLength > localMaxPoints {
          minStart := minimaLength - localMaxPoints;
          minEnd := minimaLength;
        } else {
          minStart := 0;
          minEnd := minimaLength;
        }
        assert minima[minStart..minEnd] == Latest(minima, localMaxPoints);
        var locals := maxima[maxStart..maxEnd] + minima[minStart..minEnd];
        locals := SortByIndex(locals);
        locals := Reverse(locals);
        ScanWindows(size, locals, windowSize, currentPrice, matches);
      } else {
        SetPattern([Point(0, 0.0)], size, NoShape);
      }
    }
  }
}
