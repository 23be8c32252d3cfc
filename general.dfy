/*
 * The backend's general screening strategy (rs_algo_backend/src/strategies/general.rs),
 * `format_instrument`: every instrument the database cursor yields gets a
 * status for its stochastic, MACD, RSI and Bollinger-band summaries and, when
 * the foreign `get_pattern_status` has something to say, for its last local
 * pattern; cursor errors are skipped.
 *
 * The compact record this crate reads carries a Bollinger-band summary that
 * `compact_instrument` does not fill, so it is kept beside the compact record.
 * `patternStatus` is `get_pattern_status` and `round` the shared `round` helper.
 */
module General {
  import opened Shared
  import opened Compaction
  import PatternDetection

  datatype ListedInstrument = ListedInstrument(compact: CompactInstrument, bb: CompactIndicator)

  /** One item of the cursor. */
  datatype Fetched = Fetched(instrument: ListedInstrument) | FetchFailed

  /** The stochastic rule: bullish on %K over %D inside 20..30 (exclusive),
      else bearish on %K under %D or over 70, else neutral. */
  function StochStatus(stoch: CompactIndicator): (s: Status)
    ensures s == Bullish <==> (stoch.currentA > stoch.currentB && 20.0 < stoch.currentA < 30.0)
    ensures s == Bearish <==> (stoch.currentA < stoch.currentB || stoch.currentA > 70.0)
    ensures s == Neutral <==> !(stoch.currentA < stoch.currentB || stoch.currentA > 70.0)
                              && !(stoch.currentA > stoch.currentB && 20.0 < stoch.currentA < 30.0)
  {
    var a := stoch.currentA;
    var b := stoch.currentB;
    if a > b && a > 20.0 && a < 30.0 then Bullish
    else if a < b then Bearish
    else if a > 70.0 then Bearish
    else if a > b && a > 40.0 then Neutral
    else Neutral
  }

  /** The MACD rule, on values rounded to two decimals (the third arm rounds
      to one decimal but answers neutral like the fall-through). */
  function MacdStatus(macd: CompactIndicator, round: (real, nat) -> real): (s: Status)
    ensures s == Bullish <==> (round(macd.currentA, 2) > round(macd.currentB, 2) && macd.currentA > 0.0)
    ensures s == Bearish <==> (round(macd.currentA, 2) < round(macd.currentB, 2) && round(macd.currentA, 2) < 0.0)
    ensures s == Neutral <==> !(round(macd.currentA, 2) > round(macd.currentB, 2) && macd.currentA > 0.0)
                              && !(round(macd.currentA, 2) < round(macd.currentB, 2) && round(macd.currentA, 2) < 0.0)
  {
    var a := macd.currentA;
    var b := macd.currentB;
    if round(a, 2) > round(b, 2) && a > 0.0 then Bullish
    else if round(a, 2) < round(b, 2) && round(a, 2) < 0.0 then Bearish
    else if round(a, 1) >= round(b, 1) && round(a, 1) <= 0.0 then Neutral
    else Neutral
  }

  /** The RSI rule: under 30 bullish, over 60 bearish, neutral in between,
      30 and 60 included. */
  function RsiStatus(rsi: CompactIndicator): (s: Status)
    ensures s == Bullish <==> rsi.currentA < 30.0
    ensures s == Bearish <==> rsi.currentA > 60.0
    ensures s == Neutral <==> 30.0 <= rsi.currentA <= 60.0
  {
    var a := rsi.currentA;
    if a < 30.0 then Bullish
    else if a > 60.0 then Bearish
    else if a > 40.0 && a < 60.0 then Neutral
    else Neutral
  }

  /** The type of the local pattern before the last one, "none" when there are
      fewer than two. */
  function SecondLastPatternType(local: seq<StoredPattern>): (t: PatternDetection.PatternType)
    ensures |local| < 2 ==> t == PatternDetection.NoShape
    ensures |local| >= 2 ==> t == local[|local| - 2].patternType
  {
    var len := |local|;
    if len < 2 then PatternDetection.NoShape
    else if len > 2 then local[len - 2].patternType
    else local[len - 2].patternType
  }

  function LastPattern(local: seq<StoredPattern>): Option<StoredPattern> {
    if |local| == 0 then None else Some(local[|local| - 1])
  }

  /** The status `get_pattern_status` gives an instrument's local patterns. */
  function PatternStatusOf(local: seq<StoredPattern>,
                           patternStatus: (Option<StoredPattern>, PatternDetection.PatternType) -> Status): Status {
    patternStatus(LastPattern(local), SecondLastPatternType(local))
  }

  /** The source writes a non-default pattern status into the last local
      pattern by index, which panics when there is none. */
  predicate Formattable(x: ListedInstrument,
                        patternStatus: (Option<StoredPattern>, PatternDetection.PatternType) -> Status) {
    |x.compact.patterns.local| > 0 || PatternStatusOf(x.compact.patterns.local, patternStatus) == Default
  }

  /** The body of the cursor loop for one instrument. */
  function Format(x: ListedInstrument,
                  patternStatus: (Option<StoredPattern>, PatternDetection.PatternType) -> Status,
                  round: (real, nat) -> real): (r: ListedInstrument)
    requires Formattable(x, patternStatus)
    ensures var ind := x.compact.indicators;
            var ind' := r.compact.indicators;
            ind'.stoch.status == StochStatus(ind.stoch) && ind'.macd.status == MacdStatus(ind.macd, round)
            && ind'.rsi.status == RsiStatus(ind.rsi) && r.bb.status == Neutral
    ensures var ind := x.compact.indicators;
            var ind' := r.compact.indicators;
            ind'.stoch == ind.stoch.(status := ind'.stoch.status) && ind'.macd == ind.macd.(status := ind'.macd.status)
            && ind'.rsi == ind.rsi.(status := ind'.rsi.status) && r.bb == x.bb.(status := r.bb.status)
            && ind' == ind.(stoch := ind'.stoch, macd := ind'.macd, rsi := ind'.rsi)
    ensures var local := x.compact.patterns.local;
            var local' := r.compact.patterns.local;
            var status := PatternStatusOf(local, patternStatus);
            |local'| == |local|
            && (forall k :: 0 <= k < |local| - 1 ==> local'[k] == local[k])
            && (status != Default ==> local'[|local| - 1] == local[|local| - 1].(status := status))
            && (status == Default ==> local' == local)
    ensures r.compact == x.compact.(indicators := r.compact.indicators,
                                    patterns := x.compact.patterns.(local := r.compact.patterns.local))
  {
    var local := x.compact.patterns.local;
    var status := PatternStatusOf(local, patternStatus);
    var local' := if status != Default then local[|local| - 1 := local[|local| - 1].(status := status)] else local;
    var ind := x.compact.indicators;
    var ind' := ind.(stoch := ind.stoch.(status := StochStatus(ind.stoch)),
                     macd := ind.macd.(status := MacdStatus(ind.macd, round)),
                     rsi := ind.rsi.(status := RsiStatus(ind.rsi)));
    ListedInstrument(x.compact.(indicators := ind', patterns := x.compact.patterns.(local := local')),
                     x.bb.(status := Neutral))
  }

  /** The instruments the cursor yields, in order, errors skipped. */
  function Successes(items: seq<Fetched>): seq<ListedInstrument> {
    if |items| == 0 then []
    else Successes(items[..|items| - 1])
         + (if items[|items| - 1].Fetched? then [items[|items| - 1].instrument] else [])
  }

  /** Skipping errors keeps the cursor's order: it distributes over concatenation. */
  lemma {:induction false} SuccessesAppend(a: seq<Fetched>, b: seq<Fetched>)
    ensures Successes(a + b) == Successes(a) + Successes(b)
    decreases |b|
  {
    if |b| > 0 {
      var b0 := b[..|b| - 1];
      assert (a + b)[..|a + b| - 1] == a + b0;
      SuccessesAppend(a, b0);
    } else {
      assert a + b == a;
    }
  }

  /** Nothing is skipped but the errors, and everything kept came from the cursor. */
  lemma {:induction false} SuccessesAreTheFetched(items: seq<Fetched>)
    ensures |Successes(items)| <= |items|
    ensures (forall k :: 0 <= k < |items| ==> items[k].Fetched?) ==>
              |Successes(items)| == |items|
              && forall k :: 0 <= k < |items| ==> Successes(items)[k] == items[k].instrument
    ensures forall x :: x in Successes(items) ==> Fetched(x) in items
  {
    if |items| > 0 {
      var front := items[..|items| - 1];
      SuccessesAreTheFetched(front);
      forall x | x in Successes(items)
        ensures Fetched(x) in items
      {
        if x in Successes(front) {
          assert Fetched(x) in front;
        }
      }
    }
  }

  /** The body of the cursor loop, statement by statement, for one instrument. */
  method FormatOne(instrument: ListedInstrument,
                   patternStatus: (Option<StoredPattern>, PatternDetection.PatternType) -> Status,
                   round: (real, nat) -> real)
    returns (formatted: ListedInstrument)
    requires Formattable(instrument, patternStatus)
    ensures formatted == Format(instrument, patternStatus, round)
  {
    var local := instrument.compact.patterns.local;
    var lastPatternStatus := PatternStatusOf(local, patternStatus);
    if lastPatternStatus != Default {
      var len := |local|;
      local := local[len - 1 := local[len - 1].(status := lastPatternStatus)];
    }
    var ind := instrument.compact.indicators;
    ind := ind.(stoch := ind.stoch.(status := StochStatus(ind.stoch)));
    ind := ind.(macd := ind.macd.(status := MacdStatus(ind.macd, round)));
    ind := ind.(rsi := ind.rsi.(status := RsiStatus(ind.rsi)));
    formatted := ListedInstrument(
      instrument.compact.(indicators := ind, patterns := instrument.compact.patterns.(local := local)),
      instrument.bb.(status := Neutral));
  }

  /** `format_instrument`: the cursor loop. */
  method FormatInstruments(items: seq<Fetched>,
                           patternStatus: (Option<StoredPattern>, PatternDetection.PatternType) -> Status,
                           round: (real, nat) -> real)
    returns (docs: seq<ListedInstrument>)
    requires forall x :: x in Successes(items) ==> Formattable(x, patternStatus)
    ensures |docs| == |Successes(items)|
    ensures forall k :: 0 <= k < |docs| ==> docs[k] == Format(Successes(items)[k], patternStatus, round)
  {
    docs := [];
    var n := 0;
    while n < |items|
      invariant 0 <= n <= |items|
      invariant Successes(items[..n]) <= Successes(items)
      invariant |docs| == |Successes(items[..n])|
      invariant forall k :: 0 <= k < |docs| ==> docs[k] == Format(Successes(items[..n])[k], patternStatus, round)
    {
      var result := items[n];
      assert items[..n + 1][..n] == items[..n];
      assert items[..n + 1] + items[n + 1..] == items;
      SuccessesAppend(items[..n + 1], items[n + 1..]);
      var front := Successes(items[..n + 1]);
      match result {
        case Fetched(instrument) =>
          assert front[|front| - 1] == instrument;
          var formatted := FormatOne(instrument, patternStatus, round);
          docs := docs + [formatted];
        case FetchFailed =>
      }
      n := n + 1;
    }
    assert items[..n] == items;
  }
}
