/*
 * Candles and their builder (src/candle.rs). A builder collects the date, the
 * four prices, the volume and the previous candle one setter at a time;
 * `build` fails unless all seven are present, and otherwise classifies the
 * candle by the first matching shape in a fixed priority order.
 *
 * Prices are real numbers: no NaN, no rounding. Where the source divides by a
 * quantity that can be zero, the IEEE outcome is written out: a zero
 * denominator (taken as +0) gives +infinity, -infinity or NaN according to the
 * sign of the numerator, and NaN compares false.
 */
module Candles {
  import opened Shared

  /** A timestamp; the calendar type itself is not modelled. */
  type DateTime = int

  datatype CandleType =
    | Default | Doji | Karakasa | BearishKarakasa | Marubozu | BearishMarubozu
    | Harami | BearishHarami | Engulfing | BearishEngulfing | HangingMan

  datatype Candle = Candle(
    candleType: CandleType, date: DateTime, open: real, high: real, low: real, close: real, volume: real)

  /** The previous candle as the builder receives it: date, open, high, low, close, volume. */
  datatype PreviousCandle = PreviousCandle(date: DateTime, open: real, high: real, low: real, close: real, volume: real)

  datatype CandleBuilder = CandleBuilder(
    date: Option<DateTime>, open: Option<real>, high: Option<real>, low: Option<real>,
    close: Option<real>, volume: Option<real>, previous: Option<PreviousCandle>)

  datatype ErrorKind = InvalidCandle

  datatype BuildResult = Ok(candle: Candle) | Err(error: ErrorKind)

  datatype Ohlc = Ohlc(open: real, high: real, low: real, close: real)

  function NewBuilder(): (b: CandleBuilder)
    ensures b.date.None? && b.open.None? && b.high.None? && b.low.None?
    ensures b.close.None? && b.volume.None? && b.previous.None?
  {
    CandleBuilder(None, None, None, None, None, None, None)
  }

  // Each setter fills its own field and leaves the others as they were.

  function SetDate(b: CandleBuilder, val: DateTime): (r: CandleBuilder)
    ensures r.date == Some(val) && r.(date := b.date) == b
  {
    b.(date := Some(val))
  }

  function SetOpen(b: CandleBuilder, val: real): (r: CandleBuilder)
    ensures r.open == Some(val) && r.(open := b.open) == b
  {
    b.(open := Some(val))
  }

  function SetHigh(b: CandleBuilder, val: real): (r: CandleBuilder)
    ensures r.high == Some(val) && r.(high := b.high) == b
  {
    b.(high := Some(val))
  }

  function SetLow(b: CandleBuilder, val: real): (r: CandleBuilder)
    ensures r.low == Some(val) && r.(low := b.low) == b
  {
    b.(low := Some(val))
  }

  function SetClose(b: CandleBuilder, val: real): (r: CandleBuilder)
    ensures r.close == Some(val) && r.(close := b.close) == b
  {
    b.(close := Some(val))
  }

  function SetVolume(b: CandleBuilder, val: real): (r: CandleBuilder)
    ensures r.volume == Some(val) && r.(volume := b.volume) == b
  {
    b.(volume := Some(val))
  }

  function SetPrevious(b: CandleBuilder, val: PreviousCandle): (r: CandleBuilder)
    ensures r.previous == Some(val) && r.(previous := b.previous) == b
  {
    b.(previous := Some(val))
  }

  /** `x / y > bound` in IEEE arithmetic, for a finite `bound`. */
  predicate QuotientAbove(x: real, y: real, bound: real) {
    if y != 0.0 then x / y > bound else x > 0.0
  }

  /** `x / y < bound` in IEEE arithmetic, for a finite `bound`. */
  predicate QuotientBelow(x: real, y: real, bound: real) {
    if y != 0.0 then x / y < bound else x < 0.0
  }

  predicate IsDoji(c: Ohlc) {
    c.open.Floor == c.close.Floor || Abs(c.open - c.close) <= (c.high - c.low) * 0.1
  }

  predicate IsKarakasa(c: Ohlc) {
    c.high - c.low > 3.0 * (c.open - c.close)
    && QuotientAbove(c.close - c.low, 0.001 + c.high - c.low, 0.6)
    && QuotientAbove(c.open - c.low, 0.001 + c.high - c.low, 0.6)
  }

  predicate IsBearishKarakasa(c: Ohlc) {
    c.high - c.low > 3.0 * (c.open - c.close)
    && QuotientAbove(c.high - c.close, 0.001 + c.high - c.low, 0.6)
    && QuotientAbove(c.high - c.open, 0.001 + c.high - c.low, 0.6)
  }

  predicate IsMarubozu(c: Ohlc) {
    var highShadowSmall := QuotientBelow(c.high - c.close, c.close, 0.1);
    var lowShadowSmall := QuotientBelow(c.low - c.open, c.open, 0.1);
    (c.open <= c.low && lowShadowSmall) && (c.high >= c.close && highShadowSmall)
  }

  /** As written, the high shadow is bounded twice and the low shadow never. */
  predicate IsBearishMarubozu(c: Ohlc) {
    var highShadowSmall := QuotientBelow(c.high - c.open, c.open, 0.1);
    (c.open >= c.high && highShadowSmall) && (c.low <= c.close && highShadowSmall)
  }

  predicate IsHangingMan(c: Ohlc) {
    c.high - c.low > 4.0 * (c.open - c.close)
    && QuotientAbove(c.close - c.low, 0.001 + c.high - c.low, 0.75)
    && QuotientAbove(c.open - c.low, 0.001 + c.high - c.low, 0.75)
  }

  predicate IsEngulfing(c: Ohlc, p: Ohlc) {
    p.open > p.close && c.close > c.open && c.close >= p.open && p.close >= c.open
    && c.close - c.open > p.open - p.close
  }

  predicate IsBearishEngulfing(c: Ohlc, p: Ohlc) {
    p.close > p.open && c.open > c.close && c.open >= p.close && p.open >= c.close
    && c.open - c.close > p.close - p.open
  }

  predicate IsHarami(c: Ohlc, p: Ohlc) {
    p.open > p.close && c.close > c.open && c.close <= p.open && p.close <= c.open
    && c.close - c.open < p.open - p.close
  }

  predicate IsBearishHarami(c: Ohlc, p: Ohlc) {
    p.close > p.open && c.open > c.close && c.open <= p.close && p.open <= c.close
    && c.open - c.close < p.close - p.open
  }

  /** The order in which `identify_candle_type` tries the shapes. */
  const Priority: seq<CandleType> :=
    [Doji, Karakasa, BearishKarakasa, HangingMan, Marubozu, BearishMarubozu,
     Engulfing, BearishEngulfing, Harami, BearishHarami]

  /** The outcome of every shape test on one candle and its predecessor. */
  datatype Shapes = Shapes(
    doji: bool, karakasa: bool, bearishKarakasa: bool, hangingMan: bool, marubozu: bool,
    bearishMarubozu: bool, engulfing: bool, bearishEngulfing: bool, harami: bool, bearishHarami: bool)

  function ShapesOf(c: Ohlc, p: Ohlc): Shapes {
    Shapes(IsDoji(c), IsKarakasa(c), IsBearishKarakasa(c), IsHangingMan(c), IsMarubozu(c),
           IsBearishMarubozu(c), IsEngulfing(c, p), IsBearishEngulfing(c, p), IsHarami(c, p),
           IsBearishHarami(c, p))
  }

  predicate HasShape(t: CandleType, s: Shapes) {
    match t
    case Default => true
    case Doji => s.doji
    case Karakasa => s.karakasa
    case BearishKarakasa => s.bearishKarakasa
    case HangingMan => s.hangingMan
    case Marubozu => s.marubozu
    case BearishMarubozu => s.bearishMarubozu
    case Engulfing => s.engulfing
    case BearishEngulfing => s.bearishEngulfing
    case Harami => s.harami
    case BearishHarami => s.bearishHarami
  }

  /** The first of the shapes `ks[k..]` that the tests report, or `Default` when none is. */
  function FirstShape(ks: seq<CandleType>, k: nat, s: Shapes): CandleType
    requires k <= |ks|
    decreases |ks| - k
  {
    if k == |ks| then Default
    else if HasShape(ks[k], s) then ks[k]
    else FirstShape(ks, k + 1, s)
  }

  /** `FirstShape` picks a reported shape with no reported shape before it,
      and gives `Default` exactly when none is reported. */
  lemma {:induction false} FirstShapeIsFirst(ks: seq<CandleType>, k: nat, s: Shapes)
    requires k <= |ks| && Default !in ks
    ensures var t := FirstShape(ks, k, s);
      t == Default <==> forall j :: k <= j < |ks| ==> !HasShape(ks[j], s)
    ensures var t := FirstShape(ks, k, s);
      t != Default ==> exists i :: k <= i < |ks| && ks[i] == t && HasShape(t, s)
                                   && forall j :: k <= j < i ==> !HasShape(ks[j], s)
    decreases |ks| - k
  {
    if k < |ks| && !HasShape(ks[k], s) {
      FirstShapeIsFirst(ks, k + 1, s);
    }
  }

  /** The if-chain of `identify_candle_type`. */
  function Classify(s: Shapes): CandleType {
    if s.doji then Doji
    else if s.karakasa then Karakasa
    else if s.bearishKarakasa then BearishKarakasa
    else if s.hangingMan then HangingMan
    else if s.marubozu then Marubozu
    else if s.bearishMarubozu then BearishMarubozu
    else if s.engulfing then Engulfing
    else if s.bearishEngulfing then BearishEngulfing
    else if s.harami then Harami
    else if s.bearishHarami then BearishHarami
    else Default
  }

  /** One unfolding of the priority scan. */
  lemma FirstShapeStep(k: nat, s: Shapes)
    requires k < |Priority|
    ensures FirstShape(Priority, k, s) == if HasShape(Priority[k], s) then Priority[k] else FirstShape(Priority, k + 1, s)
  {
  }

  lemma PriorityOrder()
    ensures |Priority| == 10
    ensures Priority[0] == Doji && Priority[1] == Karakasa && Priority[2] == BearishKarakasa
    ensures Priority[3] == HangingMan && Priority[4] == Marubozu && Priority[5] == BearishMarubozu
    ensures Priority[6] == Engulfing && Priority[7] == BearishEngulfing && Priority[8] == Harami
    ensures Priority[9] == BearishHarami
  {
  }

  lemma ClassifyIsFirstShape(s: Shapes)
    ensures Classify(s) == FirstShape(Priority, 0, s)
  {
    PriorityOrder();
    FirstShapeStep(0, s);
    if !s.doji {
      FirstShapeStep(1, s);
      if !s.karakasa {
        FirstShapeStep(2, s);
        if !s.bearishKarakasa {
          FirstShapeStep(3, s);
          if !s.hangingMan {
            FirstShapeStep(4, s);
            if !s.marubozu {
              FirstShapeStep(5, s);
              if !s.bearishMarubozu {
                FirstShapeStep(6, s);
                if !s.engulfing {
                  FirstShapeStep(7, s);
                  if !s.bearishEngulfing {
                    FirstShapeStep(8, s);
                    if !s.harami {
                      FirstShapeStep(9, s);
                    }
                  }
                }
              }
            }
          }
        }
      }
    }
  }

  /** `identify_candle_type`: the first shape in priority order that the
      candle has (a doji above all), or `Default` when it has none. */
  function Identify(c: Ohlc, p: Ohlc): (t: CandleType)
    ensures t == FirstShape(Priority, 0, ShapesOf(c, p))
    ensures IsDoji(c) ==> t == Doji
    ensures t == Default <==> forall j :: 0 <= j < |Priority| ==> !HasShape(Priority[j], ShapesOf(c, p))
    ensures t != Default ==>
      exists i :: 0 <= i < |Priority| && Priority[i] == t && HasShape(t, ShapesOf(c, p))
                  && forall j :: 0 <= j < i ==> !HasShape(Priority[j], ShapesOf(c, p))
  {
    var s := ShapesOf(c, p);
    ClassifyIsFirstShape(s);
    FirstShapeIsFirst(Priority, 0, s);
    Classify(s)
  }

  predicate Complete(b: CandleBuilder) {
    b.date.Some? && b.open.Some? && b.high.Some? && b.low.Some?
    && b.close.Some? && b.volume.Some? && b.previous.Some?
  }

  /** `build`: a candle carrying the builder's values and its shape, or
      `InvalidCandle` when any of the seven values is missing. */
  function Build(b: CandleBuilder): (r: BuildResult)
    ensures r.Ok? <==> Complete(b)
    ensures r.Err? ==> r.error == InvalidCandle
    ensures r.Ok? ==> r.candle.date == b.date.value && r.candle.open == b.open.value
                      && r.candle.high == b.high.value && r.candle.low == b.low.value
                      && r.candle.close == b.close.value && r.candle.volume == b.volume.value
    ensures r.Ok? ==>
      var pr := b.previous.value;
      r.candle.candleType == Identify(Ohlc(b.open.value, b.high.value, b.low.value, b.close.value),
                                      Ohlc(pr.open, pr.high, pr.low, pr.close))
  {
    if Complete(b) then
      var current := Ohlc(b.open.value, b.high.value, b.low.value, b.close.value);
      var pr := b.previous.value;
      var previous := Ohlc(pr.open, pr.high, pr.low, pr.close);
      Ok(Candle.Candle(Identify(current, previous), b.date.value, b.open.value, b.high.value, b.low.value,
                b.close.value, b.volume.value))
    else
      Err(InvalidCandle)
  }

  /** Setting all seven values, in the order a caller writes them, builds the candle holding them. */
  lemma BuildAfterAllSetters(d: DateTime, o: real, h: real, l: real, c: real, v: real, p: PreviousCandle)
    ensures
      var b := SetPrevious(SetVolume(SetClose(SetLow(SetHigh(SetOpen(SetDate(NewBuilder(), d), o), h), l), c), v), p);
      Build(b) == Ok(Candle.Candle(Identify(Ohlc(o, h, l, c), Ohlc(p.open, p.high, p.low, p.close)), d, o, h, l, c, v))
  {
  }

  /** Leaving any one value out makes `build` fail. */
  lemma BuildNeedsEveryValue(d: DateTime, o: real, h: real, l: real, c: real, v: real, p: PreviousCandle)
    ensures Build(SetPrevious(SetVolume(SetClose(SetLow(SetHigh(SetOpen(NewBuilder(), o), h), l), c), v), p)).Err?
    ensures Build(SetVolume(SetClose(SetLow(SetHigh(SetOpen(SetDate(NewBuilder(), d), o), h), l), c), v)).Err?
    ensures Build(SetPrevious(SetVolume(SetClose(SetLow(SetHigh(SetDate(NewBuilder(), d), h), l), c), v), p)).Err?
    ensures Build(SetPrevious(SetVolume(SetClose(SetLow(SetOpen(SetDate(NewBuilder(), d), o), l), c), v), p)).Err?
    ensures Build(SetPrevious(SetVolume(SetClose(SetHigh(SetOpen(SetDate(NewBuilder(), d), o), h), c), v), p)).Err?
    ensures Build(SetPrevious(SetVolume(SetLow(SetHigh(SetOpen(SetDate(NewBuilder(), d), o), h), l), v), p)).Err?
    ensures Build(SetPrevious(SetClose(SetLow(SetHigh(SetOpen(SetDate(NewBuilder(), d), o), h), l), c), p)).Err?
  {
  }

  /** A candle is never both an engulfing and a harami of the same colour, nor
      both a bullish and a bearish engulfing. */
  lemma EngulfingShapesExclusive(c: Ohlc, p: Ohlc)
    ensures !(IsEngulfing(c, p) && IsHarami(c, p))
    ensures !(IsBearishEngulfing(c, p) && IsBearishHarami(c, p))
    ensures !(IsEngulfing(c, p) && IsBearishEngulfing(c, p))
  {
  }

  /** The bearish marubozu with its low shadow bounded as well. */
  predicate IsBearishMarubozuBothShadows(c: Ohlc) {
    (c.open >= c.high && QuotientBelow(c.high - c.open, c.open, 0.1))
    && (c.low <= c.close && QuotientBelow(c.low - c.close, c.close, 0.1))
  }

  /** With a positive close the missing low-shadow test changes nothing: a low
      at or under the close gives a non-positive shadow. */
  lemma BearishMarubozuLowShadowRedundant(c: Ohlc)
    requires c.close > 0.0
    ensures IsBearishMarubozu(c) <==> IsBearishMarubozuBothShadows(c)
  {
    if c.low <= c.close {
      assert (c.low - c.close) / c.close <= 0.0;
    }
  }
}
