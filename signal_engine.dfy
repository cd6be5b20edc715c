/**
 * The one-shot signal engine: a rolling window of closed five-minute
 * candles, recomputed indicators, a MACD crossover verdict filtered by
 * volatility, and a latch that keeps the first qualifying verdict.
 *
 * The indicator library (MACD, EMA, ATR and its rolling maximum) is not
 * modelled: the engine is given the indicator values as a function of the
 * window, `Indicators`, so everything the engine decides from them is exact.
 */
module SignalEngine {
  import opened Common

  /** Candles whose rolling-maximum ATR is at most this are ignored. */
  const MIN_ATR: real := 0.005

  datatype Candle = Candle(open: real, high: real, low: real, close: real, volume: real, closeTime: int)

  /** One kline event of the stream: the candle and whether it has closed. */
  datatype Kline = Kline(closed: bool, candle: Candle)

  /** The indicator values the engine reads: the MACD line and its signal
      line at the last two rows, and the rolling-maximum ATR at the last. */
  datatype Points = Points(macd: Float, macdSignal: Float, prevMacd: Float, prevMacdSignal: Float, maxAtr: Float)

  /** The indicator computation over the whole window. */
  type Indicators = seq<Candle> -> Points

  /** The fields of the engine. */
  datatype EngineState = EngineState(
    window: seq<Candle>,
    done: bool,
    finalSignal: Option<Signal>,
    finalPrice: Option<real>,
    finalAtr: Option<Float>)

  /** A new engine: empty window, nothing found yet. */
  const FRESH: EngineState := EngineState([], false, None, None, None)

  /** The crossover verdict on the last two oscillator points. */
  function Classify(macd: Float, sig: Float, pmac: Float, psig: Float): (r: Signal)
    ensures r == BUY <==> Gt(macd, sig) && Le(pmac, psig)
    ensures r == SELL <==> Lt(macd, sig) && Ge(pmac, psig)
  {
    if Gt(macd, sig) && Le(pmac, psig) then BUY
    else if Lt(macd, sig) && Ge(pmac, psig) then SELL
    else HOLD
  }

  /** The volatility filter `atr <= MIN_ATR`; false for NaN, as every
      comparison with NaN is. */
  predicate TooCalm(atr: Float)
  {
    atr.Real? && atr.v <= MIN_ATR
  }

  /** Drop the oldest row and append the new candle (dropping from an empty
      window leaves it empty). */
  function Slide(window: seq<Candle>, c: Candle): (w: seq<Candle>)
    ensures |w| == if window == [] then 1 else |window|
    ensures w[|w| - 1] == c
    ensures forall i | 0 <= i < |w| - 1 :: w[i] == window[i + 1]
  {
    (if window == [] then [] else window[1..]) + [c]
  }

  /** The window yields a directional verdict that passes the filter. A
      window of fewer than two rows yields none: reading the previous row
      raises. */
  predicate Qualifies(ind: Indicators, w: seq<Candle>)
  {
    var p := ind(w);
    |w| >= 2 && Classify(p.macd, p.macdSignal, p.prevMacd, p.prevMacdSignal) != HOLD && !TooCalm(p.maxAtr)
  }

  /** One message handled by the engine. */
  function Step(ind: Indicators, s: EngineState, m: Kline): (r: EngineState)
    ensures s.done || !m.closed ==> r == s
    ensures !s.done && m.closed ==> r.window == Slide(s.window, m.candle)
    ensures r.done <==> s.done || (m.closed && Qualifies(ind, Slide(s.window, m.candle)))
    ensures !s.done && r.done ==>
              var w := Slide(s.window, m.candle);
              var p := ind(w);
              && r.finalSignal == Some(Classify(p.macd, p.macdSignal, p.prevMacd, p.prevMacdSignal))
              && r.finalPrice == Some(m.candle.close)
              && r.finalAtr == Some(p.maxAtr)
    ensures !r.done ==> r.finalSignal == s.finalSignal && r.finalPrice == s.finalPrice && r.finalAtr == s.finalAtr
  {
    if s.done || !m.closed then s
    else
      var w := Slide(s.window, m.candle);
      if |w| < 2 then s.(window := w)
      else
        var p := ind(w);
        var verdict := Classify(p.macd, p.macdSignal, p.prevMacd, p.prevMacdSignal);
        if TooCalm(p.maxAtr) || verdict == HOLD then s.(window := w)
        else EngineState(w, true, Some(verdict), Some(w[|w| - 1].close), Some(p.maxAtr))
  }

  /** The engine fed a finite stream of messages in order. */
  function Run(ind: Indicators, s: EngineState, msgs: seq<Kline>): (r: EngineState)
    ensures s.done ==> r.done
    ensures !r.done ==> r.finalSignal == s.finalSignal && r.finalPrice == s.finalPrice && r.finalAtr == s.finalAtr
    decreases |msgs|
  {
    if msgs == [] then s else Run(ind, Step(ind, s, msgs[0]), msgs[1..])
  }

  /** The fields agree with `done`: a finished engine holds a BUY or SELL,
      a price and an ATR that passed the filter; an unfinished one holds
      none of them. */
  predicate Consistent(s: EngineState)
  {
    && (s.done ==>
          && s.finalSignal.Some? && s.finalSignal.value != HOLD
          && s.finalPrice.Some?
          && s.finalAtr.Some? && !TooCalm(s.finalAtr.value))
    && (!s.done ==> s.finalSignal.None? && s.finalPrice.None? && s.finalAtr.None?)
  }

  class DataEngine {
    const indicators: Indicators
    var window: seq<Candle>
    var done: bool
    var finalSignal: Option<Signal>
    var finalPrice: Option<real>
    var finalAtr: Option<Float>

    function State(): EngineState
      reads this
    {
      EngineState(window, done, finalSignal, finalPrice, finalAtr)
    }

    constructor (indicators: Indicators)
      ensures this.indicators == indicators
      ensures State() == FRESH
    {
      this.indicators := indicators;
      window := [];
      done := false;
      finalSignal, finalPrice, finalAtr := None, None, None;
    }

    /** The historical candles become the window. */
    method LoadHistorical(rows: seq<Candle>)
      modifies this
      ensures State() == old(State()).(window := rows)
    {
      window := rows;
    }

    /** The stream handler. */
    method OnMessage(m: Kline)
      modifies this
      ensures State() == Step(indicators, old(State()), m)
    {
      if done {
        return;
      }
      if !m.closed {
        return;
      }
      window := Slide(window, m.candle);
      if |window| < 2 {
        return;
      }
      var p := indicators(window);
      var verdict := Classify(p.macd, p.macdSignal, p.prevMacd, p.prevMacdSignal);
      if TooCalm(p.maxAtr) {
        return;
      }
      if verdict == HOLD {
        return;
      }
      finalSignal := Some(verdict);
      finalAtr := Some(p.maxAtr);
      finalPrice := Some(window[|window| - 1].close);
      done := true;
    }

    /**
     * Feed the stream until a qualifying verdict closes it or it ends, and
     * return the latched triple.
     */
    method GetNextSignal(stream: seq<Kline>) returns (signal: Option<Signal>, price: Option<real>, atr: Option<Float>)
      modifies this
      ensures State() == Run(indicators, old(State()), stream)
      ensures signal == finalSignal && price == finalPrice && atr == finalAtr
    {
      var i := 0;
      while i < |stream| && !done
        invariant 0 <= i <= |stream|
        invariant Run(indicators, State(), stream[i..]) == Run(indicators, old(State()), stream)
      {
        assert stream[i..][1..] == stream[i + 1..];
        OnMessage(stream[i]);
        i := i + 1;
      }
      if i < |stream| {
        RunAfterDone(indicators, State(), stream[i..]);
      }
      signal, price, atr := finalSignal, finalPrice, finalAtr;
    }
  }

  // ---------------------------------------------------------------------
  // Properties of the engine
  // ---------------------------------------------------------------------

  /** BUY and SELL never hold together. */
  lemma CrossoversExclusive(macd: Float, sig: Float, pmac: Float, psig: Float)
    ensures !((Gt(macd, sig) && Le(pmac, psig)) && (Lt(macd, sig) && Ge(pmac, psig)))
  {
  }

  /** The volatility filter is Python's `atr <= MIN_ATR` on a float that may
      be NaN: a NaN ATR passes it. */
  lemma TooCalmIsAtMostMinAtr(atr: Float)
    ensures TooCalm(atr) <==> Le(atr, Real(MIN_ATR))
    ensures !TooCalm(NaN) && TooCalm(Real(MIN_ATR)) && !TooCalm(Real(0.006))
  {
  }

  /** A window qualifies exactly when it has a previous row, its last two
      oscillator points cross in either direction, and its ATR is not at or
      below MIN_ATR. */
  lemma QualifiesIff(ind: Indicators, w: seq<Candle>)
    ensures var p := ind(w);
            Qualifies(ind, w) <==>
              && |w| >= 2
              && ((Gt(p.macd, p.macdSignal) && Le(p.prevMacd, p.prevMacdSignal)) ||
                  (Lt(p.macd, p.macdSignal) && Ge(p.prevMacd, p.prevMacdSignal)))
              && !Le(p.maxAtr, Real(MIN_ATR))
  {
  }

  /** Once done, every later message leaves the engine as it is. */
  lemma {:induction false} RunAfterDone(ind: Indicators, s: EngineState, msgs: seq<Kline>)
    requires s.done
    ensures Run(ind, s, msgs) == s
    decreases |msgs|
  {
    if msgs != [] {
      RunAfterDone(ind, Step(ind, s, msgs[0]), msgs[1..]);
    }
  }

  /** Feeding two streams one after the other is feeding their concatenation. */
  lemma {:induction false} RunAppend(ind: Indicators, s: EngineState, a: seq<Kline>, b: seq<Kline>)
    ensures Run(ind, s, a + b) == Run(ind, Run(ind, s, a), b)
    decreases |a|
  {
    if a == [] {
      assert a + b == b;
    } else {
      assert (a + b)[0] == a[0] && (a + b)[1..] == a[1..] + b;
      RunAppend(ind, Step(ind, s, a[0]), a[1..], b);
    }
  }

  /** The latched result never changes, whatever arrives later. */
  lemma LatchIsFinal(ind: Indicators, s: EngineState, a: seq<Kline>, b: seq<Kline>)
    requires Run(ind, s, a).done
    ensures Run(ind, s, a + b) == Run(ind, s, a)
  {
    RunAppend(ind, s, a, b);
    RunAfterDone(ind, Run(ind, s, a), b);
  }

  /** The first message that makes the engine done decides the result. */
  lemma FirstQualifyingWins(ind: Indicators, s: EngineState, msgs: seq<Kline>, k: nat)
    requires k < |msgs|
    requires !Run(ind, s, msgs[..k]).done
    requires Run(ind, s, msgs[..k + 1]).done
    ensures msgs[k].closed && Qualifies(ind, Slide(Run(ind, s, msgs[..k]).window, msgs[k].candle))
    ensures Run(ind, s, msgs) == Step(ind, Run(ind, s, msgs[..k]), msgs[k])
  {
    RunAppend(ind, s, msgs[..k], [msgs[k]]);
    assert msgs[..k] + [msgs[k]] == msgs[..k + 1];
    LatchIsFinal(ind, s, msgs[..k + 1], msgs[k + 1..]);
    assert msgs[..k + 1] + msgs[k + 1..] == msgs;
  }

  /** A run that ends done from an unfinished engine has a first message
      that made it done. */
  lemma {:induction false} RunDoneHasFirst(ind: Indicators, s: EngineState, msgs: seq<Kline>)
    requires !s.done
    ensures Run(ind, s, msgs).done ==>
              exists k | 0 <= k < |msgs| :: !Run(ind, s, msgs[..k]).done && Run(ind, s, msgs[..k + 1]).done
    decreases |msgs|
  {
    if msgs != [] && Run(ind, s, msgs).done {
      var s1 := Step(ind, s, msgs[0]);
      assert msgs[..0] == [];
      if s1.done {
        assert msgs[..1][1..] == [];
        assert !Run(ind, s, msgs[..0]).done && Run(ind, s, msgs[..1]).done;
      } else {
        RunDoneHasFirst(ind, s1, msgs[1..]);
        var k :| 0 <= k < |msgs[1..]| && !Run(ind, s1, msgs[1..][..k]).done && Run(ind, s1, msgs[1..][..k + 1]).done;
        assert msgs[..k + 1][1..] == msgs[1..][..k];
        assert msgs[..k + 2][1..] == msgs[1..][..k + 1];
        assert !Run(ind, s, msgs[..k + 1]).done && Run(ind, s, msgs[..k + 2]).done;
      }
    }
  }

  /** A stream in which no message is a closed candle whose window
      qualifies leaves a fresh engine with (None, None, None). */
  lemma NoQualifyingMeansNone(ind: Indicators, history: seq<Candle>, msgs: seq<Kline>)
    requires forall k | 0 <= k < |msgs| ::
               var before := Run(ind, FRESH.(window := history), msgs[..k]);
               !(msgs[k].closed && Qualifies(ind, Slide(before.window, msgs[k].candle)))
    ensures var r := Run(ind, FRESH.(window := history), msgs);
            !r.done && r.finalSignal.None? && r.finalPrice.None? && r.finalAtr.None?
  {
    var s := FRESH.(window := history);
    RunDoneHasFirst(ind, s, msgs);
    if Run(ind, s, msgs).done {
      var k :| 0 <= k < |msgs| && !Run(ind, s, msgs[..k]).done && Run(ind, s, msgs[..k + 1]).done;
      FirstQualifyingWins(ind, s, msgs, k);
    }
    NextSignalOutcome(ind, history, msgs);
  }

  /** Every message keeps the fields in agreement with `done`. */
  lemma {:induction false} RunConsistent(ind: Indicators, s: EngineState, msgs: seq<Kline>)
    requires Consistent(s)
    ensures Consistent(Run(ind, s, msgs))
    decreases |msgs|
  {
    if msgs != [] {
      RunConsistent(ind, Step(ind, s, msgs[0]), msgs[1..]);
    }
  }

  /** What `get_next_signal` returns from a fresh engine: (None, None,
      None) when the stream ends without a qualifying candle, otherwise a
      BUY or SELL with its price and an ATR that passed the filter. */
  lemma NextSignalOutcome(ind: Indicators, history: seq<Candle>, msgs: seq<Kline>)
    ensures var r := Run(ind, FRESH.(window := history), msgs);
            && (!r.done ==> r.finalSignal.None? && r.finalPrice.None? && r.finalAtr.None?)
            && (r.done ==> r.finalSignal.Some? && r.finalSignal.value != HOLD && r.finalPrice.Some?
                           && r.finalAtr.Some? && !TooCalm(r.finalAtr.value))
  {
    RunConsistent(ind, FRESH.(window := history), msgs);
  }

  /** A non-empty window keeps its length through every message. */
  lemma {:induction false} WindowLengthKept(ind: Indicators, s: EngineState, msgs: seq<Kline>)
    requires |s.window| > 0
    ensures |Run(ind, s, msgs).window| == |s.window|
    decreases |msgs|
  {
    if msgs != [] {
      WindowLengthKept(ind, Step(ind, s, msgs[0]), msgs[1..]);
    }
  }
}
