/**
 * The protective-level arithmetic of the trading bot: the fee offset added
 * to the take-profit distance, and take-profit / stop-loss prices banded by
 * the volatility (ATR) captured at signal time. Arithmetic is on exact
 * reals; Python's `round(x, 4)` is `Round4`.
 */
module TpSl {
  import opened Common

  const FIXED_QUANTITY: real := 3.5
  const CDX_LEVERAGE: real := 60.0
  const FX: real := 96.0
  const ROE: real := 0.07

  const BASE_SL_MULT: real := 1.5
  const BASE_TP_MULT: real := 2.5
  /** The reward-to-risk ratio, 5/3. */
  const RR_RATIO: real := BASE_TP_MULT / BASE_SL_MULT

  /** Exchange fee rate (0.05%) and the tax on it (18%). */
  const FEE_RATE: real := 0.0005
  const FEE_TAX: real := 1.18
  /** The offset used when quantity or FX rate is zero. */
  const MIN_FEE_MOVE: real := 0.0001

  /** Above this ATR the stop loss is one ATR away, otherwise 1.5 ATR. */
  const HIGH_ATR: real := 0.08
  const MID_ATR: real := 0.05

  datatype TpSlError =
    | InvalidAtr    // the ATR is None or NaN
    | InvalidSide   // the side is neither BUY nor SELL
    | ZeroLeverage  // Python's ZeroDivisionError

  /** What the computation used, returned next to the two prices. */
  datatype Details =
    | Computed(atr: real, slMult: real, tpMult: real, slMove: real, tpMove: real, feeMove: real)
    | StaticFallback

  datatype Levels = Levels(tp: real, sl: real, details: Details)

  /**
   * The fee offset: the return-on-equity share of margin plus fees for the
   * position notional, expressed back in price units. The division by the
   * leverage happens before the zero guard, so a zero leverage raises.
   */
  function FeeMove(price: real, qty: real, leverage: real, fx: real, roe: real): (r: Result<real, TpSlError>)
    ensures r.Err? <==> leverage == 0.0
    ensures r.Ok? && (qty == 0.0 || fx == 0.0) ==> r.value == MIN_FEE_MOVE
    ensures r.Ok? && qty != 0.0 && fx != 0.0 ==> r.value == roe * price * (1.0 / leverage + FEE_RATE * FEE_TAX)
  {
    if leverage == 0.0 then Err(ZeroLeverage)
    else
      var notional := qty * price * fx;
      var feeMargin := notional * FEE_RATE * FEE_TAX;
      var betAmount := notional / leverage + feeMargin;
      var fee := roe * betAmount;
      if qty == 0.0 || fx == 0.0 then Ok(MIN_FEE_MOVE)
      else
        FeeMoveAlgebra(price, qty, leverage, fx, roe, fee);
        Ok(fee / qty / fx)
  }

  lemma FeeMoveAlgebra(price: real, qty: real, leverage: real, fx: real, roe: real, fee: real)
    requires leverage != 0.0 && qty != 0.0 && fx != 0.0
    requires fee == roe * (qty * price * fx / leverage + qty * price * fx * FEE_RATE * FEE_TAX)
    ensures fee / qty / fx == roe * price * (1.0 / leverage + FEE_RATE * FEE_TAX)
  {
    var notional := qty * price * fx;
    var c := 1.0 / leverage + FEE_RATE * FEE_TAX;
    var k := roe * price * c;
    assert notional / leverage == notional * (1.0 / leverage);
    assert fee == roe * (notional * c);
    assert fee == (k * fx) * qty;
    assert fee / qty == k * fx;
  }

  /** The fee offset for the bot's fixed quantity, leverage, FX and ROE. */
  function BotFeeMove(price: real): (r: real)
    ensures r == ROE * price * (1.0 / CDX_LEVERAGE + FEE_RATE * FEE_TAX)
  {
    FeeMove(price, FIXED_QUANTITY, CDX_LEVERAGE, FX, ROE).value
  }

  /** The stop-loss multiplier: 1.0 above HIGH_ATR, otherwise 1.5 (the mid
      band and the low band give the same multiplier). */
  function SlMult(atr: real): (m: real)
    ensures m == 1.0 <==> atr > HIGH_ATR
    ensures m == 1.0 || m == BASE_SL_MULT
  {
    if atr > 0.08 then 1.0
    else if 0.05 <= atr <= 0.08 then 1.5
    else 1.5
  }

  /**
   * `compute_tpsl_from_atr_and_fee`: the stop loss `sl_mult * atr` away from
   * the entry, the take profit `tp_mult * atr + fee_move` away on the other
   * side, both rounded to four decimals.
   */
  function ComputeTpSl(entry: real, atr: Option<Float>, side: Signal): (r: Result<Levels, TpSlError>)
    ensures r.Err? <==> atr.None? || atr.value.NaN? || side == HOLD
    ensures r.Ok? ==> r.value.details.Computed? && r.value.details.atr == atr.value.v
    ensures r.Ok? && side == BUY ==>
              r.value.tp == Round4(entry + r.value.details.tpMove) &&
              r.value.sl == Round4(entry - r.value.details.slMove)
    ensures r.Ok? && side == SELL ==>
              r.value.tp == Round4(entry - r.value.details.tpMove) &&
              r.value.sl == Round4(entry + r.value.details.slMove)
  {
    if atr.None? || atr.value.NaN? then Err(InvalidAtr)
    else
      var d := Distances(entry, atr.value.v);
      match side
      case BUY => Ok(Levels(Round4(entry + d.tpMove), Round4(entry - d.slMove), d))
      case SELL => Ok(Levels(Round4(entry - d.tpMove), Round4(entry + d.slMove), d))
      case HOLD => Err(InvalidSide)
  }

  /** The multipliers and the two distances from the entry for ATR `a`. */
  function Distances(entry: real, a: real): (d: Details)
    ensures d.Computed? && d.atr == a
  {
    var slMult := SlMult(a);
    var tpMult := slMult * RR_RATIO;
    var feeMove := BotFeeMove(entry);
    Computed(a, slMult, tpMult, slMult * a, tpMult * a + feeMove, feeMove)
  }

  // ---------------------------------------------------------------------
  // Properties of the fee offset and the levels
  // ---------------------------------------------------------------------

  /** The fee offset is strictly positive for positive inputs. */
  lemma FeeMovePositive(price: real, qty: real, leverage: real, fx: real, roe: real)
    requires price > 0.0 && qty > 0.0 && leverage > 0.0 && fx > 0.0 && roe > 0.0
    ensures FeeMove(price, qty, leverage, fx, roe).Ok?
    ensures FeeMove(price, qty, leverage, fx, roe).value > 0.0
  {
    var c := 1.0 / leverage + FEE_RATE * FEE_TAX;
    assert c > 0.0;
    assert roe * price > 0.0;
    assert roe * price * c > 0.0;
  }

  /** The fee offset is linear in the ROE rate and does not depend on the
      quantity or the FX rate once they are non-zero. */
  lemma FeeMoveLinearInRoe(price: real, qty: real, leverage: real, fx: real, roe: real, k: real)
    requires leverage != 0.0 && qty != 0.0 && fx != 0.0
    ensures FeeMove(price, qty, leverage, fx, k * roe).value == k * FeeMove(price, qty, leverage, fx, roe).value
  {
  }

  lemma FeeMoveIgnoresQtyAndFx(price: real, leverage: real, roe: real, q1: real, f1: real, q2: real, f2: real)
    requires leverage != 0.0 && q1 != 0.0 && f1 != 0.0 && q2 != 0.0 && f2 != 0.0
    ensures FeeMove(price, q1, leverage, f1, roe) == FeeMove(price, q2, leverage, f2, roe)
  {
  }

  /** The multipliers by band: at most HIGH_ATR, 1.5 and 2.5; above it, 1.0
      and 5/3. The fee offset goes into the take-profit distance only. */
  lemma TpSlBands(entry: real, a: real, side: Signal)
    requires side != HOLD
    ensures var d := ComputeTpSl(entry, Some(Real(a)), side).value.details;
            && (a <= HIGH_ATR ==> d.slMult == 1.5 && d.tpMult == 2.5)
            && (a > HIGH_ATR ==> d.slMult == 1.0 && d.tpMult == 5.0 / 3.0)
            && d.slMove == d.slMult * a
            && d.tpMove == d.tpMult * a + d.feeMove
            && d.feeMove == BotFeeMove(entry)
  {
    assert ComputeTpSl(entry, Some(Real(a)), side).value.details == Distances(entry, a);
    assert 1.5 * RR_RATIO == 2.5;
  }

  /** BUY and SELL use the same distances in opposite directions. */
  lemma SideMirror(entry: real, atr: Option<Float>)
    ensures ComputeTpSl(entry, atr, BUY).Ok? <==> ComputeTpSl(entry, atr, SELL).Ok?
    ensures ComputeTpSl(entry, atr, BUY).Ok? ==>
              var b := ComputeTpSl(entry, atr, BUY).value;
              var s := ComputeTpSl(entry, atr, SELL).value;
              && b.details == s.details
              && b.tp == Round4(entry + b.details.tpMove) && s.tp == Round4(entry - b.details.tpMove)
              && b.sl == Round4(entry - b.details.slMove) && s.sl == Round4(entry + b.details.slMove)
  {
  }

  /** For a positive ATR and entry both distances are positive. */
  lemma DistancesPositive(entry: real, a: real)
    requires entry > 0.0 && a > 0.0
    ensures Distances(entry, a).slMove > 0.0 && Distances(entry, a).tpMove > 0.0
  {
    var d := Distances(entry, a);
    assert d.slMove == SlMult(a) * a;
    assert BotFeeMove(entry) > 0.0 by {
      assert 1.0 / CDX_LEVERAGE + FEE_RATE * FEE_TAX > 0.0;
      assert ROE * entry > 0.0;
    }
    assert d.tpMult > 0.0;
    assert d.tpMove == d.tpMult * a + BotFeeMove(entry);
  }

  /** For a positive ATR and entry a BUY's levels bracket the entry: before
      rounding strictly, after rounding without crossing. */
  lemma BuyLevelsBracketEntry(entry: real, a: real)
    requires entry > 0.0 && a > 0.0
    ensures var b := ComputeTpSl(entry, Some(Real(a)), BUY).value;
            && entry - b.details.slMove < entry < entry + b.details.tpMove
            && b.sl <= Round4(entry) <= b.tp
  {
    var d := Distances(entry, a);
    assert ComputeTpSl(entry, Some(Real(a)), BUY).value
        == Levels(Round4(entry + d.tpMove), Round4(entry - d.slMove), d);
    DistancesPositive(entry, a);
    Round4Monotone(entry - d.slMove, entry);
    Round4Monotone(entry, entry + d.tpMove);
  }

  /** ... and a SELL's the same way round. */
  lemma SellLevelsBracketEntry(entry: real, a: real)
    requires entry > 0.0 && a > 0.0
    ensures var s := ComputeTpSl(entry, Some(Real(a)), SELL).value;
            && entry - s.details.tpMove < entry < entry + s.details.slMove
            && s.tp <= Round4(entry) <= s.sl
  {
    var d := Distances(entry, a);
    assert ComputeTpSl(entry, Some(Real(a)), SELL).value
        == Levels(Round4(entry - d.tpMove), Round4(entry + d.slMove), d);
    DistancesPositive(entry, a);
    Round4Monotone(entry - d.tpMove, entry);
    Round4Monotone(entry, entry + d.slMove);
  }

  /** A BUY at 0.62 with ATR 0.04: multipliers 1.5 and 2.5, stop loss 0.56,
      take profit 0.72 plus the fee offset, rounded to 0.7207. */
  lemma BuyAt062Atr004()
    ensures var r := ComputeTpSl(0.62, Some(Real(0.04)), BUY);
            && r.Ok?
            && r.value.details.slMult == 1.5 && r.value.details.tpMult == 2.5
            && r.value.details.slMove == 0.06
            && r.value.details.tpMove == 0.1 + r.value.details.feeMove
            && r.value.sl == 0.56
            && r.value.tp == 0.7207
  {
    var fee := BotFeeMove(0.62);
    assert fee == 0.07 * 0.62 * (1.0 / 60.0 + 0.00059);
    assert 0.000748 < fee < 0.000749;
    var y := (0.62 + 0.1 + fee) * 10000.0;
    assert 7207.48 < y < 7207.49;
    assert y.Floor == 7207;
    Round4OnGrid(0.56);
  }
}
