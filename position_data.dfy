/**
 * The position-record normalisation of `get_xrp_data`: the exchange's raw
 * positions list and ticker list become one record of eight numeric keys.
 * Request signing and the HTTP calls are not modelled; what they return is
 * an input (`Reply`), a failed call being `Failed`.
 */
module PositionData {
  import opened Common

  /** A JSON value as far as `float()` and truthiness care. A string carries
      what `float()` makes of it (None: `float()` raises). */
  datatype Json = Null | Num(n: real) | Str(text: string, parsed: Option<real>)

  type JsonObject = map<string, Json>

  /** The body of an exchange call. `Failed` stands for every way the call
      raises before a list is indexed: transport error, a body that is not
      JSON, or a JSON object where a list was expected. */
  datatype Reply = Failed | Listed(items: seq<JsonObject>)

  const ACTIVE_POS := "active_pos"
  const INACTIVE_BUY := "inactive_buy"
  const INACTIVE_SELL := "inactive_sell"
  const AVG_PRICE := "avg_price"
  const TAKE_PROFIT := "take_profit"
  const STOP_LOSS := "stop_loss"
  const LOCKED_MARGIN := "locked_order_margin"
  const CURRENT_PRICE := "XRPCurentPrice"

  const RECORD_KEYS: set<string> :=
    {ACTIVE_POS, INACTIVE_BUY, INACTIVE_SELL, AVG_PRICE, TAKE_PROFIT, STOP_LOSS, LOCKED_MARGIN, CURRENT_PRICE}

  /** Every key of the record starts at 0.0. */
  const DEFAULT_RECORD: map<string, real> := map k | k in RECORD_KEYS :: 0.0

  /** The record key each field of the first position is copied to, and the
      exchange's name for that field, in the order the copies happen. */
  const POSITION_FIELDS: seq<(string, string)> := [
    (ACTIVE_POS, "active_pos"),
    (INACTIVE_BUY, "inactive_pos_buy"),
    (INACTIVE_SELL, "inactive_pos_sell"),
    (AVG_PRICE, "avg_price"),
    (TAKE_PROFIT, "take_profit_trigger"),
    (STOP_LOSS, "stop_loss_trigger"),
    (LOCKED_MARGIN, "locked_order_margin")
  ]

  const XRP_MARKETS: seq<string> := ["XRPUSDT", "B-XRP_USDT", "XRP-USDT"]

  /** Python's `float(v)`; None when it raises. */
  function ToFloat(v: Json): (r: Option<real>)
    ensures r.None? <==> v.Null? || (v.Str? && v.parsed.None?)
    ensures v.Num? ==> r == Some(v.n)
    ensures v.Str? ==> r == v.parsed
  {
    match v
    case Null => None
    case Num(n) => Some(n)
    case Str(_, p) => p
  }

  /** Python's truthiness of a JSON value. */
  predicate Truthy(v: Json)
  {
    match v
    case Null => false
    case Num(n) => n != 0.0
    case Str(t, _) => t != ""
  }

  /** `o.get(key, default)`. */
  function Get(o: JsonObject, key: string, default: Json): Json
  {
    if key in o then o[key] else default
  }

  predicate DestsIn(fields: seq<(string, string)>, d: map<string, real>)
  {
    forall i | 0 <= i < |fields| :: fields[i].0 in d
  }

  predicate DistinctDests(fields: seq<(string, string)>)
  {
    forall i, j | 0 <= i < j < |fields| :: fields[i].0 != fields[j].0
  }

  /** The converted value of one field of a position, a missing field reading
      as 0.0. */
  function FieldValue(item: JsonObject, field: (string, string)): Option<real>
  {
    ToFloat(Get(item, field.1, Num(0.0)))
  }

  /** The index of the first field whose conversion raises, |fields| if none. */
  function FirstBad(item: JsonObject, fields: seq<(string, string)>): (j: nat)
    ensures j <= |fields|
    ensures forall i | 0 <= i < j :: FieldValue(item, fields[i]).Some?
    ensures j < |fields| ==> FieldValue(item, fields[j]).None?
  {
    if fields == [] then 0
    else if FieldValue(item, fields[0]).None? then 0
    else 1 + FirstBad(item, fields[1..])
  }

  /**
   * The straight-line copies of the first position's fields inside one
   * `try`: they happen in order, and the first `float()` that raises
   * abandons the rest, leaving the copies already made in place.
   */
  function CopyFields(d: map<string, real>, item: JsonObject, fields: seq<(string, string)>): (r: map<string, real>)
    requires DestsIn(fields, d)
    ensures r.Keys == d.Keys
    ensures forall k | k in d && (forall i | 0 <= i < |fields| :: fields[i].0 != k) :: r[k] == d[k]
    decreases |fields|
  {
    if fields == [] then d
    else match FieldValue(item, fields[0])
      case None => d
      case Some(x) => CopyFields(d[fields[0].0 := x], item, fields[1..])
  }

  /** The positions part: only the first position is read. */
  function ReadPositions(positions: Reply): (d: map<string, real>)
    ensures d.Keys == RECORD_KEYS
    ensures d[CURRENT_PRICE] == 0.0
  {
    if positions.Listed? && |positions.items| > 0 then
      PositionFieldsDistinct();
      CopyFields(DEFAULT_RECORD, positions.items[0], POSITION_FIELDS)
    else
      DEFAULT_RECORD
  }

  predicate HasMarket(t: JsonObject) { "market" in t }

  predicate IsXrpMarket(t: JsonObject)
  {
    "market" in t && t["market"].Str? && t["market"].text in XRP_MARKETS
  }

  /** `float(t.get("last_price") or t.get("lastPrice") or 0.0)`. */
  function TickerPrice(t: JsonObject): Option<real>
  {
    var a := Get(t, "last_price", Null);
    var b := Get(t, "lastPrice", Null);
    ToFloat(if Truthy(a) then a else if Truthy(b) then b else Num(0.0))
  }

  /**
   * The `or` chain of a ticker's price: a truthy "last_price" wins, a falsy
   * one (missing, null, 0 or "") falls through to "lastPrice", and when
   * both are falsy the price is 0.0; `float()` raises (None) only on a
   * chosen string that does not parse.
   */
  lemma TickerPriceChoice(t: JsonObject)
    ensures "last_price" in t && Truthy(t["last_price"]) ==>
              TickerPrice(t) == ToFloat(t["last_price"])
    ensures ("last_price" !in t || !Truthy(t["last_price"])) && "lastPrice" in t && Truthy(t["lastPrice"]) ==>
              TickerPrice(t) == ToFloat(t["lastPrice"])
    ensures ("last_price" !in t || !Truthy(t["last_price"])) && ("lastPrice" !in t || !Truthy(t["lastPrice"])) ==>
              TickerPrice(t) == Some(0.0)
    ensures TickerPrice(t).None? ==>
              ("last_price" in t && t["last_price"].Str? && t["last_price"].text != "" && t["last_price"].parsed.None?) ||
              ("lastPrice" in t && t["lastPrice"].Str? && t["lastPrice"].text != "" && t["lastPrice"].parsed.None?)
  {
  }

  /**
   * The price the ticker scan assigns, None when it assigns nothing: the
   * scan stops at the first XRP market, and a ticker without a "market"
   * key raises and ends it.
   */
  function ScanTickers(ts: seq<JsonObject>): Option<real>
  {
    if ts == [] then None
    else if !HasMarket(ts[0]) then None
    else if IsXrpMarket(ts[0]) then TickerPrice(ts[0])
    else ScanTickers(ts[1..])
  }

  /** The price assigned from a tickers reply. */
  function TickersPrice(tickers: Reply): Option<real>
  {
    if tickers.Listed? then ScanTickers(tickers.items) else None
  }

  /** A non-positive price is replaced by the average entry price, else by
      the stop-loss trigger, when either is positive. */
  function PriceFallback(d: map<string, real>): (r: map<string, real>)
    requires RECORD_KEYS <= d.Keys
    ensures r.Keys == d.Keys
    ensures forall k | k in d && k != CURRENT_PRICE :: r[k] == d[k]
  {
    if d[CURRENT_PRICE] <= 0.0 then
      if d[AVG_PRICE] > 0.0 then d[CURRENT_PRICE := d[AVG_PRICE]]
      else if d[STOP_LOSS] > 0.0 then d[CURRENT_PRICE := d[STOP_LOSS]]
      else d
    else d
  }

  /** The record `get_xrp_data` returns for the two replies. */
  function XrpRecord(positions: Reply, tickers: Reply): (r: map<string, real>)
    ensures r.Keys == RECORD_KEYS
    ensures DestsIn(POSITION_FIELDS, r)
  {
    PositionFieldsDistinct();
    var d := ReadPositions(positions);
    var price := TickersPrice(tickers);
    PriceFallback(if price.Some? then d[CURRENT_PRICE := price.value] else d)
  }

  /** The ticker loop of `get_xrp_data`: the price it assigns, None when it
      assigns nothing. */
  method ScanXrpPrice(ts: seq<JsonObject>) returns (price: Option<real>)
    ensures price == ScanTickers(ts)
  {
    price := None;
    var i := 0;
    while i < |ts|
      invariant 0 <= i <= |ts|
      invariant ScanTickers(ts[i..]) == ScanTickers(ts)
    {
      assert ts[i..][1..] == ts[i + 1..];
      var t := ts[i];
      if !HasMarket(t) {
        return;
      }
      if IsXrpMarket(t) {
        price := TickerPrice(t);
        return;
      }
      i := i + 1;
    }
  }

  /**
   * `get_xrp_data` without the signed requests: start from the all-zero
   * record, copy the first position, scan the tickers for the XRP market,
   * then apply the price fallback.
   */
  method GetXrpData(positions: Reply, tickers: Reply) returns (data: map<string, real>)
    ensures data == XrpRecord(positions, tickers)
  {
    data := DEFAULT_RECORD;
    if positions.Listed? && |positions.items| > 0 {
      PositionFieldsDistinct();
      data := CopyFields(data, positions.items[0], POSITION_FIELDS);
    }
    assert data == ReadPositions(positions);
    if tickers.Listed? {
      var price := ScanXrpPrice(tickers.items);
      if price.Some? {
        data := data[CURRENT_PRICE := price.value];
      }
    }
    ghost var scanned := data;
    assert scanned.Keys == RECORD_KEYS;
    assert XrpRecord(positions, tickers) == PriceFallback(scanned);
    if data[CURRENT_PRICE] <= 0.0 {
      if data[AVG_PRICE] > 0.0 {
        data := data[CURRENT_PRICE := data[AVG_PRICE]];
      } else if data[STOP_LOSS] > 0.0 {
        data := data[CURRENT_PRICE := data[STOP_LOSS]];
      }
    }
  }

  // ---------------------------------------------------------------------
  // Properties of the record
  // ---------------------------------------------------------------------

  /** A failed or empty positions reply leaves every position field at 0.0:
      a fetch error reads as a flat account. */
  lemma FailedFetchReadsFlat(positions: Reply, tickers: Reply)
    requires positions.Failed? || positions.items == []
    ensures forall k | k in RECORD_KEYS && k != CURRENT_PRICE :: XrpRecord(positions, tickers)[k] == 0.0
    ensures XrpRecord(positions, tickers)[CURRENT_PRICE] ==
            (if TickersPrice(tickers).Some? then TickersPrice(tickers).value else 0.0)
  {
  }

  /** Positions after the first one play no part. */
  lemma OnlyFirstPositionRead(first: JsonObject, rest1: seq<JsonObject>, rest2: seq<JsonObject>, tickers: Reply)
    ensures XrpRecord(Listed([first] + rest1), tickers) == XrpRecord(Listed([first] + rest2), tickers)
  {
  }

  /** The copy sets each field before the first failing conversion and
      leaves every other key as it was. */
  lemma {:induction false} CopyFieldsExact(d: map<string, real>, item: JsonObject, fields: seq<(string, string)>)
    requires DestsIn(fields, d)
    requires DistinctDests(fields)
    ensures forall i | 0 <= i < FirstBad(item, fields) ::
              CopyFields(d, item, fields)[fields[i].0] == FieldValue(item, fields[i]).value
    ensures forall k | k in d && (forall i | 0 <= i < FirstBad(item, fields) :: fields[i].0 != k) ::
              CopyFields(d, item, fields)[k] == d[k]
    decreases |fields|
  {
    if fields != [] && FieldValue(item, fields[0]).Some? {
      var x := FieldValue(item, fields[0]).value;
      var d' := d[fields[0].0 := x];
      var rest := fields[1..];
      assert DestsIn(rest, d') by {
        forall i | 0 <= i < |rest| ensures rest[i].0 in d' { assert rest[i] == fields[i + 1]; }
      }
      assert DistinctDests(rest) by {
        forall i, j | 0 <= i < j < |rest| ensures rest[i].0 != rest[j].0 {
          assert rest[i] == fields[i + 1] && rest[j] == fields[j + 1];
        }
      }
      CopyFieldsExact(d', item, rest);
      var r := CopyFields(d, item, fields);
      assert r == CopyFields(d', item, rest);
      assert FirstBad(item, fields) == 1 + FirstBad(item, rest);
      forall i | 0 <= i < FirstBad(item, fields)
        ensures r[fields[i].0] == FieldValue(item, fields[i]).value
      {
        if i > 0 {
          assert fields[i] == rest[i - 1];
        } else {
          forall m | 0 <= m < FirstBad(item, rest) ensures rest[m].0 != fields[0].0 {
            assert rest[m] == fields[m + 1];
          }
        }
      }
      forall k | k in d && (forall i | 0 <= i < FirstBad(item, fields) :: fields[i].0 != k)
        ensures r[k] == d[k]
      {
        assert fields[0].0 != k;
        forall m | 0 <= m < FirstBad(item, rest) ensures rest[m].0 != k {
          assert rest[m] == fields[m + 1];
        }
      }
    }
  }

  /** When every field of the first position converts, each record field is
      that position's value, a missing key reading as 0.0. */
  lemma WellFormedPositionCopied(first: JsonObject, rest: seq<JsonObject>, tickers: Reply, i: nat)
    requires i < |POSITION_FIELDS|
    requires forall j | 0 <= j < |POSITION_FIELDS| :: FieldValue(first, POSITION_FIELDS[j]).Some?
    ensures POSITION_FIELDS[i].1 !in first ==> XrpRecord(Listed([first] + rest), tickers)[POSITION_FIELDS[i].0] == 0.0
    ensures POSITION_FIELDS[i].1 in first ==>
              ToFloat(first[POSITION_FIELDS[i].1]) == Some(XrpRecord(Listed([first] + rest), tickers)[POSITION_FIELDS[i].0])
  {
    assert FirstBad(first, POSITION_FIELDS) == |POSITION_FIELDS|;
    CopiedField(first, i);
    PositionFieldOfRecord(Listed([first] + rest), tickers, POSITION_FIELDS[i].0);
  }

  /** The ticker scan and the price fallback touch only the current price. */
  lemma PositionFieldOfRecord(positions: Reply, tickers: Reply, k: string)
    requires k in RECORD_KEYS && k != CURRENT_PRICE
    ensures XrpRecord(positions, tickers)[k] == ReadPositions(positions)[k]
  {
  }

  /** A field whose conversion raises stops the copy: the fields before it
      are set, it and every later field stay 0.0. */
  lemma BadFieldStopsCopy(first: JsonObject, rest: seq<JsonObject>, tickers: Reply, j: nat)
    requires j < |POSITION_FIELDS|
    requires FieldValue(first, POSITION_FIELDS[j]).None?
    requires forall i | 0 <= i < j :: FieldValue(first, POSITION_FIELDS[i]).Some?
    ensures forall i | 0 <= i < j ::
              XrpRecord(Listed([first] + rest), tickers)[POSITION_FIELDS[i].0] == FieldValue(first, POSITION_FIELDS[i]).value
    ensures forall i | j <= i < |POSITION_FIELDS| ::
              XrpRecord(Listed([first] + rest), tickers)[POSITION_FIELDS[i].0] == 0.0
  {
    var p := Listed([first] + rest);
    FirstBadIs(first, j);
    forall i | 0 <= i < |POSITION_FIELDS|
      ensures XrpRecord(p, tickers)[POSITION_FIELDS[i].0] ==
              if i < j then FieldValue(first, POSITION_FIELDS[i]).value else 0.0
    {
      PositionFieldOfRecord(p, tickers, POSITION_FIELDS[i].0);
      if i < j { CopiedField(first, i); } else { UncopiedField(first, i); }
    }
  }

  lemma FirstBadIs(first: JsonObject, j: nat)
    requires j < |POSITION_FIELDS|
    requires FieldValue(first, POSITION_FIELDS[j]).None?
    requires forall i | 0 <= i < j :: FieldValue(first, POSITION_FIELDS[i]).Some?
    ensures FirstBad(first, POSITION_FIELDS) == j
  {
  }

  /** The seven copies go to seven different keys of the record. */
  lemma PositionFieldsDistinct()
    ensures DistinctDests(POSITION_FIELDS) && DestsIn(POSITION_FIELDS, DEFAULT_RECORD)
  {
  }

  lemma CopiedField(first: JsonObject, i: nat)
    requires i < FirstBad(first, POSITION_FIELDS)
    ensures CopyFields(DEFAULT_RECORD, first, POSITION_FIELDS)[POSITION_FIELDS[i].0] == FieldValue(first, POSITION_FIELDS[i]).value
  {
    PositionFieldsDistinct();
    CopyFieldsExact(DEFAULT_RECORD, first, POSITION_FIELDS);
  }

  lemma UncopiedField(first: JsonObject, i: nat)
    requires FirstBad(first, POSITION_FIELDS) <= i < |POSITION_FIELDS|
    ensures CopyFields(DEFAULT_RECORD, first, POSITION_FIELDS)[POSITION_FIELDS[i].0] == 0.0
  {
    var fields := POSITION_FIELDS;
    PositionFieldsDistinct();
    CopyFieldsExact(DEFAULT_RECORD, first, fields);
    var k := fields[i].0;
    assert k in DEFAULT_RECORD;
    forall m | 0 <= m < FirstBad(first, fields)
      ensures fields[m].0 != k
    {
      assert m < i;
    }
  }

  /** The scan returns the price of the first ticker of an XRP market when
      every ticker before it has a market that is not one. */
  lemma {:induction false} ScanReachesFirstMatch(ts: seq<JsonObject>, i: nat)
    requires i < |ts| && IsXrpMarket(ts[i])
    requires forall j | 0 <= j < i :: HasMarket(ts[j]) && !IsXrpMarket(ts[j])
    ensures ScanTickers(ts) == TickerPrice(ts[i])
  {
    if i > 0 {
      assert ts[1..][i - 1] == ts[i];
      ScanReachesFirstMatch(ts[1..], i - 1);
    }
  }

  /** Conversely, any price the scan assigns comes from such a ticker. */
  lemma {:induction false} ScanPriceFromFirstMatch(ts: seq<JsonObject>)
    requires ScanTickers(ts).Some?
    ensures exists i | 0 <= i < |ts| ::
              IsXrpMarket(ts[i]) && ScanTickers(ts) == TickerPrice(ts[i]) &&
              forall j | 0 <= j < i :: HasMarket(ts[j]) && !IsXrpMarket(ts[j])
  {
    if IsXrpMarket(ts[0]) {
      assert IsXrpMarket(ts[0]) && ScanTickers(ts) == TickerPrice(ts[0]);
    } else {
      ScanPriceFromFirstMatch(ts[1..]);
      var i :| 0 <= i < |ts[1..]| && IsXrpMarket(ts[1..][i]) && ScanTickers(ts[1..]) == TickerPrice(ts[1..][i]) &&
               forall j | 0 <= j < i :: HasMarket(ts[1..][j]) && !IsXrpMarket(ts[1..][j]);
      forall j | 0 <= j < i + 1 ensures HasMarket(ts[j]) && !IsXrpMarket(ts[j]) {
        if j > 0 { assert ts[j] == ts[1..][j - 1]; }
      }
      assert ts[i + 1] == ts[1..][i];
    }
  }

  /** The current price: the ticker price when positive, else the average
      entry price when positive, else the stop-loss trigger when positive,
      else the (non-positive) ticker price or 0.0. */
  lemma CurrentPriceRule(positions: Reply, tickers: Reply)
    ensures var scanned := if TickersPrice(tickers).Some? then TickersPrice(tickers).value else 0.0;
            var d := ReadPositions(positions);
            XrpRecord(positions, tickers)[CURRENT_PRICE] ==
              if scanned > 0.0 then scanned
              else if d[AVG_PRICE] > 0.0 then d[AVG_PRICE]
              else if d[STOP_LOSS] > 0.0 then d[STOP_LOSS]
              else scanned
  {
  }

  /** A positive ticker price is never overwritten by the fallback. */
  lemma PositiveTickerPriceKept(positions: Reply, tickers: Reply)
    requires TickersPrice(tickers).Some? && TickersPrice(tickers).value > 0.0
    ensures XrpRecord(positions, tickers)[CURRENT_PRICE] == TickersPrice(tickers).value
  {
  }
}
