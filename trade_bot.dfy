/**
 * The trade-cycle controller: module-level position globals refreshed from
 * the exchange with bounded retries, market entry with confirmation,
 * TP/SL placement with verification that resends only the missing side,
 * close detection by consecutive flat readings, and one cycle of `main`.
 *
 * The exchange is a script of outcomes consumed in order: `feed` holds
 * what successive calls of `get_xrp_data` do (raise, or return a record),
 * `gateway` whether successive order / TP-SL calls return or raise. An
 * exhausted script reads as a call that raises. Sleeps are not modelled;
 * the 120-second verification timeout and the open-ended wait for closure
 * are bounded by a number of polling rounds.
 */
module TradeBot {
  import opened Common
  import PositionData
  import SignalEngine
  import opened TpSl

  const MAX_API_RETRIES: nat := 5
  const REQUIRED_CLOSED_CHECKS: nat := 5
  /** Position sizes and trigger prices below this magnitude read as zero. */
  const ZERO_TOL: real := 0.00001
  /** The ATR used when the engine returns none. */
  const MIN_MAX_ATR_ENTRY: real := 0.005
  /** The static offsets used when the ATR-based computation raises. */
  const FALLBACK_TP_OFFSET: real := 0.02
  const FALLBACK_SL_OFFSET: real := 0.0085

  /** One call of `get_xrp_data`: it raises, or returns a record. */
  datatype Poll = Raised | Returned(record: map<string, real>)

  /** The position globals. */
  datatype Snapshot = Snapshot(activePos: real, entryPrice: real, takeProfit: real, stopLoss: real, currentPrice: real)

  /** A request made to the order gateway. */
  datatype Request = MarketOrder(side: Signal) | SetTpSl(tp: real, sl: real)

  /** The globals together with what is left of the exchange's scripts and
      the requests made so far. */
  datatype BotState = BotState(globals: Snapshot, feed: seq<Poll>, gateway: seq<bool>, sent: seq<Request>)

  /** A state with whether the step succeeded. */
  datatype Polled = Polled(state: BotState, ok: bool)

  /** `data.get(key, 0.0)`. */
  function Field(rec: map<string, real>, key: string): real
  {
    if key in rec then rec[key] else 0.0
  }

  /** The globals a returned record sets: the position size as is, the
      prices rounded to four decimals. */
  function SnapshotOf(rec: map<string, real>): Snapshot
  {
    Snapshot(
      Field(rec, PositionData.ACTIVE_POS),
      Round4(Field(rec, PositionData.AVG_PRICE)),
      Round4(Field(rec, PositionData.TAKE_PROFIT)),
      Round4(Field(rec, PositionData.STOP_LOSS)),
      Round4(Field(rec, PositionData.CURRENT_PRICE)))
  }

  /** The refreshed globals: the position size exactly as the record has it,
      every price on the four-decimal grid within half a unit of the
      record's, and a key the record lacks read as 0.0. */
  lemma SnapshotOfRounds(rec: map<string, real>)
    ensures var g := SnapshotOf(rec);
            && g.activePos == Field(rec, PositionData.ACTIVE_POS)
            && OnGrid(g.entryPrice) && Abs(g.entryPrice - Field(rec, PositionData.AVG_PRICE)) <= 0.00005
            && OnGrid(g.takeProfit) && Abs(g.takeProfit - Field(rec, PositionData.TAKE_PROFIT)) <= 0.00005
            && OnGrid(g.stopLoss) && Abs(g.stopLoss - Field(rec, PositionData.STOP_LOSS)) <= 0.00005
            && OnGrid(g.currentPrice) && Abs(g.currentPrice - Field(rec, PositionData.CURRENT_PRICE)) <= 0.00005
    ensures PositionData.ACTIVE_POS !in rec ==> !IsActive(SnapshotOf(rec).activePos)
  {
  }

  /** The tests the controller applies to the globals. `main` and the entry
      confirmation ask for more than ZERO_TOL; the close detector and the
      TP/SL check for less. */
  predicate IsActive(pos: real) { Abs(pos) > ZERO_TOL }
  predicate ReadsClosed(pos: real) { Abs(pos) < ZERO_TOL }
  predicate Missing(level: real) { Abs(level) < ZERO_TOL }

  function Min(a: nat, b: nat): nat { if a < b then a else b }

  /** The index of the first returned outcome from `i` on among the first
      `n`, or `n` when all of them raised. */
  function FirstReturned(feed: seq<Poll>, i: nat, n: nat): (k: nat)
    requires i <= n <= |feed|
    ensures i <= k <= n
    ensures k < n ==> feed[k].Returned?
    decreases n - i
  {
    if i == n || feed[i].Returned? then i
    else FirstReturned(feed, i + 1, n)
  }

  /**
   * `update_position_globals`: up to MAX_API_RETRIES calls of
   * `get_xrp_data` (an exhausted feed makes the rest raise without
   * consuming anything). The first returned record becomes the globals; if
   * every call raises, the globals are unchanged and the exception is
   * re-raised (`ok` false).
   */
  function Update(s: BotState): Polled
  {
    var n := Min(MAX_API_RETRIES, |s.feed|);
    var k := FirstReturned(s.feed, 0, n);
    var ok := k < n;
    var globals := if ok then SnapshotOf(s.feed[k].record) else s.globals;
    var used := if ok then k + 1 else n;
    Polled(BotState(globals, s.feed[used..], s.gateway, s.sent), ok)
  }

  /** The first returned outcome is the one before which all raised. */
  lemma {:induction false} FirstReturnedIs(feed: seq<Poll>, i: nat, n: nat, j: nat)
    requires i <= j <= n <= |feed|
    requires j < n ==> feed[j].Returned?
    requires forall m | i <= m < j :: feed[m].Raised?
    ensures FirstReturned(feed, i, n) == j
    decreases n - i
  {
    if i < j {
      FirstReturnedIs(feed, i + 1, n, j);
    }
  }

  /** Every outcome before the first returned one raised. */
  lemma {:induction false} FirstReturnedSkips(feed: seq<Poll>, i: nat, n: nat)
    requires i <= n <= |feed|
    ensures forall m | i <= m < FirstReturned(feed, i, n) :: feed[m].Raised?
    decreases n - i
  {
    if i < n && feed[i].Raised? {
      FirstReturnedSkips(feed, i + 1, n);
    }
  }

  /** `u` is `s` after a refresh in which call `i + 1` returned a record
      and every earlier call raised: the globals are that record's snapshot,
      the calls made are consumed, and nothing else changed. */
  ghost predicate RefreshedFrom(s: BotState, u: BotState)
  {
    exists i | 0 <= i < Min(MAX_API_RETRIES, |s.feed|) ::
      && s.feed[i].Returned?
      && (forall m | 0 <= m < i :: s.feed[m].Raised?)
      && u == BotState(SnapshotOf(s.feed[i].record), s.feed[i + 1..], s.gateway, s.sent)
  }

  /**
   * What a refresh does: it succeeds exactly when one of its first
   * MAX_API_RETRIES calls returns, and then the globals are the snapshot of
   * the first returned record; when all of those calls raise, they are
   * consumed and nothing else changes.
   */
  lemma UpdateFacts(s: BotState)
    ensures var u := Update(s);
            var n := Min(MAX_API_RETRIES, |s.feed|);
            && (u.ok <==> exists m | 0 <= m < n :: s.feed[m].Returned?)
            && (u.ok ==> RefreshedFrom(s, u.state))
            && (!u.ok ==> u.state == s.(feed := s.feed[n..]) && forall m | 0 <= m < n :: s.feed[m].Raised?)
  {
    var n := Min(MAX_API_RETRIES, |s.feed|);
    var k := FirstReturned(s.feed, 0, n);
    FirstReturnedSkips(s.feed, 0, n);
    if k < n {
      assert s.feed[k].Returned? && (forall m | 0 <= m < k :: s.feed[m].Raised?)
             && Update(s).state == BotState(SnapshotOf(s.feed[k].record), s.feed[k + 1..], s.gateway, s.sent);
    }
  }

  /** A call of the order gateway: the request is made, and the next
      gateway outcome says whether the call returned. */
  function Send(s: BotState, req: Request): Polled
  {
    var ok := s.gateway != [] && s.gateway[0];
    Polled(s.(gateway := if s.gateway == [] then [] else s.gateway[1..], sent := s.sent + [req]), ok)
  }

  /** One attempt of `place_market_order_and_confirm`: place the order
      and, if the call returned, refresh; the attempt confirms when the
      refresh returned and the globals hold a position. A raised order call
      or refresh ends the attempt unconfirmed. */
  function ConfirmAttempt(s: BotState, side: Signal): (a: Polled)
    ensures a.state.sent == s.sent + [MarketOrder(side)]
    ensures a.ok ==> IsActive(a.state.globals.activePos)
  {
    var placed := Send(s, MarketOrder(side));
    if !placed.ok then Polled(placed.state, false)
    else
      var u := Update(placed.state);
      Polled(u.state, u.ok && IsActive(u.state.globals.activePos))
  }

  /** `place_market_order_and_confirm` with `attempts` attempts left. */
  function Confirm(s: BotState, side: Signal, attempts: nat): (c: Polled)
    ensures c.ok ==> IsActive(c.state.globals.activePos)
    ensures |s.sent| <= |c.state.sent| <= |s.sent| + attempts
    ensures attempts > 0 ==> |s.sent| < |c.state.sent|
    decreases attempts
  {
    if attempts == 0 then Polled(s, false)
    else
      var a := ConfirmAttempt(s, side);
      if a.ok then a else Confirm(a.state, side, attempts - 1)
  }

  /** The state in which attempt `k` (counting from 0) starts when every
      earlier attempt failed. */
  function AttemptState(s: BotState, side: Signal, k: nat): BotState
    decreases k
  {
    if k == 0 then s else AttemptState(ConfirmAttempt(s, side).state, side, k - 1)
  }

  /** Attempt `k` is the first that confirms. */
  predicate ConfirmsFirstAt(s: BotState, side: Signal, k: nat)
  {
    && ConfirmAttempt(AttemptState(s, side, k), side).ok
    && forall j | 0 <= j < k :: !ConfirmAttempt(AttemptState(s, side, j), side).ok
  }

  /**
   * One verification decision: None when both levels are on the exchange,
   * otherwise the pair to resend, carrying the wanted price for each
   * missing side and 0.0 ("leave unchanged") for the present one.
   */
  function ResendFor(snap: Snapshot, tp: real, sl: real): (r: Option<(real, real)>)
    ensures r.None? <==> !Missing(snap.takeProfit) && !Missing(snap.stopLoss)
    ensures r.Some? ==> r.value.0 == (if Missing(snap.takeProfit) then tp else 0.0)
    ensures r.Some? ==> r.value.1 == (if Missing(snap.stopLoss) then sl else 0.0)
  {
    var tpMissing := Missing(snap.takeProfit);
    var slMissing := Missing(snap.stopLoss);
    if !tpMissing && !slMissing then None
    else Some((if tpMissing then tp else 0.0, if slMissing then sl else 0.0))
  }

  /** One round of `verify_and_retry_tpsl`: refresh; when the refresh
      succeeded and both levels are present the check is done, when a level
      is missing the missing side is resent. */
  function VerifyRound(s: BotState, tp: real, sl: real): Polled
  {
    var u := Update(s);
    if !u.ok then Polled(u.state, false)
    else match ResendFor(u.state.globals, tp, sl)
      case None => Polled(u.state, true)
      case Some(pair) => Polled(Send(u.state, SetTpSl(pair.0, pair.1)).state, false)
  }

  /** `verify_and_retry_tpsl` with `rounds` polling rounds left. */
  function Verify(s: BotState, tp: real, sl: real, rounds: nat): Polled
    decreases rounds
  {
    if rounds == 0 then Polled(s, false)
    else
      var p := VerifyRound(s, tp, sl);
      if p.ok then p else Verify(p.state, tp, sl, rounds - 1)
  }

  /** The state in which verification round `k` (counting from 0) starts
      when no earlier round found both levels. */
  function RoundState(s: BotState, tp: real, sl: real, k: nat): BotState
    decreases k
  {
    if k == 0 then s else RoundState(VerifyRound(s, tp, sl).state, tp, sl, k - 1)
  }

  /** Round `k` is the first that finds both levels. */
  predicate VerifiesFirstAt(s: BotState, tp: real, sl: real, k: nat)
  {
    && VerifyRound(RoundState(s, tp, sl, k), tp, sl).ok
    && forall j | 0 <= j < k :: !VerifyRound(RoundState(s, tp, sl, j), tp, sl).ok
  }

  /** A round of the close detector counts when the fetch succeeded and the
      position reads as closed. */
  predicate CountsAsClosed(r: Option<Snapshot>)
  {
    r.Some? && ReadsClosed(r.value.activePos)
  }

  /** The length of the run of counting rounds at the end of `rs`. */
  function Trailing(rs: seq<Option<Snapshot>>): (t: nat)
    ensures t <= |rs|
    decreases |rs|
  {
    if rs == [] || !CountsAsClosed(rs[|rs| - 1]) then 0
    else 1 + Trailing(rs[..|rs| - 1])
  }

  /** `Trailing` is the longest run of counting readings at the end. */
  lemma {:induction false} TrailingIsFinalRun(rs: seq<Option<Snapshot>>)
    ensures var t := Trailing(rs);
            && (forall i | |rs| - t <= i < |rs| :: CountsAsClosed(rs[i]))
            && (t < |rs| ==> !CountsAsClosed(rs[|rs| - 1 - t]))
    decreases |rs|
  {
    if rs != [] && CountsAsClosed(rs[|rs| - 1]) {
      var init := rs[..|rs| - 1];
      TrailingIsFinalRun(init);
      forall i | |rs| - Trailing(rs) <= i < |rs| - 1
        ensures CountsAsClosed(rs[i])
      {
        assert rs[i] == init[i];
      }
      if Trailing(rs) < |rs| {
        assert rs[|rs| - 1 - Trailing(rs)] == init[|init| - 1 - Trailing(init)];
      }
    }
  }

  /** The counter the close detector keeps: one more on a counting
      reading, back to zero on any other. */
  lemma TrailingSnoc(rs: seq<Option<Snapshot>>, r: Option<Snapshot>)
    ensures Trailing(rs + [r]) == if CountsAsClosed(r) then Trailing(rs) + 1 else 0
  {
    assert (rs + [r])[..|rs|] == rs;
  }

  /** `f` applied `i` times to `x`. */
  function Iterate<T>(f: T -> T, x: T, i: nat): T
    decreases i
  {
    if i == 0 then x else Iterate(f, f(x), i - 1)
  }

  /** One more application. */
  lemma {:induction false} IterateStep<T>(f: T -> T, x: T, i: nat)
    ensures Iterate(f, x, i + 1) == f(Iterate(f, x, i))
    decreases i
  {
    if i > 0 {
      IterateStep(f, f(x), i - 1);
    }
  }

  /** `g` of `n` successive states from `x`, each the `f` of the one before. */
  function Trace<T, U>(f: T -> T, g: T -> U, x: T, n: nat): (t: seq<U>)
    ensures |t| == n
    decreases n
  {
    if n == 0 then [] else [g(x)] + Trace(f, g, f(x), n - 1)
  }

  /** Entry `i` of a trace is `g` of the state after `i` steps. */
  lemma {:induction false} TraceAt<T, U>(f: T -> T, g: T -> U, x: T, n: nat, i: nat)
    requires i < n
    ensures Trace(f, g, x, n)[i] == g(Iterate(f, x, i))
    decreases i
  {
    if i > 0 {
      TraceAt(f, g, f(x), n - 1, i - 1);
    }
  }

  /** The state a refresh leaves. */
  function AfterRefresh(s: BotState): BotState { Update(s).state }

  /** The state after `i` refreshes in a row from `s`. */
  function Refreshes(s: BotState, i: nat): BotState
  {
    Iterate(AfterRefresh, s, i)
  }

  /** What one round of the close detector reads: the snapshot, or
      nothing when the refresh raised. */
  function Reading(u: Polled): Option<Snapshot>
  {
    if u.ok then Some(u.state.globals) else None
  }

  /** What the close detector reads from one refresh made in state `s`. */
  function ReadingFrom(s: BotState): Option<Snapshot> { Reading(Update(s)) }

  datatype Waited = Waited(state: BotState, closed: bool, readings: seq<Option<Snapshot>>)

  /**
   * `wait_for_position_close` with `rounds` rounds left and the counter at
   * `count`: a counting reading increments the counter, any other resets
   * it, and the wait ends once it reaches REQUIRED_CLOSED_CHECKS. The
   * readings it took are returned alongside.
   */
  function Wait(s: BotState, count: nat, rounds: nat): Waited
    requires count < REQUIRED_CLOSED_CHECKS
    decreases rounds
  {
    if rounds == 0 then Waited(s, false, [])
    else
      var u := Update(s);
      var r := Reading(u);
      var c := if CountsAsClosed(r) then count + 1 else 0;
      if c >= REQUIRED_CLOSED_CHECKS then Waited(u.state, true, [r])
      else
        var w := Wait(u.state, c, rounds - 1);
        Waited(w.state, w.closed, [r] + w.readings)
  }

  /** One round of the wait, stated through the state and the reading a
      refresh leaves. */
  lemma WaitStep(s: BotState, count: nat, rounds: nat)
    requires count < REQUIRED_CLOSED_CHECKS && rounds > 0
    ensures var r := ReadingFrom(s);
            var c := if CountsAsClosed(r) then count + 1 else 0;
            Wait(s, count, rounds) ==
              if c >= REQUIRED_CLOSED_CHECKS then Waited(AfterRefresh(s), true, [r])
              else
                var w := Wait(AfterRefresh(s), c, rounds - 1);
                Waited(w.state, w.closed, [r] + w.readings)
  {
  }

  /** The counter after the readings `rd`, starting from `c`. */
  function CountAfter(c: nat, rd: seq<Option<Snapshot>>): nat
    decreases |rd|
  {
    if rd == [] then c
    else CountAfter(if CountsAsClosed(rd[0]) then c + 1 else 0, rd[1..])
  }

  /** Counting on from the trailing run of `rs` gives the trailing run of
      `rs` followed by `rd`. */
  lemma {:induction false} CountAfterTrailing(rs: seq<Option<Snapshot>>, rd: seq<Option<Snapshot>>)
    ensures CountAfter(Trailing(rs), rd) == Trailing(rs + rd)
    decreases |rd|
  {
    if rd == [] {
      assert rs + rd == rs;
    } else {
      TrailingSnoc(rs, rd[0]);
      CountAfterTrailing(rs + [rd[0]], rd[1..]);
      assert rs + [rd[0]] + rd[1..] == rs + rd;
    }
  }

  /** The wait takes one reading per round until it ends, and reports
      closed exactly when the counter over its readings reaches
      REQUIRED_CLOSED_CHECKS. */
  lemma {:induction false} WaitClosedIffCount(s: BotState, c: nat, rounds: nat)
    requires c < REQUIRED_CLOSED_CHECKS
    ensures var w := Wait(s, c, rounds);
            && |w.readings| <= rounds
            && (!w.closed ==> |w.readings| == rounds)
            && (w.closed <==> CountAfter(c, w.readings) >= REQUIRED_CLOSED_CHECKS)
    decreases rounds
  {
    if rounds > 0 {
      WaitStep(s, c, rounds);
      var r := ReadingFrom(s);
      var c' := if CountsAsClosed(r) then c + 1 else 0;
      if c' >= REQUIRED_CLOSED_CHECKS {
        assert [r][1..] == [];
      } else {
        var w' := Wait(AfterRefresh(s), c', rounds - 1);
        WaitClosedIffCount(AfterRefresh(s), c', rounds - 1);
        assert ([r] + w'.readings)[1..] == w'.readings;
      }
    }
  }

  /** No proper prefix of `rd` brings the counter from `c` to
      REQUIRED_CLOSED_CHECKS. */
  ghost predicate NoEarlierCount(c: nat, rd: seq<Option<Snapshot>>)
  {
    forall k | 0 <= k < |rd| :: CountAfter(c, rd[..k]) < REQUIRED_CLOSED_CHECKS
  }

  /** No prefix of the readings short of all of them brought the counter to
      REQUIRED_CLOSED_CHECKS. */
  lemma {:induction false} WaitNoEarlierCount(s: BotState, c: nat, rounds: nat)
    requires c < REQUIRED_CLOSED_CHECKS
    ensures NoEarlierCount(c, Wait(s, c, rounds).readings)
    decreases rounds
  {
    var rd := Wait(s, c, rounds).readings;
    assert rd[..0] == [];
    if rounds > 0 {
      var u := Update(s);
      var r := Reading(u);
      var c': nat := if CountsAsClosed(r) then c + 1 else 0;
      if c' < REQUIRED_CLOSED_CHECKS {
        var rd' := Wait(u.state, c', rounds - 1).readings;
        assert rd == [r] + rd';
        WaitNoEarlierCount(u.state, c', rounds - 1);
        forall k | 1 <= k < |rd|
          ensures CountAfter(c, rd[..k]) < REQUIRED_CLOSED_CHECKS
        {
          var pre := rd[..k];
          assert pre != [] && pre[0] == r && pre[1..] == rd'[..k - 1];
          assert CountAfter(c, pre) == CountAfter(c', rd'[..k - 1]);
        }
      }
    }
  }

  /** The readings of `n` refreshes in a row from `s`. */
  function RefreshReadings(s: BotState, n: nat): seq<Option<Snapshot>>
  {
    Trace(AfterRefresh, ReadingFrom, s, n)
  }

  /** The close detector takes the readings of consecutive refreshes. */
  lemma {:induction false} WaitReadsRefreshes(s: BotState, c: nat, rounds: nat)
    requires c < REQUIRED_CLOSED_CHECKS
    ensures var rd := Wait(s, c, rounds).readings;
            rd == RefreshReadings(s, |rd|)
    decreases rounds
  {
    if rounds > 0 {
      var u := Update(s);
      var r := Reading(u);
      var c': nat := if CountsAsClosed(r) then c + 1 else 0;
      if c' < REQUIRED_CLOSED_CHECKS {
        var rd' := Wait(u.state, c', rounds - 1).readings;
        WaitReadsRefreshes(u.state, c', rounds - 1);
        assert Wait(s, c, rounds).readings == [r] + rd';
        assert RefreshReadings(s, |rd'| + 1) == [ReadingFrom(s)] + RefreshReadings(AfterRefresh(s), |rd'|);
      } else {
        assert Wait(s, c, rounds).readings == [r];
        assert RefreshReadings(s, 1) == [ReadingFrom(s)] + RefreshReadings(AfterRefresh(s), 0);
      }
    }
  }

  /** The close detector ends in the state after as many refreshes as it
      took readings. */
  lemma {:induction false} WaitEndsAfterRefreshes(s: BotState, c: nat, rounds: nat)
    requires c < REQUIRED_CLOSED_CHECKS
    ensures Wait(s, c, rounds).state == Refreshes(s, |Wait(s, c, rounds).readings|)
    decreases rounds
  {
    if rounds == 0 {
      assert Refreshes(s, 0) == s;
    } else {
      WaitStep(s, c, rounds);
      var r := ReadingFrom(s);
      var c' := if CountsAsClosed(r) then c + 1 else 0;
      if c' >= REQUIRED_CLOSED_CHECKS {
        assert Refreshes(s, 1) == Refreshes(AfterRefresh(s), 0);
      } else {
        var w := Wait(AfterRefresh(s), c', rounds - 1);
        WaitEndsAfterRefreshes(AfterRefresh(s), c', rounds - 1);
        assert Refreshes(s, |w.readings| + 1) == Refreshes(AfterRefresh(s), |w.readings|);
      }
    }
  }

  /**
   * Every reading is tied to the exchange: it is None exactly when its
   * refresh raised on all its calls, and otherwise it is the snapshot of
   * the first record that refresh got.
   */
  lemma WaitReadingsFromExchange(s: BotState, c: nat, rounds: nat)
    requires c < REQUIRED_CLOSED_CHECKS
    ensures var rd := Wait(s, c, rounds).readings;
            forall i | 0 <= i < |rd| ::
              && (rd[i].None? <==> !Update(Refreshes(s, i)).ok)
              && (rd[i].Some? ==> RefreshedFrom(Refreshes(s, i), Refreshes(s, i + 1)) && rd[i].value == Refreshes(s, i + 1).globals)
  {
    WaitReadsRefreshes(s, c, rounds);
    var rd := Wait(s, c, rounds).readings;
    forall i | 0 <= i < |rd|
      ensures && (rd[i].None? <==> !Update(Refreshes(s, i)).ok)
              && (rd[i].Some? ==> RefreshedFrom(Refreshes(s, i), Refreshes(s, i + 1)) && rd[i].value == Refreshes(s, i + 1).globals)
    {
      TraceAt(AfterRefresh, ReadingFrom, s, |rd|, i);
      IterateStep(AfterRefresh, s, i);
      UpdateFacts(Refreshes(s, i));
    }
  }

  /** While every remaining call raises (or none is scripted), the close
      detector reads nothing in every round, so its counter stays at zero
      and it never reports closed. */
  lemma {:induction false} WaitNeverClosesOnRaises(s: BotState, c: nat, rounds: nat)
    requires c < REQUIRED_CLOSED_CHECKS
    requires forall i | 0 <= i < |s.feed| :: s.feed[i].Raised?
    ensures var w := Wait(s, c, rounds);
            && !w.closed && |w.readings| == rounds
            && forall i | 0 <= i < rounds :: w.readings[i].None?
    decreases rounds
  {
    if rounds > 0 {
      var n := Min(MAX_API_RETRIES, |s.feed|);
      FirstReturnedIs(s.feed, 0, n, n);
      var u := Update(s);
      assert !u.ok && u.state.feed == s.feed[n..];
      WaitNeverClosesOnRaises(u.state, 0, rounds - 1);
    }
  }

  /** From a zero counter, the counter is the trailing run of readings. */
  lemma CountFromZero(rd: seq<Option<Snapshot>>)
    ensures CountAfter(0, rd) == Trailing(rd)
  {
    CountAfterTrailing([], rd);
    assert [] + rd == rd;
  }

  /**
   * The close detector from a zero counter reports closed only when its
   * last REQUIRED_CLOSED_CHECKS readings all succeeded and read flat; when
   * it runs out of rounds it took one reading per round and the last ones
   * are not such a run.
   */
  lemma WaitClosedAfterFlatRun(s: BotState, rounds: nat)
    ensures var w := Wait(s, 0, rounds);
            && (w.closed ==>
                  && |w.readings| >= REQUIRED_CLOSED_CHECKS
                  && forall i | |w.readings| - REQUIRED_CLOSED_CHECKS <= i < |w.readings| :: CountsAsClosed(w.readings[i]))
            && (!w.closed ==> |w.readings| == rounds && Trailing(w.readings) < REQUIRED_CLOSED_CHECKS)
  {
    var rd := Wait(s, 0, rounds).readings;
    WaitClosedIffCount(s, 0, rounds);
    CountFromZero(rd);
    TrailingIsFinalRun(rd);
  }

  /** ... and it stops at the first such run: no earlier round had one. */
  lemma WaitStopsAtFirstRun(s: BotState, rounds: nat)
    ensures var rd := Wait(s, 0, rounds).readings;
            forall k | 0 <= k < |rd| :: Trailing(rd[..k]) < REQUIRED_CLOSED_CHECKS
  {
    var rd := Wait(s, 0, rounds).readings;
    WaitNoEarlierCount(s, 0, rounds);
    forall k | 0 <= k < |rd|
      ensures Trailing(rd[..k]) < REQUIRED_CLOSED_CHECKS
    {
      CountFromZero(rd[..k]);
    }
  }

  /** The fallback levels: fixed offsets around the entry, rounded, on the
      take-profit side for a BUY and mirrored otherwise. */
  function StaticLevels(entry: real, side: Signal): (l: Levels)
    ensures l.details == StaticFallback && OnGrid(l.tp) && OnGrid(l.sl)
    ensures side == BUY ==> && Abs(l.tp - (entry + FALLBACK_TP_OFFSET)) <= 0.00005
                            && Abs(l.sl - (entry - FALLBACK_SL_OFFSET)) <= 0.00005
                            && l.sl < entry < l.tp
    ensures side != BUY ==> && Abs(l.tp - (entry - FALLBACK_TP_OFFSET)) <= 0.00005
                            && Abs(l.sl - (entry + FALLBACK_SL_OFFSET)) <= 0.00005
                            && l.tp < entry < l.sl
  {
    if side == BUY then
      Levels(Round4(entry + FALLBACK_TP_OFFSET), Round4(entry - FALLBACK_SL_OFFSET), StaticFallback)
    else
      Levels(Round4(entry - FALLBACK_TP_OFFSET), Round4(entry + FALLBACK_SL_OFFSET), StaticFallback)
  }

  /** The levels `main` sets: the ATR-based ones, or the static ones when
      their computation raises. */
  function ProtectiveLevels(entry: real, atr: Float, side: Signal): (l: Levels)
    ensures l.details.StaticFallback? <==> atr.NaN? || side == HOLD
    ensures l.details.StaticFallback? ==> l == StaticLevels(entry, side)
  {
    match ComputeTpSl(entry, Some(atr), side)
    case Ok(levels) => levels
    case Err(_) => StaticLevels(entry, side)
  }

  /** The exchange's average price when positive, else the signal price. */
  function EntryPrice(confirmedEntry: real, signalPrice: real): (e: real)
    ensures confirmedEntry > 0.0 ==> e == confirmedEntry
    ensures confirmedEntry <= 0.0 ==> e == signalPrice
  {
    if confirmedEntry > 0.0 then confirmedEntry else signalPrice
  }

  /** The engine's ATR, or MIN_MAX_ATR_ENTRY when it returned None. */
  function AtrForLevels(sigAtr: Option<Float>): (a: Float)
    ensures sigAtr.Some? ==> a == sigAtr.value
    ensures sigAtr.None? ==> a == Real(MIN_MAX_ATR_ENTRY)
    ensures sigAtr.None? || !SignalEngine.TooCalm(sigAtr.value) ==> a.NaN? || a.v >= MIN_MAX_ATR_ENTRY
  {
    if sigAtr.Some? then sigAtr.value else Real(MIN_MAX_ATR_ENTRY)
  }

  /** How one cycle of `main` ends. */
  datatype CycleOutcome =
    | InitialCheckFailed
    | MonitoredExisting(closed: bool)
    | HistoryFailed
    | NoTrade(signal: Option<Signal>)
    | EntryFailed(side: Signal)
    | Traded(side: Signal, signalPrice: real, confirmedEntry: real, entry: real, levels: Levels,
             protectionVerified: bool, closed: bool)

  datatype CycleResult = CycleResult(state: BotState, outcome: CycleOutcome)

  datatype Protected = Protected(state: BotState, verified: bool, closed: bool)

  /** After a confirmed entry: set the levels, verify them, then wait for
      the position to close. */
  function Protect(c: BotState, tp: real, sl: real, verifyRounds: nat, monitorRounds: nat): Protected
  {
    var placed := Send(c, SetTpSl(tp, sl));
    var v := Verify(placed.state, tp, sl, verifyRounds);
    var w := Wait(v.state, 0, monitorRounds);
    Protected(w.state, v.ok, w.closed)
  }

  /** The trade part of a cycle, once the engine returned `side` with its
      price and ATR: enter, then protect the position. */
  function Enter(s: BotState, side: Signal, signalPrice: real, sigAtr: Option<Float>,
                 verifyRounds: nat, monitorRounds: nat): (r: CycleResult)
    ensures (r.outcome.EntryFailed? || r.outcome.Traded?) && r.outcome.side == side
    ensures r.outcome.Traded? ==> r.outcome.signalPrice == signalPrice
  {
    var c := Confirm(s, side, MAX_API_RETRIES);
    if !c.ok then CycleResult(c.state, EntryFailed(side))
    else
      var confirmedEntry := c.state.globals.entryPrice;
      var entry := EntryPrice(confirmedEntry, signalPrice);
      var levels := ProtectiveLevels(entry, AtrForLevels(sigAtr), side);
      var p := Protect(c.state, levels.tp, levels.sl, verifyRounds, monitorRounds);
      CycleResult(p.state, Traded(side, signalPrice, confirmedEntry, entry, levels, p.verified, p.closed))
  }

  /**
   * One pass of `main`'s loop body. `history` is what the candle download
   * gives (None: it raised), `stream` the live messages until the socket
   * closes.
   */
  function Cycle(ind: SignalEngine.Indicators, s: BotState, history: Option<seq<SignalEngine.Candle>>,
                 stream: seq<SignalEngine.Kline>, verifyRounds: nat, monitorRounds: nat): CycleResult
  {
    var first := Update(s);
    if !first.ok then CycleResult(first.state, InitialCheckFailed)
    else if IsActive(first.state.globals.activePos) then
      var w := Wait(first.state, 0, monitorRounds);
      CycleResult(w.state, MonitoredExisting(w.closed))
    else if history.None? then CycleResult(first.state, HistoryFailed)
    else
      var e := SignalEngine.Run(ind, SignalEngine.FRESH.(window := history.value), stream);
      if e.finalSignal != Some(BUY) && e.finalSignal != Some(SELL) then
        CycleResult(first.state, NoTrade(e.finalSignal))
      else
        SignalEngine.NextSignalOutcome(ind, history.value, stream);
        Enter(first.state, e.finalSignal.value, e.finalPrice.value, e.finalAtr, verifyRounds, monitorRounds)
  }

  /** The bot: its module globals and the exchange it talks to. */
  class Bot {
    var activePosition: real
    var posEntryPrice: real
    var posTakeProfit: real
    var posStopLoss: real
    var currentPrice: real
    /** The outcomes of the next `get_xrp_data` calls. */
    var feed: seq<Poll>
    /** The outcomes of the next gateway calls (true: returned). */
    var gateway: seq<bool>
    /** Every gateway request made, in order. */
    var sent: seq<Request>

    function Globals(): Snapshot
      reads this
    {
      Snapshot(activePosition, posEntryPrice, posTakeProfit, posStopLoss, currentPrice)
    }

    function State(): BotState
      reads this
    {
      BotState(Globals(), feed, gateway, sent)
    }

    /** The globals start at 0.0. */
    constructor (feed: seq<Poll>, gateway: seq<bool>)
      ensures State() == BotState(Snapshot(0.0, 0.0, 0.0, 0.0, 0.0), feed, gateway, [])
    {
      activePosition, posEntryPrice, posTakeProfit, posStopLoss, currentPrice := 0.0, 0.0, 0.0, 0.0, 0.0;
      this.feed := feed;
      this.gateway := gateway;
      sent := [];
    }

    /** One call of `get_xrp_data`. */
    method FetchPosition() returns (poll: Poll)
      modifies this
      ensures poll == (if old(feed) == [] then Raised else old(feed)[0])
      ensures feed == (if old(feed) == [] then [] else old(feed)[1..])
      ensures Globals() == old(Globals()) && gateway == old(gateway) && sent == old(sent)
    {
      if feed == [] {
        poll := Raised;
      } else {
        poll := feed[0];
        feed := feed[1..];
      }
    }

    /** One call of the order gateway. */
    method SendRequest(req: Request) returns (ok: bool)
      modifies this
      ensures State() == Send(old(State()), req).state && ok == Send(old(State()), req).ok
    {
      ok := gateway != [] && gateway[0];
      gateway := if gateway == [] then [] else gateway[1..];
      sent := sent + [req];
    }

    /** The assignments of `update_position_globals` from a returned record. */
    method StoreRecord(rec: map<string, real>)
      modifies this
      ensures Globals() == SnapshotOf(rec)
      ensures feed == old(feed) && gateway == old(gateway) && sent == old(sent)
    {
      activePosition := Field(rec, PositionData.ACTIVE_POS);
      posEntryPrice := Round4(Field(rec, PositionData.AVG_PRICE));
      posTakeProfit := Round4(Field(rec, PositionData.TAKE_PROFIT));
      posStopLoss := Round4(Field(rec, PositionData.STOP_LOSS));
      currentPrice := Round4(Field(rec, PositionData.CURRENT_PRICE));
    }

    /** `update_position_globals`: false stands for the exception it raises
        after the last failed attempt. */
    method UpdatePositionGlobals() returns (ok: bool)
      modifies this
      ensures State() == Update(old(State())).state && ok == Update(old(State())).ok
    {
      ghost var n := Min(MAX_API_RETRIES, |feed|);
      ghost var used: nat := 0;
      var attempt := 1;
      while attempt <= MAX_API_RETRIES
        invariant 1 <= attempt <= MAX_API_RETRIES + 1
        invariant used == Min(attempt - 1, |old(feed)|) && feed == old(feed)[used..]
        invariant forall i | 0 <= i < used :: old(feed)[i].Raised?
        invariant Globals() == old(Globals()) && gateway == old(gateway) && sent == old(sent)
      {
        var poll := FetchPosition();
        if poll.Returned? {
          FirstReturnedIs(old(feed), 0, n, used);
          StoreRecord(poll.record);
          ok := true;
          return;
        }
        if used < |old(feed)| {
          used := used + 1;
        }
        attempt := attempt + 1;
      }
      FirstReturnedIs(old(feed), 0, n, n);
      ok := false;
    }

    /** `attempt_set_tpsl`. */
    method AttemptSetTpsl(tp: real, sl: real) returns (ok: bool)
      modifies this
      ensures State() == Send(old(State()), SetTpSl(tp, sl)).state && ok == Send(old(State()), SetTpSl(tp, sl)).ok
    {
      ok := SendRequest(SetTpSl(tp, sl));
    }

    /** `place_market_order_and_confirm`. */
    method PlaceMarketOrderAndConfirm(side: Signal) returns (placed: bool)
      modifies this
      ensures State() == Confirm(old(State()), side, MAX_API_RETRIES).state
      ensures placed == Confirm(old(State()), side, MAX_API_RETRIES).ok
    {
      var attempt := 1;
      while attempt <= MAX_API_RETRIES
        invariant 1 <= attempt <= MAX_API_RETRIES + 1
        invariant Confirm(State(), side, MAX_API_RETRIES + 1 - attempt) == Confirm(old(State()), side, MAX_API_RETRIES)
      {
        var accepted := SendRequest(MarketOrder(side));
        if accepted {
          var fetched := UpdatePositionGlobals();
          if fetched && IsActive(activePosition) {
            placed := true;
            return;
          }
        }
        attempt := attempt + 1;
      }
      placed := false;
    }

    /** `verify_and_retry_tpsl` with at most `rounds` polling rounds. */
    method VerifyAndRetryTpsl(side: Signal, tp: real, sl: real, rounds: nat) returns (verified: bool)
      modifies this
      ensures State() == Verify(old(State()), tp, sl, rounds).state
      ensures verified == Verify(old(State()), tp, sl, rounds).ok
    {
      var left: nat := rounds;
      while left > 0
        invariant left <= rounds
        invariant Verify(State(), tp, sl, left) == Verify(old(State()), tp, sl, rounds)
      {
        var fetched := UpdatePositionGlobals();
        left := left - 1;
        if !fetched {
          continue;
        }
        var tpMissing := Missing(posTakeProfit);
        var slMissing := Missing(posStopLoss);
        if !tpMissing && !slMissing {
          verified := true;
          return;
        }
        var tpToSend := if tpMissing then tp else 0.0;
        var slToSend := if slMissing then sl else 0.0;
        var _ := AttemptSetTpsl(tpToSend, slToSend);
      }
      verified := false;
    }

    /** `wait_for_position_close` with at most `rounds` polling rounds. */
    method WaitForPositionClose(rounds: nat) returns (closed: bool)
      modifies this
      ensures State() == Wait(old(State()), 0, rounds).state
      ensures closed == Wait(old(State()), 0, rounds).closed
    {
      var consecutive := 0;
      var left: nat := rounds;
      while consecutive < REQUIRED_CLOSED_CHECKS && left > 0
        invariant left <= rounds && consecutive <= REQUIRED_CLOSED_CHECKS
        invariant consecutive < REQUIRED_CLOSED_CHECKS ==>
                    Wait(old(State()), 0, rounds).state == Wait(State(), consecutive, left).state &&
                    Wait(old(State()), 0, rounds).closed == Wait(State(), consecutive, left).closed
        invariant consecutive == REQUIRED_CLOSED_CHECKS ==>
                    Wait(old(State()), 0, rounds).state == State() && Wait(old(State()), 0, rounds).closed
        decreases left
      {
        var fetched := UpdatePositionGlobals();
        if fetched && ReadsClosed(activePosition) {
          consecutive := consecutive + 1;
        } else {
          consecutive := 0;
        }
        left := left - 1;
      }
      closed := consecutive >= REQUIRED_CLOSED_CHECKS;
    }

    /** One pass of `main`'s loop body. */
    method RunCycle(ind: SignalEngine.Indicators, history: Option<seq<SignalEngine.Candle>>,
                    stream: seq<SignalEngine.Kline>, verifyRounds: nat, monitorRounds: nat)
      returns (outcome: CycleOutcome)
      modifies this
      ensures State() == Cycle(ind, old(State()), history, stream, verifyRounds, monitorRounds).state
      ensures outcome == Cycle(ind, old(State()), history, stream, verifyRounds, monitorRounds).outcome
    {
      var ok := UpdatePositionGlobals();
      if !ok {
        return InitialCheckFailed;
      }
      if IsActive(activePosition) {
        var closed := WaitForPositionClose(monitorRounds);
        return MonitoredExisting(closed);
      }
      if history.None? {
        return HistoryFailed;
      }
      var engine := new SignalEngine.DataEngine(ind);
      engine.LoadHistorical(history.value);
      var signal, sigPrice, sigAtr := engine.GetNextSignal(stream);
      if signal != Some(BUY) && signal != Some(SELL) {
        return NoTrade(signal);
      }
      var side := signal.value;
      var placed := PlaceMarketOrderAndConfirm(side);
      if !placed {
        return EntryFailed(side);
      }
      SignalEngine.NextSignalOutcome(ind, history.value, stream);
      var confirmedEntry := posEntryPrice;
      var entry := EntryPrice(confirmedEntry, sigPrice.value);
      var levels := ProtectiveLevels(entry, AtrForLevels(sigAtr), side);
      var _ := AttemptSetTpsl(levels.tp, levels.sl);
      var verified := VerifyAndRetryTpsl(side, levels.tp, levels.sl, verifyRounds);
      var closed := WaitForPositionClose(monitorRounds);
      return Traded(side, sigPrice.value, confirmedEntry, entry, levels, verified, closed);
    }
  }

  // ---------------------------------------------------------------------
  // Properties of the controller
  // ---------------------------------------------------------------------

  /** A TP/SL request the verifier may send for wanted levels `tp`, `sl`:
      the wanted price for a missing side, 0.0 for a present one, and never
      0.0 for both. */
  predicate IsResend(r: Request, tp: real, sl: real)
  {
    r == SetTpSl(tp, 0.0) || r == SetTpSl(0.0, sl) || r == SetTpSl(tp, sl)
  }

  /** A failed or empty positions reply gives globals that read as flat with
      both levels missing. */
  lemma FailedFetchReadsFlatWithoutLevels(positions: PositionData.Reply, tickers: PositionData.Reply)
    requires positions.Failed? || positions.items == []
    ensures var snap := SnapshotOf(PositionData.XrpRecord(positions, tickers));
            && ReadsClosed(snap.activePos) && !IsActive(snap.activePos)
            && Missing(snap.takeProfit) && Missing(snap.stopLoss)
            && snap.entryPrice == 0.0
  {
    PositionData.FailedFetchReadsFlat(positions, tickers);
    Round4OnGrid(0.0);
  }

  /** A position of exactly ZERO_TOL is flat to `main` and to the entry
      confirmation, but not closed to the close detector. */
  lemma ThresholdGap(pos: real)
    requires Abs(pos) == ZERO_TOL
    ensures !IsActive(pos) && !ReadsClosed(pos)
  {
  }

  /** `n` copies of a request. */
  function Repeat(r: Request, n: nat): (rs: seq<Request>)
    ensures |rs| == n
    ensures forall i | 0 <= i < n :: rs[i] == r
  {
    if n == 0 then [] else [r] + Repeat(r, n - 1)
  }

  /** Entry confirmation sends only market orders for the side: at least one
      and at most one per attempt, exactly one per attempt when it fails;
      success means the refreshed globals hold a position. */
  lemma {:induction false} ConfirmSendsOnlyOrders(s: BotState, side: Signal, attempts: nat)
    ensures var c := Confirm(s, side, attempts);
            && |s.sent| <= |c.state.sent| <= |s.sent| + attempts
            && c.state.sent == s.sent + Repeat(MarketOrder(side), |c.state.sent| - |s.sent|)
            && (attempts > 0 ==> |s.sent| < |c.state.sent|)
            && (!c.ok ==> |c.state.sent| == |s.sent| + attempts)
            && (c.ok ==> IsActive(c.state.globals.activePos))
    decreases attempts
  {
    if attempts > 0 {
      var mo := MarketOrder(side);
      var a := ConfirmAttempt(s, side);
      if a.ok {
        assert Repeat(mo, 1) == [mo];
      } else {
        ConfirmSendsOnlyOrders(a.state, side, attempts - 1);
        var c := Confirm(a.state, side, attempts - 1);
        var j := |c.state.sent| - |a.state.sent|;
        assert s.sent + [mo] + Repeat(mo, j) == s.sent + Repeat(mo, j + 1);
      }
    }
  }

  /**
   * An attempt confirms exactly when its order call returned, the refresh
   * after it returned a record, and that record's snapshot holds a
   * position; the confirmed state is that refresh's.
   */
  lemma ConfirmAttemptFacts(t: BotState, side: Signal)
    ensures var a := ConfirmAttempt(t, side);
            var placed := Send(t, MarketOrder(side)).state;
            && (a.ok <==> t.gateway != [] && t.gateway[0] && Update(placed).ok && IsActive(Update(placed).state.globals.activePos))
            && (a.ok ==> a.state == Update(placed).state && RefreshedFrom(placed, a.state))
  {
    UpdateFacts(Send(t, MarketOrder(side)).state);
  }

  /** Attempt `j + 1` from `s` is attempt `j` from the state after the first. */
  lemma AttemptStateShift(s: BotState, side: Signal, j: nat)
    ensures AttemptState(s, side, j + 1) == AttemptState(ConfirmAttempt(s, side).state, side, j)
  {
  }

  /**
   * Entry confirmation stops at the first attempt that confirms: it
   * reports success with that attempt's state, having sent one market
   * order per attempt up to and including it.
   */
  lemma {:induction false} ConfirmStopsAtFirst(s: BotState, side: Signal, attempts: nat, k: nat)
    requires k < attempts && ConfirmsFirstAt(s, side, k)
    ensures Confirm(s, side, attempts) == ConfirmAttempt(AttemptState(s, side, k), side)
    ensures Confirm(s, side, attempts).ok && |Confirm(s, side, attempts).state.sent| == |s.sent| + k + 1
    decreases k
  {
    if k > 0 {
      var a := ConfirmAttempt(s, side);
      assert AttemptState(s, side, 0) == s;
      forall j | 0 <= j < k - 1
        ensures !ConfirmAttempt(AttemptState(a.state, side, j), side).ok
      {
        AttemptStateShift(s, side, j);
      }
      ConfirmStopsAtFirst(a.state, side, attempts - 1, k - 1);
    }
  }

  /**
   * Conversely, a confirmed entry was confirmed by its first confirming
   * attempt, and a failed one went through all its attempts, none of them
   * confirming.
   */
  lemma {:induction false} ConfirmOutcome(s: BotState, side: Signal, attempts: nat)
    ensures var c := Confirm(s, side, attempts);
            && (c.ok ==> exists k | 0 <= k < attempts ::
                           ConfirmsFirstAt(s, side, k) && c == ConfirmAttempt(AttemptState(s, side, k), side))
            && (!c.ok ==> && c.state == AttemptState(s, side, attempts)
                          && forall j | 0 <= j < attempts :: !ConfirmAttempt(AttemptState(s, side, j), side).ok)
    decreases attempts
  {
    if attempts > 0 {
      var a := ConfirmAttempt(s, side);
      if a.ok {
        assert ConfirmsFirstAt(s, side, 0);
      } else {
        ConfirmOutcome(a.state, side, attempts - 1);
        var c := Confirm(a.state, side, attempts - 1);
        if c.ok {
          var k :| 0 <= k < attempts - 1 && ConfirmsFirstAt(a.state, side, k) && c == ConfirmAttempt(AttemptState(a.state, side, k), side);
          AttemptStateShift(s, side, k);
          forall j | 0 <= j < k + 1
            ensures !ConfirmAttempt(AttemptState(s, side, j), side).ok
          {
            if j > 0 {
              AttemptStateShift(s, side, j - 1);
            }
          }
          assert ConfirmsFirstAt(s, side, k + 1);
        } else {
          AttemptStateShift(s, side, attempts - 1);
          forall j | 0 <= j < attempts
            ensures !ConfirmAttempt(AttemptState(s, side, j), side).ok
          {
            if j > 0 {
              AttemptStateShift(s, side, j - 1);
            }
          }
        }
      }
    }
  }

  /**
   * A confirmed entry's globals come from a refresh made right after a
   * market order call that returned, in the first attempt that confirmed,
   * and they hold a position; the attempts before it each sent one order.
   */
  lemma ConfirmedByFreshRefresh(s: BotState, side: Signal, attempts: nat)
    ensures var c := Confirm(s, side, attempts);
            c.ok ==> exists k | 0 <= k < attempts && ConfirmsFirstAt(s, side, k) ::
                       var t := AttemptState(s, side, k);
                       && t.gateway != [] && t.gateway[0]
                       && RefreshedFrom(Send(t, MarketOrder(side)).state, c.state)
                       && IsActive(c.state.globals.activePos)
                       && |c.state.sent| == |s.sent| + k + 1
  {
    ConfirmOutcome(s, side, attempts);
    var c := Confirm(s, side, attempts);
    if c.ok {
      var k :| 0 <= k < attempts && ConfirmsFirstAt(s, side, k) && c == ConfirmAttempt(AttemptState(s, side, k), side);
      ConfirmAttemptFacts(AttemptState(s, side, k), side);
      ConfirmStopsAtFirst(s, side, attempts, k);
    }
  }

  /** Every request of `rs` is such a resend. */
  predicate AllResends(rs: seq<Request>, tp: real, sl: real)
  {
    forall i | 0 <= i < |rs| :: IsResend(rs[i], tp, sl)
  }

  /**
   * One verification round: a failed refresh sends nothing and does not
   * finish; a refresh showing both levels finishes and sends nothing; one
   * showing a missing level sends exactly the resend for it. So a round
   * sends at most one request, and that one is a resend.
   */
  lemma VerifyRoundFacts(s: BotState, tp: real, sl: real)
    ensures var p := VerifyRound(s, tp, sl);
            var u := Update(s);
            && (!u.ok ==> !p.ok && p.state.sent == s.sent)
            && (p.ok <==> u.ok && !Missing(u.state.globals.takeProfit) && !Missing(u.state.globals.stopLoss))
            && (p.ok ==> p.state.sent == s.sent)
            && (u.ok && !p.ok ==>
                  var pair := ResendFor(u.state.globals, tp, sl).value;
                  p.state.sent == s.sent + [SetTpSl(pair.0, pair.1)])
            && (p.state.sent == s.sent || exists x | IsResend(x, tp, sl) :: p.state.sent == s.sent + [x])
            && (p.ok ==> !Missing(p.state.globals.takeProfit) && !Missing(p.state.globals.stopLoss))
  {
    var u := Update(s);
    if u.ok {
      var pair := ResendFor(u.state.globals, tp, sl);
      if pair.Some? {
        var x := SetTpSl(pair.value.0, pair.value.1);
        assert IsResend(x, tp, sl);
        assert VerifyRound(s, tp, sl).state.sent == s.sent + [x];
      }
    }
  }

  /** A log extended by resends and then by more resends was extended by
      resends only. */
  lemma ResendsCompose(a: seq<Request>, mid: seq<Request>, full: seq<Request>, tp: real, sl: real)
    requires |a| <= |mid| <= |full|
    requires mid == a + mid[|a|..] && AllResends(mid[|a|..], tp, sl)
    requires full == mid + full[|mid|..] && AllResends(full[|mid|..], tp, sl)
    ensures full == a + full[|a|..] && AllResends(full[|a|..], tp, sl)
  {
    var d := full[|a|..];
    forall i | 0 <= i < |d|
      ensures IsResend(d[i], tp, sl)
    {
      if i < |mid| - |a| {
        assert d[i] == mid[|a|..][i];
      } else {
        assert d[i] == full[|mid|..][i - (|mid| - |a|)];
      }
    }
  }

  /** TP/SL verification sends only resends of the missing sides, at most
      one per round. */
  lemma {:induction false} VerifyResendsOnlyMissing(s: BotState, tp: real, sl: real, rounds: nat)
    ensures var v := Verify(s, tp, sl, rounds);
            && |s.sent| <= |v.state.sent| <= |s.sent| + rounds
            && v.state.sent == s.sent + v.state.sent[|s.sent|..]
            && AllResends(v.state.sent[|s.sent|..], tp, sl)
    decreases rounds
  {
    if rounds > 0 {
      var p := VerifyRound(s, tp, sl);
      VerifyRoundFacts(s, tp, sl);
      var mid := p.state.sent;
      assert |s.sent| <= |mid| <= |s.sent| + 1;
      assert mid == s.sent + mid[|s.sent|..] && AllResends(mid[|s.sent|..], tp, sl);
      if !p.ok {
        VerifyResendsOnlyMissing(p.state, tp, sl, rounds - 1);
        var full := Verify(p.state, tp, sl, rounds - 1).state.sent;
        ResendsCompose(s.sent, mid, full, tp, sl);
      }
    }
  }

  /** Verification reports success only when the refreshed globals hold
      both levels. */
  lemma {:induction false} VerifiedMeansBothPresent(s: BotState, tp: real, sl: real, rounds: nat)
    ensures var v := Verify(s, tp, sl, rounds);
            v.ok ==> !Missing(v.state.globals.takeProfit) && !Missing(v.state.globals.stopLoss)
    decreases rounds
  {
    if rounds > 0 {
      VerifyRoundFacts(s, tp, sl);
      var p := VerifyRound(s, tp, sl);
      if !p.ok {
        VerifiedMeansBothPresent(p.state, tp, sl, rounds - 1);
      }
    }
  }

  /** Round `j + 1` from `s` is round `j` from the state after the first. */
  lemma RoundStateShift(s: BotState, tp: real, sl: real, j: nat)
    ensures RoundState(s, tp, sl, j + 1) == RoundState(VerifyRound(s, tp, sl).state, tp, sl, j)
  {
  }

  /**
   * Verification stops at the first round that finds both levels: it
   * reports success with that round's result, and that round sent
   * nothing.
   */
  lemma {:induction false} VerifyStopsAtFirst(s: BotState, tp: real, sl: real, rounds: nat, k: nat)
    requires k < rounds && VerifiesFirstAt(s, tp, sl, k)
    ensures Verify(s, tp, sl, rounds) == VerifyRound(RoundState(s, tp, sl, k), tp, sl)
    ensures Verify(s, tp, sl, rounds).ok
    ensures Verify(s, tp, sl, rounds).state.sent == RoundState(s, tp, sl, k).sent
    decreases k
  {
    var p := VerifyRound(s, tp, sl);
    if k > 0 {
      assert RoundState(s, tp, sl, 0) == s;
      assert !p.ok;
      assert Verify(s, tp, sl, rounds) == Verify(p.state, tp, sl, rounds - 1);
      forall j | 0 <= j < k - 1
        ensures !VerifyRound(RoundState(p.state, tp, sl, j), tp, sl).ok
      {
        RoundStateShift(s, tp, sl, j);
      }
      RoundStateShift(s, tp, sl, k - 1);
      VerifyStopsAtFirst(p.state, tp, sl, rounds - 1, k - 1);
    } else {
      assert Verify(s, tp, sl, rounds) == p;
      VerifyRoundFacts(s, tp, sl);
    }
  }

  /**
   * Conversely, a successful verification is the result of its first
   * round that found both levels, and a failed one went through all its
   * rounds (the timeout), none of them finding both.
   */
  lemma {:induction false} VerifyOutcome(s: BotState, tp: real, sl: real, rounds: nat)
    ensures var v := Verify(s, tp, sl, rounds);
            && (v.ok ==> exists k | 0 <= k < rounds ::
                           VerifiesFirstAt(s, tp, sl, k) && v == VerifyRound(RoundState(s, tp, sl, k), tp, sl))
            && (!v.ok ==> && v.state == RoundState(s, tp, sl, rounds)
                          && forall j | 0 <= j < rounds :: !VerifyRound(RoundState(s, tp, sl, j), tp, sl).ok)
    decreases rounds
  {
    if rounds > 0 {
      var p := VerifyRound(s, tp, sl);
      if p.ok {
        assert VerifiesFirstAt(s, tp, sl, 0);
      } else {
        VerifyOutcome(p.state, tp, sl, rounds - 1);
        var v := Verify(p.state, tp, sl, rounds - 1);
        if v.ok {
          var k :| 0 <= k < rounds - 1 && VerifiesFirstAt(p.state, tp, sl, k) && v == VerifyRound(RoundState(p.state, tp, sl, k), tp, sl);
          RoundStateShift(s, tp, sl, k);
          forall j | 0 <= j < k + 1
            ensures !VerifyRound(RoundState(s, tp, sl, j), tp, sl).ok
          {
            if j > 0 {
              RoundStateShift(s, tp, sl, j - 1);
            }
          }
          assert VerifiesFirstAt(s, tp, sl, k + 1);
        } else {
          RoundStateShift(s, tp, sl, rounds - 1);
          forall j | 0 <= j < rounds
            ensures !VerifyRound(RoundState(s, tp, sl, j), tp, sl).ok
          {
            if j > 0 {
              RoundStateShift(s, tp, sl, j - 1);
            }
          }
        }
      }
    }
  }

  /** A verification that times out saw, in every round, a refresh that
      raised or globals missing a level. */
  lemma VerifyTimedOut(s: BotState, tp: real, sl: real, rounds: nat)
    ensures !Verify(s, tp, sl, rounds).ok ==>
              forall j | 0 <= j < rounds ::
                var u := Update(RoundState(s, tp, sl, j));
                !u.ok || Missing(u.state.globals.takeProfit) || Missing(u.state.globals.stopLoss)
  {
    VerifyOutcome(s, tp, sl, rounds);
    forall j | 0 <= j < rounds
      ensures !VerifyRound(RoundState(s, tp, sl, j), tp, sl).ok ==>
                var u := Update(RoundState(s, tp, sl, j));
                !u.ok || Missing(u.state.globals.takeProfit) || Missing(u.state.globals.stopLoss)
    {
      VerifyRoundFacts(RoundState(s, tp, sl, j), tp, sl);
    }
  }

  /** The close detector sends nothing. */
  lemma {:induction false} WaitSendsNothing(s: BotState, count: nat, rounds: nat)
    requires count < REQUIRED_CLOSED_CHECKS
    ensures Wait(s, count, rounds).state.sent == s.sent
    ensures Wait(s, count, rounds).state.gateway == s.gateway
    decreases rounds
  {
    if rounds > 0 {
      var u := Update(s);
      var c := if CountsAsClosed(Reading(u)) then count + 1 else 0;
      if c < REQUIRED_CLOSED_CHECKS {
        WaitSendsNothing(u.state, c, rounds - 1);
      }
    }
  }

  /**
   * No order while a position is open: a cycle whose initial refresh fails
   * or finds a position, whose history download fails, or whose engine
   * returns no BUY or SELL sends nothing, and only those outcomes exist
   * for such cycles.
   */
  lemma CycleSendsNothingWithoutSignal(ind: SignalEngine.Indicators, s: BotState, history: Option<seq<SignalEngine.Candle>>,
                                       stream: seq<SignalEngine.Kline>, verifyRounds: nat, monitorRounds: nat)
    ensures var r := Cycle(ind, s, history, stream, verifyRounds, monitorRounds);
            var first := Update(s);
            && (r.outcome.InitialCheckFailed? <==> !first.ok)
            && (r.outcome.MonitoredExisting? <==> first.ok && IsActive(first.state.globals.activePos))
            && (r.outcome.InitialCheckFailed? || r.outcome.MonitoredExisting? || r.outcome.HistoryFailed? || r.outcome.NoTrade? ==>
                  r.state.sent == s.sent)
            && (r.outcome.NoTrade? ==> r.outcome.signal.None?)
  {
    var first := Update(s);
    if first.ok && IsActive(first.state.globals.activePos) {
      WaitSendsNothing(first.state, 0, monitorRounds);
    }
    if first.ok && history.Some? {
      SignalEngine.NextSignalOutcome(ind, history.value, stream);
    }
  }

  /** Every market order of a cycle comes after an initial refresh that
      read the account flat, and a BUY or SELL from the engine. */
  lemma CycleOrdersOnlyWhenFlat(ind: SignalEngine.Indicators, s: BotState, history: Option<seq<SignalEngine.Candle>>,
                                stream: seq<SignalEngine.Kline>, verifyRounds: nat, monitorRounds: nat)
    requires |Cycle(ind, s, history, stream, verifyRounds, monitorRounds).state.sent| != |s.sent|
    ensures Update(s).ok && !IsActive(Update(s).state.globals.activePos)
    ensures history.Some?
    ensures var e := SignalEngine.Run(ind, SignalEngine.FRESH.(window := history.value), stream);
            e.finalSignal == Some(BUY) || e.finalSignal == Some(SELL)
  {
    CycleSendsNothingWithoutSignal(ind, s, history, stream, verifyRounds, monitorRounds);
  }

  /** A cycle that gets a BUY or SELL from the engine hands the trade part
      the signal, its price and its ATR. */
  lemma CycleEntersOnSignal(ind: SignalEngine.Indicators, s: BotState, history: Option<seq<SignalEngine.Candle>>,
                            stream: seq<SignalEngine.Kline>, verifyRounds: nat, monitorRounds: nat)
    requires var o := Cycle(ind, s, history, stream, verifyRounds, monitorRounds).outcome;
             o.EntryFailed? || o.Traded?
    ensures Update(s).ok && !IsActive(Update(s).state.globals.activePos) && history.Some?
    ensures var e := SignalEngine.Run(ind, SignalEngine.FRESH.(window := history.value), stream);
            && e.done && e.finalSignal.Some? && e.finalSignal.value != HOLD
            && e.finalPrice.Some? && e.finalAtr.Some? && !SignalEngine.TooCalm(e.finalAtr.value)
            && Cycle(ind, s, history, stream, verifyRounds, monitorRounds) ==
               Enter(Update(s).state, e.finalSignal.value, e.finalPrice.value, e.finalAtr, verifyRounds, monitorRounds)
  {
    SignalEngine.NextSignalOutcome(ind, history.value, stream);
  }

  /**
   * The remaining branches of a cycle: the history failure is taken
   * exactly when the account read flat and the download raised, and the
   * no-trade result exactly when the account read flat, the history loaded
   * and the engine returned no BUY or SELL. Both leave the state of the
   * initial refresh.
   */
  lemma CycleBranches(ind: SignalEngine.Indicators, s: BotState, history: Option<seq<SignalEngine.Candle>>,
                      stream: seq<SignalEngine.Kline>, verifyRounds: nat, monitorRounds: nat)
    ensures var r := Cycle(ind, s, history, stream, verifyRounds, monitorRounds);
            var first := Update(s);
            var flat := first.ok && !IsActive(first.state.globals.activePos);
            && (r.outcome.HistoryFailed? <==> flat && history.None?)
            && (r.outcome.NoTrade? <==>
                  && flat && history.Some?
                  && var e := SignalEngine.Run(ind, SignalEngine.FRESH.(window := history.value), stream);
                     e.finalSignal != Some(BUY) && e.finalSignal != Some(SELL))
            && (r.outcome.HistoryFailed? || r.outcome.NoTrade? ==> r.state == first.state)
  {
  }

  /** A cycle that reads the account flat, loads the history and gets a BUY
      or SELL from the engine always attempts the entry with that signal,
      its price and its ATR. */
  lemma CycleEntersWhenFlatWithSignal(ind: SignalEngine.Indicators, s: BotState, history: Option<seq<SignalEngine.Candle>>,
                                      stream: seq<SignalEngine.Kline>, verifyRounds: nat, monitorRounds: nat)
    requires Update(s).ok && !IsActive(Update(s).state.globals.activePos) && history.Some?
    requires var e := SignalEngine.Run(ind, SignalEngine.FRESH.(window := history.value), stream);
             e.finalSignal == Some(BUY) || e.finalSignal == Some(SELL)
    ensures var e := SignalEngine.Run(ind, SignalEngine.FRESH.(window := history.value), stream);
            && e.finalPrice.Some?
            && Cycle(ind, s, history, stream, verifyRounds, monitorRounds) ==
               Enter(Update(s).state, e.finalSignal.value, e.finalPrice.value, e.finalAtr, verifyRounds, monitorRounds)
  {
    SignalEngine.NextSignalOutcome(ind, history.value, stream);
  }

  /**
   * An entry trades exactly when the market order is confirmed. A failed
   * entry leaves the confirmation's state; a trade records the confirmed
   * entry price, the entry and levels derived from it, and the state and
   * results of protecting the position at those levels.
   */
  lemma EnterTradedIff(s: BotState, side: Signal, signalPrice: real, sigAtr: Option<Float>,
                       verifyRounds: nat, monitorRounds: nat)
    ensures var r := Enter(s, side, signalPrice, sigAtr, verifyRounds, monitorRounds);
            var c := Confirm(s, side, MAX_API_RETRIES);
            && (r.outcome.Traded? <==> c.ok)
            && (r.outcome.EntryFailed? ==> r.state == c.state)
            && (r.outcome.Traded? ==>
                  var t := r.outcome;
                  var p := Protect(c.state, t.levels.tp, t.levels.sl, verifyRounds, monitorRounds);
                  && t.confirmedEntry == c.state.globals.entryPrice
                  && t.entry == EntryPrice(c.state.globals.entryPrice, signalPrice)
                  && t.levels == ProtectiveLevels(t.entry, AtrForLevels(sigAtr), side)
                  && r.state == p.state && t.protectionVerified == p.verified && t.closed == p.closed)
  {
  }

  /** A cycle whose initial refresh finds a position goes straight to the
      close detector from the refreshed state and reports what it saw. */
  lemma CycleMonitorsExisting(ind: SignalEngine.Indicators, s: BotState, history: Option<seq<SignalEngine.Candle>>,
                              stream: seq<SignalEngine.Kline>, verifyRounds: nat, monitorRounds: nat)
    requires Update(s).ok && IsActive(Update(s).state.globals.activePos)
    ensures var w := Wait(Update(s).state, 0, monitorRounds);
            Cycle(ind, s, history, stream, verifyRounds, monitorRounds) == CycleResult(w.state, MonitoredExisting(w.closed))
  {
  }

  /**
   * Protecting a confirmed position: the TP/SL request is made once, its
   * verification's result is the reported one, and the close detector
   * starts from the state verification ends in and decides the rest.
   */
  lemma ProtectFacts(c: BotState, tp: real, sl: real, verifyRounds: nat, monitorRounds: nat)
    ensures var p := Protect(c, tp, sl, verifyRounds, monitorRounds);
            var v := Verify(Send(c, SetTpSl(tp, sl)).state, tp, sl, verifyRounds);
            var w := Wait(v.state, 0, monitorRounds);
            && p.verified == v.ok
            && p.state == w.state
            && p.closed == w.closed
  {
  }

  /** A failed entry makes MAX_API_RETRIES market orders for the signalled
      side and sets no TP/SL. */
  lemma EntryFailedSendsOnlyOrders(s: BotState, side: Signal, signalPrice: real, sigAtr: Option<Float>,
                                   verifyRounds: nat, monitorRounds: nat)
    requires Enter(s, side, signalPrice, sigAtr, verifyRounds, monitorRounds).outcome.EntryFailed?
    ensures Enter(s, side, signalPrice, sigAtr, verifyRounds, monitorRounds).state.sent ==
            s.sent + Repeat(MarketOrder(side), MAX_API_RETRIES)
  {
    ConfirmSendsOnlyOrders(s, side, MAX_API_RETRIES);
  }

  /**
   * A trade's entry is the exchange's average price when positive and the
   * signal price otherwise; its levels are the ATR-based ones, or the
   * static ones exactly when the ATR is NaN.
   */
  lemma TradedLevels(s: BotState, side: Signal, signalPrice: real, atr: Float,
                     verifyRounds: nat, monitorRounds: nat)
    requires side != HOLD
    requires Enter(s, side, signalPrice, Some(atr), verifyRounds, monitorRounds).outcome.Traded?
    ensures var t := Enter(s, side, signalPrice, Some(atr), verifyRounds, monitorRounds).outcome;
            && t.side == side && t.signalPrice == signalPrice
            && t.entry == (if t.confirmedEntry > 0.0 then t.confirmedEntry else signalPrice)
            && (t.levels.details.StaticFallback? <==> atr.NaN?)
            && (atr.Real? ==> t.levels == ComputeTpSl(t.entry, Some(atr), side).value)
            && (atr.NaN? ==> t.levels == StaticLevels(t.entry, side))
  {
  }

  /** After the entry: the computed TP/SL, then only resends, then nothing. */
  lemma ProtectionRequests(c: BotState, tp: real, sl: real, verifyRounds: nat, monitorRounds: nat)
    ensures var p := Protect(c, tp, sl, verifyRounds, monitorRounds);
            && |c.sent| < |p.state.sent|
            && p.state.sent == c.sent + [SetTpSl(tp, sl)] + p.state.sent[|c.sent| + 1..]
            && AllResends(p.state.sent[|c.sent| + 1..], tp, sl)
  {
    var placed := Send(c, SetTpSl(tp, sl));
    var v := Verify(placed.state, tp, sl, verifyRounds);
    VerifyResendsOnlyMissing(placed.state, tp, sl, verifyRounds);
    WaitSendsNothing(v.state, 0, monitorRounds);
    assert placed.state.sent == c.sent + [SetTpSl(tp, sl)];
  }

  /** The requests of a confirmation with `attempts` attempts followed by
      protection at the given levels: one to `attempts` market orders, then
      the TP/SL request, then only resends. */
  lemma ConfirmThenProtect(s: BotState, side: Signal, attempts: nat, tp: real, sl: real,
                           verifyRounds: nat, monitorRounds: nat)
    requires attempts > 0
    ensures var c := Confirm(s, side, attempts);
            var p := Protect(c.state, tp, sl, verifyRounds, monitorRounds);
            exists k: nat, rest: seq<Request> | 1 <= k <= attempts && AllResends(rest, tp, sl) ::
              p.state.sent == s.sent + Repeat(MarketOrder(side), k) + [SetTpSl(tp, sl)] + rest
  {
    var c := Confirm(s, side, attempts);
    ConfirmSendsOnlyOrders(s, side, attempts);
    var p := Protect(c.state, tp, sl, verifyRounds, monitorRounds);
    ProtectionRequests(c.state, tp, sl, verifyRounds, monitorRounds);
    OrdersThenPlaced(s.sent, c.state.sent, p.state.sent, MarketOrder(side), attempts, tp, sl);
  }

  /** A log that extends `before` by one to `bound` orders, then by the
      TP/SL request and resends, has the shape of a trade's requests. */
  lemma OrdersThenPlaced(before: seq<Request>, ordered: seq<Request>, after: seq<Request>, order: Request,
                         bound: nat, tp: real, sl: real)
    requires |before| < |ordered| <= |before| + bound && |ordered| < |after|
    requires ordered == before + Repeat(order, |ordered| - |before|)
    requires after == ordered + [SetTpSl(tp, sl)] + after[|ordered| + 1..]
    requires AllResends(after[|ordered| + 1..], tp, sl)
    ensures exists k: nat, rest: seq<Request> | 1 <= k <= bound && AllResends(rest, tp, sl) ::
              after == before + Repeat(order, k) + [SetTpSl(tp, sl)] + rest
  {
    var k := |ordered| - |before|;
    var rest := after[|ordered| + 1..];
    assert after == before + Repeat(order, k) + [SetTpSl(tp, sl)] + rest;
  }

  /**
   * The requests of a trade, in order: one to MAX_API_RETRIES market orders
   * for the side, then the computed TP/SL, then only resends of missing
   * sides; monitoring adds nothing.
   */
  lemma TradedRequests(s: BotState, side: Signal, signalPrice: real, sigAtr: Option<Float>,
                       verifyRounds: nat, monitorRounds: nat)
    requires Enter(s, side, signalPrice, sigAtr, verifyRounds, monitorRounds).outcome.Traded?
    ensures var r := Enter(s, side, signalPrice, sigAtr, verifyRounds, monitorRounds);
            var t := r.outcome;
            exists k: nat, rest: seq<Request> | 1 <= k <= MAX_API_RETRIES && AllResends(rest, t.levels.tp, t.levels.sl) ::
              r.state.sent == s.sent + Repeat(MarketOrder(side), k) + [SetTpSl(t.levels.tp, t.levels.sl)] + rest
  {
    var t := Enter(s, side, signalPrice, sigAtr, verifyRounds, monitorRounds).outcome;
    ConfirmThenProtect(s, side, MAX_API_RETRIES, t.levels.tp, t.levels.sl, verifyRounds, monitorRounds);
  }

}
