/** The paper broker (execution/paper_broker.py): instant fills at the quoted side, intrabar
    stop-loss / take-profit resolution, pip-based PnL and the kill switch, over a `TradeStore`. */
module Broker {
  import opened Wrappers
  import opened Json
  import opened Text
  import opened Ledger

  /** `_pip_size`. */
  function PipSize(pair: string): (r: real)
    ensures r > 0.0
    ensures EndsWith(pair, "JPY") ==> r == 0.01
    ensures !EndsWith(pair, "JPY") ==> r == 0.0001
  {
    if EndsWith(pair, "JPY") then 0.01 else 0.0001
  }

  /** Price move in the trade's favour: up for BUY, down for anything else. */
  function Move(direction: string, entry: real, exit: real): real {
    if direction == "BUY" then exit - entry else entry - exit
  }

  /** `pnl_pips`. */
  function PnlPips(direction: string, entry: real, exit: real, pip: real): (r: real)
    requires pip > 0.0
    ensures r * pip == Move(direction, entry, exit)
  {
    Move(direction, entry, exit) / pip
  }

  /** `pnl_quote`. */
  function PnlQuote(pips: real, pip: real, units: int): real {
    pips * pip * units as real
  }

  /** The quote PnL is the favourable price move times the units, whatever the pip size. */
  lemma PnlQuoteIsMoveTimesUnits(direction: string, entry: real, exit: real, pip: real, units: int)
    requires pip > 0.0
    ensures PnlQuote(PnlPips(direction, entry, exit, pip), pip, units) == Move(direction, entry, exit) * units as real
  {
  }

  /** PnL in pips is positive exactly when the price moved in the trade's favour, and a SELL
      earns exactly what a BUY over the same prices loses. */
  lemma PnlSign(direction: string, entry: real, exit: real, pip: real)
    requires pip > 0.0
    ensures PnlPips(direction, entry, exit, pip) > 0.0 <==> Move(direction, entry, exit) > 0.0
    ensures PnlPips("SELL", entry, exit, pip) == -PnlPips("BUY", entry, exit, pip)
  {
    var b := PnlPips("BUY", entry, exit, pip);
    var s := PnlPips("SELL", entry, exit, pip);
    assert (b + s) * pip == 0.0;
    var r := PnlPips(direction, entry, exit, pip);
    if r > 0.0 {
      assert r * pip > 0.0;
    } else {
      assert r * pip <= 0.0;
    }
  }

  /** What `update_positions_from_bar` decides for one bar. */
  datatype BarExit = NoExit | Exit(price: real, result: string, reason: string)

  /** The intrabar rule. The stop is tested before the target, so a bar that touches both closes
      at the stop. BUY stops on `low <= sl` and takes profit on `high >= tp`; every other
      direction is treated as SELL and mirrored. */
  function ExitForBar(direction: string, sl: real, tp: real, high: real, low: real): (r: BarExit)
    ensures r.Exit? ==>
      (r.price == sl && r.result == "SL" && r.reason == "sl_hit") || (r.price == tp && r.result == "TP" && r.reason == "tp_hit")
    ensures direction == "BUY" ==>
      && (r == Exit(sl, "SL", "sl_hit") <==> low <= sl)
      && (r == Exit(tp, "TP", "tp_hit") <==> sl < low && tp <= high)
    ensures direction != "BUY" ==>
      && (r == Exit(sl, "SL", "sl_hit") <==> sl <= high)
      && (r == Exit(tp, "TP", "tp_hit") <==> high < sl && low <= tp)
  {
    if direction == "BUY" then
      if low <= sl then Exit(sl, "SL", "sl_hit")
      else if high >= tp then Exit(tp, "TP", "tp_hit")
      else NoExit
    else
      if high >= sl then Exit(sl, "SL", "sl_hit")
      else if low <= tp then Exit(tp, "TP", "tp_hit")
      else NoExit
  }

  /** A bar inside both levels leaves the position alone. */
  lemma NoExitInsideLevels(direction: string, sl: real, tp: real, high: real, low: real)
    requires if direction == "BUY" then sl < low && high < tp else high < sl && tp < low
    ensures ExitForBar(direction, sl, tp, high, low) == NoExit
  {
  }

  /** A BUY whose stop sits below the entry loses when stopped out and gains when its target
      above the entry is hit. */
  lemma BuyExitsHaveTheExpectedSign(pair: string, entry: real, sl: real, tp: real, high: real, low: real)
    requires sl < entry < tp
    ensures ExitForBar("BUY", sl, tp, high, low).Exit? ==>
      var e := ExitForBar("BUY", sl, tp, high, low);
      (e.result == "SL" ==> PnlPips("BUY", entry, e.price, PipSize(pair)) < 0.0)
      && (e.result == "TP" ==> PnlPips("BUY", entry, e.price, PipSize(pair)) > 0.0)
  {
    PnlSign("BUY", entry, sl, PipSize(pair));
    PnlSign("BUY", entry, tp, PipSize(pair));
  }

  /** The EUR_USD BUY filled at 1.1002 with SL 1.0990 and TP 1.1010 against a bar of
      high 1.1011 / low 1.0995: the target is hit and the trade earns 8 pips. */
  lemma BuyTakeProfitExample()
    ensures ExitForBar("BUY", 1.0990, 1.1010, 1.1011, 1.0995) == Exit(1.1010, "TP", "tp_hit")
    ensures PnlPips("BUY", 1.1002, 1.1010, PipSize("EUR_USD")) == 8.0
  {
    assert !EndsWith("EUR_USD", "JPY") by {
      assert "EUR_USD"[|"EUR_USD"| - 3..] == "USD";
    }
  }

  /** The dictionary `place_market_order` returns. */
  datatype Opened = Opened(
    pair: string, strategy: string, direction: string, units: int,
    entryPrice: real, slPrice: real, tpPrice: real, timeOpen: int, meta: Object)

  /** The dictionary `_close_position` returns. */
  datatype Closed = Closed(pair: string, result: string, exitPrice: real, pnlPips: real, pnlQuote: real)

  /** The summary `_close_position` computes for a position closed at `exitPrice`. */
  function CloseSummary(p: Position, exitPrice: real, result: string): (c: Closed)
    ensures c.pair == p.pair && c.result == result && c.exitPrice == exitPrice
    ensures c.pnlPips * PipSize(p.pair) == Move(p.direction, p.entryPrice, exitPrice)
    ensures c.pnlQuote == Move(p.direction, p.entryPrice, exitPrice) * p.units as real
  {
    var pip := PipSize(p.pair);
    var pips := PnlPips(p.direction, p.entryPrice, exitPrice, pip);
    PnlQuoteIsMoveTimesUnits(p.direction, p.entryPrice, exitPrice, pip, p.units);
    Closed(p.pair, result, exitPrice, pips, PnlQuote(pips, pip, p.units))
  }

  /** `(exit_prices or {}).get(pair, entry_price)`. */
  function KillSwitchPrice(exitPrices: Option<map<string, real>>, p: Position): (r: real)
    ensures exitPrices.Some? && p.pair in exitPrices.value ==> r == exitPrices.value[p.pair]
    ensures !(exitPrices.Some? && p.pair in exitPrices.value) ==> r == p.entryPrice
  {
    if exitPrices.Some? && p.pair in exitPrices.value then exitPrices.value[p.pair] else p.entryPrice
  }

  /** The trades table after the kill switch has closed `ps` in order. */
  function CloseAllTrades(ts: seq<Trade>, ps: seq<Position>, exitPrices: Option<map<string, real>>,
                          reason: string, closeTime: int): (r: seq<Trade>)
    decreases |ps|
  {
    if ps == [] then ts
    else
      var p := ps[|ps| - 1];
      var c := CloseSummary(p, KillSwitchPrice(exitPrices, p), reason);
      CloseTrades(CloseAllTrades(ts, ps[..|ps| - 1], exitPrices, reason, closeTime),
                  p.pair, c.exitPrice, reason, c.pnlPips, c.pnlQuote, closeTime, map["reason" := Str(Lower(reason))])
  }

  class PaperBroker {
    const store: TradeStore
    const exportCsv: bool

    constructor (store: TradeStore, exportCsv: bool)
      ensures this.store == store && this.exportCsv == exportCsv
    {
      this.store := store;
      this.exportCsv := exportCsv;
    }

    /** `has_open_position`. */
    function HasOpenPosition(pair: string): (r: bool)
      reads store
      ensures r <==> exists p :: p in store.positions && p.pair == pair && p.isOpen
    {
      store.GetOpenPosition(pair).Some?
    }

    /** `place_market_order`: BUY fills at the ask, SELL at the bid, anything else is refused. */
    method PlaceMarketOrder(pair: string, strategy: string, direction: string, units: int, bid: real, ask: real,
                            slPrice: real, tpPrice: real, now: int, meta: Option<Object>)
      returns (r: Result<Opened>)
      requires store.Valid()
      modifies store
      ensures store.Valid()
      ensures direction != "BUY" && direction != "SELL" ==>
        r == Failure("direction must be BUY or SELL")
        && store.trades == old(store.trades) && store.positions == old(store.positions)
      ensures direction == "BUY" || direction == "SELL" ==>
        && r == Success(Opened(pair, strategy, direction, units, if direction == "BUY" then ask else bid,
                               slPrice, tpPrice, now, OrEmpty(meta)))
        && store.trades == old(store.trades) + [Trade(|old(store.trades)| + 1, now, None, pair, strategy, direction,
                                                      units, r.value.entryPrice, None, slPrice, tpPrice,
                                                      None, None, None, OrEmpty(meta))]
        && store.positions == RemovePair(old(store.positions), pair) + [PositionOf(store.trades[|old(store.trades)|])]
        && HasOpenPosition(pair)
      ensures store.signals == old(store.signals) && store.dailyStats == old(store.dailyStats)
    {
      if direction != "BUY" && direction != "SELL" {
        return Failure("direction must be BUY or SELL");
      }
      var entry := if direction == "BUY" then ask else bid;
      var order := Opened(pair, strategy, direction, units, entry, slPrice, tpPrice, now, OrEmpty(meta));
      var _ := store.OpenPosition(pair, strategy, direction, units, entry, slPrice, tpPrice, now, Some(order.meta));
      r := Success(order);
    }

    /** `_close_position`: PnL from the position's own entry and direction, then the store close. */
    method ClosePositionAt(p: Position, exitPrice: real, result: string, closeTime: int, meta: Option<Object>)
      returns (c: Closed)
      requires store.Valid()
      modifies store
      ensures store.Valid()
      ensures c == CloseSummary(p, exitPrice, result)
      ensures store.trades == CloseTrades(old(store.trades), p.pair, exitPrice, result, c.pnlPips, c.pnlQuote,
                                          closeTime, OrEmpty(meta))
      ensures store.positions == RemovePair(old(store.positions), p.pair)
      ensures store.signals == old(store.signals) && store.dailyStats == old(store.dailyStats)
    {
      c := CloseSummary(p, exitPrice, result);
      store.ClosePosition(p.pair, exitPrice, Some(result), Some(c.pnlPips), Some(c.pnlQuote), closeTime, meta);
    }

    /** `update_positions_from_bar`: at most one close per call, decided by `ExitForBar`. */
    method UpdatePositionsFromBar(pair: string, high: real, low: real, time: Option<int>, now: int)
      returns (closed: seq<Closed>)
      requires store.Valid()
      modifies store
      ensures store.Valid()
      ensures |closed| <= 1
      ensures old(store.GetOpenPosition(pair)).None? ==>
        closed == [] && store.trades == old(store.trades) && store.positions == old(store.positions)
      ensures old(store.GetOpenPosition(pair)).Some? ==>
        var p := old(store.GetOpenPosition(pair)).value;
        var e := ExitForBar(p.direction, p.slPrice, p.tpPrice, high, low);
        && (e.NoExit? ==> closed == [] && store.trades == old(store.trades) && store.positions == old(store.positions))
        && (e.Exit? ==>
              && closed == [CloseSummary(p, e.price, e.result)]
              && store.trades == CloseTrades(old(store.trades), pair, e.price, e.result, closed[0].pnlPips,
                                             closed[0].pnlQuote, time.GetOr(now), map["reason" := Str(e.reason)])
              && store.positions == RemovePair(old(store.positions), pair)
              && !HasOpenPosition(pair))
      ensures store.signals == old(store.signals) && store.dailyStats == old(store.dailyStats)
    {
      var position := store.GetOpenPosition(pair);
      if position.None? {
        return [];
      }
      var p := position.value;
      var e := ExitForBar(p.direction, p.slPrice, p.tpPrice, high, low);
      if e.NoExit? {
        return [];
      }
      var c := ClosePositionAt(p, e.price, e.result, time.GetOr(now), Some(map["reason" := Str(e.reason)]));
      FindOpenAbsentAfterRemove(store.positions, old(store.positions), pair);
      closed := [c];
    }

    /** `close_all_positions`, the kill switch: every open position is closed, in open-time order,
        at its override price or else its own entry price, with the reason as the result. */
    method CloseAllPositions(exitPrices: Option<map<string, real>>, reason: string, now: int)
      returns (closed: seq<Closed>)
      requires store.Valid()
      modifies store
      ensures store.Valid()
      ensures store.positions == []
      ensures |closed| == |old(store.ListOpenPositions())|
      ensures forall k :: 0 <= k < |closed| ==>
        var p := old(store.ListOpenPositions())[k];
        closed[k] == CloseSummary(p, KillSwitchPrice(exitPrices, p), reason)
      ensures store.trades == CloseAllTrades(old(store.trades), old(store.ListOpenPositions()), exitPrices, reason, now)
      ensures store.signals == old(store.signals) && store.dailyStats == old(store.dailyStats)
    {
      var ps := store.ListOpenPositions();
      ghost var ps0 := store.positions;
      PositionsAreOpen(store);
      assert forall q :: q in ps0 ==> q in ps;
      closed := CloseEach(ps, exitPrices, reason, now);
      PairsContains(ps);
      WithoutAll(ps0, Pairs(ps));
      KillSwitchSummariesAt(ps, exitPrices, reason);
    }

    /** The loop of `close_all_positions` over a list of positions read before it starts. */
    method CloseEach(ps: seq<Position>, exitPrices: Option<map<string, real>>, reason: string, now: int)
      returns (closed: seq<Closed>)
      requires store.Valid()
      modifies store
      ensures store.Valid()
      ensures closed == KillSwitchSummaries(ps, exitPrices, reason)
      ensures store.positions == Without(old(store.positions), Pairs(ps))
      ensures store.trades == CloseAllTrades(old(store.trades), ps, exitPrices, reason, now)
      ensures store.signals == old(store.signals) && store.dailyStats == old(store.dailyStats)
    {
      ghost var ps0 := store.positions;
      ghost var ts0 := store.trades;
      WithoutNothing(ps0);
      closed := [];
      var i := 0;
      while i < |ps|
        invariant 0 <= i <= |ps|
        invariant store.Valid()
        invariant closed == KillSwitchSummaries(ps[..i], exitPrices, reason)
        invariant store.positions == Without(ps0, Pairs(ps[..i]))
        invariant store.trades == CloseAllTrades(ts0, ps[..i], exitPrices, reason, now)
        invariant store.signals == old(store.signals) && store.dailyStats == old(store.dailyStats)
      {
        var c := CloseStep(ps, i, exitPrices, reason, now, ps0, ts0);
        KillSwitchSummariesStep(ps, i, exitPrices, reason);
        closed := closed + [c];
        i := i + 1;
      }
      assert ps[..|ps|] == ps;
    }

    /** One iteration of the kill-switch loop: closes `ps[i]`. */
    method CloseStep(ps: seq<Position>, i: nat, exitPrices: Option<map<string, real>>, reason: string, now: int,
                     ghost ps0: seq<Position>, ghost ts0: seq<Trade>)
      returns (c: Closed)
      requires store.Valid() && i < |ps|
      requires store.positions == Without(ps0, Pairs(ps[..i]))
      requires store.trades == CloseAllTrades(ts0, ps[..i], exitPrices, reason, now)
      modifies store
      ensures store.Valid()
      ensures c == CloseSummary(ps[i], KillSwitchPrice(exitPrices, ps[i]), reason)
      ensures store.positions == Without(ps0, Pairs(ps[..i + 1]))
      ensures store.trades == CloseAllTrades(ts0, ps[..i + 1], exitPrices, reason, now)
      ensures store.signals == old(store.signals) && store.dailyStats == old(store.dailyStats)
    {
      var p := ps[i];
      c := ClosePositionAt(p, KillSwitchPrice(exitPrices, p), reason, now, Some(map["reason" := Str(Lower(reason))]));
      WithoutOneMore(ps0, Pairs(ps[..i]), p.pair);
      assert ps[..i + 1][..i] == ps[..i];
    }
  }

  lemma KillSwitchSummariesStep(ps: seq<Position>, i: nat, exitPrices: Option<map<string, real>>, reason: string)
    requires i < |ps|
    ensures KillSwitchSummaries(ps[..i + 1], exitPrices, reason)
         == KillSwitchSummaries(ps[..i], exitPrices, reason) + [CloseSummary(ps[i], KillSwitchPrice(exitPrices, ps[i]), reason)]
  {
    assert ps[..i + 1][..i] == ps[..i];
  }

  /** The pairs of a list of positions. */
  function Pairs(ps: seq<Position>): (r: set<string>)
    decreases |ps|
  {
    if ps == [] then {} else Pairs(ps[..|ps| - 1]) + {ps[|ps| - 1].pair}
  }

  lemma {:induction false} PairsContains(ps: seq<Position>)
    ensures forall q :: q in ps ==> q.pair in Pairs(ps)
    decreases |ps|
  {
    if ps != [] {
      PairsContains(ps[..|ps| - 1]);
      assert forall q :: q in ps ==> q in ps[..|ps| - 1] || q == ps[|ps| - 1];
    }
  }

  lemma PositionsAreOpen(store: TradeStore)
    requires store.Valid()
    ensures forall q :: q in store.positions ==> q.isOpen
  {
    forall q | q in store.positions ensures q.isOpen {
      assert Mirrors(store.trades, store.positions);
    }
  }

  /** The position table with the rows of the pairs in `gone` deleted. */
  function Without(ps: seq<Position>, gone: set<string>): (r: seq<Position>)
    decreases |ps|
  {
    if ps == [] then []
    else (if ps[0].pair in gone then [] else [ps[0]]) + Without(ps[1..], gone)
  }

  /** What `Without` keeps: exactly the rows whose pair is not in `gone`. */
  lemma {:induction false} WithoutMembers(ps: seq<Position>, gone: set<string>)
    ensures forall p :: p in Without(ps, gone) <==> p in ps && p.pair !in gone
    decreases |ps|
  {
    if ps != [] {
      WithoutMembers(ps[1..], gone);
      assert ps == [ps[0]] + ps[1..];
    }
  }

  /** A pair in `Pairs(ps)` is the pair of some listed position. */
  lemma {:induction false} PairsMembers(ps: seq<Position>, pair: string)
    requires pair in Pairs(ps)
    ensures exists k :: 0 <= k < |ps| && ps[k].pair == pair
    decreases |ps|
  {
    var n := |ps| - 1;
    if pair != ps[n].pair {
      var init := ps[..n];
      PairsMembers(init, pair);
      var k :| 0 <= k < n && init[k].pair == pair;
      assert ps[k] == init[k];
    }
  }

  lemma {:induction false} WithoutOneMore(ps: seq<Position>, gone: set<string>, pair: string)
    ensures RemovePair(Without(ps, gone), pair) == Without(ps, gone + {pair})
    decreases |ps|
  {
    if ps != [] {
      WithoutOneMore(ps[1..], gone, pair);
      var head := if ps[0].pair in gone then [] else [ps[0]];
      var rest := Without(ps[1..], gone);
      assert Without(ps, gone) == head + rest;
      RemovePairConcat(head, rest, pair);
    }
  }

  lemma {:induction false} RemovePairConcat(a: seq<Position>, b: seq<Position>, pair: string)
    ensures RemovePair(a + b, pair) == RemovePair(a, pair) + RemovePair(b, pair)
    decreases |a|
  {
    if a != [] {
      RemovePairConcat(a[1..], b, pair);
      var head := if a[0].pair == pair then [] else [a[0]];
      assert (a + b)[0] == a[0] && (a + b)[1..] == a[1..] + b;
      assert RemovePair(a + b, pair) == head + RemovePair(a[1..] + b, pair);
      assert RemovePair(a, pair) == head + RemovePair(a[1..], pair);
      assert head + (RemovePair(a[1..], pair) + RemovePair(b, pair))
          == (head + RemovePair(a[1..], pair)) + RemovePair(b, pair);
    } else {
      assert a + b == b;
    }
  }

  lemma {:induction false} WithoutAll(ps: seq<Position>, gone: set<string>)
    requires forall q :: q in ps ==> q.pair in gone
    ensures Without(ps, gone) == []
    decreases |ps|
  {
    if ps != [] {
      assert ps[0] in ps;
      WithoutAll(ps[1..], gone);
    }
  }

  lemma {:induction false} WithoutNothing(ps: seq<Position>)
    ensures Without(ps, {}) == ps
    decreases |ps|
  {
    if ps != [] {
      WithoutNothing(ps[1..]);
    }
  }

  /** The summaries the kill switch returns for `ps`, in order. */
  function KillSwitchSummaries(ps: seq<Position>, exitPrices: Option<map<string, real>>, reason: string): (r: seq<Closed>)
    ensures |r| == |ps|
    decreases |ps|
  {
    if ps == [] then []
    else KillSwitchSummaries(ps[..|ps| - 1], exitPrices, reason)
         + [CloseSummary(ps[|ps| - 1], KillSwitchPrice(exitPrices, ps[|ps| - 1]), reason)]
  }

  lemma {:induction false} KillSwitchSummariesAt(ps: seq<Position>, exitPrices: Option<map<string, real>>, reason: string)
    ensures forall k :: 0 <= k < |ps| ==>
      KillSwitchSummaries(ps, exitPrices, reason)[k] == CloseSummary(ps[k], KillSwitchPrice(exitPrices, ps[k]), reason)
    decreases |ps|
  {
    if ps != [] {
      KillSwitchSummariesAt(ps[..|ps| - 1], exitPrices, reason);
    }
  }

  lemma FindOpenAbsentAfterRemove(ps: seq<Position>, before: seq<Position>, pair: string)
    requires ps == RemovePair(before, pair)
    ensures FindOpen(ps, pair).None?
  {
    RemovePairMembers(before, pair);
    FindOpenAbsent(ps, pair);
  }
}
