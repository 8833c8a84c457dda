/** The paper-trading ledger (execution/trade_store.py): the `signals`, `trades`, `positions` and
    `daily_stats` tables held in a class. Times are integer seconds. */
module Ledger {
  import opened Wrappers
  import opened Json
  import opened Sorting

  /** One row of `signals`; each gate is stored as 0 or 1. */
  datatype Signal = Signal(
    id: nat, time: int, pair: string, strategy: string,
    sessionGate: int, spreadGate: int, newsGate: int, openPosGate: int, dailyLossGate: int, enemyGate: int,
    signal: string, decision: string, meta: Object)

  /** The six gate keyword arguments of `insert_signal`; `None` when the caller left one out. */
  datatype Gates = Gates(
    session: Option<bool>, spread: Option<bool>, news: Option<bool>,
    openPos: Option<bool>, dailyLoss: Option<bool>, enemy: Option<bool>)

  /** One row of `trades`; the close-side columns are `None` while the trade is open. */
  datatype Trade = Trade(
    id: nat, timeOpen: int, timeClose: Option<int>, pair: string, strategy: string, direction: string,
    units: int, entryPrice: real, exitPrice: Option<real>, slPrice: real, tpPrice: real,
    result: Option<string>, pnlPips: Option<real>, pnlQuote: Option<real>, meta: Object)

  /** One row of `positions` (primary key `pair`). */
  datatype Position = Position(
    pair: string, strategy: string, direction: string, units: int,
    entryPrice: real, slPrice: real, tpPrice: real, timeOpen: int, isOpen: bool)

  /** One row of `daily_stats`, keyed by its date in the table map. */
  datatype DailyStats = DailyStats(startBalance: real, currentBalance: real, realizedPnl: real, halted: bool)

  /** `int(bool(kwargs.get(gate, False)))`. */
  function GateFlag(g: Option<bool>): (r: int)
    ensures r == 1 <==> g == Some(true)
    ensures r == 0 || r == 1
  {
    if g == Some(true) then 1 else 0
  }

  predicate IsOpenTradeOf(t: Trade, pair: string) {
    t.pair == pair && t.timeClose.None?
  }

  /** Index of `SELECT ... WHERE pair=? AND time_close_utc IS NULL ORDER BY id DESC LIMIT 1`
      (ids are positions + 1, so the highest id is the last index). */
  function NewestOpenTrade(ts: seq<Trade>, pair: string): (r: Option<nat>)
    ensures r.Some? ==> r.value < |ts| && IsOpenTradeOf(ts[r.value], pair)
    ensures r.Some? ==> forall j :: r.value < j < |ts| ==> !IsOpenTradeOf(ts[j], pair)
    ensures r.None? <==> forall j :: 0 <= j < |ts| ==> !IsOpenTradeOf(ts[j], pair)
    decreases |ts|
  {
    if ts == [] then None
    else if IsOpenTradeOf(ts[|ts| - 1], pair) then Some(|ts| - 1)
    else NewestOpenTrade(ts[..|ts| - 1], pair)
  }

  /** The position row `open_position` writes for a trade. */
  function PositionOf(t: Trade): Position {
    Position(t.pair, t.strategy, t.direction, t.units, t.entryPrice, t.slPrice, t.tpPrice, t.timeOpen, true)
  }

  /** The table after `DELETE FROM positions WHERE pair=?`. */
  function RemovePair(ps: seq<Position>, pair: string): (r: seq<Position>)
    decreases |ps|
  {
    if ps == [] then []
    else (if ps[0].pair == pair then [] else [ps[0]]) + RemovePair(ps[1..], pair)
  }

  /** What `RemovePair` keeps: exactly the positions of other pairs. */
  lemma {:induction false} RemovePairMembers(ps: seq<Position>, pair: string)
    ensures forall p :: p in RemovePair(ps, pair) <==> p in ps && p.pair != pair
    decreases |ps|
  {
    if ps != [] {
      RemovePairMembers(ps[1..], pair);
      assert ps == [ps[0]] + ps[1..];
    }
  }

  lemma {:induction false} RemoveAbsentPair(ps: seq<Position>, pair: string)
    requires forall p :: p in ps ==> p.pair != pair
    ensures RemovePair(ps, pair) == ps
    decreases |ps|
  {
    if ps != [] {
      RemoveAbsentPair(ps[1..], pair);
      assert ps == [ps[0]] + ps[1..];
    }
  }

  predicate DistinctPairs(ps: seq<Position>) {
    forall i, j :: 0 <= i < j < |ps| ==> ps[i].pair != ps[j].pair
  }

  /** With one row per pair, a pair names one row. */
  lemma SamePairSameRow(ps: seq<Position>, x: Position, y: Position)
    requires DistinctPairs(ps) && x in ps && y in ps && x.pair == y.pair
    ensures x == y
  {
    var i :| 0 <= i < |ps| && ps[i] == x;
    var j :| 0 <= j < |ps| && ps[j] == y;
  }

  /** With one row per pair, no row occurs twice. */
  lemma {:induction false} DistinctOnce(ps: seq<Position>, x: Position)
    requires DistinctPairs(ps)
    ensures multiset(ps)[x] <= 1
    decreases |ps|
  {
    if ps != [] {
      var tail := ps[1..];
      assert ps == [ps[0]] + tail;
      forall i, j | 0 <= i < j < |tail| ensures tail[i].pair != tail[j].pair {
        assert tail[i] == ps[i + 1] && tail[j] == ps[j + 1];
      }
      DistinctOnce(tail, x);
      if ps[0] == x {
        forall k | 0 <= k < |tail| ensures tail[k] != x {
          assert tail[k] == ps[k + 1];
        }
        assert x !in multiset(tail);
      }
    }
  }

  /** A row at two indices occurs at least twice. */
  lemma TwiceCounted(s: seq<Position>, i: nat, j: nat)
    requires i < j < |s| && s[i] == s[j]
    ensures multiset(s)[s[i]] >= 2
  {
    assert s == s[..j] + [s[j]] + s[j + 1..];
    assert s[..j][i] == s[i];
  }

  /** A permutation of a table with one row per pair has one row per pair. */
  lemma DistinctPermutation(a: seq<Position>, b: seq<Position>)
    requires multiset(a) == multiset(b) && DistinctPairs(b)
    ensures DistinctPairs(a)
  {
    forall i, j | 0 <= i < j < |a| ensures a[i].pair != a[j].pair {
      if a[i].pair == a[j].pair {
        assert a[i] in multiset(b) && a[j] in multiset(b);
        SamePairSameRow(b, a[i], a[j]);
        TwiceCounted(a, i, j);
        DistinctOnce(b, a[i]);
        assert false;
      }
    }
  }

  lemma {:induction false} RemovePairDistinct(ps: seq<Position>, pair: string)
    requires DistinctPairs(ps)
    ensures DistinctPairs(RemovePair(ps, pair))
    decreases |ps|
  {
    if ps != [] {
      RemovePairDistinct(ps[1..], pair);
      RemovePairMembers(ps[1..], pair);
      var rest := RemovePair(ps[1..], pair);
      forall q | q in rest ensures q.pair != ps[0].pair {
        var j :| 0 <= j < |ps[1..]| && ps[1..][j] == q;
        assert ps[j + 1] == q;
      }
    }
  }

  /** Appending a trade of another pair leaves the newest open trade of `pair` where it was. */
  lemma AppendOtherKeepsNewest(ts: seq<Trade>, t: Trade, pair: string)
    requires t.pair != pair
    ensures NewestOpenTrade(ts + [t], pair) == NewestOpenTrade(ts, pair)
  {
    assert (ts + [t])[..|ts|] == ts;
  }

  /** Closing a trade of another pair leaves the newest open trade of `pair` where it was. */
  lemma UpdateOtherKeepsNewest(ts: seq<Trade>, k: nat, t: Trade, pair: string)
    requires k < |ts| && ts[k].pair != pair && t.pair != pair
    ensures NewestOpenTrade(ts[k := t], pair) == NewestOpenTrade(ts, pair)
  {
    var us := ts[k := t];
    forall j | 0 <= j < |ts| ensures IsOpenTradeOf(us[j], pair) == IsOpenTradeOf(ts[j], pair) {
      if j == k {
        assert !IsOpenTradeOf(us[j], pair) && !IsOpenTradeOf(ts[j], pair);
      }
    }
    SameOpenSameNewest(us, ts, pair);
  }

  /** Two tables with the same open trades of `pair` at the same places agree on the newest. */
  lemma SameOpenSameNewest(us: seq<Trade>, ts: seq<Trade>, pair: string)
    requires |us| == |ts|
    requires forall j :: 0 <= j < |ts| ==> IsOpenTradeOf(us[j], pair) == IsOpenTradeOf(ts[j], pair)
    ensures NewestOpenTrade(us, pair) == NewestOpenTrade(ts, pair)
  {
    var a, b := NewestOpenTrade(us, pair), NewestOpenTrade(ts, pair);
    if a.Some? {
      assert IsOpenTradeOf(ts[a.value], pair);
    }
    if b.Some? {
      assert IsOpenTradeOf(us[b.value], pair);
    }
  }

  /** Every position row is open and mirrors the newest open trade of its pair. */
  ghost predicate Mirrors(ts: seq<Trade>, ps: seq<Position>) {
    forall p :: p in ps ==>
      NewestOpenTrade(ts, p.pair).Some? && PositionOf(ts[NewestOpenTrade(ts, p.pair).value]) == p
  }

  lemma OpenKeepsMirror(ts: seq<Trade>, ps: seq<Position>, t: Trade)
    requires Mirrors(ts, ps) && t.timeClose.None?
    ensures Mirrors(ts + [t], RemovePair(ps, t.pair) + [PositionOf(t)])
  {
    var us := ts + [t];
    RemovePairMembers(ps, t.pair);
    assert NewestOpenTrade(us, t.pair) == Some(|ts|);
    forall p | p in RemovePair(ps, t.pair) + [PositionOf(t)]
      ensures NewestOpenTrade(us, p.pair).Some? && PositionOf(us[NewestOpenTrade(us, p.pair).value]) == p
    {
      if p.pair != t.pair {
        assert p in ps;
        AppendOtherKeepsNewest(ts, t, p.pair);
        assert us[NewestOpenTrade(ts, p.pair).value] == ts[NewestOpenTrade(ts, p.pair).value];
      }
    }
  }

  lemma CloseKeepsMirror(ts: seq<Trade>, ps: seq<Position>, k: nat, t: Trade)
    requires Mirrors(ts, ps) && k < |ts| && t.pair == ts[k].pair
    ensures Mirrors(ts[k := t], RemovePair(ps, t.pair))
  {
    var us := ts[k := t];
    RemovePairMembers(ps, t.pair);
    forall p | p in RemovePair(ps, t.pair)
      ensures NewestOpenTrade(us, p.pair).Some? && PositionOf(us[NewestOpenTrade(us, p.pair).value]) == p
    {
      assert p in ps && p.pair != t.pair;
      UpdateOtherKeepsNewest(ts, k, t, p.pair);
      assert NewestOpenTrade(ts, p.pair).value != k;
    }
  }

  /** The `trades` table after `close_position`'s UPDATE: only the newest open trade of the pair
      changes, and only in its close-side columns; no open trade means no change. */
  function CloseTrades(ts: seq<Trade>, pair: string, exitPrice: real, result: string, pnlPips: real,
                       pnlQuote: real, closeTime: int, meta: Object): (r: seq<Trade>)
    ensures |r| == |ts|
    ensures NewestOpenTrade(ts, pair).None? ==> r == ts
    ensures NewestOpenTrade(ts, pair).Some? ==>
      var k := NewestOpenTrade(ts, pair).value;
      && (forall j :: 0 <= j < |ts| && j != k ==> r[j] == ts[j])
      && r[k] == ts[k].(timeClose := Some(closeTime), exitPrice := Some(exitPrice), result := Some(result),
                        pnlPips := Some(pnlPips), pnlQuote := Some(pnlQuote), meta := meta)
  {
    match NewestOpenTrade(ts, pair)
    case None => ts
    case Some(k) =>
      ts[k := ts[k].(timeClose := Some(closeTime), exitPrice := Some(exitPrice), result := Some(result),
                     pnlPips := Some(pnlPips), pnlQuote := Some(pnlQuote), meta := meta)]
  }

  /** Inclusive order on open time: `ORDER BY time_open_utc`. */
  predicate OpenedNoLater(a: Position, b: Position) {
    a.timeOpen <= b.timeOpen
  }

  /** Signal ids are autoincrement. */
  ghost predicate SignalIds(signals: seq<Signal>) {
    forall j :: 0 <= j < |signals| ==> signals[j].id == j + 1
  }

  /** Trade ids are autoincrement; `pair` is the key of `positions`; every position row is open
      and mirrors the newest open trade of its pair (open and close are the only writers). */
  ghost predicate LedgerInvariant(trades: seq<Trade>, positions: seq<Position>) {
    && (forall j :: 0 <= j < |trades| ==> trades[j].id == j + 1)
    && DistinctPairs(positions)
    && Mirrors(trades, positions)
  }

  class TradeStore {
    var signals: seq<Signal>
    var trades: seq<Trade>
    var positions: seq<Position>
    var dailyStats: map<string, DailyStats>

    /** The invariants of the signal, trade and position tables. */
    ghost predicate Valid()
      reads this
    {
      SignalIds(signals) && LedgerInvariant(trades, positions)
    }

    /** A store over freshly created, empty tables (`init_db`). */
    constructor ()
      ensures Valid()
      ensures signals == [] && trades == [] && positions == [] && dailyStats == map[]
    {
      signals := [];
      trades := [];
      positions := [];
      dailyStats := map[];
    }

    /** `get_open_position`. */
    function GetOpenPosition(pair: string): (r: Option<Position>)
      reads this
      ensures r.Some? ==> r.value in positions && r.value.pair == pair && r.value.isOpen
      ensures r.None? <==> forall p :: p in positions ==> !(p.pair == pair && p.isOpen)
    {
      FindOpen(positions, pair)
    }

    /** `list_open_positions`: every open row, ordered by open time. */
    function ListOpenPositions(): (r: seq<Position>)
      reads this
      ensures Sorted(r, OpenedNoLater)
      ensures multiset(r) == multiset(OpenRows(positions))
      ensures forall p :: p in r <==> p in positions && p.isOpen
    {
      var open := OpenRows(positions);
      var r := SortBy(open, OpenedNoLater);
      assert forall p :: p in r <==> p in multiset(r);
      r
    }

    /** `get_daily_stats`. */
    function GetDailyStats(date: string): (r: Option<DailyStats>)
      reads this
      ensures r.Some? <==> date in dailyStats
      ensures r.Some? ==> r.value == dailyStats[date]
    {
      if date in dailyStats then Some(dailyStats[date]) else None
    }

    /** `insert_signal`: one new row, gates as 0/1, signal HOLD and decision BLOCK when left out. */
    method InsertSignal(time: int, pair: string, strategy: string, gates: Gates,
                        signal: Option<string>, decision: Option<string>, meta: Option<Object>)
      returns (id: nat)
      requires Valid()
      modifies this
      ensures Valid()
      ensures id == |old(signals)| + 1
      ensures signals == old(signals) + [Signal(id, time, pair, strategy,
        GateFlag(gates.session), GateFlag(gates.spread), GateFlag(gates.news),
        GateFlag(gates.openPos), GateFlag(gates.dailyLoss), GateFlag(gates.enemy),
        signal.GetOr("HOLD"), decision.GetOr("BLOCK"), OrEmpty(meta))]
      ensures trades == old(trades) && positions == old(positions) && dailyStats == old(dailyStats)
    {
      id := |signals| + 1;
      signals := signals + [Signal(id, time, pair, strategy,
        GateFlag(gates.session), GateFlag(gates.spread), GateFlag(gates.news),
        GateFlag(gates.openPos), GateFlag(gates.dailyLoss), GateFlag(gates.enemy),
        signal.GetOr("HOLD"), decision.GetOr("BLOCK"), OrEmpty(meta))];
    }

    /** `open_position`: appends an open trade and replaces the pair's position row with it. An
        earlier open trade of the same pair stays open in `trades`. */
    method OpenPosition(pair: string, strategy: string, direction: string, units: int,
                        entryPrice: real, slPrice: real, tpPrice: real, timeOpen: int, meta: Option<Object>)
      returns (id: nat)
      requires Valid()
      modifies this
      ensures Valid()
      ensures id == |old(trades)| + 1
      ensures trades == old(trades) + [Trade(id, timeOpen, None, pair, strategy, direction, units, entryPrice,
                                             None, slPrice, tpPrice, None, None, None, OrEmpty(meta))]
      ensures positions == RemovePair(old(positions), pair) + [PositionOf(trades[id - 1])]
      ensures GetOpenPosition(pair) == Some(PositionOf(trades[id - 1]))
      ensures signals == old(signals) && dailyStats == old(dailyStats)
    {
      id := |trades| + 1;
      var t := Trade(id, timeOpen, None, pair, strategy, direction, units, entryPrice,
                     None, slPrice, tpPrice, None, None, None, OrEmpty(meta));
      OpenKeepsMirror(trades, positions, t);
      RemovePairDistinct(positions, pair);
      var kept := RemovePair(positions, pair);
      RemovePairMembers(positions, pair);
      FindOpenLast(kept, PositionOf(t));
      trades := trades + [t];
      positions := kept + [PositionOf(t)];
    }

    /** `close_position`: closes the highest-id open trade of the pair and deletes its position
        row; a pair without an open trade changes nothing. Result, pnl and meta default to
        "CLOSED", 0 and `{}`. */
    method ClosePosition(pair: string, exitPrice: real, result: Option<string>, pnlPips: Option<real>,
                         pnlQuote: Option<real>, closeTime: int, meta: Option<Object>)
      requires Valid()
      modifies this
      ensures Valid()
      ensures trades == CloseTrades(old(trades), pair, exitPrice, result.GetOr("CLOSED"), pnlPips.GetOr(0.0),
                                    pnlQuote.GetOr(0.0), closeTime, OrEmpty(meta))
      ensures NewestOpenTrade(old(trades), pair).None? ==> positions == old(positions)
      // Either way the pair has no position row afterwards.
      ensures positions == RemovePair(old(positions), pair)
      ensures GetOpenPosition(pair).None?
      ensures signals == old(signals) && dailyStats == old(dailyStats)
    {
      var k := NewestOpenTrade(trades, pair);
      if k.None? {
        RemoveAbsentPair(positions, pair);
        FindOpenAbsent(positions, pair);
        return;
      }
      var i := k.value;
      var closed := trades[i].(timeClose := Some(closeTime), exitPrice := Some(exitPrice),
                               result := Some(result.GetOr("CLOSED")), pnlPips := Some(pnlPips.GetOr(0.0)),
                               pnlQuote := Some(pnlQuote.GetOr(0.0)), meta := OrEmpty(meta));
      CloseKeepsMirror(trades, positions, i, closed);
      RemovePairDistinct(positions, pair);
      trades := trades[i := closed];
      RemovePairMembers(positions, pair);
      positions := RemovePair(positions, pair);
      FindOpenAbsent(positions, pair);
    }

    /** `upsert_daily_stats`: inserts or fully overwrites the date's row. */
    method UpsertDailyStats(date: string, startBalance: real, currentBalance: real, realizedPnl: real, halted: bool)
      requires Valid()
      modifies this
      ensures Valid()
      ensures dailyStats == old(dailyStats)[date := DailyStats(startBalance, currentBalance, realizedPnl, halted)]
      ensures GetDailyStats(date) == Some(DailyStats(startBalance, currentBalance, realizedPnl, halted))
      ensures signals == old(signals) && trades == old(trades) && positions == old(positions)
    {
      dailyStats := dailyStats[date := DailyStats(startBalance, currentBalance, realizedPnl, halted)];
    }

    /** `set_halted`: reads the date's row and rewrites it with only `halted` changed, or writes
        a zero row when there is none. */
    method SetHalted(date: string, halted: bool)
      requires Valid()
      modifies this
      ensures Valid()
      ensures date in dailyStats && dailyStats[date].halted == halted
      ensures date in old(dailyStats) ==> dailyStats[date] == old(dailyStats)[date].(halted := halted)
      ensures date !in old(dailyStats) ==> dailyStats[date] == DailyStats(0.0, 0.0, 0.0, halted)
      ensures forall d :: d != date ==> (d in dailyStats <==> d in old(dailyStats))
      ensures forall d :: d in old(dailyStats) && d != date ==> dailyStats[d] == old(dailyStats)[d]
      ensures signals == old(signals) && trades == old(trades) && positions == old(positions)
    {
      var existing := GetDailyStats(date);
      if existing.None? {
        UpsertDailyStats(date, 0.0, 0.0, 0.0, halted);
        return;
      }
      var e := existing.value;
      UpsertDailyStats(date, e.startBalance, e.currentBalance, e.realizedPnl, halted);
    }
  }

  /** The first open row for `pair` (`WHERE pair=? AND is_open=1`, at most one row exists). */
  function FindOpen(ps: seq<Position>, pair: string): (r: Option<Position>)
    ensures r.Some? ==> r.value in ps && r.value.pair == pair && r.value.isOpen
    ensures r.None? <==> forall p :: p in ps ==> !(p.pair == pair && p.isOpen)
    decreases |ps|
  {
    if ps == [] then None
    else if ps[0].pair == pair && ps[0].isOpen then Some(ps[0])
    else FindOpen(ps[1..], pair)
  }

  lemma FindOpenLast(ps: seq<Position>, p: Position)
    requires p.isOpen && forall q :: q in ps ==> q.pair != p.pair
    ensures FindOpen(ps + [p], p.pair) == Some(p)
  {
  }

  lemma FindOpenAbsent(ps: seq<Position>, pair: string)
    requires forall q :: q in ps ==> q.pair != pair
    ensures FindOpen(ps, pair).None?
  {
  }

  /** `WHERE is_open=1`. */
  function OpenRows(ps: seq<Position>): (r: seq<Position>)
    ensures forall p :: p in r <==> p in ps && p.isOpen
    decreases |ps|
  {
    if ps == [] then []
    else (if ps[0].isOpen then [ps[0]] else []) + OpenRows(ps[1..])
  }

  /** Under the store invariant the position table holds at most one row per pair. */
  lemma AtMostOnePositionPerPair(store: TradeStore, p: Position, q: Position)
    requires store.Valid() && p in store.positions && q in store.positions && p.pair == q.pair
    ensures p == q
  {
  }
}
