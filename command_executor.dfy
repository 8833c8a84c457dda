/** The command executor (execution/command_executor.py): claims the next PENDING command,
    dispatches it, and finishes it with a terminal status. The live-close callback, the reload
    callback and the live-trading flag are parameters; the alert service is a no-op. */
module CommandExecutor {
  import opened Wrappers
  import opened Json
  import opened Text
  import opened Commands
  import opened Ledger
  import ControlState
  import Broker

  /** What the injected live-close callback does for a pair: returns a body (possibly `None`) or raises. */
  datatype LiveReply = Reply(body: Option<Object>) | Raise(message: string)

  /** What the injected reload callback does when called. */
  datatype ReloadOutcome = ReloadOk | ReloadRaise(message: string)

  /** The executor's environment: `LIVE_TRADING_ENABLED`, `live_close_fn`, `reload_params_fn`, and
      the text `traceback.format_exc()` would produce for a raised exception. */
  datatype Env = Env(liveTradingEnabled: bool, liveClose: Option<string -> LiveReply>, reload: Option<ReloadOutcome>,
                     traceback: string)

  /** A call into an injected callback, in the order made. */
  datatype Call = LiveCloseCall(pair: string) | ReloadCall

  /** The `(status, result)` pair a handler returns. */
  datatype Leg = Leg(status: Status, result: Object)

  /** The `{"id", "status", "result"}` dictionary `process_next_command` returns. */
  datatype Processed = Processed(id: nat, status: Status, result: Object)

  const NoLiveCloseFn: string := "LIVE close requested but no live_close_fn provided"

  function PaperSkipResult(pair: string): Object {
    map["pair" := Str(pair), "reason" := Str("position already closed"), "mode" := Str("PAPER")]
  }

  function PaperClosedResult(pair: string, exitPrice: real): Object {
    map["pair" := Str(pair), "closed" := Bool(true), "mode" := Str("PAPER"), "exit_price" := Float(exitPrice)]
  }

  function LiveSkipResult(pair: string): Object {
    map["pair" := Str(pair), "mode" := Str("LIVE"), "reason" := Str("LIVE trading disabled")]
  }

  function LiveCalledResult(pair: string, body: Option<Object>): Object {
    map["pair" := Str(pair), "mode" := Str("LIVE"), "broker" := Obj(OrEmpty(body))]
  }

  /** `str(payload.get("mode") or "PAPER").upper() == "LIVE"`: only a string can spell LIVE. */
  predicate WantsLive(payload: Object) {
    Get(payload, "mode").Str? && Upper(Get(payload, "mode").s) == "LIVE"
  }

  /** Python's `TypeError` text for iterating a number or a boolean. */
  function NotIterable(v: Value): string {
    if v.Bool? then "'bool' object is not iterable"
    else if v.Int? then "'int' object is not iterable"
    else "'float' object is not iterable"
  }

  /** `{str(item).upper() for item in payload.get("modes") or ["PAPER", "LIVE"]}`, kept to the
      members that can be PAPER or LIVE: the text of a non-string list item, and the single
      characters of a string, never spell either word. */
  function Modes(v: Value): (r: Result<set<string>>)
    ensures !Truthy(v) ==> r == Success({"PAPER", "LIVE"})
    ensures Truthy(v) && (v.Int? || v.Float? || v.Bool?) ==> r == Failure(NotIterable(v))
    ensures v.Arr? && Truthy(v) ==> r.Success? && forall m :: m in r.value <==> exists i :: 0 <= i < |v.items| && v.items[i].Str? && Upper(v.items[i].s) == m
  {
    if !Truthy(v) then Success({"PAPER", "LIVE"})
    else match v
      case Arr(items) => Success(set i | 0 <= i < |items| && items[i].Str? :: Upper(items[i].s))
      case Obj(fields) => Success(set k | k in fields :: Upper(k))
      case Str(_) => Success({})
      case _ => Failure(NotIterable(v))
  }

  /** The pair names of `payload.get("pairs") or []`, in iteration order: the string items of a
      list, the characters of a string, the keys of an object (in sorted order). */
  function LivePairs(v: Value): (r: Result<seq<string>>)
    ensures !Truthy(v) ==> r == Success([])
    ensures Truthy(v) && (v.Int? || v.Float? || v.Bool?) ==> r == Failure(NotIterable(v))
    ensures v.Str? && Truthy(v) ==> r == Success(Chars(v.s))
  {
    if !Truthy(v) then Success([])
    else match v
      case Arr(items) => Success(StringItems(items))
      case Str(s) => Success(Chars(s))
      case Obj(fields) => Success(SortedStrings(fields.Keys))
      case _ => Failure(NotIterable(v))
  }

  /** `json.loads` keeps `1` an int and `1.0` a float, and the TypeError names the type. */
  lemma NotIterableExamples()
    ensures Modes(Int(1)) == Failure("'int' object is not iterable")
    ensures Modes(Float(1.0)) == Failure("'float' object is not iterable")
    ensures LivePairs(Float(2.5)) == Failure("'float' object is not iterable")
    ensures LivePairs(Bool(true)) == Failure("'bool' object is not iterable")
  {
  }

  /** Iterating a string: its characters, each as a one-character string. */
  function Chars(s: string): (r: seq<string>)
    ensures |r| == |s| && forall i :: 0 <= i < |s| ==> r[i] == [s[i]]
  {
    if s == [] then [] else [[s[0]]] + Chars(s[1..])
  }

  /** The pairs of a `pairs` list: its string items, in order and with repetitions. */
  function StringItems(items: seq<Value>): (r: seq<string>)
    ensures forall x :: x in r <==> Str(x) in items
    decreases |items|
  {
    if items == [] then []
    else (if items[0].Str? then [items[0].s] else []) + StringItems(items[1..])
  }

  /** A single item contributes its string, or nothing when it is not a string. */
  lemma StringItemsOne(v: Value)
    ensures StringItems([v]) == (if v.Str? then [v.s] else [])
  {
    assert [v][1..] == [];
  }

  /** The string items of a concatenation are those of each part, in order. */
  lemma {:induction false} StringItemsConcat(a: seq<Value>, b: seq<Value>)
    ensures StringItems(a + b) == StringItems(a) + StringItems(b)
    decreases |a|
  {
    if a == [] {
      assert a + b == b;
    } else {
      assert (a + b)[0] == a[0];
      assert (a + b)[1..] == a[1..] + b;
      StringItemsConcat(a[1..], b);
    }
  }

  /** The CLOSE_ALL status accumulator after one leg: FAILED sticks, SKIPPED replaces SUCCEEDED. */
  function Step(status: Status, leg: Status): Status {
    if leg == Failed then Failed
    else if leg == Skipped && status == Succeeded then Skipped
    else status
  }

  /** The accumulator after `legs`, starting from `start`. */
  function AggregateFrom(start: Status, legs: seq<Leg>): Status
    decreases |legs|
  {
    if legs == [] then start else Step(AggregateFrom(start, legs[..|legs| - 1]), legs[|legs| - 1].status)
  }

  lemma {:induction false} AggregateConcat(start: Status, a: seq<Leg>, b: seq<Leg>)
    ensures AggregateFrom(AggregateFrom(start, a), b) == AggregateFrom(start, a + b)
    decreases |b|
  {
    if b == [] {
      assert a + b == a;
    } else {
      AggregateConcat(start, a, b[..|b| - 1]);
      assert (a + b)[..|a + b| - 1] == a + b[..|b| - 1];
    }
  }

  /** With no FAILED leg, the CLOSE_ALL status is SKIPPED exactly when some leg was skipped. */
  lemma {:induction false} AggregateSkippedIff(legs: seq<Leg>)
    requires forall i :: 0 <= i < |legs| ==> legs[i].status == Succeeded || legs[i].status == Skipped
    ensures AggregateFrom(Succeeded, legs) == Skipped <==> exists i :: 0 <= i < |legs| && legs[i].status == Skipped
    ensures AggregateFrom(Succeeded, legs) == Succeeded <==> forall i :: 0 <= i < |legs| ==> legs[i].status == Succeeded
    decreases |legs|
  {
    if legs != [] {
      var init := legs[..|legs| - 1];
      AggregateSkippedIff(init);
      assert forall i :: 0 <= i < |init| ==> init[i] == legs[i];
    }
  }

  function Results(legs: seq<Leg>): (r: seq<Value>)
    ensures |r| == |legs| && forall i :: 0 <= i < |legs| ==> r[i] == Obj(legs[i].result)
  {
    seq(|legs|, i requires 0 <= i < |legs| => Obj(legs[i].result))
  }

  /** The audit rows a sequence of legs appended after `before`: one row per leg, in order, for
      the command, carrying that leg's result, none of them a COMMAND_COMPLETED row. */
  ghost predicate LegAudit(before: seq<AuditEntry>, after: seq<AuditEntry>, legs: seq<Leg>, commandId: nat) {
    && |after| == |before| + |legs|
    && after[..|before|] == before
    && forall k :: |before| <= k < |after| ==>
         after[k].commandId == Some(commandId) && after[k].details == Some(legs[k - |before|].result)
         && after[k].action != CommandCompleted
  }

  /** The leg's result names `pair`. */
  predicate ForPair(leg: Leg, pair: string) {
    "pair" in leg.result && leg.result["pair"] == Str(pair)
  }

  /** `after` extends `before` with rows none of which is a COMMAND_COMPLETED row. */
  ghost predicate AppendsNoCompletion(before: seq<AuditEntry>, after: seq<AuditEntry>) {
    |after| >= |before| && after[..|before|] == before &&
    forall k :: |before| <= k < |after| ==> after[k].action != CommandCompleted
  }

  lemma AppendsTrans(a0: seq<AuditEntry>, a1: seq<AuditEntry>, a2: seq<AuditEntry>)
    requires AppendsNoCompletion(a0, a1) && AppendsNoCompletion(a1, a2)
    ensures AppendsNoCompletion(a0, a2)
  {
    assert a2[..|a0|] == a1[..|a1|][..|a0|];
    forall k | |a0| <= k < |a2|
      ensures a2[k].action != CommandCompleted
    {
      if k < |a1| {
        assert a2[k] == a2[..|a1|][k];
      }
    }
  }

  lemma AppendsOne(a0: seq<AuditEntry>, a1: seq<AuditEntry>, e: AuditEntry)
    requires AppendsNoCompletion(a0, a1) && e.action != CommandCompleted
    ensures AppendsNoCompletion(a0, a1 + [e])
  {
    assert (a1 + [e])[..|a0|] == a1[..|a0|];
  }

  lemma LegAuditAppends(a0: seq<AuditEntry>, a1: seq<AuditEntry>, legs: seq<Leg>, id: nat)
    requires LegAudit(a0, a1, legs, id)
    ensures AppendsNoCompletion(a0, a1)
  {
  }

  lemma LegAuditExtend(a0: seq<AuditEntry>, a1: seq<AuditEntry>, e: AuditEntry, legs: seq<Leg>, leg: Leg, id: nat)
    requires LegAudit(a0, a1, legs, id)
    requires e.commandId == Some(id) && e.details == Some(leg.result) && e.action != CommandCompleted
    ensures LegAudit(a0, a1 + [e], legs + [leg], id)
  {
    assert (a1 + [e])[..|a0|] == a1[..|a0|];
  }

  /** `_audit`: one audit row stamped with the current time. */
  method Audit(q: CommandQueue, actor: string, action: Action, commandId: nat, details: Object, now: int)
    requires q.Valid()
    modifies q
    ensures q.Valid()
    ensures q.commands == old(q.commands)
    ensures q.audit == old(q.audit) + [AuditEntry(|old(q.audit)| + 1, now, actor, action, Some(commandId), Some(details))]
  {
    q.WriteAuditLog(actor, action, Some(commandId), Some(details), now);
  }

  /** `{"command_id": command_id}`, the meta a paper close stores on its trade. */
  function CommandMeta(commandId: nat): Object {
    map["command_id" := Int(commandId)]
  }

  /** The leg `_close_paper_pair` returns for `pair` against the position table `ps`. */
  function PaperOutcome(ps: seq<Position>, pair: string): (leg: Leg)
    ensures ForPair(leg, pair)
    ensures leg.status == Skipped <==> FindOpen(ps, pair).None?
    ensures leg.status == Succeeded <==> FindOpen(ps, pair).Some?
  {
    match FindOpen(ps, pair)
    case None => Leg(Skipped, PaperSkipResult(pair))
    case Some(p) => Leg(Succeeded, PaperClosedResult(pair, p.entryPrice))
  }

  /** The ledger after `_close_paper_pair` for `pair`: unchanged when the pair has no open
      position; otherwise the pair's newest open trade is closed at the position's own entry
      price with result MANUAL_CLOSE, and the position row is deleted. */
  ghost predicate PaperCloseLedger(ts0: seq<Trade>, ps0: seq<Position>, ts1: seq<Trade>, ps1: seq<Position>,
                                   pair: string, commandId: nat, now: int) {
    match FindOpen(ps0, pair)
    case None => ts1 == ts0 && ps1 == ps0
    case Some(p) =>
      ts1 == CloseTrades(ts0, pair, p.entryPrice, "MANUAL_CLOSE", 0.0, 0.0, now, CommandMeta(commandId))
      && ps1 == RemovePair(ps0, pair)
  }

  /** `_close_paper_pair`: SKIPPED when the pair has no open position, otherwise the position is
      closed at its own entry price with result MANUAL_CLOSE; one audit row either way. The live
      callback is not involved. */
  method ClosePaperPair(q: CommandQueue, store: TradeStore, pair: string, commandId: nat, actor: string, now: int)
    returns (leg: Leg)
    requires q.Valid() && store.Valid()
    modifies q, store
    ensures q.Valid() && store.Valid()
    ensures q.commands == old(q.commands)
    ensures leg == PaperOutcome(old(store.positions), pair)
    ensures q.audit == old(q.audit) + [AuditEntry(|old(q.audit)| + 1, now, actor,
                                                  if leg.status == Skipped then PositionCloseSkipped else PositionClosed,
                                                  Some(commandId), Some(leg.result))]
    ensures PaperCloseLedger(old(store.trades), old(store.positions), store.trades, store.positions, pair, commandId, now)
    ensures store.signals == old(store.signals) && store.dailyStats == old(store.dailyStats)
  {
    var position := store.GetOpenPosition(pair);
    if position.None? {
      leg := Leg(Skipped, PaperSkipResult(pair));
      Audit(q, actor, PositionCloseSkipped, commandId, leg.result, now);
      return;
    }
    var exitPrice := position.value.entryPrice;
    store.ClosePosition(pair, exitPrice, Some("MANUAL_CLOSE"), None, None, now, Some(CommandMeta(commandId)));
    leg := Leg(Succeeded, PaperClosedResult(pair, exitPrice));
    Audit(q, actor, PositionClosed, commandId, leg.result, now);
  }

  /** What `_close_live_pair` returns for `pair`, or the message it raises. */
  function LiveOutcome(env: Env, pair: string): Result<Leg> {
    if !env.liveTradingEnabled then Success(Leg(Skipped, LiveSkipResult(pair)))
    else if env.liveClose.None? then Failure(NoLiveCloseFn)
    else match env.liveClose.value(pair)
      case Raise(message) => Failure(message)
      case Reply(body) => Success(Leg(Succeeded, LiveCalledResult(pair, body)))
  }

  /** The callbacks `_close_live_pair` makes: one for the pair when live trading is enabled and a
      callback is set, none otherwise. */
  function LivePairCalls(env: Env, pair: string): seq<Call> {
    if env.liveTradingEnabled && env.liveClose.Some? then [LiveCloseCall(pair)] else []
  }

  /** `_close_live_pair`: SKIPPED while live trading is disabled (no call is made); raises when
      enabled without a callback; otherwise calls the callback once and reports its reply or
      its raise. Only a returning close writes an audit row. */
  method CloseLivePair(q: CommandQueue, pair: string, commandId: nat, actor: string, env: Env, now: int)
    returns (r: Result<Leg>, calls: seq<Call>)
    requires q.Valid()
    modifies q
    ensures q.Valid()
    ensures q.commands == old(q.commands)
    ensures r == LiveOutcome(env, pair) && calls == LivePairCalls(env, pair)
    ensures r.Failure? ==> q.audit == old(q.audit)
    ensures r.Success? ==>
      q.audit == old(q.audit) + [AuditEntry(|old(q.audit)| + 1, now, actor,
                                            if env.liveTradingEnabled then BrokerCloseCalled else LiveCloseSkipped,
                                            Some(commandId), Some(r.value.result))]
  {
    if !env.liveTradingEnabled {
      Audit(q, actor, LiveCloseSkipped, commandId, LiveSkipResult(pair), now);
      return Success(Leg(Skipped, LiveSkipResult(pair))), [];
    }
    if env.liveClose.None? {
      return Failure(NoLiveCloseFn), [];
    }
    var reply := env.liveClose.value(pair);
    calls := [LiveCloseCall(pair)];
    if reply.Raise? {
      return Failure(reply.message), calls;
    }
    var res := LiveCalledResult(pair, reply.body);
    Audit(q, actor, BrokerCloseCalled, commandId, res, now);
    r := Success(Leg(Succeeded, res));
  }

  /** The ledger and callback effect of `_handle_close_pair`: nothing without a pair; a paper
      close of the pair for PAPER; only the live callback of the pair, and an unchanged ledger,
      for LIVE. */
  ghost predicate ClosePairEffect(payload: Option<Object>, env: Env, ts0: seq<Trade>, ps0: seq<Position>,
                                  ts1: seq<Trade>, ps1: seq<Position>, calls: seq<Call>, commandId: nat, now: int) {
    match ControlState.PairOf(payload)
    case None => calls == [] && ts1 == ts0 && ps1 == ps0
    case Some(pair) =>
      if WantsLive(OrEmpty(payload)) then calls == LivePairCalls(env, pair) && ts1 == ts0 && ps1 == ps0
      else calls == [] && PaperCloseLedger(ts0, ps0, ts1, ps1, pair, commandId, now)
  }

  /** `_handle_close_pair`: FAILED "pair is required" without a pair; LIVE only when the payload's
      mode says so, PAPER otherwise. */
  method HandleClosePair(q: CommandQueue, store: TradeStore, cmd: Command, actor: string, env: Env, now: int)
    returns (r: Result<Leg>, calls: seq<Call>)
    requires q.Valid() && store.Valid()
    modifies q, store
    ensures q.Valid() && store.Valid()
    ensures q.commands == old(q.commands)
    ensures ClosePairEffect(cmd.payload, env, old(store.trades), old(store.positions), store.trades, store.positions,
                            calls, cmd.id, now)
    ensures ControlState.PairOf(cmd.payload).None? ==>
      r == Success(Leg(Failed, map["error" := Str("pair is required")])) && q.audit == old(q.audit)
    ensures ControlState.PairOf(cmd.payload).Some? && !WantsLive(OrEmpty(cmd.payload)) ==>
      r == Success(PaperOutcome(old(store.positions), ControlState.PairOf(cmd.payload).value))
      && |q.audit| == |old(q.audit)| + 1
    ensures ControlState.PairOf(cmd.payload).Some? && WantsLive(OrEmpty(cmd.payload)) ==>
      r == LiveOutcome(env, ControlState.PairOf(cmd.payload).value)
    ensures r.Success? ==> r.value.status.IsFinal()
    ensures AppendsNoCompletion(old(q.audit), q.audit)
    ensures store.signals == old(store.signals) && store.dailyStats == old(store.dailyStats)
  {
    var pair := ControlState.PairOf(cmd.payload);
    if pair.None? {
      return Success(Leg(Failed, map["error" := Str("pair is required")])), [];
    }
    if WantsLive(OrEmpty(cmd.payload)) {
      r, calls := CloseLivePair(q, pair.value, cmd.id, actor, env, now);
      return;
    }
    var leg := ClosePaperPair(q, store, pair.value, cmd.id, actor, now);
    return Success(leg), [];
  }

  /** The leg of a paper close of the listed position `p`, which is still open when it is reached. */
  function PaperLeg(p: Position): Leg {
    Leg(Succeeded, PaperClosedResult(p.pair, p.entryPrice))
  }

  /** The legs of the PAPER loop of `_handle_close_all` over the listing `ps`. */
  function PaperLegsOf(ps: seq<Position>): seq<Leg> {
    seq(|ps|, i requires 0 <= i < |ps| => PaperLeg(ps[i]))
  }

  /** The trades table after the PAPER loop of `_handle_close_all` has closed `ps` in order, each
      at its own entry price with result MANUAL_CLOSE. */
  function ManualCloseTrades(ts: seq<Trade>, ps: seq<Position>, commandId: nat, now: int): seq<Trade>
    decreases |ps|
  {
    if ps == [] then ts
    else
      var p := ps[|ps| - 1];
      CloseTrades(ManualCloseTrades(ts, ps[..|ps| - 1], commandId, now), p.pair, p.entryPrice, "MANUAL_CLOSE",
                  0.0, 0.0, now, CommandMeta(commandId))
  }

  /** `list_open_positions` under the store invariant: every position row, once, one per pair. */
  lemma ListingFacts(store: TradeStore)
    requires store.Valid()
    ensures |store.ListOpenPositions()| == |store.positions|
    ensures forall p :: p in store.ListOpenPositions() <==> p in store.positions
    ensures forall p :: p in store.ListOpenPositions() ==> p.isOpen
    ensures DistinctPairs(store.ListOpenPositions())
  {
    Broker.PositionsAreOpen(store);
    OpenRowsAll(store.positions);
    var listing := store.ListOpenPositions();
    assert |listing| == |multiset(listing)|;
    DistinctPermutation(listing, store.positions);
  }

  lemma {:induction false} OpenRowsAll(ps: seq<Position>)
    requires forall p :: p in ps ==> p.isOpen
    ensures OpenRows(ps) == ps
    decreases |ps|
  {
    if ps != [] {
      assert ps[0] in ps;
      assert forall p :: p in ps[1..] ==> p in ps;
      OpenRowsAll(ps[1..]);
      assert ps == [ps[0]] + ps[1..];
    }
  }

  /** Listed position `ps[i]` is still the open row of its pair after the earlier listed pairs
      have been deleted. */
  lemma StillOpen(ps: seq<Position>, i: nat, ps0: seq<Position>, current: seq<Position>)
    requires i < |ps| && DistinctPairs(ps) && forall p :: p in ps ==> p in ps0 && p.isOpen
    requires current == Broker.Without(ps0, Broker.Pairs(ps[..i])) && DistinctPairs(current)
    ensures FindOpen(current, ps[i].pair) == Some(ps[i])
  {
    var p := ps[i];
    if p.pair in Broker.Pairs(ps[..i]) {
      Broker.PairsMembers(ps[..i], p.pair);
      assert false;
    }
    Broker.WithoutMembers(ps0, Broker.Pairs(ps[..i]));
    assert p in current;
    var found := FindOpen(current, p.pair);
    assert found.Some?;
    SamePairSameRow(current, found.value, p);
  }

  /** `ps` lists open rows of the table `ps0`, one per pair. */
  ghost predicate ListedFrom(ps: seq<Position>, ps0: seq<Position>) {
    DistinctPairs(ps) && forall p :: p in ps ==> p in ps0 && p.isOpen
  }

  /** The ledger once the PAPER loop has closed the first `i` listed positions of `ps`. */
  ghost predicate PaperClosedUpTo(positions: seq<Position>, trades: seq<Trade>, ps0: seq<Position>, ts0: seq<Trade>,
                                  ps: seq<Position>, i: nat, commandId: nat, now: int) {
    && i <= |ps|
    && positions == Broker.Without(ps0, Broker.Pairs(ps[..i]))
    && trades == ManualCloseTrades(ts0, ps[..i], commandId, now)
  }

  /** What the PAPER loop knows after the legs `legs` for the first `|legs|` listed positions of
      `ps`: the ledger has their closes, and the audit has their rows. */
  ghost predicate PaperLoop(a0: seq<AuditEntry>, audit: seq<AuditEntry>, legs: seq<Leg>, status: Status,
                            positions: seq<Position>, trades: seq<Trade>, ps0: seq<Position>, ts0: seq<Trade>,
                            ps: seq<Position>, commandId: nat, now: int) {
    && PaperClosedUpTo(positions, trades, ps0, ts0, ps, |legs|, commandId, now)
    && PaperProgress(a0, audit, legs, ps, status, commandId)
  }

  /** One iteration of the PAPER loop: the next listed position is closed at its entry price. */
  method PaperStep(q: CommandQueue, store: TradeStore, ps: seq<Position>, legs: seq<Leg>, status: Status, commandId: nat,
                   actor: string, now: int, ghost ps0: seq<Position>, ghost ts0: seq<Trade>, ghost a0: seq<AuditEntry>)
    returns (legs': seq<Leg>, status': Status)
    requires q.Valid() && store.Valid()
    requires |legs| < |ps| && ListedFrom(ps, ps0)
    requires PaperLoop(a0, q.audit, legs, status, store.positions, store.trades, ps0, ts0, ps, commandId, now)
    modifies q, store
    ensures q.Valid() && store.Valid()
    ensures q.commands == old(q.commands)
    ensures legs' == legs + [PaperLeg(ps[|legs|])]
    ensures PaperLoop(a0, q.audit, legs', status', store.positions, store.trades, ps0, ts0, ps, commandId, now)
    ensures store.signals == old(store.signals) && store.dailyStats == old(store.dailyStats)
  {
    var leg, e := CloseListed(q, store, ps, |legs|, commandId, actor, now, ps0, ts0);
    PaperProgressStep(a0, old(q.audit), e, legs, leg, ps, status, commandId);
    legs' := legs + [leg];
    status' := status;
    if leg.status == Skipped && status == Succeeded {
      status' := Skipped;
    }
  }

  /** The paper close of the listed position `ps[i]`, which is still open when it is reached. */
  method CloseListed(q: CommandQueue, store: TradeStore, ps: seq<Position>, i: nat, commandId: nat, actor: string, now: int,
                     ghost ps0: seq<Position>, ghost ts0: seq<Trade>)
    returns (leg: Leg, ghost e: AuditEntry)
    requires q.Valid() && store.Valid()
    requires i < |ps| && ListedFrom(ps, ps0)
    requires PaperClosedUpTo(store.positions, store.trades, ps0, ts0, ps, i, commandId, now)
    modifies q, store
    ensures q.Valid() && store.Valid()
    ensures q.commands == old(q.commands)
    ensures leg == PaperLeg(ps[i])
    ensures PaperClosedUpTo(store.positions, store.trades, ps0, ts0, ps, i + 1, commandId, now)
    ensures q.audit == old(q.audit) + [e]
    ensures e.commandId == Some(commandId) && e.details == Some(leg.result) && e.action != CommandCompleted
    ensures store.signals == old(store.signals) && store.dailyStats == old(store.dailyStats)
  {
    var p := ps[i];
    StillOpen(ps, i, ps0, store.positions);
    leg := ClosePaperPair(q, store, p.pair, commandId, actor, now);
    e := q.audit[|q.audit| - 1];
    assert q.audit == old(q.audit) + [e];
    Broker.WithoutOneMore(ps0, Broker.Pairs(ps[..i]), p.pair);
    assert ps[..i + 1][..i] == ps[..i];
  }

  /** After the last listed position nothing is left open, every listed position has a close,
      and the legs are those of the whole listing. */
  lemma PaperDone(a0: seq<AuditEntry>, audit: seq<AuditEntry>, legs: seq<Leg>, status: Status,
                  positions: seq<Position>, trades: seq<Trade>, ps0: seq<Position>, ts0: seq<Trade>,
                  ps: seq<Position>, commandId: nat, now: int)
    requires PaperLoop(a0, audit, legs, status, positions, trades, ps0, ts0, ps, commandId, now) && |legs| == |ps|
    requires forall p :: p in ps0 ==> p in ps
    ensures positions == [] && trades == ManualCloseTrades(ts0, ps, commandId, now)
    ensures legs == PaperLegsOf(ps)
  {
    assert ps[..|ps|] == ps;
    Broker.PairsContains(ps);
    Broker.WithoutAll(ps0, Broker.Pairs(ps));
  }

  /** The PAPER loop of `_handle_close_all` over the store's open listing: every listed position
      is closed at its entry price, in open-time order, and no position is left. */
  method PaperLegs(q: CommandQueue, store: TradeStore, ps: seq<Position>, commandId: nat, actor: string, now: int)
    returns (legs: seq<Leg>, status: Status)
    requires q.Valid() && store.Valid()
    requires ps == store.ListOpenPositions()
    modifies q, store
    ensures q.Valid() && store.Valid()
    ensures q.commands == old(q.commands)
    ensures legs == PaperLegsOf(ps)
    ensures store.positions == []
    ensures store.trades == ManualCloseTrades(old(store.trades), ps, commandId, now)
    ensures LegAudit(old(q.audit), q.audit, legs, commandId)
    ensures status == AggregateFrom(Succeeded, legs)
    ensures store.signals == old(store.signals) && store.dailyStats == old(store.dailyStats)
  {
    ghost var ps0, ts0, a0 := store.positions, store.trades, q.audit;
    ListingFacts(store);
    assert ListedFrom(ps, ps0);
    Broker.WithoutNothing(ps0);
    assert ps[..0] == [];
    legs := [];
    status := Succeeded;
    while |legs| < |ps|
      invariant q.Valid() && store.Valid()
      invariant q.commands == old(q.commands)
      invariant PaperLoop(a0, q.audit, legs, status, store.positions, store.trades, ps0, ts0, ps, commandId, now)
      invariant store.signals == old(store.signals) && store.dailyStats == old(store.dailyStats)
      decreases |ps| - |legs|
    {
      legs, status := PaperStep(q, store, ps, legs, status, commandId, actor, now, ps0, ts0, a0);
    }
    PaperDone(a0, q.audit, legs, status, store.positions, store.trades, ps0, ts0, ps, commandId, now);
  }

  /** What the PAPER loop knows of its legs and audit rows after the first `|legs|` positions of `ps`. */
  ghost predicate PaperProgress(a0: seq<AuditEntry>, audit: seq<AuditEntry>, legs: seq<Leg>, ps: seq<Position>,
                                status: Status, commandId: nat) {
    && |legs| <= |ps|
    && (forall k :: 0 <= k < |legs| ==> legs[k] == PaperLeg(ps[k]))
    && LegAudit(a0, audit, legs, commandId)
    && status == AggregateFrom(Succeeded, legs)
  }

  lemma PaperProgressStep(a0: seq<AuditEntry>, a1: seq<AuditEntry>, e: AuditEntry, legs: seq<Leg>, leg: Leg,
                          ps: seq<Position>, status: Status, commandId: nat)
    requires PaperProgress(a0, a1, legs, ps, status, commandId) && |legs| < |ps|
    requires leg == PaperLeg(ps[|legs|])
    requires e.commandId == Some(commandId) && e.details == Some(leg.result) && e.action != CommandCompleted
    ensures PaperProgress(a0, a1 + [e], legs + [leg], ps, Step(status, leg.status), commandId)
  {
    LegAuditExtend(a0, a1, e, legs, leg, commandId);
    assert (legs + [leg])[..|legs|] == legs;
  }

  /** A live close of `pair` that returns instead of raising. */
  predicate NoRaise(env: Env, pair: string) {
    LiveOutcome(env, pair).Success?
  }

  /** The leg of a live close that returned. */
  function LiveLeg(env: Env, pair: string): (leg: Leg)
    requires NoRaise(env, pair)
    ensures ForPair(leg, pair)
    ensures leg.status == (if env.liveTradingEnabled then Succeeded else Skipped)
  {
    LiveOutcome(env, pair).value
  }

  /** The legs of the LIVE loop of `_handle_close_all` over `pairs` when none raises. */
  function LiveLegsOf(env: Env, pairs: seq<string>): seq<Leg>
    requires forall k :: 0 <= k < |pairs| ==> NoRaise(env, pairs[k])
  {
    seq(|pairs|, i requires 0 <= i < |pairs| => LiveLeg(env, pairs[i]))
  }

  /** The callbacks the LIVE loop makes over `pairs` when none raises: one per pair, in order,
      when live trading is enabled and a callback is set; none otherwise. */
  function LiveCalls(env: Env, pairs: seq<string>): seq<Call> {
    if env.liveTradingEnabled && env.liveClose.Some? then seq(|pairs|, i requires 0 <= i < |pairs| => LiveCloseCall(pairs[i]))
    else []
  }

  lemma LiveCallsStep(env: Env, pairs: seq<string>, i: nat)
    requires i < |pairs|
    ensures LiveCalls(env, pairs[..i + 1]) == LiveCalls(env, pairs[..i]) + LivePairCalls(env, pairs[i])
  {
    if env.liveTradingEnabled && env.liveClose.Some? {
      assert LiveCalls(env, pairs[..i + 1])[i] == LiveCloseCall(pairs[i]);
    }
  }

  /** `pairs[n]` is the first pair whose live close raises. */
  predicate FirstRaise(env: Env, pairs: seq<string>, n: nat) {
    n < |pairs| && !NoRaise(env, pairs[n]) && forall k :: 0 <= k < n ==> NoRaise(env, pairs[k])
  }

  /** The callbacks the LIVE loop of `_handle_close_all` makes over `pairs`: those of every pair
      when none raises, else those of the pairs up to and including the first that raises. */
  ghost predicate LiveLoopCalls(env: Env, pairs: seq<string>, calls: seq<Call>) {
    || ((forall k :: 0 <= k < |pairs| ==> NoRaise(env, pairs[k])) && calls == LiveCalls(env, pairs))
    || (exists n: nat :: FirstRaise(env, pairs, n) && calls == LiveCalls(env, pairs[..n + 1]))
  }

  /** One iteration of the LIVE loop: a live close, seen at the level the loop needs. */
  method LiveStep(q: CommandQueue, pair: string, commandId: nat, actor: string, env: Env, now: int)
    returns (r: Result<Leg>, made: seq<Call>, ghost e: AuditEntry)
    requires q.Valid()
    modifies q
    ensures q.Valid()
    ensures q.commands == old(q.commands)
    ensures r == LiveOutcome(env, pair) && made == LivePairCalls(env, pair)
    ensures r.Failure? ==> q.audit == old(q.audit)
    ensures r.Success? ==>
      q.audit == old(q.audit) + [e]
      && e.commandId == Some(commandId) && e.details == Some(r.value.result) && e.action != CommandCompleted
  {
    r, made := CloseLivePair(q, pair, commandId, actor, env, now);
    e := AuditEntry(0, now, actor, CommandCompleted, None, None);
    if r.Success? {
      e := q.audit[|q.audit| - 1];
      assert q.audit == old(q.audit) + [e];
    }
  }

  /** The LIVE loop of `_handle_close_all`: one live close per pair, in order; the first raise
      aborts the loop and the handler. */
  method LiveLegs(q: CommandQueue, pairs: seq<string>, commandId: nat, actor: string, env: Env, now: int, start: Status)
    returns (r: Result<seq<Leg>>, status: Status, calls: seq<Call>)
    requires q.Valid()
    modifies q
    ensures q.Valid()
    ensures q.commands == old(q.commands)
    ensures r.Success? <==> forall k :: 0 <= k < |pairs| ==> NoRaise(env, pairs[k])
    ensures r.Success? ==>
      && r.value == LiveLegsOf(env, pairs)
      && calls == LiveCalls(env, pairs)
      && LegAudit(old(q.audit), q.audit, r.value, commandId)
      && status == AggregateFrom(start, r.value)
    ensures r.Failure? ==>
      exists n: nat :: FirstRaise(env, pairs, n) && calls == LiveCalls(env, pairs[..n + 1]) && r.error == LiveOutcome(env, pairs[n]).error
    ensures AppendsNoCompletion(old(q.audit), q.audit)
  {
    var legs: seq<Leg> := [];
    status := start;
    calls := [];
    ghost var a0 := q.audit;
    var i := 0;
    while i < |pairs|
      invariant 0 <= i <= |pairs|
      invariant q.Valid()
      invariant q.commands == old(q.commands)
      invariant |legs| == i
      invariant calls == LiveCalls(env, pairs[..i])
      invariant LiveProgress(a0, q.audit, legs, pairs, env, start, status, commandId)
    {
      ghost var a1 := q.audit;
      var leg, made, e := LiveStep(q, pairs[i], commandId, actor, env, now);
      LiveCallsStep(env, pairs, i);
      calls := calls + made;
      if leg.Failure? {
        LegAuditAppends(a0, a1, legs, commandId);
        assert FirstRaise(env, pairs, i);
        return Failure(leg.error), status, calls;
      }
      LiveProgressStep(a0, a1, e, legs, leg.value, pairs, env, start, status, commandId);
      legs := legs + [leg.value];
      if leg.value.status == Failed {
        status := Failed;
      } else if leg.value.status == Skipped && status == Succeeded {
        status := Skipped;
      }
      i := i + 1;
    }
    assert pairs[..|pairs|] == pairs;
    r := Success(legs);
  }

  /** What the LIVE loop knows after the legs `legs` for the first `|legs|` pairs. */
  ghost predicate LiveProgress(a0: seq<AuditEntry>, audit: seq<AuditEntry>, legs: seq<Leg>, pairs: seq<string>, env: Env,
                               start: Status, status: Status, commandId: nat) {
    && |legs| <= |pairs|
    && (forall k :: 0 <= k < |legs| ==> NoRaise(env, pairs[k]) && legs[k] == LiveLeg(env, pairs[k]))
    && LegAudit(a0, audit, legs, commandId)
    && status == AggregateFrom(start, legs)
  }

  lemma LiveProgressStep(a0: seq<AuditEntry>, a1: seq<AuditEntry>, e: AuditEntry, legs: seq<Leg>, leg: Leg,
                         pairs: seq<string>, env: Env, start: Status, status: Status, commandId: nat)
    requires LiveProgress(a0, a1, legs, pairs, env, start, status, commandId) && |legs| < |pairs|
    requires NoRaise(env, pairs[|legs|]) && leg == LiveLeg(env, pairs[|legs|])
    requires e.commandId == Some(commandId) && e.details == Some(leg.result) && e.action != CommandCompleted
    ensures LiveProgress(a0, a1 + [e], legs + [leg], pairs, env, start, Step(status, leg.status), commandId)
  {
    LegAuditExtend(a0, a1, e, legs, leg, commandId);
    assert (legs + [leg])[..|legs|] == legs;
  }

  /** What the PAPER branch of `_handle_close_all` does: nothing when it is not asked for;
      otherwise one paper close per listed position, after which no position is left. */
  ghost predicate PaperPartDone(wanted: bool, listing: seq<Position>, ts0: seq<Trade>, ps0: seq<Position>,
                                ts1: seq<Trade>, ps1: seq<Position>, a0: seq<AuditEntry>, a1: seq<AuditEntry>,
                                legs: seq<Leg>, status: Status, commandId: nat, now: int) {
    && (!wanted ==> legs == [] && a1 == a0 && ts1 == ts0 && ps1 == ps0)
    && (wanted ==> legs == PaperLegsOf(listing) && ps1 == [] && ts1 == ManualCloseTrades(ts0, listing, commandId, now))
    && LegAudit(a0, a1, legs, commandId)
    && status == AggregateFrom(Succeeded, legs)
  }

  /** The PAPER branch of `_handle_close_all`, when it is taken. */
  method PaperPart(q: CommandQueue, store: TradeStore, wanted: bool, commandId: nat, actor: string, now: int)
    returns (legs: seq<Leg>, status: Status)
    requires q.Valid() && store.Valid()
    modifies q, store
    ensures q.Valid() && store.Valid()
    ensures q.commands == old(q.commands)
    ensures PaperPartDone(wanted, old(store.ListOpenPositions()), old(store.trades), old(store.positions),
                          store.trades, store.positions, old(q.audit), q.audit, legs, status, commandId, now)
    ensures store.signals == old(store.signals) && store.dailyStats == old(store.dailyStats)
  {
    if !wanted {
      return [], Succeeded;
    }
    var ps := store.ListOpenPositions();
    legs, status := PaperLegs(q, store, ps, commandId, actor, now);
  }

  /** What the LIVE branch of `_handle_close_all` does after the PAPER legs `paper` with status
      `status`: nothing when it is not asked for; a raise when the pairs are not iterable;
      otherwise the live loop over the pairs, whose legs follow the PAPER legs. */
  ghost predicate LivePartDone(wanted: bool, pairsValue: Value, paper: seq<Leg>, status: Status, env: Env,
                               a1: seq<AuditEntry>, a2: seq<AuditEntry>, r: Result<(seq<Leg>, Status)>,
                               calls: seq<Call>, commandId: nat) {
    && AppendsNoCompletion(a1, a2)
    && (!wanted ==> r == Success((paper, status)) && calls == [] && a2 == a1)
    && (wanted && LivePairs(pairsValue).Failure? ==> r == Failure(LivePairs(pairsValue).error) && calls == [] && a2 == a1)
    && (wanted && LivePairs(pairsValue).Success? ==>
          var pairs := LivePairs(pairsValue).value;
          && LiveLoopCalls(env, pairs, calls)
          && (r.Success? <==> forall k :: 0 <= k < |pairs| ==> NoRaise(env, pairs[k]))
          && (r.Success? ==>
                && r.value.0 == paper + LiveLegsOf(env, pairs)
                && LegAudit(a1, a2, LiveLegsOf(env, pairs), commandId)
                && r.value.1 == AggregateFrom(status, LiveLegsOf(env, pairs))))
  }

  /** The LIVE branch of `_handle_close_all`, after the PAPER legs `paper` with status `status`. */
  method LivePart(q: CommandQueue, wanted: bool, pairsValue: Value, paper: seq<Leg>, status: Status,
                  commandId: nat, actor: string, env: Env, now: int)
    returns (r: Result<(seq<Leg>, Status)>, calls: seq<Call>)
    requires q.Valid()
    modifies q
    ensures q.Valid()
    ensures q.commands == old(q.commands)
    ensures LivePartDone(wanted, pairsValue, paper, status, env, old(q.audit), q.audit, r, calls, commandId)
  {
    if !wanted {
      return Success((paper, status)), [];
    }
    var pairs := LivePairs(pairsValue);
    if pairs.Failure? {
      return Failure(pairs.error), [];
    }
    var live, liveStatus, made := LiveLegs(q, pairs.value, commandId, actor, env, now, status);
    calls := made;
    if live.Failure? {
      return Failure(live.error), calls;
    }
    LegAuditAppends(old(q.audit), q.audit, live.value, commandId);
    r := Success((paper + live.value, liveStatus));
  }

  /** `_handle_close_all` returns instead of raising: the modes and, for LIVE, the pairs are
      iterable, and no live close raises. */
  ghost predicate CloseAllCompletes(payload: Object, env: Env) {
    && Modes(Get(payload, "modes")).Success?
    && ("LIVE" in Modes(Get(payload, "modes")).value ==>
          && LivePairs(Get(payload, "pairs")).Success?
          && var pairs := LivePairs(Get(payload, "pairs")).value;
          && forall k :: 0 <= k < |pairs| ==> NoRaise(env, pairs[k]))
  }

  /** The legs of a CLOSE_ALL that completed: one paper close per listed position, then one live
      close per pair, each naming its pair. */
  ghost predicate CloseAllLegs(payload: Object, listing: seq<Position>, env: Env, legs: seq<Leg>) {
    && CloseAllCompletes(payload, env)
    && var modes := Modes(Get(payload, "modes")).value;
    && var paper := if "PAPER" in modes then listing else [];
    && var pairs := if "LIVE" in modes then LivePairs(Get(payload, "pairs")).value else [];
    && (forall k :: 0 <= k < |pairs| ==> NoRaise(env, pairs[k]))
    && legs == PaperLegsOf(paper) + LiveLegsOf(env, pairs)
  }

  /** The legs of a CLOSE_ALL that completed: the paper legs of the listing under PAPER, then the
      live legs of the pairs under LIVE. */
  ghost function CompletedLegs(payload: Object, listing: seq<Position>, env: Env): seq<Leg>
    requires CloseAllCompletes(payload, env)
  {
    var modes := Modes(Get(payload, "modes")).value;
    var pairs := if "LIVE" in modes then LivePairs(Get(payload, "pairs")).value else [];
    PaperLegsOf(if "PAPER" in modes then listing else []) + LiveLegsOf(env, pairs)
  }

  /** The leg `_handle_close_all` returns for `legs`: SKIPPED when some leg was skipped, SUCCEEDED
      otherwise, with every leg's result in order under "results". */
  function CloseAllOutcome(legs: seq<Leg>): Leg {
    Leg(if exists i :: 0 <= i < |legs| && legs[i].status == Skipped then Skipped else Succeeded,
        map["results" := Arr(Results(legs))])
  }

  /** The ledger and callback effect of `_handle_close_all`, whether or not it raises: PAPER
      closes every listed position and leaves no position, no PAPER leaves the ledger alone, and
      LIVE calls back for its pairs in order up to the first raise. */
  ghost predicate CloseAllEffect(payload: Object, env: Env, listing: seq<Position>, ts0: seq<Trade>, ps0: seq<Position>,
                                 ts1: seq<Trade>, ps1: seq<Position>, calls: seq<Call>, commandId: nat, now: int) {
    match Modes(Get(payload, "modes"))
    case Failure(_) => calls == [] && ts1 == ts0 && ps1 == ps0
    case Success(modes) =>
      && ("PAPER" in modes ==> ps1 == [] && ts1 == ManualCloseTrades(ts0, listing, commandId, now))
      && ("PAPER" !in modes ==> ts1 == ts0 && ps1 == ps0)
      && ("LIVE" !in modes ==> calls == [])
      && ("LIVE" in modes ==>
            match LivePairs(Get(payload, "pairs"))
            case Failure(_) => calls == []
            case Success(pairs) => LiveLoopCalls(env, pairs, calls))
  }

  /** `_handle_close_all`. The status is SKIPPED when any leg was skipped and SUCCEEDED otherwise
      (a live leg never reports FAILED; a raising one aborts the handler instead). Exactly one
      CLOSE_ALL_SUMMARY row follows the legs' own audit rows. */
  method HandleCloseAll(q: CommandQueue, store: TradeStore, cmd: Command, actor: string, env: Env, now: int)
    returns (r: Result<Leg>, calls: seq<Call>, ghost legs: seq<Leg>)
    requires q.Valid() && store.Valid()
    modifies q, store
    ensures q.Valid() && store.Valid()
    ensures q.commands == old(q.commands)
    ensures CloseAllEffect(OrEmpty(cmd.payload), env, old(store.ListOpenPositions()), old(store.trades), old(store.positions),
                           store.trades, store.positions, calls, cmd.id, now)
    ensures r.Success? <==> CloseAllCompletes(OrEmpty(cmd.payload), env)
    ensures Modes(Get(OrEmpty(cmd.payload), "modes")).Failure? ==>
      r == Failure(Modes(Get(OrEmpty(cmd.payload), "modes")).error) && q.audit == old(q.audit)
    ensures r.Success? ==>
      && CloseAllLegs(OrEmpty(cmd.payload), old(store.ListOpenPositions()), env, legs)
      && r.value.status == (if exists i :: 0 <= i < |legs| && legs[i].status == Skipped then Skipped else Succeeded)
      && r.value.result == map["results" := Arr(Results(legs))]
      && SummaryAudit(old(q.audit), q.audit, legs, cmd.id, actor, now, r.value.result)
    ensures AppendsNoCompletion(old(q.audit), q.audit)
    ensures store.signals == old(store.signals) && store.dailyStats == old(store.dailyStats)
  {
    legs := [];
    calls := [];
    var payload := OrEmpty(cmd.payload);
    var modes := Modes(Get(payload, "modes"));
    if modes.Failure? {
      return Failure(modes.error), [], [];
    }
    var run;
    run, calls := CloseAllRun(q, store, payload, modes.value, cmd.id, actor, env, now);
    if run.Failure? {
      return Failure(run.error), calls, [];
    }
    legs := run.value.0;
    var summary := Summarize(q, run.value.0, cmd.id, actor, now, old(q.audit));
    r := Success(Leg(run.value.1, summary));
  }

  /** The audit rows of a CLOSE_ALL that completed: one row per leg, then the single
      CLOSE_ALL_SUMMARY row carrying `summary` last. */
  ghost predicate SummaryAudit(before: seq<AuditEntry>, after: seq<AuditEntry>, legs: seq<Leg>, commandId: nat,
                               actor: string, now: int, summary: Object) {
    && |after| == |before| + |legs| + 1
    && LegAudit(before, after[..|after| - 1], legs, commandId)
    && after[|after| - 1] == AuditEntry(|after|, now, actor, CloseAllSummary, Some(commandId), Some(summary))
  }

  /** The CLOSE_ALL_SUMMARY row `_handle_close_all` writes after the legs' own rows. */
  method Summarize(q: CommandQueue, legs: seq<Leg>, commandId: nat, actor: string, now: int, ghost au0: seq<AuditEntry>)
    returns (summary: Object)
    requires q.Valid() && LegAudit(au0, q.audit, legs, commandId)
    modifies q
    ensures q.Valid()
    ensures q.commands == old(q.commands)
    ensures summary == map["results" := Arr(Results(legs))]
    ensures SummaryAudit(au0, q.audit, legs, commandId, actor, now, summary)
    ensures AppendsNoCompletion(au0, q.audit)
  {
    summary := map["results" := Arr(Results(legs))];
    Audit(q, actor, CloseAllSummary, commandId, summary, now);
    assert q.audit[..|q.audit| - 1] == old(q.audit);
    LegAuditAppends(au0, old(q.audit), legs, commandId);
    AppendsOne(au0, old(q.audit), AuditEntry(|old(q.audit)| + 1, now, actor, CloseAllSummary, Some(commandId), Some(summary)));
  }

  /** Everything `_handle_close_all` has done before its summary row: the ledger and callback
      effect; it returns exactly when nothing raises, and then with every leg's audit row and the
      aggregated status. */
  ghost predicate CloseAllRan(payload: Object, env: Env, listing: seq<Position>, ts0: seq<Trade>, ps0: seq<Position>,
                              ts1: seq<Trade>, ps1: seq<Position>, calls: seq<Call>, a0: seq<AuditEntry>, a2: seq<AuditEntry>,
                              r: Result<(seq<Leg>, Status)>, commandId: nat, now: int) {
    && CloseAllEffect(payload, env, listing, ts0, ps0, ts1, ps1, calls, commandId, now)
    && (r.Success? <==> CloseAllCompletes(payload, env))
    && (r.Success? ==>
          && CloseAllLegs(payload, listing, env, r.value.0)
          && LegAudit(a0, a2, r.value.0, commandId)
          && r.value.1 == (if exists i :: 0 <= i < |r.value.0| && r.value.0[i].status == Skipped then Skipped else Succeeded))
    && AppendsNoCompletion(a0, a2)
  }

  /** Both branches of `_handle_close_all` for the given normalised modes, up to the summary row. */
  method CloseAllRun(q: CommandQueue, store: TradeStore, payload: Object, modes: set<string>, commandId: nat,
                     actor: string, env: Env, now: int)
    returns (r: Result<(seq<Leg>, Status)>, calls: seq<Call>)
    requires q.Valid() && store.Valid()
    requires Modes(Get(payload, "modes")) == Success(modes)
    modifies q, store
    ensures q.Valid() && store.Valid()
    ensures q.commands == old(q.commands)
    ensures CloseAllRan(payload, env, old(store.ListOpenPositions()), old(store.trades), old(store.positions),
                        store.trades, store.positions, calls, old(q.audit), q.audit, r, commandId, now)
    ensures store.signals == old(store.signals) && store.dailyStats == old(store.dailyStats)
  {
    var paper, paperStatus := PaperPart(q, store, "PAPER" in modes, commandId, actor, now);
    ghost var a1 := q.audit;
    r, calls := LivePart(q, "LIVE" in modes, Get(payload, "pairs"), paper, paperStatus, commandId, actor, env, now);
    CloseAllJoin(payload, modes, env, old(store.ListOpenPositions()), old(store.trades), old(store.positions),
                 store.trades, store.positions, old(q.audit), a1, q.audit, paper, paperStatus, r, calls, commandId, now);
  }

  /** The PAPER and the LIVE branch together make up `_handle_close_all` up to its summary row. */
  lemma CloseAllJoin(payload: Object, modes: set<string>, env: Env, listing: seq<Position>, ts0: seq<Trade>, ps0: seq<Position>,
                     ts1: seq<Trade>, ps1: seq<Position>, a0: seq<AuditEntry>, a1: seq<AuditEntry>, a2: seq<AuditEntry>,
                     paper: seq<Leg>, paperStatus: Status, r: Result<(seq<Leg>, Status)>, calls: seq<Call>,
                     commandId: nat, now: int)
    requires Modes(Get(payload, "modes")) == Success(modes)
    requires PaperPartDone("PAPER" in modes, listing, ts0, ps0, ts1, ps1, a0, a1, paper, paperStatus, commandId, now)
    requires LivePartDone("LIVE" in modes, Get(payload, "pairs"), paper, paperStatus, env, a1, a2, r, calls, commandId)
    ensures CloseAllRan(payload, env, listing, ts0, ps0, ts1, ps1, calls, a0, a2, r, commandId, now)
  {
    LegAuditAppends(a0, a1, paper, commandId);
    AppendsTrans(a0, a1, a2);
    if r.Success? {
      var rows := if "PAPER" in modes then listing else [];
      var pairs: seq<string> := if "LIVE" in modes then LivePairs(Get(payload, "pairs")).value else [];
      assert paper == PaperLegsOf(rows);
      assert LiveLegsOf(env, []) == [];
      assert r.value.0 == paper + LiveLegsOf(env, pairs);
      CloseAllStatus(a0, a1, a2, rows, env, pairs, paperStatus, r.value.1, commandId);
    }
  }

  /** Joining the two branches of `_handle_close_all`: their audit rows and their status. */
  lemma CloseAllStatus(a0: seq<AuditEntry>, a1: seq<AuditEntry>, a2: seq<AuditEntry>, paper: seq<Position>, env: Env,
                       pairs: seq<string>, paperStatus: Status, status: Status, id: nat)
    requires forall k :: 0 <= k < |pairs| ==> NoRaise(env, pairs[k])
    requires LegAudit(a0, a1, PaperLegsOf(paper), id) && paperStatus == AggregateFrom(Succeeded, PaperLegsOf(paper))
    requires LegAudit(a1, a2, LiveLegsOf(env, pairs), id) && status == AggregateFrom(paperStatus, LiveLegsOf(env, pairs))
    ensures LegAudit(a0, a2, PaperLegsOf(paper) + LiveLegsOf(env, pairs), id)
    ensures var results := PaperLegsOf(paper) + LiveLegsOf(env, pairs);
      status == (if exists i :: 0 <= i < |results| && results[i].status == Skipped then Skipped else Succeeded)
  {
    var x, y := PaperLegsOf(paper), LiveLegsOf(env, pairs);
    LegAuditConcat(a0, a1, a2, x, y, id);
    AggregateConcat(Succeeded, x, y);
    var results := x + y;
    forall i | 0 <= i < |results|
      ensures results[i].status == Succeeded || results[i].status == Skipped
    {
      if i >= |x| {
        assert results[i] == LiveLeg(env, pairs[i - |x|]);
      }
    }
    AggregateSkippedIff(results);
  }

  lemma LegAuditConcat(a0: seq<AuditEntry>, a1: seq<AuditEntry>, a2: seq<AuditEntry>, x: seq<Leg>, y: seq<Leg>, id: nat)
    requires LegAudit(a0, a1, x, id) && LegAudit(a1, a2, y, id)
    ensures LegAudit(a0, a2, x + y, id)
  {
    assert a2[..|a0|] == a1[..|a0|];
    forall k | |a0| <= k < |a2|
      ensures a2[k].commandId == Some(id) && a2[k].details == Some((x + y)[k - |a0|].result) && a2[k].action != CommandCompleted
    {
      if k < |a1| {
        assert a2[k] == a1[k];
      }
    }
  }

  /** The result of a pause/resume command: the new paused set in sorted order and the type. */
  function PauseResult(updated: set<string>, kind: string): Object {
    map["paused_pairs" := Arr(seq(|SortedStrings(updated)|, i requires 0 <= i < |SortedStrings(updated)| => Str(SortedStrings(updated)[i]))),
        "type" := Str(kind)]
  }

  const ReloadSkippedResult: Object := map["reloaded" := Bool(false), "reason" := Str("reload handler not configured")]

  /** The ledger and callback effect of the handler `process_next_command` picks for `kind`: the
      close handlers' effects for CLOSE_PAIR and CLOSE_ALL; for every other type the ledger is
      left alone, and the only callback is the reload, made once when a reload handler is set. */
  ghost predicate HandlerEffect(kind: string, payload: Option<Object>, env: Env, listing: seq<Position>,
                                ts0: seq<Trade>, ps0: seq<Position>, ts1: seq<Trade>, ps1: seq<Position>,
                                calls: seq<Call>, commandId: nat, now: int) {
    if kind in ControlState.PauseCommands then ts1 == ts0 && ps1 == ps0 && calls == []
    else if kind == "CLOSE_PAIR" then ClosePairEffect(payload, env, ts0, ps0, ts1, ps1, calls, commandId, now)
    else if kind == "CLOSE_ALL" then CloseAllEffect(OrEmpty(payload), env, listing, ts0, ps0, ts1, ps1, calls, commandId, now)
    else ts1 == ts0 && ps1 == ps0 && calls == (if kind == "RELOAD_PARAMS" && env.reload.Some? then [ReloadCall] else [])
  }

  /** The body of the `try` in `process_next_command` up to, not including, the finish: the
      handler's outcome, or the message of the exception it raised. */
  method Dispatch(q: CommandQueue, store: TradeStore, paused: set<string>, cmd: Command, actor: string, env: Env, now: int)
    returns (newPaused: set<string>, r: Result<Leg>, calls: seq<Call>)
    requires q.Valid() && store.Valid()
    modifies q, store
    ensures q.Valid() && store.Valid()
    ensures q.commands == old(q.commands)
    ensures AppendsNoCompletion(old(q.audit), q.audit)
    ensures Reports(cmd.kind, cmd.payload, paused, env, newPaused, r)
    ensures ReportsClose(cmd.kind, cmd.payload, env, old(store.ListOpenPositions()), old(store.positions), r)
    ensures HandlerEffect(cmd.kind, cmd.payload, env, old(store.ListOpenPositions()), old(store.trades), old(store.positions),
                          store.trades, store.positions, calls, cmd.id, now)
    // Only CLOSE_PAIR and CLOSE_ALL write audit rows.
    ensures cmd.kind != "CLOSE_PAIR" && cmd.kind != "CLOSE_ALL" ==> q.audit == old(q.audit)
    ensures store.signals == old(store.signals) && store.dailyStats == old(store.dailyStats)
  {
    newPaused := paused;
    calls := [];
    if cmd.kind in ControlState.PauseCommands {
      newPaused := ControlState.ApplyPauseCommand(paused, cmd.kind, cmd.payload);
      return newPaused, Success(Leg(Succeeded, PauseResult(newPaused, cmd.kind))), [];
    }
    if cmd.kind == "CLOSE_PAIR" {
      r, calls := DispatchClosePair(q, store, paused, cmd, actor, env, now);
      return;
    }
    if cmd.kind == "CLOSE_ALL" {
      r, calls := DispatchCloseAll(q, store, paused, cmd, actor, env, now);
      return;
    }
    if cmd.kind == "RELOAD_PARAMS" {
      if env.reload.None? {
        return paused, Success(Leg(Skipped, ReloadSkippedResult)), [];
      }
      calls := [ReloadCall];
      if env.reload.value.ReloadRaise? {
        return paused, Failure(env.reload.value.message), calls;
      }
      return paused, Success(Leg(Succeeded, map["reloaded" := Bool(true)])), calls;
    }
    r := Success(Leg(Failed, map["error" := Str("unsupported command type: " + cmd.kind)]));
  }

  /** The two close types differ from each other, from RELOAD_PARAMS and from the pause commands. */
  lemma CloseKindsApart()
    ensures "CLOSE_PAIR" !in ControlState.PauseCommands && "CLOSE_ALL" !in ControlState.PauseCommands
    ensures "CLOSE_PAIR" != "CLOSE_ALL" && "CLOSE_PAIR" != "RELOAD_PARAMS" && "CLOSE_ALL" != "RELOAD_PARAMS"
  {
  }

  /** The CLOSE_PAIR branch of the dispatch in `process_next_command`. */
  method DispatchClosePair(q: CommandQueue, store: TradeStore, paused: set<string>, cmd: Command, actor: string, env: Env, now: int)
    returns (r: Result<Leg>, calls: seq<Call>)
    requires q.Valid() && store.Valid()
    requires cmd.kind == "CLOSE_PAIR"
    modifies q, store
    ensures q.Valid() && store.Valid()
    ensures q.commands == old(q.commands)
    ensures AppendsNoCompletion(old(q.audit), q.audit)
    ensures Reports(cmd.kind, cmd.payload, paused, env, paused, r)
    ensures ReportsClose(cmd.kind, cmd.payload, env, old(store.ListOpenPositions()), old(store.positions), r)
    ensures HandlerEffect(cmd.kind, cmd.payload, env, old(store.ListOpenPositions()), old(store.trades), old(store.positions),
                          store.trades, store.positions, calls, cmd.id, now)
    ensures store.signals == old(store.signals) && store.dailyStats == old(store.dailyStats)
  {
    CloseKindsApart();
    r, calls := HandleClosePair(q, store, cmd, actor, env, now);
  }

  /** The CLOSE_ALL branch of the dispatch in `process_next_command`. */
  method DispatchCloseAll(q: CommandQueue, store: TradeStore, paused: set<string>, cmd: Command, actor: string, env: Env, now: int)
    returns (r: Result<Leg>, calls: seq<Call>)
    requires q.Valid() && store.Valid()
    requires cmd.kind == "CLOSE_ALL"
    modifies q, store
    ensures q.Valid() && store.Valid()
    ensures q.commands == old(q.commands)
    ensures AppendsNoCompletion(old(q.audit), q.audit)
    ensures Reports(cmd.kind, cmd.payload, paused, env, paused, r)
    ensures ReportsClose(cmd.kind, cmd.payload, env, old(store.ListOpenPositions()), old(store.positions), r)
    ensures HandlerEffect(cmd.kind, cmd.payload, env, old(store.ListOpenPositions()), old(store.trades), old(store.positions),
                          store.trades, store.positions, calls, cmd.id, now)
    ensures store.signals == old(store.signals) && store.dailyStats == old(store.dailyStats)
  {
    CloseKindsApart();
    ghost var legs;
    r, calls, legs := HandleCloseAll(q, store, cmd, actor, env, now);
    if r.Success? {
      CompletedLegsUnique(OrEmpty(cmd.payload), old(store.ListOpenPositions()), env, legs);
    }
  }

  /** The `except` clause of `process_next_command`: a raised exception becomes a FAILED result
      carrying its message and the traceback text. */
  function Report(r: Result<Leg>, traceback: string): (leg: Leg)
    ensures r.Failure? ==> leg.status == Failed && "error" in leg.result && leg.result["error"] == Str(r.error)
  {
    match r
    case Success(leg) => leg
    case Failure(message) => Leg(Failed, map["error" := Str(message), "stack" := Str(traceback)])
  }

  /** How the handlers of `process_next_command` end for a command, per command type, as far as
      that does not depend on the trade store's contents or the live callback's reply: a leg
      (status and result) or a raised exception. */
  ghost predicate Reports(kind: string, payload: Option<Object>, paused: set<string>, env: Env, newPaused: set<string>, r: Result<Leg>) {
    && (r.Success? ==> r.value.status.IsFinal())
    // Pause commands always succeed and return the new paused set; nothing else touches it.
    && (kind in ControlState.PauseCommands ==>
          newPaused == ControlState.ApplyPauseCommand(paused, kind, payload)
          && r == Success(Leg(Succeeded, PauseResult(newPaused, kind))))
    && (kind !in ControlState.PauseCommands ==> newPaused == paused)
    && (kind == "CLOSE_PAIR" ==>
          && (ControlState.PairOf(payload).None? ==> r == Success(Leg(Failed, map["error" := Str("pair is required")])))
          && (ControlState.PairOf(payload).Some? && WantsLive(OrEmpty(payload)) ==>
                r == LiveOutcome(env, ControlState.PairOf(payload).value)))
    // CLOSE_ALL is SUCCEEDED or SKIPPED unless it raised.
    && (kind == "CLOSE_ALL" ==>
          && (Modes(Get(OrEmpty(payload), "modes")).Failure? ==> r == Failure(Modes(Get(OrEmpty(payload), "modes")).error))
          && (r.Success? ==> r.value.status == Succeeded || r.value.status == Skipped))
    && (kind == "RELOAD_PARAMS" ==>
          && (env.reload.None? ==> r == Success(Leg(Skipped, ReloadSkippedResult)))
          && (env.reload == Some(ReloadOk) ==> r == Success(Leg(Succeeded, map["reloaded" := Bool(true)])))
          && (env.reload.Some? && env.reload.value.ReloadRaise? ==> r == Failure(env.reload.value.message)))
    && (kind !in ControlState.PauseCommands && kind !in {"CLOSE_PAIR", "CLOSE_ALL", "RELOAD_PARAMS"} ==>
          r == Success(Leg(Failed, map["error" := Str("unsupported command type: " + kind)])))
  }

  /** The outcomes `Reports` leaves open because they depend on the trade store: a paper
      CLOSE_PAIR is `PaperOutcome` of the positions it started from, and a CLOSE_ALL returns iff
      it completes, then with the `CloseAllOutcome` of the listing's paper legs and the live legs. */
  ghost predicate ReportsClose(kind: string, payload: Option<Object>, env: Env, listing: seq<Position>,
                               ps0: seq<Position>, r: Result<Leg>) {
    && (kind == "CLOSE_PAIR" && ControlState.PairOf(payload).Some? && !WantsLive(OrEmpty(payload)) ==>
          r == Success(PaperOutcome(ps0, ControlState.PairOf(payload).value)))
    && (kind == "CLOSE_ALL" ==>
          && (!CloseAllCompletes(OrEmpty(payload), env) ==> r.Failure?)
          && (CloseAllCompletes(OrEmpty(payload), env) ==>
                r == Success(CloseAllOutcome(CompletedLegs(OrEmpty(payload), listing, env)))))
  }

  /** The legs `CloseAllLegs` allows are the ones `CompletedLegs` picks. */
  lemma CompletedLegsUnique(payload: Object, listing: seq<Position>, env: Env, legs: seq<Leg>)
    requires CloseAllLegs(payload, listing, env, legs)
    ensures legs == CompletedLegs(payload, listing, env)
  {
  }

  /** The audit rows a handler and the final `mark_command_finished` add: the handler's rows, none
      of them a COMMAND_COMPLETED row, then the single COMMAND_COMPLETED row last. */
  ghost predicate FinishAudit(before: seq<AuditEntry>, after: seq<AuditEntry>, id: nat, handledBy: string, now: int,
                              cs: seq<Command>, leg: Leg) {
    && |after| >= |before| + 1
    && AppendsNoCompletion(before, after[..|after| - 1])
    && after[|after| - 1] == AuditEntry(|after|, now, ResolvedActor(Some(handledBy), cs, id),
                                        CommandCompleted, Some(id), Some(CompletedDetails(leg.status, Some(leg.result))))
  }

  /** The `try` block of `process_next_command` for a claimed row: dispatch, then exactly one
      `mark_command_finished` with the reported status and result. */
  method RunClaimed(q: CommandQueue, store: TradeStore, paused: set<string>, cmd: Command, handledBy: string, env: Env, now: int,
                    ghost kind: string, ghost payload: Option<Object>)
    returns (newPaused: set<string>, leg: Leg, calls: seq<Call>, ghost r: Result<Leg>)
    requires q.Valid() && store.Valid()
    requires cmd.kind == kind && cmd.payload == payload
    requires 1 <= cmd.id <= |q.commands| && q.commands[cmd.id - 1] == cmd
    modifies q, store
    ensures q.Valid() && store.Valid()
    ensures Reports(kind, payload, paused, env, newPaused, r) && leg == Report(r, env.traceback)
    ensures ReportsClose(kind, payload, env, old(store.ListOpenPositions()), old(store.positions), r)
    ensures q.commands == old(q.commands)[cmd.id - 1 := Finished(cmd, leg.status, Some(leg.result), now)]
    ensures FinishAudit(old(q.audit), q.audit, cmd.id, handledBy, now, old(q.commands), leg)
    ensures HandlerEffect(kind, payload, env, old(store.ListOpenPositions()), old(store.trades), old(store.positions),
                          store.trades, store.positions, calls, cmd.id, now)
    ensures kind != "CLOSE_PAIR" && kind != "CLOSE_ALL" ==> |q.audit| == |old(q.audit)| + 1
  {
    var outcome;
    newPaused, outcome, calls := Dispatch(q, store, paused, cmd, handledBy, env, now);
    r := outcome;
    leg := Report(outcome, env.traceback);
    assert leg.status.IsFinal();
    FinishClaimed(q, cmd, leg, handledBy, now, old(q.audit));
  }

  /** The single `mark_command_finished` that ends a claimed command, after the handler's rows. */
  method FinishClaimed(q: CommandQueue, cmd: Command, leg: Leg, handledBy: string, now: int, ghost au0: seq<AuditEntry>)
    requires q.Valid() && leg.status.IsFinal()
    requires 1 <= cmd.id <= |q.commands| && q.commands[cmd.id - 1] == cmd
    requires AppendsNoCompletion(au0, q.audit)
    modifies q
    ensures q.Valid()
    ensures q.commands == old(q.commands)[cmd.id - 1 := Finished(cmd, leg.status, Some(leg.result), now)]
    ensures FinishAudit(au0, q.audit, cmd.id, handledBy, now, old(q.commands), leg)
    ensures |q.audit| == |old(q.audit)| + 1
  {
    var _ := q.MarkFinished(cmd.id, leg.status, Some(leg.result), Some(handledBy), now);
    FinishAuditIntro(au0, old(q.audit), q.audit, cmd.id, handledBy, now, old(q.commands), leg);
  }

  lemma FinishAuditIntro(au0: seq<AuditEntry>, au1: seq<AuditEntry>, au2: seq<AuditEntry>, id: nat, handledBy: string, now: int,
                         cs: seq<Command>, leg: Leg)
    requires AppendsNoCompletion(au0, au1)
    requires au2 == au1 + [AuditEntry(|au1| + 1, now, ResolvedActor(Some(handledBy), cs, id),
                                      CommandCompleted, Some(id), Some(CompletedDetails(leg.status, Some(leg.result))))]
    ensures FinishAudit(au0, au2, id, handledBy, now, cs, leg)
  {
    assert au2[..|au2| - 1] == au1;
  }

  /** `process_next_command`. With nothing PENDING nothing is written. Otherwise the oldest
      PENDING command is claimed and then finished exactly once, with a terminal status, by one
      COMMAND_COMPLETED row written last; a raise inside a handler becomes FAILED with the
      exception text. */
  method ProcessNextCommand(q: CommandQueue, store: TradeStore, paused: set<string>, handledBy: string, env: Env, now: int)
    returns (newPaused: set<string>, out: Option<Processed>, calls: seq<Call>, ghost next: Option<Command>, ghost outcome: Result<Leg>)
    requires q.Valid() && store.Valid()
    modifies q, store
    ensures q.Valid() && store.Valid()
    // `next` is the row `fetch_next_pending` saw: the oldest PENDING one.
    ensures next == old(q.FetchNextPending())
    ensures next.None? ==>
      && newPaused == paused && out.None? && calls == []
      && q.commands == old(q.commands) && q.audit == old(q.audit)
      && store.trades == old(store.trades) && store.positions == old(store.positions)
    ensures next.Some? ==>
      var c := next.value;
      && out.Some? && out.value.id == c.id
      // The handler's outcome, and what the `except` clause makes of a raise.
      && Reports(c.kind, c.payload, paused, env, newPaused, outcome) && Leg(out.value.status, out.value.result) == Report(outcome, env.traceback)
      && ReportsClose(c.kind, c.payload, env, old(store.ListOpenPositions()), old(store.positions), outcome)
      // The claimed row ends in the reported terminal status with the reported result.
      && q.commands == old(q.commands)[c.id - 1 := Finished(Claimed(c, handledBy, now), out.value.status, Some(out.value.result), now)]
      && LifecycleAudit(old(q.audit), q.audit, c, handledBy, now, old(q.commands), Leg(out.value.status, out.value.result))
      // What the handler did to the ledger and which callbacks it made.
      && HandlerEffect(c.kind, c.payload, env, old(store.ListOpenPositions()), old(store.trades), old(store.positions),
                       store.trades, store.positions, calls, c.id, now)
      && (c.kind != "CLOSE_PAIR" && c.kind != "CLOSE_ALL" ==> |q.audit| == |old(q.audit)| + 3)
  {
    ghost var cs0, au0 := q.commands, q.audit;
    next := q.FetchNextPending();
    var claimed := q.ClaimNextPending(handledBy, now);
    if claimed.None? {
      return paused, None, [], next, Failure("");
    }
    var done;
    newPaused, done, calls, outcome := ProcessClaimed(q, store, paused, claimed.value, handledBy, env, now, next.value, cs0, au0);
    out := Some(done);
  }

  /** The part of `process_next_command` after a successful claim of `c`. */
  method ProcessClaimed(q: CommandQueue, store: TradeStore, paused: set<string>, cmd: Command, handledBy: string, env: Env,
                        now: int, ghost c: Command, ghost cs0: seq<Command>, ghost au0: seq<AuditEntry>)
    returns (newPaused: set<string>, out: Processed, calls: seq<Call>, ghost outcome: Result<Leg>)
    requires q.Valid() && store.Valid()
    requires 1 <= c.id <= |cs0| && cs0[c.id - 1] == c && cmd == Claimed(c, handledBy, now)
    requires q.commands == cs0[c.id - 1 := cmd]
    requires q.audit == au0 + ClaimAudit(|au0|, c, handledBy, now)
    modifies q, store
    ensures q.Valid() && store.Valid()
    ensures out.id == c.id
    ensures Reports(c.kind, c.payload, paused, env, newPaused, outcome) && Leg(out.status, out.result) == Report(outcome, env.traceback)
    ensures ReportsClose(c.kind, c.payload, env, old(store.ListOpenPositions()), old(store.positions), outcome)
    ensures q.commands == cs0[c.id - 1 := Finished(Claimed(c, handledBy, now), out.status, Some(out.result), now)]
    ensures LifecycleAudit(au0, q.audit, c, handledBy, now, cs0, Leg(out.status, out.result))
    ensures HandlerEffect(c.kind, c.payload, env, old(store.ListOpenPositions()), old(store.trades), old(store.positions),
                          store.trades, store.positions, calls, c.id, now)
    ensures c.kind != "CLOSE_PAIR" && c.kind != "CLOSE_ALL" ==> |q.audit| == |au0| + 3
  {
    ghost var cs1, au1 := q.commands, q.audit;
    var leg;
    newPaused, leg, calls, outcome := RunClaimed(q, store, paused, cmd, handledBy, env, now, c.kind, c.payload);
    out := Processed(cmd.id, leg.status, leg.result);
    ProcessCompose(cs0, au0, c, handledBy, now, cs1, au1, q.commands, q.audit, Leg(out.status, out.result));
  }

  /** The audit rows one processed command adds: the claim's two rows first, then the handler's
      rows, none of which is a COMMAND_COMPLETED row, then the single COMMAND_COMPLETED row last. */
  ghost predicate LifecycleAudit(before: seq<AuditEntry>, after: seq<AuditEntry>, c: Command, handledBy: string, now: int,
                                 cs: seq<Command>, leg: Leg) {
    && |after| >= |before| + 3
    && after[..|before| + 2] == before + ClaimAudit(|before|, c, handledBy, now)
    && (forall k :: |before| + 2 <= k < |after| - 1 ==> after[k].action != CommandCompleted)
    && after[|after| - 1] == AuditEntry(|after|, now, ResolvedActor(Some(handledBy), cs, c.id),
                                        CommandCompleted, Some(c.id), Some(CompletedDetails(leg.status, Some(leg.result))))
  }

  /** Composing the claim with the run of the claimed command. */
  lemma ProcessCompose(cs0: seq<Command>, au0: seq<AuditEntry>, c: Command, handledBy: string, now: int,
                       cs1: seq<Command>, au1: seq<AuditEntry>, cs2: seq<Command>, au2: seq<AuditEntry>, leg: Leg)
    requires 1 <= c.id <= |cs0| && cs0[c.id - 1] == c
    requires cs1 == cs0[c.id - 1 := Claimed(c, handledBy, now)]
    requires au1 == au0 + ClaimAudit(|au0|, c, handledBy, now)
    requires cs2 == cs1[c.id - 1 := Finished(Claimed(c, handledBy, now), leg.status, Some(leg.result), now)]
    requires FinishAudit(au1, au2, c.id, handledBy, now, cs1, leg)
    ensures cs2 == cs0[c.id - 1 := Finished(Claimed(c, handledBy, now), leg.status, Some(leg.result), now)]
    ensures LifecycleAudit(au0, au2, c, handledBy, now, cs0, leg)
  {
    assert ResolvedActor(Some(handledBy), cs1, c.id) == ResolvedActor(Some(handledBy), cs0, c.id);
    assert au2[..|au0| + 2] == au2[..|au2| - 1][..|au1|];
    forall k | |au0| + 2 <= k < |au2| - 1
      ensures au2[k].action != CommandCompleted
    {
      assert au2[k] == au2[..|au2| - 1][k];
    }
  }

}
