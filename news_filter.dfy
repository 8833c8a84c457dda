/** The news gate: the first high-impact calendar event of one of the pair's currencies that lies
    within the buffer around the current time blocks trading. Times are whole seconds since the
    epoch; reading an event's ISO timestamp is the parameter `parse`. */
module NewsFilter {
  import opened Wrappers
  import opened Json

  /** `PAIR_CURRENCIES`. */
  function PairCurrencies(pair: string): (cs: Option<seq<string>>)
    ensures cs.Some? <==> pair in {"EUR_USD", "GBP_USD", "USD_JPY"}
    ensures cs.Some? ==> |cs.value| == 2
  {
    if pair == "EUR_USD" then Some(["EUR", "USD"])
    else if pair == "GBP_USD" then Some(["GBP", "USD"])
    else if pair == "USD_JPY" then Some(["USD", "JPY"])
    else None
  }

  /** `BLOCK_IMPACTS`. */
  const BlockImpact: string := "High"

  /** What the loop does with one event: block, skip it, or raise (a list or an object as the
      impact cannot be looked up in the impact set). */
  datatype Verdict = Blocks | Skips | Raises(message: string)

  /** The `TypeError` text for looking a list or a dict up in a set. */
  function UnhashableMessage(v: Value): string {
    if v.Arr? then "unhashable type: 'list'" else "unhashable type: 'dict'"
  }

  function Abs(x: int): int {
    if x < 0 then -x else x
  }

  /** `event.get("country") or event.get("currency")`. */
  function CurrencyOf(event: Object): Value {
    if Truthy(Get(event, "country")) then Get(event, "country") else Get(event, "currency")
  }

  /** `event.get("date") or event.get("time")`. */
  function RawTimeOf(event: Object): Value {
    if Truthy(Get(event, "date")) then Get(event, "date") else Get(event, "time")
  }

  /** The reference reading of one event, one check after the other as in the loop body. */
  function Judge(event: Object, currencies: seq<string>, now: int, window: int, parse: string -> Option<int>): Verdict {
    var impact := Get(event, "impact");
    if impact.Arr? || impact.Obj? then Raises(UnhashableMessage(impact))
    else if impact != Str(BlockImpact) then Skips
    else if !(CurrencyOf(event).Str? && CurrencyOf(event).s in currencies) then Skips
    else if !Truthy(RawTimeOf(event)) || !RawTimeOf(event).Str? then Skips
    else match parse(RawTimeOf(event).s)
      case None => Skips
      case Some(t) => if Abs(t - now) <= window then Blocks else Skips
  }

  /** The first event, in list order, that blocks; a raise before it ends the search. */
  function FirstBlocking(events: seq<Object>, currencies: seq<string>, now: int, window: int,
                         parse: string -> Option<int>): Result<Option<Object>>
    decreases |events|
  {
    if events == [] then Success(None)
    else match Judge(events[0], currencies, now, window, parse)
      case Blocks => Success(Some(events[0]))
      case Raises(m) => Failure(m)
      case Skips => FirstBlocking(events[1..], currencies, now, window, parse)
  }

  /** `get_blocking_news_event` as a value: no event list, or a pair without currencies, blocks nothing. */
  function BlockingEvent(pair: string, now: int, bufferMinutes: int, events: Option<seq<Object>>,
                         parse: string -> Option<int>): Result<Option<Object>> {
    if events.None? || PairCurrencies(pair).None? then Success(None)
    else FirstBlocking(events.value, PairCurrencies(pair).value, now, bufferMinutes * 60, parse)
  }

  /** `get_blocking_news_event`: the search loop, with its `continue`s and its early return. */
  method GetBlockingNewsEvent(pair: string, now: int, bufferMinutes: int, events: Option<seq<Object>>,
                              parse: string -> Option<int>)
    returns (r: Result<Option<Object>>)
    ensures r == BlockingEvent(pair, now, bufferMinutes, events, parse)
  {
    if events.None? {
      return Success(None);
    }
    var currencies := PairCurrencies(pair);
    if currencies.None? {
      return Success(None);
    }
    var window := bufferMinutes * 60;
    var es := events.value;
    var i := 0;
    while i < |es|
      invariant 0 <= i <= |es|
      invariant FirstBlocking(es, currencies.value, now, window, parse)
             == FirstBlocking(es[i..], currencies.value, now, window, parse)
    {
      var event := es[i];
      assert es[i..][1..] == es[i + 1..];
      i := i + 1;
      var impact := Get(event, "impact");
      if impact.Arr? || impact.Obj? {
        return Failure(UnhashableMessage(impact));
      }
      if impact != Str(BlockImpact) {
        continue;
      }
      var currency := if Truthy(Get(event, "country")) then Get(event, "country") else Get(event, "currency");
      if !(currency.Str? && currency.s in currencies.value) {
        continue;
      }
      var rawTime := if Truthy(Get(event, "date")) then Get(event, "date") else Get(event, "time");
      if !Truthy(rawTime) || !rawTime.Str? {
        continue;
      }
      var eventTime := parse(rawTime.s);
      if eventTime.None? {
        continue;
      }
      if Abs(eventTime.value - now) <= window {
        return Success(Some(event));
      }
    }
    return Success(None);
  }

  /** The search finds the earliest blocking event: it is one of the events, it blocks, and every
      event before it is skipped; no result means every event is skipped; a raise comes from the
      earliest event that is not skipped. */
  lemma {:induction false} FirstBlockingIsFirst(events: seq<Object>, currencies: seq<string>, now: int, window: int,
                                                parse: string -> Option<int>)
    ensures var r := FirstBlocking(events, currencies, now, window, parse);
      r.Success? && r.value.Some? ==>
        exists i :: 0 <= i < |events| && events[i] == r.value.value
          && Judge(events[i], currencies, now, window, parse) == Blocks
          && forall j :: 0 <= j < i ==> Judge(events[j], currencies, now, window, parse) == Skips
    ensures FirstBlocking(events, currencies, now, window, parse) == Success(None) <==>
      forall j :: 0 <= j < |events| ==> Judge(events[j], currencies, now, window, parse) == Skips
    ensures var r := FirstBlocking(events, currencies, now, window, parse);
      r.Failure? ==>
        exists i :: 0 <= i < |events| && Judge(events[i], currencies, now, window, parse) == Raises(r.error)
          && forall j :: 0 <= j < i ==> Judge(events[j], currencies, now, window, parse) == Skips
  {
    FoundIsFirst(events, currencies, now, window, parse);
    NoneIffAllSkipped(events, currencies, now, window, parse);
    RaiseIsFirst(events, currencies, now, window, parse);
  }

  /** An event skipped at the head shifts every later index by one. */
  lemma SkippedHead(events: seq<Object>, currencies: seq<string>, now: int, window: int,
                    parse: string -> Option<int>, i: nat)
    requires 0 < |events| && i < |events| - 1
    requires Judge(events[0], currencies, now, window, parse) == Skips
    requires forall j :: 0 <= j < i ==> Judge(events[1..][j], currencies, now, window, parse) == Skips
    ensures events[i + 1] == events[1..][i]
    ensures forall j :: 0 <= j < i + 1 ==> Judge(events[j], currencies, now, window, parse) == Skips
  {
    forall j | 0 <= j < i + 1 ensures Judge(events[j], currencies, now, window, parse) == Skips {
      if j > 0 {
        assert events[j] == events[1..][j - 1];
      }
    }
  }

  /** A blocking event found is the earliest one that is not skipped, and it blocks. */
  lemma {:induction false} FoundIsFirst(events: seq<Object>, currencies: seq<string>, now: int, window: int,
                                        parse: string -> Option<int>)
    ensures var r := FirstBlocking(events, currencies, now, window, parse);
      r.Success? && r.value.Some? ==>
        exists i :: 0 <= i < |events| && events[i] == r.value.value
          && Judge(events[i], currencies, now, window, parse) == Blocks
          && forall j :: 0 <= j < i ==> Judge(events[j], currencies, now, window, parse) == Skips
    decreases |events|
  {
    if events != [] && Judge(events[0], currencies, now, window, parse) == Skips {
      var rest := events[1..];
      assert FirstBlocking(events, currencies, now, window, parse) == FirstBlocking(rest, currencies, now, window, parse);
      FoundIsFirst(rest, currencies, now, window, parse);
      var r := FirstBlocking(rest, currencies, now, window, parse);
      if r.Success? && r.value.Some? {
        var i :| 0 <= i < |rest| && rest[i] == r.value.value
          && Judge(rest[i], currencies, now, window, parse) == Blocks
          && forall j :: 0 <= j < i ==> Judge(rest[j], currencies, now, window, parse) == Skips;
        SkippedHead(events, currencies, now, window, parse, i);
      }
    }
  }

  /** A raise comes from the earliest event that is not skipped. */
  lemma {:induction false} RaiseIsFirst(events: seq<Object>, currencies: seq<string>, now: int, window: int,
                                        parse: string -> Option<int>)
    ensures var r := FirstBlocking(events, currencies, now, window, parse);
      r.Failure? ==>
        exists i :: 0 <= i < |events| && Judge(events[i], currencies, now, window, parse) == Raises(r.error)
          && forall j :: 0 <= j < i ==> Judge(events[j], currencies, now, window, parse) == Skips
    decreases |events|
  {
    if events != [] && Judge(events[0], currencies, now, window, parse) == Skips {
      var rest := events[1..];
      assert FirstBlocking(events, currencies, now, window, parse) == FirstBlocking(rest, currencies, now, window, parse);
      RaiseIsFirst(rest, currencies, now, window, parse);
      var r := FirstBlocking(rest, currencies, now, window, parse);
      if r.Failure? {
        var i :| 0 <= i < |rest| && Judge(rest[i], currencies, now, window, parse) == Raises(r.error)
          && forall j :: 0 <= j < i ==> Judge(rest[j], currencies, now, window, parse) == Skips;
        SkippedHead(events, currencies, now, window, parse, i);
      }
    }
  }

  /** The search finds nothing exactly when every event is skipped. */
  lemma {:induction false} NoneIffAllSkipped(events: seq<Object>, currencies: seq<string>, now: int, window: int,
                                             parse: string -> Option<int>)
    ensures FirstBlocking(events, currencies, now, window, parse) == Success(None) <==>
      forall j :: 0 <= j < |events| ==> Judge(events[j], currencies, now, window, parse) == Skips
    decreases |events|
  {
    if events != [] {
      var rest := events[1..];
      if Judge(events[0], currencies, now, window, parse) == Skips {
        NoneIffAllSkipped(rest, currencies, now, window, parse);
        assert forall j :: 0 < j < |events| ==> events[j] == rest[j - 1];
      }
    }
  }

  /** What makes one event block: only a "High" impact, only a currency (the country first, the
      currency field when the country is empty) of the pair, only a readable string time, and
      only within `window` seconds of now, both ends included. */
  lemma BlocksIff(event: Object, currencies: seq<string>, now: int, window: int, parse: string -> Option<int>)
    ensures Judge(event, currencies, now, window, parse) == Blocks <==>
      && Get(event, "impact") == Str("High")
      && CurrencyOf(event).Str? && CurrencyOf(event).s in currencies
      && RawTimeOf(event).Str? && RawTimeOf(event).s != ""
      && parse(RawTimeOf(event).s).Some?
      && now - window <= parse(RawTimeOf(event).s).value <= now + window
  {
  }

  /** `is_news_clear`. Without an event list the fetched calendar is used, and a failed fetch
      counts as clear. */
  method IsNewsClear(pair: string, now: int, bufferMinutes: int, events: Option<seq<Object>>,
                     fetched: Result<seq<Object>>, parse: string -> Option<int>)
    returns (r: Result<bool>)
    ensures events.None? && fetched.Failure? ==> r == Success(true)
    ensures events.Some? || fetched.Success? ==>
      var resolved := if events.Some? then events else Some(fetched.value);
        && (r.Success? <==> BlockingEvent(pair, now, bufferMinutes, resolved, parse).Success?)
        && (r.Success? ==> (r.value <==> BlockingEvent(pair, now, bufferMinutes, resolved, parse).value.None?))
  {
    var resolved := events;
    if resolved.None? {
      if fetched.Failure? {
        return Success(true);
      }
      resolved := Some(fetched.value);
    }
    var blocking := GetBlockingNewsEvent(pair, now, bufferMinutes, resolved, parse);
    if blocking.Failure? {
      return Failure(blocking.error);
    }
    r := Success(blocking.value.None?);
  }

  /** With an explicit event list the pair is clear exactly when no event blocks. */
  lemma ClearIffNoneBlocks(pair: string, now: int, bufferMinutes: int, events: seq<Object>,
                           parse: string -> Option<int>, cs: seq<string>)
    requires PairCurrencies(pair) == Some(cs)
    requires FirstBlocking(events, cs, now, bufferMinutes * 60, parse).Success?
    ensures BlockingEvent(pair, now, bufferMinutes, Some(events), parse).value.None? <==>
      forall j :: 0 <= j < |events| ==> Judge(events[j], cs, now, bufferMinutes * 60, parse) == Skips
  {
    FirstBlockingIsFirst(events, cs, now, bufferMinutes * 60, parse);
  }

  /** 12:00 on a day: a USD "High" event ten minutes later blocks EUR_USD with the default
      fifteen-minute buffer; one forty minutes later, a "Low" one, or an AUD one does not. */
  lemma NewsExamples(parse: string -> Option<int>, noon: int)
    requires parse("12:10") == Some(noon + 600) && parse("12:40") == Some(noon + 2400) && parse("12:05") == Some(noon + 300)
    ensures BlockingEvent("EUR_USD", noon, 15, Some([map["impact" := Str("High"), "currency" := Str("USD"), "time" := Str("12:10")]]), parse).value.Some?
    ensures BlockingEvent("EUR_USD", noon, 15, Some([map["impact" := Str("High"), "currency" := Str("USD"), "time" := Str("12:40")]]), parse) == Success(None)
    ensures BlockingEvent("EUR_USD", noon, 15, Some([map["impact" := Str("Low"), "currency" := Str("USD"), "time" := Str("12:05")]]), parse) == Success(None)
    ensures BlockingEvent("EUR_USD", noon, 15, Some([map["impact" := Str("High"), "currency" := Str("AUD"), "time" := Str("12:05")]]), parse) == Success(None)
  {
    var e1 := map["impact" := Str("High"), "currency" := Str("USD"), "time" := Str("12:10")];
    assert Get(e1, "country") == Null && Get(e1, "date") == Null;
    var e2 := map["impact" := Str("High"), "currency" := Str("USD"), "time" := Str("12:40")];
    assert Get(e2, "country") == Null && Get(e2, "date") == Null;
    var e3 := map["impact" := Str("High"), "currency" := Str("AUD"), "time" := Str("12:05")];
    assert Get(e3, "country") == Null;
    assert CurrencyOf(e3) == Str("AUD");
    assert "AUD" !in ["EUR", "USD"];
  }
}
