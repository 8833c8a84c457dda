/** Operational alerts: a payload is cut down to the keys allowed for its event, repeats are
    suppressed for a while, the body is truncated, anything that looks like a secret is dropped,
    and what is left goes to every provider in turn. JSON rendering (`json.dumps`), `str()` of a
    value and the monotonic clock are parameters. */
module Alerts {
  import opened Wrappers
  import opened Json
  import opened Text

  datatype AlertEvent = TradeOpen | TradeClose | DailyHalt | BotRestart | KillSwitch

  /** `AlertEvent.value`. */
  function EventName(e: AlertEvent): string {
    match e
    case TradeOpen => "TRADE_OPEN"
    case TradeClose => "TRADE_CLOSE"
    case DailyHalt => "DAILY_HALT"
    case BotRestart => "BOT_RESTART"
    case KillSwitch => "KILL_SWITCH"
  }

  /** `ALERT_WHITELIST`: the payload keys an alert of each event may carry. */
  function Whitelist(e: AlertEvent): seq<string> {
    match e
    case TradeOpen => ["pair", "strategy", "direction", "units", "entry_price", "sl_price", "tp_price", "time_utc"]
    case TradeClose => ["pair", "strategy", "direction", "result", "exit_price", "pnl_pips", "pnl_quote", "time_utc"]
    case DailyHalt => ["date_utc", "drawdown", "threshold", "mode"]
    case BotRestart => ["service", "handled_by", "startup_time_utc", "version"]
    case KillSwitch => ["enabled", "source", "reason", "pairs_closed", "time_utc"]
  }

  const SecretPatterns: seq<string> := ["token", "password", "api_key", "authorization", "smtp_pass", "secret"]
  const MaxAlertBodyLen: nat := 2000
  const DefaultDedupeSeconds: int := 60
  const TruncationMarker: string := "\n...<truncated>"

  // ---------------------------------------------------------------------------------------------
  // _sanitize

  /** `_sanitize`: walk the event's whitelist and copy each key whose value is present and not
      None; nothing outside the whitelist survives. */
  method Sanitize(event: AlertEvent, payload: Option<Object>) returns (clean: Object)
    ensures var source := OrEmpty(payload);
      forall k :: k in clean <==> k in Whitelist(event) && k in source && source[k] != Null
    ensures var source := OrEmpty(payload);
      forall k :: k in clean ==> clean[k] == source[k]
  {
    var source := OrEmpty(payload);
    var allowed := Whitelist(event);
    clean := map[];
    var i := 0;
    while i < |allowed|
      invariant 0 <= i <= |allowed|
      invariant forall k :: k in clean <==> k in allowed[..i] && k in source && source[k] != Null
      invariant forall k :: k in clean ==> clean[k] == source[k]
    {
      assert allowed[..i + 1] == allowed[..i] + [allowed[i]];
      var key := allowed[i];
      var value := Get(source, key);
      if value != Null {
        clean := clean[key := value];
      }
      i := i + 1;
    }
    assert allowed[..i] == allowed;
  }

  /** What `_sanitize` returns, as a value ("nothing outside the whitelist, no None"). */
  ghost function Sanitized(event: AlertEvent, payload: Option<Object>): (clean: Object)
    ensures forall k :: k in clean <==> k in Whitelist(event) && k in OrEmpty(payload) && OrEmpty(payload)[k] != Null
    ensures forall k :: k in clean ==> clean[k] == OrEmpty(payload)[k]
  {
    var source := OrEmpty(payload);
    map k | k in Whitelist(event) && k in source && source[k] != Null :: source[k]
  }

  /** The two descriptions of `_sanitize` agree. */
  lemma SanitizeIsSanitized(event: AlertEvent, payload: Option<Object>, clean: Object)
    requires forall k :: k in clean <==> k in Whitelist(event) && k in OrEmpty(payload) && OrEmpty(payload)[k] != Null
    requires forall k :: k in clean ==> clean[k] == OrEmpty(payload)[k]
    ensures clean == Sanitized(event, payload)
  {
  }

  // ---------------------------------------------------------------------------------------------
  // _contains_secret and truncation

  /** `_contains_secret`: one of the secret patterns occurs in the lower-cased text. */
  predicate ContainsSecret(text: string) {
    exists i :: 0 <= i < |SecretPatterns| && Contains(Lower(text), SecretPatterns[i])
  }

  /** The secret check ignores case: upper-casing a text does not change its verdict. */
  lemma SecretIgnoresCase(text: string)
    ensures ContainsSecret(Upper(text)) <==> ContainsSecret(text)
  {
    var u := Upper(text);
    assert Lower(u) == Lower(text) by {
      forall i | 0 <= i < |text| ensures Lower(u)[i] == Lower(text)[i] {
        assert u[i] == UpperChar(text[i]);
      }
    }
  }

  /** A text naming a credential is caught whatever its case. */
  lemma SecretExamples()
    ensures ContainsSecret("API_KEY=1")
    ensures ContainsSecret("a Token")
  {
    var l1 := Lower("API_KEY=1");
    assert l1 == "api_key=1";
    assert OccursAt(l1, SecretPatterns[2], 0);
    var l2 := Lower("a Token");
    assert l2 == "a token";
    assert l2[2..7] == "token";
    assert OccursAt(l2, SecretPatterns[0], 2);
  }

  /** `body[:MAX_ALERT_BODY_LEN] + "\n...<truncated>"` for a body that is too long. */
  function Truncate(body: string): (r: string)
    ensures |body| <= MaxAlertBodyLen ==> r == body
    ensures |body| > MaxAlertBodyLen ==>
      |r| == MaxAlertBodyLen + |TruncationMarker| && r[..MaxAlertBodyLen] == body[..MaxAlertBodyLen]
      && EndsWith(r, TruncationMarker)
    ensures |r| <= MaxAlertBodyLen + |TruncationMarker|
  {
    if |body| > MaxAlertBodyLen then
      var r := body[..MaxAlertBodyLen] + TruncationMarker;
      assert r[|r| - |TruncationMarker|..] == TruncationMarker;
      r
    else body
  }

  // ---------------------------------------------------------------------------------------------
  // AlertService.send, as a specification

  /** The renderings the service uses: `str(value)`, `json.dumps(clean, sort_keys=True)` for the
      fingerprint, and `json.dumps(clean, indent=2, sort_keys=True)` for the body. */
  datatype Renderer = Renderer(text: Value -> string, compact: Object -> string, pretty: Object -> string)

  function Fingerprint(event: AlertEvent, clean: Object, render: Renderer): string {
    EventName(event) + ":" + render.compact(clean)
  }

  /** The pair, else the service, else "bot" (each taken only when truthy). */
  function SubjectCore(clean: Object, render: Renderer): (core: string)
    ensures Truthy(Get(clean, "pair")) ==> core == render.text(Get(clean, "pair"))
    ensures !Truthy(Get(clean, "pair")) && Truthy(Get(clean, "service")) ==> core == render.text(Get(clean, "service"))
    ensures !Truthy(Get(clean, "pair")) && !Truthy(Get(clean, "service")) ==> core == "bot"
  {
    if Truthy(Get(clean, "pair")) then render.text(Get(clean, "pair"))
    else if Truthy(Get(clean, "service")) then render.text(Get(clean, "service"))
    else "bot"
  }

  /** `[environment][EVENT] core`. */
  function Subject(environment: string, event: AlertEvent, clean: Object, render: Renderer): string {
    "[" + environment + "][" + EventName(event) + "] " + SubjectCore(clean, render)
  }

  function Body(clean: Object, render: Renderer): string {
    Truncate(render.pretty(clean))
  }

  /** The fingerprint was recorded less than `dedupeSeconds` ago. */
  predicate Recent(recent: map<string, real>, dedupeSeconds: int, fingerprint: string, now: real) {
    fingerprint in recent && now - recent[fingerprint] < dedupeSeconds as real
  }

  datatype Verdict = Duplicate | Dropped | Delivered

  /** What `send` does with an alert: suppress a recent repeat, drop one whose subject or body
      looks like it holds a secret, or deliver it. */
  function VerdictOf(recent: map<string, real>, environment: string, dedupeSeconds: int, render: Renderer,
                     clean: Object, event: AlertEvent, now: real): Verdict
  {
    if Recent(recent, dedupeSeconds, Fingerprint(event, clean, render), now) then Duplicate
    else if ContainsSecret(Body(clean, render)) || ContainsSecret(Subject(environment, event, clean, render)) then Dropped
    else Delivered
  }

  /** The dedupe map after `send`: untouched by a duplicate, otherwise stamped with `now`, dropped
      alerts included. */
  function RecentAfter(recent: map<string, real>, dedupeSeconds: int, render: Renderer, clean: Object,
                       event: AlertEvent, now: real): (r: map<string, real>)
    ensures Recent(recent, dedupeSeconds, Fingerprint(event, clean, render), now) ==> r == recent
    ensures !Recent(recent, dedupeSeconds, Fingerprint(event, clean, render), now) ==>
      r.Keys == recent.Keys + {Fingerprint(event, clean, render)} && r[Fingerprint(event, clean, render)] == now
      && forall f :: f in recent && f != Fingerprint(event, clean, render) ==> r[f] == recent[f]
  {
    var fp := Fingerprint(event, clean, render);
    if Recent(recent, dedupeSeconds, fp, now) then recent else recent[fp := now]
  }

  /** One provider call. */
  datatype Delivery = Delivery(provider: string, event: AlertEvent, subject: string, body: string)

  /** The calls of the provider loop, one per provider in order. */
  function Fanout(providers: seq<string>, event: AlertEvent, subject: string, body: string): (ds: seq<Delivery>)
    ensures |ds| == |providers|
    ensures forall i :: 0 <= i < |providers| ==> ds[i] == Delivery(providers[i], event, subject, body)
  {
    seq(|providers|, i requires 0 <= i < |providers| => Delivery(providers[i], event, subject, body))
  }

  // ---------------------------------------------------------------------------------------------
  // What send promises

  /** Within the window a repeat is suppressed, whether the first alert was delivered or dropped,
      since the time is recorded before the secret check; once the window has passed the same
      alert is considered again. */
  lemma RepeatWithinWindow(recent: map<string, real>, environment: string, dedupeSeconds: int, render: Renderer,
                           clean: Object, event: AlertEvent, t: real, t2: real)
    requires VerdictOf(recent, environment, dedupeSeconds, render, clean, event, t) != Duplicate
    ensures var after := RecentAfter(recent, dedupeSeconds, render, clean, event, t);
      t <= t2 < t + dedupeSeconds as real ==> VerdictOf(after, environment, dedupeSeconds, render, clean, event, t2) == Duplicate
    ensures var after := RecentAfter(recent, dedupeSeconds, render, clean, event, t);
      t2 >= t + dedupeSeconds as real ==> VerdictOf(after, environment, dedupeSeconds, render, clean, event, t2) != Duplicate
  {
  }

  /** An alert is delivered exactly when it is not a recent repeat and neither its subject nor its
      body contains a secret pattern in any case. */
  lemma DeliveredIff(recent: map<string, real>, environment: string, dedupeSeconds: int, render: Renderer,
                     clean: Object, event: AlertEvent, now: real)
    ensures VerdictOf(recent, environment, dedupeSeconds, render, clean, event, now) == Delivered <==>
      && !Recent(recent, dedupeSeconds, Fingerprint(event, clean, render), now)
      && (forall i :: 0 <= i < |SecretPatterns| ==> !Contains(Lower(Body(clean, render)), SecretPatterns[i]))
      && (forall i :: 0 <= i < |SecretPatterns| ==> !Contains(Lower(Subject(environment, event, clean, render)), SecretPatterns[i]))
  {
  }

  /** The subject opens with the environment and the event name in brackets, and the pair wins
      over the service. */
  lemma SubjectShape(environment: string, event: AlertEvent, clean: Object, render: Renderer)
    ensures var s := Subject(environment, event, clean, render);
      var head := "[" + environment + "][" + EventName(event) + "] ";
      |head| <= |s| && s[..|head|] == head
    ensures Truthy(Get(clean, "pair")) ==> EndsWith(Subject(environment, event, clean, render), render.text(Get(clean, "pair")))
  {
    var s := Subject(environment, event, clean, render);
    var head := "[" + environment + "][" + EventName(event) + "] ";
    var core := SubjectCore(clean, render);
    assert s == head + core;
    assert s[|s| - |core|..] == core;
  }

  /** A trade-open payload loses its secret keys: only whitelisted keys with values survive. */
  lemma SanitizeDropsSecrets(payload: Object)
    requires "token" in payload && "password" in payload
    ensures "token" !in Sanitized(TradeOpen, Some(payload)) && "password" !in Sanitized(TradeOpen, Some(payload))
  {
  }

  // ---------------------------------------------------------------------------------------------
  // The service

  class AlertService {
    const providers: seq<string>
    const environment: string
    const dedupeSeconds: int
    const render: Renderer
    /** `_recent`: when each fingerprint was last let through the dedupe check. */
    var recent: map<string, real>
    /** The provider calls made so far, in order. */
    var deliveries: seq<Delivery>

    constructor (providers: seq<string>, environment: string, dedupeSeconds: int, render: Renderer)
      ensures this.providers == providers && this.environment == environment
      ensures this.dedupeSeconds == dedupeSeconds && this.render == render
      ensures recent == map[] && deliveries == []
    {
      this.providers := providers;
      this.environment := environment;
      this.dedupeSeconds := dedupeSeconds;
      this.render := render;
      recent := map[];
      deliveries := [];
    }

    /** `send`: true exactly when the alert went to the providers. A recent repeat changes
        nothing; otherwise the fingerprint is stamped with `now`, and a delivered alert adds one
        call per provider, in order. A provider that raises does not stop the loop, so every call
        is recorded. */
    method Send(event: AlertEvent, payload: Option<Object>, now: real) returns (sent: bool)
      modifies this
      ensures sent <==> VerdictOf(old(recent), environment, dedupeSeconds, render, Sanitized(event, payload), event, now) == Delivered
      ensures recent == RecentAfter(old(recent), dedupeSeconds, render, Sanitized(event, payload), event, now)
      ensures var clean := Sanitized(event, payload);
        sent ==> deliveries == old(deliveries) + Fanout(providers, event, Subject(environment, event, clean, render), Body(clean, render))
      ensures !sent ==> deliveries == old(deliveries)
    {
      var clean := Sanitize(event, payload);
      SanitizeIsSanitized(event, payload, clean);
      var fingerprint := EventName(event) + ":" + render.compact(clean);
      if fingerprint in recent && now - recent[fingerprint] < dedupeSeconds as real {
        return false;
      }
      recent := recent[fingerprint := now];
      var subject := "[" + environment + "][" + EventName(event) + "] " + SubjectCore(clean, render);
      var body := render.pretty(clean);
      if |body| > MaxAlertBodyLen {
        body := body[..MaxAlertBodyLen] + TruncationMarker;
      }
      assert subject == Subject(environment, event, clean, render);
      assert body == Body(clean, render);
      if ContainsSecret(body) || ContainsSecret(subject) {
        return false;
      }
      Notify(event, subject, body);
      sent := true;
    }

    /** The provider loop of `send`: one call per provider, in order. */
    method Notify(event: AlertEvent, subject: string, body: string)
      modifies this
      ensures deliveries == old(deliveries) + Fanout(providers, event, subject, body)
      ensures recent == old(recent)
    {
      var i := 0;
      while i < |providers|
        invariant 0 <= i <= |providers|
        invariant deliveries == old(deliveries) + Fanout(providers[..i], event, subject, body)
        invariant recent == old(recent)
      {
        deliveries := deliveries + [Delivery(providers[i], event, subject, body)];
        assert Fanout(providers[..i + 1], event, subject, body) == Fanout(providers[..i], event, subject, body) + [Delivery(providers[i], event, subject, body)];
        i := i + 1;
      }
      assert providers[..i] == providers;
    }
  }
}
