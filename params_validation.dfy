/** Validation of strategy names, profiles and parameter payloads before they are stored. Every
    check reports a list of field errors, in the order the checks run. */
module ParamsValidation {
  import opened Wrappers
  import opened Json
  import opened StrategyParams

  /** One reported problem: `{"field": ..., "message": ...}`. */
  datatype FieldError = FieldError(field: string, message: string)

  function UnknownStrategy(strategy: string): FieldError {
    FieldError("strategy_name", "Unknown strategy '" + strategy + "'")
  }

  /** `validate_strategy_and_profile`: one error for an unknown strategy, then one for an unknown
      profile. */
  function ValidateStrategyAndProfile(strategy: string, profile: string): (errors: seq<FieldError>)
    ensures |errors| <= 2
    ensures errors == [] <==> strategy in PresetStrategies && profile in Profiles
    ensures UnknownStrategy(strategy) in errors <==> strategy !in PresetStrategies
    ensures FieldError("profile", "Unknown profile '" + profile + "'") in errors <==> profile !in Profiles
    ensures forall e :: e in errors ==> e.field in {"strategy_name", "profile"}
  {
    (if strategy !in PresetStrategies then [UnknownStrategy(strategy)] else [])
    + (if profile !in Profiles then [FieldError("profile", "Unknown profile '" + profile + "'")] else [])
  }

  // ---------------------------------------------------------------------------------------------
  // The schema

  /** The inclusive range of one parameter. The bounds are also kept as Python prints them, for
      the error message. */
  datatype Range = Range(key: string, lower: real, upper: real, lowerText: string, upperText: string)

  /** `RANGES`, per strategy, in declaration order. */
  function Schema(strategy: string): (r: Option<seq<Range>>)
    ensures r.Some? <==> strategy in PresetStrategies
  {
    if strategy == "ema_vwap" then
      Some([Range("vwap_atr_tolerance", 0.0, 1.0, "0.0", "1.0")])
    else if strategy == "vwap_rsi" then
      Some([Range("rsi_buy_max", 0.0, 100.0, "0.0", "100.0"),
            Range("rsi_sell_min", 0.0, 100.0, "0.0", "100.0"),
            Range("vwap_atr_tolerance", 0.0, 1.0, "0.0", "1.0"),
            Range("rsi_period", 1.0, 100.0, "1.0", "100.0")])
    else if strategy == "bb_breakout" then
      Some([Range("volume_spike_mult", 0.0, 5.0, "0.0", "5.0"),
            Range("squeeze_percentile", 0.0, 100.0, "0.0", "100.0"),
            Range("squeeze_expand_mult", 0.5, 3.0, "0.5", "3.0")])
    else None
  }

  predicate InSchema(schema: seq<Range>, key: string) {
    exists i :: 0 <= i < |schema| && schema[i].key == key
  }

  /** No key is declared twice in a schema. */
  predicate DistinctKeys(schema: seq<Range>) {
    forall i, j :: 0 <= i < j < |schema| ==> schema[i].key != schema[j].key
  }

  lemma SchemaKeysDistinct(strategy: string)
    requires strategy in PresetStrategies
    ensures DistinctKeys(Schema(strategy).value)
  {
  }

  // ---------------------------------------------------------------------------------------------
  // Payloads

  /** A JSON request body, its keys in the order they were sent. */
  type Payload = seq<(string, Value)>

  predicate HasKey(payload: Payload, key: string) {
    exists i :: 0 <= i < |payload| && payload[i].0 == key
  }

  /** `payload.get(key)`: the value under `key`, None when it is absent. */
  function Lookup(payload: Payload, key: string): (v: Option<Value>)
    ensures v.None? <==> !HasKey(payload, key)
    ensures v.Some? ==> exists i :: 0 <= i < |payload| && payload[i] == (key, v.value)
    decreases |payload|
  {
    if payload == [] then None
    else if payload[0].0 == key then Some(payload[0].1)
    else
      var v := Lookup(payload[1..], key);
      assert forall i :: 0 <= i < |payload| - 1 ==> payload[1..][i] == payload[i + 1];
      assert HasKey(payload, key) ==> HasKey(payload[1..], key) by {
        if HasKey(payload, key) {
          var i :| 0 <= i < |payload| && payload[i].0 == key;
          assert i > 0 && payload[1..][i - 1] == payload[i];
        }
      }
      v
  }

  /** `float(value)`: numbers as they are, `True` and `False` as 1 and 0, strings through
      `parse` (None for text that is not a number); None and containers raise `TypeError`. */
  function ToNumber(v: Value, parse: string -> Option<real>): (r: Option<real>)
    ensures v.Int? ==> r == Some(v.i as real)
    ensures v.Float? ==> r == Some(v.f)
    ensures v.Null? || v.Arr? || v.Obj? ==> r.None?
  {
    match v
    case Int(i) => Some(i as real)
    case Float(f) => Some(f)
    case Bool(b) => Some(if b then 1.0 else 0.0)
    case Str(s) => parse(s)
    case _ => None
  }

  // ---------------------------------------------------------------------------------------------
  // validate_params, as a specification

  const UnknownKey: string := "Unknown parameter key"
  const MissingKey: string := "Missing required parameter"
  const NotANumber: string := "Must be a number"
  const BuyNotBelowSell: string := "Must be less than rsi_sell_min"

  function Between(r: Range): string {
    "Must be between " + r.lowerText + " and " + r.upperText
  }

  /** The first loop: one error per payload key outside the schema. */
  function UnknownKeyErrors(payload: Payload, schema: seq<Range>): seq<FieldError>
    decreases |payload|
  {
    if payload == [] then []
    else
      var n := |payload| - 1;
      UnknownKeyErrors(payload[..n], schema)
      + (if InSchema(schema, payload[n].0) then [] else [FieldError(payload[n].0, UnknownKey)])
  }

  /** The second loop: one error per schema key missing from the payload. */
  function MissingErrors(schema: seq<Range>, payload: Payload): seq<FieldError>
    decreases |schema|
  {
    if schema == [] then []
    else
      var n := |schema| - 1;
      MissingErrors(schema[..n], payload)
      + (if HasKey(payload, schema[n].key) then [] else [FieldError(schema[n].key, MissingKey)])
  }

  /** The check of one present schema key: not a number, or a number outside the range. */
  function ValueError(r: Range, payload: Payload, parse: string -> Option<real>): seq<FieldError> {
    match Lookup(payload, r.key)
    case None => []
    case Some(v) =>
      match ToNumber(v, parse)
      case None => [FieldError(r.key, NotANumber)]
      case Some(x) => if x < r.lower || x > r.upper then [FieldError(r.key, Between(r))] else []
  }

  /** The third loop, over the schema in order. */
  function ValueErrors(schema: seq<Range>, payload: Payload, parse: string -> Option<real>): seq<FieldError>
    decreases |schema|
  {
    if schema == [] then []
    else
      var n := |schema| - 1;
      ValueErrors(schema[..n], payload, parse) + ValueError(schema[n], payload, parse)
  }

  /** The `vwap_rsi` cross-check: a buy ceiling not below the sell floor is an error on
      `rsi_buy_max`; a value that is null or not a number skips the check. */
  function CrossCheckErrors(strategy: string, payload: Payload, parse: string -> Option<real>): seq<FieldError> {
    if strategy != "vwap_rsi" then []
    else
      var buy := Lookup(payload, "rsi_buy_max");
      var sell := Lookup(payload, "rsi_sell_min");
      if buy.None? || buy.value.Null? || sell.None? || sell.value.Null? then []
      else
        match (ToNumber(buy.value, parse), ToNumber(sell.value, parse))
        case (Some(b), Some(s)) => if b >= s then [FieldError("rsi_buy_max", BuyNotBelowSell)] else []
        case _ => []
  }

  /** `validate_params`: the unknown strategy alone, or the four groups of errors in order. */
  function ParamErrors(strategy: string, payload: Payload, parse: string -> Option<real>): seq<FieldError> {
    match Schema(strategy)
    case None => [UnknownStrategy(strategy)]
    case Some(schema) =>
      UnknownKeyErrors(payload, schema) + MissingErrors(schema, payload)
      + ValueErrors(schema, payload, parse) + CrossCheckErrors(strategy, payload, parse)
  }

  /** `validate_params`, loop by loop. */
  method ValidateParams(strategy: string, payload: Payload, parse: string -> Option<real>)
    returns (errors: seq<FieldError>)
    ensures errors == ParamErrors(strategy, payload, parse)
  {
    var found := Schema(strategy);
    if found.None? {
      return [UnknownStrategy(strategy)];
    }
    var schema := found.value;
    var unknown := UnknownKeyLoop(payload, schema);
    var missing := MissingLoop(schema, payload);
    var values := ValueLoop(schema, payload, parse);
    errors := unknown + missing + values + CrossCheckErrors(strategy, payload, parse);
  }

  /** The first loop of `validate_params`. */
  method UnknownKeyLoop(payload: Payload, schema: seq<Range>) returns (errors: seq<FieldError>)
    ensures errors == UnknownKeyErrors(payload, schema)
  {
    errors := [];
    var i := 0;
    while i < |payload|
      invariant 0 <= i <= |payload|
      invariant errors == UnknownKeyErrors(payload[..i], schema)
    {
      assert payload[..i + 1][..i] == payload[..i];
      var key := payload[i].0;
      if !InSchema(schema, key) {
        errors := errors + [FieldError(key, UnknownKey)];
      }
      i := i + 1;
    }
    assert payload[..|payload|] == payload;
  }

  /** The second loop of `validate_params`. */
  method MissingLoop(schema: seq<Range>, payload: Payload) returns (errors: seq<FieldError>)
    ensures errors == MissingErrors(schema, payload)
  {
    errors := [];
    var j := 0;
    while j < |schema|
      invariant 0 <= j <= |schema|
      invariant errors == MissingErrors(schema[..j], payload)
    {
      assert schema[..j + 1][..j] == schema[..j];
      if !HasKey(payload, schema[j].key) {
        errors := errors + [FieldError(schema[j].key, MissingKey)];
      }
      j := j + 1;
    }
    assert schema[..|schema|] == schema;
  }

  /** The third loop of `validate_params`. */
  method ValueLoop(schema: seq<Range>, payload: Payload, parse: string -> Option<real>) returns (errors: seq<FieldError>)
    ensures errors == ValueErrors(schema, payload, parse)
  {
    errors := [];
    var k := 0;
    while k < |schema|
      invariant 0 <= k <= |schema|
      invariant errors == ValueErrors(schema[..k], payload, parse)
    {
      var prefix := schema[..k + 1];
      assert prefix[..k] == schema[..k];
      var r := schema[k];
      assert ValueErrors(prefix, payload, parse) == errors + ValueError(r, payload, parse);
      var value := Lookup(payload, r.key);
      if value.Some? {
        var number := ToNumber(value.value, parse);
        if number.None? {
          errors := errors + [FieldError(r.key, NotANumber)];
        } else if number.value < r.lower || number.value > r.upper {
          errors := errors + [FieldError(r.key, Between(r))];
        }
      }
      k := k + 1;
    }
    assert schema[..|schema|] == schema;
  }

  // ---------------------------------------------------------------------------------------------
  // What the errors mean

  /** Every unknown-key error names a payload key outside the schema, and every such key has one. */
  lemma {:induction false} UnknownKeyIff(payload: Payload, schema: seq<Range>, key: string)
    ensures FieldError(key, UnknownKey) in UnknownKeyErrors(payload, schema) <==> HasKey(payload, key) && !InSchema(schema, key)
    ensures forall e :: e in UnknownKeyErrors(payload, schema) ==> e.message == UnknownKey
    decreases |payload|
  {
    if payload != [] {
      var n := |payload| - 1;
      UnknownKeyIff(payload[..n], schema, key);
      assert forall i :: 0 <= i < n ==> payload[..n][i] == payload[i];
      if HasKey(payload, key) && !HasKey(payload[..n], key) {
        assert payload[n].0 == key;
      }
    }
  }

  /** Every missing-key error names a schema key absent from the payload, and every such key has one. */
  lemma {:induction false} MissingIff(schema: seq<Range>, payload: Payload, key: string)
    ensures FieldError(key, MissingKey) in MissingErrors(schema, payload) <==> InSchema(schema, key) && !HasKey(payload, key)
    ensures forall e :: e in MissingErrors(schema, payload) ==> e.message == MissingKey
    decreases |schema|
  {
    if schema != [] {
      var n := |schema| - 1;
      MissingIff(schema[..n], payload, key);
      assert forall i :: 0 <= i < n ==> schema[..n][i] == schema[i];
      if InSchema(schema, key) && !InSchema(schema[..n], key) {
        assert schema[n].key == key;
      }
    }
  }

  /** Every value error comes from one range of the schema. */
  lemma {:induction false} ValueErrorFrom(schema: seq<Range>, payload: Payload, parse: string -> Option<real>, e: FieldError)
    requires e in ValueErrors(schema, payload, parse)
    ensures exists j :: 0 <= j < |schema| && e in ValueError(schema[j], payload, parse)
    decreases |schema|
  {
    var n := |schema| - 1;
    var prefix := schema[..n];
    if e in ValueErrors(prefix, payload, parse) {
      ValueErrorFrom(prefix, payload, parse, e);
      var j :| 0 <= j < n && e in ValueError(prefix[j], payload, parse);
      assert prefix[j] == schema[j];
    } else {
      assert e in ValueError(schema[n], payload, parse);
    }
  }

  /** Every error of a range of the schema is a value error. */
  lemma {:induction false} ValueErrorTo(schema: seq<Range>, payload: Payload, parse: string -> Option<real>, e: FieldError, j: nat)
    requires j < |schema| && e in ValueError(schema[j], payload, parse)
    ensures e in ValueErrors(schema, payload, parse)
    decreases |schema|
  {
    var n := |schema| - 1;
    var prefix := schema[..n];
    var rest := ValueErrors(prefix, payload, parse);
    var last := ValueError(schema[n], payload, parse);
    assert ValueErrors(schema, payload, parse) == rest + last;
    if j < n {
      assert prefix[j] == schema[j];
      ValueErrorTo(prefix, payload, parse, e, j);
      assert e in rest;
    } else {
      assert e in last;
    }
  }

  /** With distinct keys, the value errors on a schema key are those of that key's range. */
  lemma ValueErrorsOf(schema: seq<Range>, payload: Payload, parse: string -> Option<real>, i: nat, e: FieldError)
    requires DistinctKeys(schema) && i < |schema| && e.field == schema[i].key
    ensures e in ValueErrors(schema, payload, parse) <==> e in ValueError(schema[i], payload, parse)
  {
    if e in ValueErrors(schema, payload, parse) {
      ValueErrorFrom(schema, payload, parse, e);
      var j :| 0 <= j < |schema| && e in ValueError(schema[j], payload, parse);
      ValueErrorIff(schema[j], payload, parse);
      assert j == i;
    }
    if e in ValueError(schema[i], payload, parse) {
      ValueErrorTo(schema, payload, parse, e, i);
    }
  }

  /** The value errors of one present key: "Must be a number" exactly when it does not convert,
      and then no range error; the range error, with the bounds in the message, exactly when it
      converts to a number strictly outside the inclusive range. */
  lemma ValueErrorIff(r: Range, payload: Payload, parse: string -> Option<real>)
    ensures FieldError(r.key, NotANumber) in ValueError(r, payload, parse) <==>
      HasKey(payload, r.key) && ToNumber(Lookup(payload, r.key).value, parse).None?
    ensures FieldError(r.key, Between(r)) in ValueError(r, payload, parse) <==>
      HasKey(payload, r.key) && ToNumber(Lookup(payload, r.key).value, parse).Some?
      && var x := ToNumber(Lookup(payload, r.key).value, parse).value; x < r.lower || x > r.upper
    ensures |ValueError(r, payload, parse)| <= 1
    ensures forall e :: e in ValueError(r, payload, parse) ==> e.field == r.key && e.message in {NotANumber, Between(r)}
  {
    BetweenDistinct(r);
  }

  /** The cross-check fires exactly when both rsi bounds are present, numeric and the buy ceiling
      is not below the sell floor. */
  lemma CrossCheckIff(payload: Payload, parse: string -> Option<real>)
    ensures var buy := Lookup(payload, "rsi_buy_max");
      var sell := Lookup(payload, "rsi_sell_min");
      CrossCheckErrors("vwap_rsi", payload, parse) != [] <==>
        && buy.Some? && sell.Some?
        && ToNumber(buy.value, parse).Some? && ToNumber(sell.value, parse).Some?
        && ToNumber(buy.value, parse).value >= ToNumber(sell.value, parse).value
    ensures forall e :: e in CrossCheckErrors("vwap_rsi", payload, parse) ==> e == FieldError("rsi_buy_max", BuyNotBelowSell)
  {
  }

  /** The four groups, for a known strategy. */
  lemma ParamErrorsSplit(strategy: string, payload: Payload, parse: string -> Option<real>, e: FieldError)
    requires strategy in PresetStrategies
    ensures var schema := Schema(strategy).value;
      e in ParamErrors(strategy, payload, parse) <==>
        e in UnknownKeyErrors(payload, schema) || e in MissingErrors(schema, payload)
        || e in ValueErrors(schema, payload, parse) || e in CrossCheckErrors(strategy, payload, parse)
  {
  }

  /** `validate_params` on a known strategy: an unknown payload key and a missing schema key each
      give their error, and nothing else gives these. */
  lemma KeyErrorsIff(strategy: string, payload: Payload, parse: string -> Option<real>, key: string)
    requires strategy in PresetStrategies
    ensures var schema := Schema(strategy).value;
      var errors := ParamErrors(strategy, payload, parse);
      && (FieldError(key, UnknownKey) in errors <==> HasKey(payload, key) && !InSchema(schema, key))
      && (FieldError(key, MissingKey) in errors <==> InSchema(schema, key) && !HasKey(payload, key))
  {
    var schema := Schema(strategy).value;
    ParamErrorsSplit(strategy, payload, parse, FieldError(key, UnknownKey));
    ParamErrorsSplit(strategy, payload, parse, FieldError(key, MissingKey));
    UnknownKeyIff(payload, schema, key);
    MissingIff(schema, payload, key);
    ValueMessages(schema, payload, parse, FieldError(key, UnknownKey));
    ValueMessages(schema, payload, parse, FieldError(key, MissingKey));
  }

  /** The range message differs from every other message: its ninth letter is the `b` of "between". */
  lemma BetweenDistinct(r: Range)
    ensures Between(r) != UnknownKey && Between(r) != MissingKey
    ensures Between(r) != NotANumber && Between(r) != BuyNotBelowSell
  {
    var m := Between(r);
    assert m == "Must be between " + (r.lowerText + " and " + r.upperText);
    assert m[8] == 'b';
  }

  /** The value errors carry only the number and range messages. */
  lemma ValueMessages(schema: seq<Range>, payload: Payload, parse: string -> Option<real>, e: FieldError)
    requires e.message in {UnknownKey, MissingKey, BuyNotBelowSell}
    ensures e !in ValueErrors(schema, payload, parse)
  {
    if e in ValueErrors(schema, payload, parse) {
      ValueErrorFrom(schema, payload, parse, e);
      var j :| 0 <= j < |schema| && e in ValueError(schema[j], payload, parse);
      var r := schema[j];
      ValueErrorIff(r, payload, parse);
      BetweenDistinct(r);
    }
  }

  /** `validate_params` on a known strategy, for each schema key: "Must be a number" exactly when
      it is present and does not convert, and then no range error; the range error exactly when it
      converts to a number strictly outside the inclusive range. */
  lemma ValueErrorsIff(strategy: string, payload: Payload, parse: string -> Option<real>, i: nat)
    requires strategy in PresetStrategies && i < |Schema(strategy).value|
    ensures var r := Schema(strategy).value[i];
      var errors := ParamErrors(strategy, payload, parse);
      && (FieldError(r.key, NotANumber) in errors <==>
            HasKey(payload, r.key) && ToNumber(Lookup(payload, r.key).value, parse).None?)
      && (FieldError(r.key, Between(r)) in errors <==>
            HasKey(payload, r.key) && ToNumber(Lookup(payload, r.key).value, parse).Some?
            && var x := ToNumber(Lookup(payload, r.key).value, parse).value; x < r.lower || x > r.upper)
  {
    var schema := Schema(strategy).value;
    var r := schema[i];
    var e1, e2 := FieldError(r.key, NotANumber), FieldError(r.key, Between(r));
    ParamErrorsSplit(strategy, payload, parse, e1);
    ParamErrorsSplit(strategy, payload, parse, e2);
    UnknownKeyIff(payload, schema, r.key);
    MissingIff(schema, payload, r.key);
    SchemaKeysDistinct(strategy);
    ValueErrorsOf(schema, payload, parse, i, e1);
    ValueErrorsOf(schema, payload, parse, i, e2);
    ValueErrorIff(r, payload, parse);
    BetweenDistinct(r);
  }

  /** An unknown strategy is reported alone, whatever the payload. */
  lemma UnknownStrategyAlone(strategy: string, payload: Payload, parse: string -> Option<real>)
    requires strategy !in PresetStrategies
    ensures ParamErrors(strategy, payload, parse) == [UnknownStrategy(strategy)]
  {
  }

  lemma {:induction false} NoUnknownKeys(payload: Payload, schema: seq<Range>)
    requires forall i :: 0 <= i < |payload| ==> InSchema(schema, payload[i].0)
    ensures UnknownKeyErrors(payload, schema) == []
    decreases |payload|
  {
    if payload != [] {
      var n := |payload| - 1;
      assert forall i :: 0 <= i < n ==> payload[..n][i] == payload[i];
      NoUnknownKeys(payload[..n], schema);
    }
  }

  lemma {:induction false} NoMissingKeys(schema: seq<Range>, payload: Payload)
    requires forall j :: 0 <= j < |schema| ==> HasKey(payload, schema[j].key)
    ensures MissingErrors(schema, payload) == []
    decreases |schema|
  {
    if schema != [] {
      var n := |schema| - 1;
      assert forall j :: 0 <= j < n ==> schema[..n][j] == schema[j];
      NoMissingKeys(schema[..n], payload);
    }
  }

  lemma {:induction false} NoValueErrors(schema: seq<Range>, payload: Payload, parse: string -> Option<real>)
    requires forall j :: 0 <= j < |schema| ==> ValueError(schema[j], payload, parse) == []
    ensures ValueErrors(schema, payload, parse) == []
    decreases |schema|
  {
    if schema != [] {
      var n := |schema| - 1;
      var prefix := schema[..n];
      forall j | 0 <= j < n ensures ValueError(prefix[j], payload, parse) == [] {
        assert prefix[j] == schema[j];
      }
      NoValueErrors(prefix, payload, parse);
      assert ValueErrors(schema, payload, parse) == ValueErrors(prefix, payload, parse) + ValueError(schema[n], payload, parse);
    }
  }

  /** A payload is accepted when it has exactly the schema's keys, every value converts to a number
      inside its inclusive range and, for `vwap_rsi`, the buy ceiling is below the sell floor. */
  lemma AcceptedWhenValid(strategy: string, payload: Payload, parse: string -> Option<real>)
    requires strategy in PresetStrategies
    requires forall i :: 0 <= i < |payload| ==> InSchema(Schema(strategy).value, payload[i].0)
    requires forall j :: 0 <= j < |Schema(strategy).value| ==> HasKey(payload, Schema(strategy).value[j].key)
    requires forall j :: 0 <= j < |Schema(strategy).value| ==> ValueError(Schema(strategy).value[j], payload, parse) == []
    requires CrossCheckErrors(strategy, payload, parse) == []
    ensures ParamErrors(strategy, payload, parse) == []
  {
    var schema := Schema(strategy).value;
    NoUnknownKeys(payload, schema);
    NoMissingKeys(schema, payload);
    NoValueErrors(schema, payload, parse);
  }

  /** The bounds are inclusive: `vwap_atr_tolerance` at either bound is accepted. */
  lemma BoundariesAccepted(parse: string -> Option<real>)
    ensures ParamErrors("ema_vwap", [("vwap_atr_tolerance", Float(1.0))], parse) == []
    ensures ParamErrors("ema_vwap", [("vwap_atr_tolerance", Float(0.0))], parse) == []
  {
    var r := Range("vwap_atr_tolerance", 0.0, 1.0, "0.0", "1.0");
    assert Schema("ema_vwap").value == [r];
    var hi, lo := [(r.key, Float(1.0))], [(r.key, Float(0.0))];
    assert InSchema([r], hi[0].0) && HasKey(hi, r.key) && InSchema([r], lo[0].0) && HasKey(lo, r.key);
    assert Lookup(hi, r.key) == Some(Float(1.0)) && Lookup(lo, r.key) == Some(Float(0.0));
    assert ValueError([r][0], hi, parse) == [] && ValueError([r][0], lo, parse) == [];
    AcceptedWhenValid("ema_vwap", hi, parse);
    AcceptedWhenValid("ema_vwap", lo, parse);
  }

  /** A buy ceiling above the sell floor is reported on `rsi_buy_max`. */
  lemma CrossCheckExample(parse: string -> Option<real>)
    ensures CrossCheckErrors("vwap_rsi", [("rsi_buy_max", Float(70.0)), ("rsi_sell_min", Float(30.0))], parse)
      == [FieldError("rsi_buy_max", "Must be less than rsi_sell_min")]
  {
    var p := [("rsi_buy_max", Float(70.0)), ("rsi_sell_min", Float(30.0))];
    assert Lookup(p, "rsi_buy_max") == Some(Float(70.0));
    assert Lookup(p, "rsi_sell_min") == Some(Float(30.0));
  }

  /** Just past a bound is rejected, with the bounds in the message. */
  lemma OutOfRangeRejected(parse: string -> Option<real>)
    ensures ParamErrors("ema_vwap", [("vwap_atr_tolerance", Float(1.1))], parse)
      == [FieldError("vwap_atr_tolerance", "Must be between 0.0 and 1.0")]
  {
    var p := [("vwap_atr_tolerance", Float(1.1))];
    var schema := Schema("ema_vwap").value;
    assert schema[0].key == p[0].0;
    assert InSchema(schema, p[0].0) && HasKey(p, schema[0].key);
    assert UnknownKeyErrors(p, schema) == [] by {
      assert p[..0] == [];
    }
    assert MissingErrors(schema, p) == [] by {
      assert schema[..0] == [];
    }
    assert ValueErrors(schema, p, parse) == ValueError(schema[0], p, parse) by {
      assert schema[..0] == [];
    }
    assert Lookup(p, "vwap_atr_tolerance") == Some(Float(1.1));
    assert Between(schema[0]) == "Must be between 0.0 and 1.0";
    assert ValueError(schema[0], p, parse) == [FieldError("vwap_atr_tolerance", "Must be between 0.0 and 1.0")];
  }
}
