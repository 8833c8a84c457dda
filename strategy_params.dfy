/** The `strategy_params` table: one row of numeric parameters per (strategy, profile), a flag
    marking the profile each strategy runs with, the built-in presets that seed it, and the
    worker's cache of the active profile of every strategy. */
module StrategyParams {
  import opened Wrappers
  import opened Text

  /** `PROFILES`. */
  const Profiles: seq<string> := ["conservative", "normal", "aggressive"]

  /** The strategies of `DEFAULT_PRESETS`, in the order `seed_defaults` visits them. */
  const PresetStrategies: seq<string> := ["ema_vwap", "vwap_rsi", "bb_breakout"]

  /** The parameters of one profile (`dict[str, float]`). */
  type Params = map<string, real>

  /** `DEFAULT_PRESETS[strategy][profile]`. */
  function PresetParams(strategy: string, profile: string): Params
    requires strategy in PresetStrategies && profile in Profiles
  {
    if strategy == "ema_vwap" then
      if profile == "conservative" then map["vwap_atr_tolerance" := 0.1]
      else if profile == "normal" then map["vwap_atr_tolerance" := 0.2]
      else map["vwap_atr_tolerance" := 0.3]
    else if strategy == "vwap_rsi" then
      if profile == "conservative" then
        map["rsi_buy_max" := 20.0, "rsi_sell_min" := 80.0, "vwap_atr_tolerance" := 0.05, "rsi_period" := 3.0]
      else if profile == "normal" then
        map["rsi_buy_max" := 25.0, "rsi_sell_min" := 75.0, "vwap_atr_tolerance" := 0.1, "rsi_period" := 3.0]
      else
        map["rsi_buy_max" := 30.0, "rsi_sell_min" := 70.0, "vwap_atr_tolerance" := 0.15, "rsi_period" := 3.0]
    else
      if profile == "conservative" then
        map["volume_spike_mult" := 1.4, "squeeze_percentile" := 25.0, "squeeze_expand_mult" := 1.05]
      else if profile == "normal" then
        map["volume_spike_mult" := 1.2, "squeeze_percentile" := 35.0, "squeeze_expand_mult" := 1.02]
      else
        map["volume_spike_mult" := 1.05, "squeeze_percentile" := 45.0, "squeeze_expand_mult" := 1.0]
  }

  /** One row of `strategy_params`; `params` is what `params_json` decodes to. */
  datatype ParamRow = ParamRow(strategy: string, profile: string, params: Params, isActive: bool,
                               updatedTs: int, updatedBy: string)

  /** The UNIQUE(strategy_name, profile) constraint. */
  ghost predicate UniqueKeys(rows: seq<ParamRow>) {
    forall i, j :: 0 <= i < j < |rows| ==> rows[i].strategy != rows[j].strategy || rows[i].profile != rows[j].profile
  }

  /** The row of one (strategy, profile), if there is one. */
  function FindRow(rows: seq<ParamRow>, strategy: string, profile: string): (r: Option<nat>)
    ensures r.Some? ==> r.value < |rows| && rows[r.value].strategy == strategy && rows[r.value].profile == profile
    ensures r.None? ==> forall k :: 0 <= k < |rows| ==> rows[k].strategy != strategy || rows[k].profile != profile
    decreases |rows|
  {
    if rows == [] then None
    else if rows[|rows| - 1].strategy == strategy && rows[|rows| - 1].profile == profile then Some(|rows| - 1)
    else FindRow(rows[..|rows| - 1], strategy, profile)
  }

  /** Some row of `strategy` is active. */
  predicate HasActive(rows: seq<ParamRow>, strategy: string) {
    exists k :: 0 <= k < |rows| && rows[k].strategy == strategy && rows[k].isActive
  }

  /** Exactly the "normal" row of `strategy` is active. */
  ghost predicate OnlyNormalActive(rows: seq<ParamRow>, strategy: string) {
    forall k :: 0 <= k < |rows| && rows[k].strategy == strategy ==> (rows[k].isActive <==> rows[k].profile == "normal")
  }

  /** `SELECT COUNT(*) ... WHERE strategy_name = ? AND is_active = 1`. */
  function ActiveCount(rows: seq<ParamRow>, strategy: string): (n: nat)
    ensures n == 0 <==> !HasActive(rows, strategy)
    decreases |rows|
  {
    if rows == [] then 0
    else
      var last := rows[|rows| - 1];
      var n := ActiveCount(rows[..|rows| - 1], strategy);
      assert forall k :: 0 <= k < |rows| - 1 ==> rows[..|rows| - 1][k] == rows[k];
      if last.strategy == strategy && last.isActive then n + 1 else n
  }

  // ---------------------------------------------------------------------------------------------
  // seed_defaults

  /** The row `seed_defaults` inserts for a preset profile: active exactly when it is "normal". */
  function SeedRow(strategy: string, profile: string, now: int, updatedBy: string): ParamRow
    requires strategy in PresetStrategies && profile in Profiles
  {
    ParamRow(strategy, profile, PresetParams(strategy, profile), profile == "normal", now, updatedBy)
  }

  /** `INSERT ... ON CONFLICT(strategy_name, profile) DO NOTHING`. */
  function InsertIgnore(rows: seq<ParamRow>, row: ParamRow): seq<ParamRow> {
    if FindRow(rows, row.strategy, row.profile).Some? then rows else rows + [row]
  }

  /** The inner loop of `seed_defaults`: the preset rows of `strategy` for the profiles `ps`. */
  function InsertPresets(rows: seq<ParamRow>, strategy: string, ps: seq<string>, now: int, updatedBy: string): seq<ParamRow>
    requires strategy in PresetStrategies && forall p :: p in ps ==> p in Profiles
    decreases |ps|
  {
    if ps == [] then rows
    else InsertPresets(InsertIgnore(rows, SeedRow(strategy, ps[0], now, updatedBy)), strategy, ps[1..], now, updatedBy)
  }

  /** `UPDATE ... SET is_active = CASE WHEN profile = 'normal' THEN 1 ELSE 0 END WHERE strategy_name = ?`. */
  function ActivateNormal(rows: seq<ParamRow>, strategy: string): (r: seq<ParamRow>)
    ensures |r| == |rows|
    ensures forall k :: 0 <= k < |rows| ==>
      r[k] == if rows[k].strategy == strategy then rows[k].(isActive := rows[k].profile == "normal") else rows[k]
    decreases |rows|
  {
    if rows == [] then []
    else
      var last := rows[|rows| - 1];
      ActivateNormal(rows[..|rows| - 1], strategy)
        + [if last.strategy == strategy then last.(isActive := last.profile == "normal") else last]
  }

  /** One turn of the outer loop of `seed_defaults`. */
  function SeedStrategy(rows: seq<ParamRow>, strategy: string, now: int, updatedBy: string): seq<ParamRow>
    requires strategy in PresetStrategies
  {
    var inserted := InsertPresets(rows, strategy, Profiles, now, updatedBy);
    if ActiveCount(inserted, strategy) == 0 then ActivateNormal(inserted, strategy) else inserted
  }

  /** The outer loop of `seed_defaults` over the strategies `ss`. */
  function SeedFrom(rows: seq<ParamRow>, ss: seq<string>, now: int, updatedBy: string): seq<ParamRow>
    requires forall s :: s in ss ==> s in PresetStrategies
    decreases |ss|
  {
    if ss == [] then rows
    else SeedFrom(SeedStrategy(rows, ss[0], now, updatedBy), ss[1..], now, updatedBy)
  }

  /** `after` keeps every row of `before` at its place with its key, parameters and update
      stamp; only the active flag may differ. */
  ghost predicate KeepsRows(before: seq<ParamRow>, after: seq<ParamRow>) {
    |before| <= |after| &&
    forall k :: 0 <= k < |before| ==> after[k].(isActive := before[k].isActive) == before[k]
  }

  /** `after` leaves the rows of `strategy` alone and adds none. */
  ghost predicate Untouched(before: seq<ParamRow>, after: seq<ParamRow>, strategy: string) {
    && |before| <= |after|
    && (forall k :: 0 <= k < |before| && before[k].strategy == strategy ==> after[k] == before[k])
    && (forall k :: |before| <= k < |after| ==> after[k].strategy != strategy)
  }

  /** What the seeding of `strategy` does to the rows: everything of `before` kept but the active
      flags, the rows of other strategies not touched at all, a flag moved only when `strategy`
      had no active row (and then to "is it the normal row"), and the added rows preset rows of
      `strategy`, active exactly when "normal". */
  ghost predicate StepKeeps(before: seq<ParamRow>, after: seq<ParamRow>, strategy: string, now: int, updatedBy: string)
    requires strategy in PresetStrategies
  {
    && KeepsRows(before, after)
    && (forall k :: 0 <= k < |before| && before[k].strategy != strategy ==> after[k] == before[k])
    && (forall k :: 0 <= k < |before| && after[k].isActive != before[k].isActive ==>
          !HasActive(before, strategy) && (after[k].isActive <==> after[k].profile == "normal"))
    && (forall k :: |before| <= k < |after| ==> AddedRow(after[k], strategy, now, updatedBy))
  }

  /** A row `seed_defaults` added for `strategy`: a preset profile with its preset parameters and
      the seeding stamp, active exactly when it is the "normal" one. */
  ghost predicate AddedRow(row: ParamRow, strategy: string, now: int, updatedBy: string) {
    && row.strategy == strategy && row.profile in Profiles && strategy in PresetStrategies
    && row.params == PresetParams(strategy, row.profile) && row.updatedTs == now && row.updatedBy == updatedBy
    && (row.isActive <==> row.profile == "normal")
  }

  /** After the seeding of `strategy`: a row for every preset profile, some row active, and only
      the "normal" one when none was active before. */
  ghost predicate StepActive(before: seq<ParamRow>, after: seq<ParamRow>, strategy: string) {
    && (forall p :: p in Profiles ==> FindRow(after, strategy, p).Some?)
    && HasActive(after, strategy)
    && (!HasActive(before, strategy) ==> OnlyNormalActive(after, strategy))
  }

  lemma InsertIgnoreFacts(rows: seq<ParamRow>, row: ParamRow)
    requires UniqueKeys(rows)
    ensures UniqueKeys(InsertIgnore(rows, row))
    ensures FindRow(InsertIgnore(rows, row), row.strategy, row.profile).Some?
    ensures var r := InsertIgnore(rows, row); r == rows || r == rows + [row]
    ensures forall s, p :: FindRow(rows, s, p).Some? ==> FindRow(InsertIgnore(rows, row), s, p).Some?
  {
    var r := InsertIgnore(rows, row);
    if r != rows {
      assert r[|r| - 1] == row;
      forall s, p | FindRow(rows, s, p).Some? ensures FindRow(r, s, p).Some? {
        var k := FindRow(rows, s, p).value;
        assert r[k] == rows[k];
      }
    }
  }

  /** The preset rows of `strategy` for `ps` are added after the existing rows, one at most per
      profile, and afterwards every profile of `ps` has a row. */
  lemma {:induction false} InsertPresetsFacts(rows: seq<ParamRow>, strategy: string, ps: seq<string>, now: int, updatedBy: string)
    requires strategy in PresetStrategies && forall p :: p in ps ==> p in Profiles
    requires UniqueKeys(rows)
    ensures var r := InsertPresets(rows, strategy, ps, now, updatedBy);
      && UniqueKeys(r)
      && |rows| <= |r| && r[..|rows|] == rows
      && (forall k :: |rows| <= k < |r| ==> r[k].profile in ps && r[k] == SeedRow(strategy, r[k].profile, now, updatedBy))
      && (forall p :: p in ps ==> FindRow(r, strategy, p).Some?)
      && (forall s, p :: FindRow(rows, s, p).Some? ==> FindRow(r, s, p).Some?)
    decreases |ps|
  {
    if ps != [] {
      var row := SeedRow(strategy, ps[0], now, updatedBy);
      var rows1 := InsertIgnore(rows, row);
      InsertIgnoreFacts(rows, row);
      InsertPresetsFacts(rows1, strategy, ps[1..], now, updatedBy);
      var r := InsertPresets(rows1, strategy, ps[1..], now, updatedBy);
      assert r[..|rows1|] == rows1;
      assert r[..|rows|] == rows1[..|rows|];
      forall k | |rows| <= k < |r| ensures r[k].profile in ps && r[k] == SeedRow(strategy, r[k].profile, now, updatedBy) {
        if k < |rows1| {
          assert r[k] == rows1[k] == row;
        } else {
          assert r[k].profile in ps[1..];
        }
      }
      forall p | p in ps ensures FindRow(r, strategy, p).Some? {
        if p != ps[0] {
          assert p in ps[1..];
        }
      }
    }
  }

  lemma HasActiveOfPrefix(rows: seq<ParamRow>, r: seq<ParamRow>, strategy: string)
    requires |rows| <= |r| && r[..|rows|] == rows
    requires HasActive(rows, strategy)
    ensures HasActive(r, strategy)
  {
    var k :| 0 <= k < |rows| && rows[k].strategy == strategy && rows[k].isActive;
    assert r[k] == rows[k];
  }

  /** What the inner loop leaves: the old rows first, then preset rows of `strategy`, with a row
      for every preset profile. */
  ghost predicate Inserted(rows: seq<ParamRow>, ins: seq<ParamRow>, strategy: string, now: int, updatedBy: string)
    requires strategy in PresetStrategies
  {
    && UniqueKeys(ins)
    && |rows| <= |ins|
    && (forall k :: 0 <= k < |rows| ==> ins[k] == rows[k])
    && (forall k :: |rows| <= k < |ins| ==> ins[k].profile in Profiles && ins[k] == SeedRow(strategy, ins[k].profile, now, updatedBy))
    && (forall p :: p in Profiles ==> FindRow(ins, strategy, p).Some?)
  }

  lemma InsertedIntro(rows: seq<ParamRow>, strategy: string, now: int, updatedBy: string)
    requires strategy in PresetStrategies && UniqueKeys(rows)
    ensures Inserted(rows, InsertPresets(rows, strategy, Profiles, now, updatedBy), strategy, now, updatedBy)
  {
    var ins := InsertPresets(rows, strategy, Profiles, now, updatedBy);
    InsertPresetsFacts(rows, strategy, Profiles, now, updatedBy);
    forall k | 0 <= k < |rows| ensures ins[k] == rows[k] {
      assert ins[..|rows|][k] == ins[k];
    }
  }

  /** No row of the strategy is active after the inserts: the UPDATE makes "normal" the one. */
  lemma ActivatedKeeps(rows: seq<ParamRow>, ins: seq<ParamRow>, strategy: string, now: int, updatedBy: string)
    requires strategy in PresetStrategies
    requires Inserted(rows, ins, strategy, now, updatedBy) && !HasActive(ins, strategy)
    ensures UniqueKeys(ActivateNormal(ins, strategy))
    ensures StepKeeps(rows, ActivateNormal(ins, strategy), strategy, now, updatedBy)
  {
    var r := ActivateNormal(ins, strategy);
    forall i, j | 0 <= i < j < |r| ensures r[i].strategy != r[j].strategy || r[i].profile != r[j].profile {
      assert ins[i].strategy != ins[j].strategy || ins[i].profile != ins[j].profile;
    }
    forall k | |rows| <= k < |r| ensures AddedRow(r[k], strategy, now, updatedBy) {
      assert ins[k] == SeedRow(strategy, ins[k].profile, now, updatedBy);
    }
  }

  lemma ActivatedActive(rows: seq<ParamRow>, ins: seq<ParamRow>, strategy: string, now: int, updatedBy: string)
    requires strategy in PresetStrategies
    requires Inserted(rows, ins, strategy, now, updatedBy) && !HasActive(ins, strategy)
    ensures StepActive(rows, ActivateNormal(ins, strategy), strategy)
  {
    var r := ActivateNormal(ins, strategy);
    forall p | p in Profiles ensures FindRow(r, strategy, p).Some? {
      var k := FindRow(ins, strategy, p).value;
      assert r[k].strategy == strategy && r[k].profile == p;
    }
    var normal := FindRow(ins, strategy, "normal").value;
    assert r[normal].isActive;
  }

  /** Some row of the strategy is already active after the inserts: nothing is updated. */
  lemma KeptKeeps(rows: seq<ParamRow>, ins: seq<ParamRow>, strategy: string, now: int, updatedBy: string)
    requires strategy in PresetStrategies
    requires Inserted(rows, ins, strategy, now, updatedBy)
    ensures StepKeeps(rows, ins, strategy, now, updatedBy)
  {
    forall k | |rows| <= k < |ins| ensures AddedRow(ins[k], strategy, now, updatedBy) {
      assert ins[k] == SeedRow(strategy, ins[k].profile, now, updatedBy);
    }
  }

  lemma KeptActive(rows: seq<ParamRow>, ins: seq<ParamRow>, strategy: string, now: int, updatedBy: string)
    requires strategy in PresetStrategies
    requires Inserted(rows, ins, strategy, now, updatedBy) && HasActive(ins, strategy)
    ensures StepActive(rows, ins, strategy)
  {
    if !HasActive(rows, strategy) {
      // The active row is an added one, so it is the added "normal" row, and no old row of the
      // strategy can be "normal" as well.
      var k0 :| 0 <= k0 < |ins| && ins[k0].strategy == strategy && ins[k0].isActive;
      assert k0 >= |rows|;
      assert ins[k0] == SeedRow(strategy, ins[k0].profile, now, updatedBy);
      forall k | 0 <= k < |ins| && ins[k].strategy == strategy ensures (ins[k].isActive <==> ins[k].profile == "normal") {
        if k < |rows| {
          assert ins[k] == rows[k] && k < k0;
          assert ins[k].strategy != ins[k0].strategy || ins[k].profile != ins[k0].profile;
        } else {
          assert ins[k] == SeedRow(strategy, ins[k].profile, now, updatedBy);
        }
      }
    }
  }

  /** The seeding of one strategy keeps the table's keys unique and does what `StepKeeps` and
      `StepActive` say. */
  lemma SeedStrategyFacts(rows: seq<ParamRow>, strategy: string, now: int, updatedBy: string)
    requires strategy in PresetStrategies && UniqueKeys(rows)
    ensures UniqueKeys(SeedStrategy(rows, strategy, now, updatedBy))
    ensures StepKeeps(rows, SeedStrategy(rows, strategy, now, updatedBy), strategy, now, updatedBy)
    ensures StepActive(rows, SeedStrategy(rows, strategy, now, updatedBy), strategy)
  {
    var ins := InsertPresets(rows, strategy, Profiles, now, updatedBy);
    InsertedIntro(rows, strategy, now, updatedBy);
    if ActiveCount(ins, strategy) == 0 {
      ActivatedKeeps(rows, ins, strategy, now, updatedBy);
      ActivatedActive(rows, ins, strategy, now, updatedBy);
    } else {
      KeptKeeps(rows, ins, strategy, now, updatedBy);
      KeptActive(rows, ins, strategy, now, updatedBy);
    }
  }

  /** What the seeding of the strategies `ss` does, in terms of the rows before and after. */
  ghost predicate Seeded(before: seq<ParamRow>, after: seq<ParamRow>, ss: seq<string>, now: int, updatedBy: string) {
    && KeepsRows(before, after)
    && (forall k :: 0 <= k < |before| && before[k].strategy !in ss ==> after[k] == before[k])
    && (forall k :: 0 <= k < |before| && after[k].isActive != before[k].isActive ==>
          before[k].strategy in ss && !HasActive(before, before[k].strategy)
          && (after[k].isActive <==> after[k].profile == "normal"))
    && (forall k :: |before| <= k < |after| ==> after[k].strategy in ss && AddedRow(after[k], after[k].strategy, now, updatedBy))
    && (forall s :: s in ss ==> StepActive(before, after, s))
  }

  /** A strategy other than `strategy` has the same active rows before and after its seeding. */
  lemma OtherActive(before: seq<ParamRow>, after: seq<ParamRow>, strategy: string, other: string, now: int, updatedBy: string)
    requires strategy in PresetStrategies && StepKeeps(before, after, strategy, now, updatedBy) && other != strategy
    ensures HasActive(before, other) <==> HasActive(after, other)
  {
    if HasActive(before, other) {
      var k :| 0 <= k < |before| && before[k].strategy == other && before[k].isActive;
      assert after[k] == before[k];
    }
    if HasActive(after, other) {
      var k :| 0 <= k < |after| && after[k].strategy == other && after[k].isActive;
      assert after[k] == before[k];
    }
  }

  lemma SeededComposeKeeps(rows: seq<ParamRow>, r1: seq<ParamRow>, r: seq<ParamRow>, s0: string, rest: seq<string>,
                           now: int, updatedBy: string)
    requires s0 in PresetStrategies && s0 !in rest
    requires StepKeeps(rows, r1, s0, now, updatedBy) && Seeded(r1, r, rest, now, updatedBy)
    ensures KeepsRows(rows, r)
    ensures forall k :: 0 <= k < |rows| && rows[k].strategy !in [s0] + rest ==> r[k] == rows[k]
    ensures forall k :: |rows| <= k < |r| ==> r[k].strategy in [s0] + rest && AddedRow(r[k], r[k].strategy, now, updatedBy)
  {
    forall k | 0 <= k < |rows| ensures r[k].(isActive := rows[k].isActive) == rows[k] {
      assert r1[k].(isActive := rows[k].isActive) == rows[k];
      assert r[k].(isActive := r1[k].isActive) == r1[k];
    }
    forall k | 0 <= k < |rows| && rows[k].strategy !in [s0] + rest ensures r[k] == rows[k] {
      assert r1[k] == rows[k];
    }
    forall k | |rows| <= k < |r| ensures r[k].strategy in [s0] + rest && AddedRow(r[k], r[k].strategy, now, updatedBy) {
      if k < |r1| {
        assert AddedRow(r1[k], s0, now, updatedBy);
        assert r[k] == r1[k];
      }
    }
  }

  lemma SeededComposeFlags(rows: seq<ParamRow>, r1: seq<ParamRow>, r: seq<ParamRow>, s0: string, rest: seq<string>,
                           now: int, updatedBy: string)
    requires s0 in PresetStrategies && s0 !in rest
    requires StepKeeps(rows, r1, s0, now, updatedBy) && Seeded(r1, r, rest, now, updatedBy)
    ensures forall k :: 0 <= k < |rows| && r[k].isActive != rows[k].isActive ==>
      rows[k].strategy in [s0] + rest && !HasActive(rows, rows[k].strategy)
      && (r[k].isActive <==> r[k].profile == "normal")
  {
    forall k | 0 <= k < |rows| && r[k].isActive != rows[k].isActive
      ensures rows[k].strategy in [s0] + rest && !HasActive(rows, rows[k].strategy)
        && (r[k].isActive <==> r[k].profile == "normal")
    {
      assert r1[k].(isActive := rows[k].isActive) == rows[k];
      assert r[k].(isActive := r1[k].isActive) == r1[k];
      if r1[k].isActive != rows[k].isActive {
        // Moved by the seeding of s0, so a row of s0, which the later strategies leave alone.
        assert rows[k].strategy == s0;
        assert r[k] == r1[k];
      } else {
        var t := rows[k].strategy;
        assert t == r1[k].strategy && t in rest && t != s0;
        OtherActive(rows, r1, s0, t, now, updatedBy);
      }
    }
  }

  lemma SeededComposeActive(rows: seq<ParamRow>, r1: seq<ParamRow>, r: seq<ParamRow>, s0: string, rest: seq<string>,
                            now: int, updatedBy: string)
    requires s0 in PresetStrategies && s0 !in rest
    requires StepKeeps(rows, r1, s0, now, updatedBy) && StepActive(rows, r1, s0) && Seeded(r1, r, rest, now, updatedBy)
    ensures forall s :: s in [s0] + rest ==> StepActive(rows, r, s)
  {
    forall s | s in [s0] + rest ensures StepActive(rows, r, s) {
      if s == s0 {
        forall p | p in Profiles ensures FindRow(r, s0, p).Some? {
          var k := FindRow(r1, s0, p).value;
          assert r[k] == r1[k];
        }
        var k :| 0 <= k < |r1| && r1[k].strategy == s0 && r1[k].isActive;
        assert r[k] == r1[k];
        if !HasActive(rows, s0) {
          forall k | 0 <= k < |r| && r[k].strategy == s0 ensures (r[k].isActive <==> r[k].profile == "normal") {
            assert k < |r1| && r[k] == r1[k];
          }
        }
      } else {
        assert s in rest;
        OtherActive(rows, r1, s0, s, now, updatedBy);
      }
    }
  }

  /** Seeding the strategies `ss` in turn. */
  lemma {:induction false} SeedFromFacts(rows: seq<ParamRow>, ss: seq<string>, now: int, updatedBy: string)
    requires UniqueKeys(rows)
    requires forall s :: s in ss ==> s in PresetStrategies
    requires forall i, j :: 0 <= i < j < |ss| ==> ss[i] != ss[j]
    ensures UniqueKeys(SeedFrom(rows, ss, now, updatedBy))
    ensures Seeded(rows, SeedFrom(rows, ss, now, updatedBy), ss, now, updatedBy)
    decreases |ss|
  {
    if ss != [] {
      var s0, rest := ss[0], ss[1..];
      var r1 := SeedStrategy(rows, s0, now, updatedBy);
      SeedStrategyFacts(rows, s0, now, updatedBy);
      DistinctTail(ss);
      SeedFromFacts(r1, rest, now, updatedBy);
      var r := SeedFrom(r1, rest, now, updatedBy);
      SeededCompose(rows, r1, r, ss, now, updatedBy);
    }
  }

  lemma DistinctTail(ss: seq<string>)
    requires ss != [] && forall i, j :: 0 <= i < j < |ss| ==> ss[i] != ss[j]
    ensures ss[0] !in ss[1..] && forall i, j :: 0 <= i < j < |ss[1..]| ==> ss[1..][i] != ss[1..][j]
  {
    forall i, j | 0 <= i < j < |ss[1..]| ensures ss[1..][i] != ss[1..][j] {
      assert ss[1..][i] == ss[i + 1] && ss[1..][j] == ss[j + 1];
    }
  }

  /** The seeding of `s0` followed by the seeding of `rest`. */
  lemma SeededCompose(rows: seq<ParamRow>, r1: seq<ParamRow>, r: seq<ParamRow>, ss: seq<string>,
                      now: int, updatedBy: string)
    requires ss != [] && ss[0] in PresetStrategies && ss[0] !in ss[1..]
    requires StepKeeps(rows, r1, ss[0], now, updatedBy) && StepActive(rows, r1, ss[0]) && Seeded(r1, r, ss[1..], now, updatedBy)
    ensures Seeded(rows, r, ss, now, updatedBy)
  {
    var s0, rest := ss[0], ss[1..];
    assert ss == [s0] + rest;
    SeededComposeKeeps(rows, r1, r, s0, rest, now, updatedBy);
    SeededComposeFlags(rows, r1, r, s0, rest, now, updatedBy);
    SeededComposeActive(rows, r1, r, s0, rest, now, updatedBy);
  }

  /** `seed_defaults` as a whole: the old rows all stay (only flags move, and only for a preset
      strategy that had no active row, towards "normal"), the added rows are preset rows, every
      preset profile has a row, every preset strategy has an active row, and one that had none
      ends with exactly its "normal" row active. */
  lemma SeedDefaultsFacts(rows: seq<ParamRow>, now: int, updatedBy: string)
    requires UniqueKeys(rows)
    ensures UniqueKeys(SeedFrom(rows, PresetStrategies, now, updatedBy))
    ensures Seeded(rows, SeedFrom(rows, PresetStrategies, now, updatedBy), PresetStrategies, now, updatedBy)
  {
    SeedFromFacts(rows, PresetStrategies, now, updatedBy);
  }

  /** Seeding can leave two active profiles: an active "custom" row of a strategy without a
      "normal" row keeps its flag, and the inserted "normal" row is active as well. */
  lemma SeedCanLeaveTwoActive(now: int)
    ensures var before := [ParamRow("ema_vwap", "custom", map[], true, 0, "ops")];
      var after := SeedFrom(before, PresetStrategies, now, "system");
      && after[0].profile == "custom" && after[0].isActive
      && FindRow(after, "ema_vwap", "normal").Some? && after[FindRow(after, "ema_vwap", "normal").value].isActive
  {
    var before := [ParamRow("ema_vwap", "custom", map[], true, 0, "ops")];
    SeedDefaultsFacts(before, now, "system");
    var after := SeedFrom(before, PresetStrategies, now, "system");
    assert HasActive(before, "ema_vwap");
    assert StepActive(before, after, "ema_vwap");
    var k := FindRow(after, "ema_vwap", "normal").value;
    assert k != 0;
    assert AddedRow(after[k], after[k].strategy, now, "system");
  }

  // ---------------------------------------------------------------------------------------------
  // upsert_profile_params and set_active_profile

  /** `INSERT ... VALUES (..., 0, ...) ON CONFLICT DO UPDATE SET params_json, updated_ts_utc, updated_by`. */
  function UpsertRows(rows: seq<ParamRow>, strategy: string, profile: string, params: Params, now: int,
                      updatedBy: string): seq<ParamRow> {
    match FindRow(rows, strategy, profile)
    case None => rows + [ParamRow(strategy, profile, params, false, now, updatedBy)]
    case Some(i) => rows[i := rows[i].(params := params, updatedTs := now, updatedBy := updatedBy)]
  }

  /** The index an upsert writes: the existing row of the key, else a new last row. */
  lemma UpsertIndex(rows: seq<ParamRow>, strategy: string, profile: string, params: Params, now: int, updatedBy: string)
    requires UniqueKeys(rows)
    ensures var r := UpsertRows(rows, strategy, profile, params, now, updatedBy);
      && FindRow(r, strategy, profile).Some?
      && FindRow(r, strategy, profile).value == FindRow(rows, strategy, profile).GetOr(|rows|)
  {
    var r := UpsertRows(rows, strategy, profile, params, now, updatedBy);
    var w := FindRow(rows, strategy, profile).GetOr(|rows|);
    assert w < |r| && r[w].strategy == strategy && r[w].profile == profile;
  }

  /** After an upsert the (strategy, profile) row holds the new parameters and stamp; a new row is
      inactive and an existing one keeps its flag; every other row is unchanged and keys stay
      unique. */
  lemma UpsertFacts(rows: seq<ParamRow>, strategy: string, profile: string, params: Params, now: int, updatedBy: string)
    requires UniqueKeys(rows)
    ensures var r := UpsertRows(rows, strategy, profile, params, now, updatedBy);
      && UniqueKeys(r)
      && FindRow(r, strategy, profile).Some?
      && var row := r[FindRow(r, strategy, profile).value];
         row.params == params && row.updatedTs == now && row.updatedBy == updatedBy
         && (FindRow(rows, strategy, profile).None? ==> !row.isActive)
         && (FindRow(rows, strategy, profile).Some? ==> row.isActive == rows[FindRow(rows, strategy, profile).value].isActive)
    ensures var r := UpsertRows(rows, strategy, profile, params, now, updatedBy);
      forall k :: 0 <= k < |rows| && (rows[k].strategy != strategy || rows[k].profile != profile) ==> r[k] == rows[k]
  {
    UpsertIndex(rows, strategy, profile, params, now, updatedBy);
  }

  /** An upsert never changes which strategies have an active row. */
  lemma UpsertKeepsActive(rows: seq<ParamRow>, strategy: string, profile: string, params: Params, now: int, updatedBy: string, t: string)
    ensures HasActive(UpsertRows(rows, strategy, profile, params, now, updatedBy), t) <==> HasActive(rows, t)
  {
    var r := UpsertRows(rows, strategy, profile, params, now, updatedBy);
    if HasActive(rows, t) {
      var k :| 0 <= k < |rows| && rows[k].strategy == t && rows[k].isActive;
      assert r[k].strategy == t && r[k].isActive;
    }
    if HasActive(r, t) {
      var k :| 0 <= k < |r| && r[k].strategy == t && r[k].isActive;
      assert k < |rows| && rows[k].strategy == t && rows[k].isActive;
    }
  }

  /** `UPDATE ... SET is_active = (profile = ?), updated_ts_utc = ?, updated_by = ? WHERE strategy_name = ?`. */
  function SetActiveRows(rows: seq<ParamRow>, strategy: string, profile: string, now: int, updatedBy: string): (r: seq<ParamRow>)
    ensures |r| == |rows|
    ensures forall k :: 0 <= k < |rows| ==>
      r[k] == if rows[k].strategy == strategy
              then rows[k].(isActive := rows[k].profile == profile, updatedTs := now, updatedBy := updatedBy)
              else rows[k]
    decreases |rows|
  {
    if rows == [] then []
    else
      var last := rows[|rows| - 1];
      SetActiveRows(rows[..|rows| - 1], strategy, profile, now, updatedBy)
        + [if last.strategy == strategy then last.(isActive := last.profile == profile, updatedTs := now, updatedBy := updatedBy)
           else last]
  }

  /** `set_active_profile` on the rows: an unknown (strategy, profile) raises `KeyError` and
      changes nothing. */
  function SetActive(rows: seq<ParamRow>, strategy: string, profile: string, now: int, updatedBy: string): Result<seq<ParamRow>> {
    if FindRow(rows, strategy, profile).None? then Failure("unknown profile " + profile + " for " + strategy)
    else Success(SetActiveRows(rows, strategy, profile, now, updatedBy))
  }

  /** Exactly one row of `strategy` is active when the active rows of it are those of one
      profile that has a row. */
  lemma {:induction false} ActiveCountOne(rows: seq<ParamRow>, strategy: string, profile: string)
    requires UniqueKeys(rows) && FindRow(rows, strategy, profile).Some?
    requires forall k :: 0 <= k < |rows| && rows[k].strategy == strategy ==> (rows[k].isActive <==> rows[k].profile == profile)
    ensures ActiveCount(rows, strategy) == 1
    decreases |rows|
  {
    var n := |rows| - 1;
    var prefix := rows[..n];
    assert forall k :: 0 <= k < n ==> prefix[k] == rows[k];
    if rows[n].strategy == strategy && rows[n].profile == profile {
      assert !HasActive(prefix, strategy) by {
        forall k | 0 <= k < n && prefix[k].strategy == strategy ensures !prefix[k].isActive {
          assert rows[k].strategy != rows[n].strategy || rows[k].profile != rows[n].profile;
        }
      }
    } else {
      assert FindRow(prefix, strategy, profile).Some? by {
        var i := FindRow(rows, strategy, profile).value;
        assert i < n && prefix[i] == rows[i];
      }
      ActiveCountOne(prefix, strategy, profile);
    }
  }

  /** `set_active_profile`: an unknown profile is an error that changes nothing; otherwise exactly
      the chosen profile of the strategy is active (one row), every row of the strategy gets the new
      stamp, and the rows of other strategies are untouched. */
  lemma SetActiveFacts(rows: seq<ParamRow>, strategy: string, profile: string, now: int, updatedBy: string)
    requires UniqueKeys(rows)
    ensures var r := SetActive(rows, strategy, profile, now, updatedBy);
      r.Failure? <==> forall k :: 0 <= k < |rows| ==> rows[k].strategy != strategy || rows[k].profile != profile
    ensures var r := SetActive(rows, strategy, profile, now, updatedBy);
      r.Success? ==>
        && UniqueKeys(r.value)
        && |r.value| == |rows|
        && ActiveCount(r.value, strategy) == 1
        && (forall k :: 0 <= k < |rows| && rows[k].strategy == strategy ==>
              (r.value[k].isActive <==> rows[k].profile == profile) && r.value[k].updatedTs == now
              && r.value[k].params == rows[k].params)
        && (forall k :: 0 <= k < |rows| && rows[k].strategy != strategy ==> r.value[k] == rows[k])
  {
    var r := SetActive(rows, strategy, profile, now, updatedBy);
    if r.Success? {
      var t := r.value;
      forall i, j | 0 <= i < j < |t| ensures t[i].strategy != t[j].strategy || t[i].profile != t[j].profile {
        assert rows[i].strategy != rows[j].strategy || rows[i].profile != rows[j].profile;
      }
      var i := FindRow(rows, strategy, profile).value;
      assert t[i].strategy == strategy && t[i].profile == profile;
      ActiveCountOne(t, strategy, profile);
    }
  }

  // ---------------------------------------------------------------------------------------------
  // list_strategy_params

  /** The body of `list_strategy_params`. */
  datatype Listing = Listing(strategyName: string, activeProfile: string, profiles: map<string, Params>)

  /** `{profile: params}` over the rows of `strategy`. */
  function ProfilesOf(rows: seq<ParamRow>, strategy: string): (m: map<string, Params>)
    ensures forall p :: p in m <==> exists k :: 0 <= k < |rows| && rows[k].strategy == strategy && rows[k].profile == p
    decreases |rows|
  {
    if rows == [] then map[]
    else
      var last := rows[|rows| - 1];
      var m := ProfilesOf(rows[..|rows| - 1], strategy);
      assert forall k :: 0 <= k < |rows| - 1 ==> rows[..|rows| - 1][k] == rows[k];
      if last.strategy == strategy then m[last.profile := last.params] else m
  }

  lemma {:induction false} ProfilesOfValue(rows: seq<ParamRow>, strategy: string, k: nat)
    requires UniqueKeys(rows) && k < |rows| && rows[k].strategy == strategy
    ensures rows[k].profile in ProfilesOf(rows, strategy) && ProfilesOf(rows, strategy)[rows[k].profile] == rows[k].params
    decreases |rows|
  {
    var n := |rows| - 1;
    if k < n {
      assert rows[k].strategy != rows[n].strategy || rows[k].profile != rows[n].profile;
      UniqueKeysPrefix(rows, n);
      assert rows[..n][k] == rows[k];
      ProfilesOfValue(rows[..n], strategy, k);
    }
  }

  lemma UniqueKeysPrefix(rows: seq<ParamRow>, n: nat)
    requires UniqueKeys(rows) && n <= |rows|
    ensures UniqueKeys(rows[..n])
  {
    forall i, j | 0 <= i < j < n ensures rows[..n][i].strategy != rows[..n][j].strategy || rows[..n][i].profile != rows[..n][j].profile {
      assert rows[..n][i] == rows[i] && rows[..n][j] == rows[j];
    }
  }

  /** The profiles of the active rows of `strategy`. */
  function ActiveProfiles(rows: seq<ParamRow>, strategy: string): set<string> {
    set k | 0 <= k < |rows| && rows[k].strategy == strategy && rows[k].isActive :: rows[k].profile
  }

  /** `list_strategy_params`: `KeyError` for a strategy without rows; otherwise every profile with
      its parameters, and as the active profile the first active one in profile order, "normal"
      when none is active. */
  function ListStrategyParams(rows: seq<ParamRow>, strategy: string): (r: Result<Listing>)
    ensures r.Failure? <==> forall k :: 0 <= k < |rows| ==> rows[k].strategy != strategy
    ensures r.Failure? ==> r.error == strategy
    ensures r.Success? ==>
      && r.value.strategyName == strategy
      && (forall p :: p in r.value.profiles <==> exists k :: 0 <= k < |rows| && rows[k].strategy == strategy && rows[k].profile == p)
      && (!HasActive(rows, strategy) ==> r.value.activeProfile == "normal")
      && (HasActive(rows, strategy) ==>
            (exists k :: 0 <= k < |rows| && rows[k].strategy == strategy && rows[k].isActive && rows[k].profile == r.value.activeProfile)
            && forall k :: 0 <= k < |rows| && rows[k].strategy == strategy && rows[k].isActive ==> LexLe(r.value.activeProfile, rows[k].profile))
  {
    if forall k :: 0 <= k < |rows| ==> rows[k].strategy != strategy then Failure(strategy)
    else
      var active := ActiveProfiles(rows, strategy);
      assert HasActive(rows, strategy) ==> active != {} by {
        if HasActive(rows, strategy) {
          var k :| 0 <= k < |rows| && rows[k].strategy == strategy && rows[k].isActive;
          assert rows[k].profile in active;
        }
      }
      Success(Listing(strategy, if active == {} then "normal" else Least(active), ProfilesOf(rows, strategy)))
  }

  // ---------------------------------------------------------------------------------------------
  // The table

  /** The `strategy_params` table. */
  class ParamsTable {
    var rows: seq<ParamRow>

    ghost predicate Valid()
      reads this
    {
      UniqueKeys(rows)
    }

    constructor ()
      ensures Valid() && rows == []
    {
      rows := [];
    }

    /** `seed_defaults`: for each preset strategy, insert its missing preset profiles, then make
        "normal" the active one if no row of the strategy is active. */
    method SeedDefaults(now: int, updatedBy: string)
      requires Valid()
      modifies this
      ensures Valid()
      ensures rows == SeedFrom(old(rows), PresetStrategies, now, updatedBy)
      ensures Seeded(old(rows), rows, PresetStrategies, now, updatedBy)
    {
      SeedDefaultsFacts(rows, now, updatedBy);
      var t := rows;
      var i := 0;
      while i < |PresetStrategies|
        invariant 0 <= i <= |PresetStrategies|
        invariant UniqueKeys(t)
        invariant SeedFrom(old(rows), PresetStrategies, now, updatedBy) == SeedFrom(t, PresetStrategies[i..], now, updatedBy)
      {
        t := SeedStrategyRows(t, PresetStrategies[i], now, updatedBy);
        assert PresetStrategies[i..][1..] == PresetStrategies[i + 1..];
        i := i + 1;
      }
      assert PresetStrategies[i..] == [];
      rows := t;
    }

    /** One strategy of `seed_defaults`: the inserts of its preset profiles, the count of its
        active rows and, when that is zero, the update that activates "normal". */
    static method SeedStrategyRows(rows: seq<ParamRow>, strategy: string, now: int, updatedBy: string)
      returns (t: seq<ParamRow>)
      requires UniqueKeys(rows) && strategy in PresetStrategies
      ensures UniqueKeys(t)
      ensures t == SeedStrategy(rows, strategy, now, updatedBy)
    {
      t := rows;
      var j := 0;
      while j < |Profiles|
        invariant 0 <= j <= |Profiles|
        invariant UniqueKeys(t)
        invariant InsertPresets(rows, strategy, Profiles, now, updatedBy) == InsertPresets(t, strategy, Profiles[j..], now, updatedBy)
      {
        var row := SeedRow(strategy, Profiles[j], now, updatedBy);
        InsertIgnoreFacts(t, row);
        assert Profiles[j..][1..] == Profiles[j + 1..];
        t := InsertIgnore(t, row);
        j := j + 1;
      }
      var activeCount := ActiveCount(t, strategy);
      if activeCount == 0 {
        t := ActivateNormal(t, strategy);
      }
      SeedStrategyFacts(rows, strategy, now, updatedBy);
    }

    /** `upsert_profile_params`. */
    method UpsertProfileParams(strategy: string, profile: string, params: Params, now: int, updatedBy: string)
      requires Valid()
      modifies this
      ensures Valid()
      ensures rows == UpsertRows(old(rows), strategy, profile, params, now, updatedBy)
    {
      UpsertFacts(rows, strategy, profile, params, now, updatedBy);
      rows := UpsertRows(rows, strategy, profile, params, now, updatedBy);
    }

    /** `set_active_profile`. */
    method SetActiveProfile(strategy: string, profile: string, now: int, updatedBy: string) returns (r: Outcome)
      requires Valid()
      modifies this
      ensures Valid()
      ensures var s := SetActive(old(rows), strategy, profile, now, updatedBy);
        && (s.Failure? ==> r == Fail(s.error) && rows == old(rows))
        && (s.Success? ==> r == Pass && rows == s.value)
    {
      var found := FindRow(rows, strategy, profile);
      if found.None? {
        return Fail("unknown profile " + profile + " for " + strategy);
      }
      SetActiveFacts(rows, strategy, profile, now, updatedBy);
      rows := SetActiveRows(rows, strategy, profile, now, updatedBy);
      r := Pass;
    }
  }

  // ---------------------------------------------------------------------------------------------
  // StrategyParamsService

  /** `StrategyParamsSnapshot`. */
  datatype Snapshot = Snapshot(strategyName: string, profile: string, params: Params)

  function SnapshotOf(row: ParamRow): Snapshot {
    Snapshot(row.strategy, row.profile, row.params)
  }

  /** The preset "normal" profile of a preset strategy. */
  function NormalSnapshot(strategy: string): Snapshot
    requires strategy in PresetStrategies
  {
    Snapshot(strategy, "normal", PresetParams(strategy, "normal"))
  }

  /** `SELECT ... WHERE is_active = 1`, in table order. */
  function ActiveRows(rows: seq<ParamRow>): (r: seq<ParamRow>)
    ensures forall row :: row in r <==> row in rows && row.isActive
    decreases |rows|
  {
    if rows == [] then []
    else
      var last := rows[|rows| - 1];
      assert rows == rows[..|rows| - 1] + [last];
      ActiveRows(rows[..|rows| - 1]) + (if last.isActive then [last] else [])
  }

  /** The first loop of `reload`: one entry per strategy, the later row winning. */
  function CacheOf(rows: seq<ParamRow>): map<string, Snapshot>
    decreases |rows|
  {
    if rows == [] then map[]
    else
      var last := rows[|rows| - 1];
      CacheOf(rows[..|rows| - 1])[last.strategy := SnapshotOf(last)]
  }

  /** Caching the active rows keeps, for a strategy, the snapshot of its last active row. */
  lemma {:induction false} LastActiveRow(rows: seq<ParamRow>, strategy: string, k: nat)
    requires k < |rows| && rows[k].strategy == strategy && rows[k].isActive
    requires forall j :: k < j < |rows| ==> !(rows[j].strategy == strategy && rows[j].isActive)
    ensures strategy in CacheOf(ActiveRows(rows)) && CacheOf(ActiveRows(rows))[strategy] == SnapshotOf(rows[k])
    decreases |rows|
  {
    var n := |rows| - 1;
    var prefix := rows[..n];
    var xs := ActiveRows(prefix);
    if rows[n].isActive {
      assert ActiveRows(rows) == xs + [rows[n]];
      assert (xs + [rows[n]])[..|xs|] == xs;
      assert CacheOf(ActiveRows(rows)) == CacheOf(xs)[rows[n].strategy := SnapshotOf(rows[n])];
    } else {
      assert ActiveRows(rows) == xs;
    }
    if k < n {
      assert prefix[k] == rows[k];
      assert forall j :: k < j < n ==> prefix[j] == rows[j];
      LastActiveRow(prefix, strategy, k);
    }
  }

  /** The second loop of `reload`: each preset strategy still missing gets its "normal" preset. */
  function WithPresets(cache: map<string, Snapshot>, ss: seq<string>): (m: map<string, Snapshot>)
    requires forall s :: s in ss ==> s in PresetStrategies
    ensures forall s :: s in m <==> s in cache || s in ss
    ensures forall s :: s in cache ==> m[s] == cache[s]
    ensures forall s :: s in ss && s !in cache ==> m[s] == NormalSnapshot(s)
    decreases |ss|
  {
    if ss == [] then cache
    else
      var init := ss[..|ss| - 1];
      var last := ss[|ss| - 1];
      assert ss == init + [last];
      var m := WithPresets(cache, init);
      if last in m then m else m[last := NormalSnapshot(last)]
  }

  /** The worker's cache of the active parameters of every strategy. */
  class StrategyParamsService {
    var cache: map<string, Snapshot>

    /** `__init__`: an empty cache, then `reload`. */
    constructor (table: ParamsTable, now: int, available: bool)
      requires table.Valid()
      modifies table
      ensures table.Valid()
      ensures available ==> table.rows == SeedFrom(old(table.rows), PresetStrategies, now, "system")
                            && cache == WithPresets(CacheOf(ActiveRows(table.rows)), PresetStrategies)
      ensures !available ==> table.rows == old(table.rows) && cache == WithPresets(map[], PresetStrategies)
    {
      cache := map[];
      new;
      Reload(table, now, available);
    }

    /** `reload`: seed the table, then cache every active row (the later one winning for a
        strategy), then fill in the "normal" preset of every preset strategy still missing. When
        the database cannot be read, `available` is false: nothing is written and only the presets
        are cached. */
    method Reload(table: ParamsTable, now: int, available: bool)
      requires table.Valid()
      modifies this, table
      ensures table.Valid()
      ensures available ==> table.rows == SeedFrom(old(table.rows), PresetStrategies, now, "system")
                            && cache == WithPresets(CacheOf(ActiveRows(table.rows)), PresetStrategies)
      ensures !available ==> table.rows == old(table.rows) && cache == WithPresets(map[], PresetStrategies)
    {
      var active: seq<ParamRow> := [];
      if available {
        table.SeedDefaults(now, "system");
        active := ActiveRows(table.rows);
      }
      var fromRows := CacheRows(active);
      cache := FillPresets(fromRows, PresetStrategies);
    }

    /** The first loop of `reload`. */
    static method CacheRows(active: seq<ParamRow>) returns (next: map<string, Snapshot>)
      ensures next == CacheOf(active)
    {
      next := map[];
      var i := 0;
      while i < |active|
        invariant 0 <= i <= |active|
        invariant next == CacheOf(active[..i])
      {
        assert active[..i + 1][..i] == active[..i];
        next := next[active[i].strategy := SnapshotOf(active[i])];
        i := i + 1;
      }
      assert active[..|active|] == active;
    }

    /** The second loop of `reload`. */
    static method FillPresets(fromRows: map<string, Snapshot>, ss: seq<string>) returns (next: map<string, Snapshot>)
      requires forall s :: s in ss ==> s in PresetStrategies
      ensures next == WithPresets(fromRows, ss)
    {
      next := fromRows;
      var j := 0;
      while j < |ss|
        invariant 0 <= j <= |ss|
        invariant next == WithPresets(fromRows, ss[..j])
      {
        var strategy := ss[j];
        assert ss[..j + 1][..j] == ss[..j];
        if strategy !in next {
          next := next[strategy := NormalSnapshot(strategy)];
        }
        j := j + 1;
      }
      assert ss[..|ss|] == ss;
    }

    /** `get`: the cached snapshot, else the "normal" preset of a preset strategy, else `KeyError`. */
    function Get(strategy: string): (r: Result<Snapshot>)
      reads this
      ensures r.Failure? <==> strategy !in cache && strategy !in PresetStrategies
      ensures strategy in cache ==> r == Success(cache[strategy])
      ensures strategy !in cache && strategy in PresetStrategies ==> r == Success(NormalSnapshot(strategy))
    {
      if strategy in cache then Success(cache[strategy])
      else if strategy in PresetStrategies then Success(NormalSnapshot(strategy))
      else Failure(strategy)
    }
  }

  /** After a reload every preset strategy is cached, so `get` never falls back for it. When the
      table was readable, the cached entry of a preset strategy is the last active row of that
      strategy in table order (seeding leaves one active); when it was not, it is the preset
      "normal" profile. */
  lemma ReloadCache(before: seq<ParamRow>, now: int, strategy: string, k: nat)
    requires UniqueKeys(before) && strategy in PresetStrategies
    ensures var rows := SeedFrom(before, PresetStrategies, now, "system");
      var cache := WithPresets(CacheOf(ActiveRows(rows)), PresetStrategies);
      && strategy in cache
      && (k < |rows| && rows[k].strategy == strategy && rows[k].isActive
          && (forall j :: k < j < |rows| ==> !(rows[j].strategy == strategy && rows[j].isActive)) ==>
            cache[strategy] == SnapshotOf(rows[k]))
    ensures var cache := WithPresets(map[], PresetStrategies);
      strategy in cache && cache[strategy] == NormalSnapshot(strategy)
  {
    var rows := SeedFrom(before, PresetStrategies, now, "system");
    SeedDefaultsFacts(before, now, "system");
    assert StepActive(before, rows, strategy);
    var act := ActiveRows(rows);
    if k < |rows| && rows[k].strategy == strategy && rows[k].isActive
       && (forall j :: k < j < |rows| ==> !(rows[j].strategy == strategy && rows[j].isActive)) {
      LastActiveRow(rows, strategy, k);
    }
  }
}
