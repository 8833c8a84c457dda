/** Pause/resume commands as a pure transformer of the set of paused pairs (execution/control_state.py). */
module ControlState {
  import opened Wrappers
  import opened Json
  import Config

  /** `PAUSE_COMMANDS`. */
  const PauseCommands: set<string> := {"PAUSE_PAIR", "RESUME_PAIR", "PAUSE_ALL", "RESUME_ALL"}

  /** `(cmd.get("payload") or {}).get("pair")` when it is a non-empty pair name. */
  function PairOf(payload: Option<Object>): (r: Option<string>)
    ensures r.Some? ==> r.value != ""
    ensures r.None? <==> !("pair" in OrEmpty(payload) && OrEmpty(payload)["pair"].Str? && OrEmpty(payload)["pair"].s != "")
  {
    TruthyStr(OrEmpty(payload), "pair")
  }

  /** `apply_pause_command`: the paused set after one command, built fresh from `paused`. */
  function ApplyPauseCommand(paused: set<string>, kind: string, payload: Option<Object>): (r: set<string>)
    // PAUSE_PAIR adds the named pair, RESUME_PAIR removes it; no other pair changes either way.
    ensures kind == "PAUSE_PAIR" && PairOf(payload).Some? ==>
      PairOf(payload).value in r && r - {PairOf(payload).value} == paused - {PairOf(payload).value}
    ensures kind == "RESUME_PAIR" && PairOf(payload).Some? ==>
      PairOf(payload).value !in r && r + {PairOf(payload).value} == paused + {PairOf(payload).value}
    // A missing or empty pair leaves the set as it was.
    ensures kind in {"PAUSE_PAIR", "RESUME_PAIR"} && PairOf(payload).None? ==> r == paused
    // PAUSE_ALL and RESUME_ALL ignore the input set.
    ensures kind == "PAUSE_ALL" ==> r == Config.ConfiguredPairs()
    ensures kind == "RESUME_ALL" ==> r == {}
    // Anything else yields an unchanged copy.
    ensures kind !in PauseCommands ==> r == paused
  {
    if kind == "PAUSE_PAIR" then
      (match PairOf(payload) case Some(p) => paused + {p} case None => paused)
    else if kind == "RESUME_PAIR" then
      (match PairOf(payload) case Some(p) => paused - {p} case None => paused)
    else if kind == "PAUSE_ALL" then Config.PairStrategyMap.Keys
    else if kind == "RESUME_ALL" then {}
    else paused
  }

  /** Applying a pause/resume command a second time changes nothing. */
  lemma PauseCommandIdempotent(paused: set<string>, kind: string, payload: Option<Object>)
    ensures ApplyPauseCommand(ApplyPauseCommand(paused, kind, payload), kind, payload)
         == ApplyPauseCommand(paused, kind, payload)
  {
  }

  /** Pausing then resuming one pair restores the set when that pair was not paused before. */
  lemma PauseThenResume(paused: set<string>, payload: Option<Object>)
    requires PairOf(payload).Some? && PairOf(payload).value !in paused
    ensures ApplyPauseCommand(ApplyPauseCommand(paused, "PAUSE_PAIR", payload), "RESUME_PAIR", payload) == paused
  {
  }
}
