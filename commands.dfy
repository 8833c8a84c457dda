/** The durable command queue and its audit trail (storage/commands.py): the `commands` and
    `audit_log` tables as sequences in a class, rows addressed by their autoincrement id. */
module Commands {
  import opened Wrappers
  import opened Json
  import opened Sorting

  /** `ALLOWED_COMMAND_TYPES`. */
  const AllowedCommandTypes: set<string> :=
    {"PAUSE_PAIR", "RESUME_PAIR", "PAUSE_ALL", "RESUME_ALL", "CLOSE_PAIR", "CLOSE_ALL", "RELOAD_PARAMS"}

  const StaleError: string := "stale RUNNING command timed out"

  datatype Status = Pending | Running | Succeeded | Failed | Skipped {
    /** Membership in `FINAL_STATUSES`. */
    predicate IsFinal() { Succeeded? || Failed? || Skipped? }

    /** The text stored in the `status` column. */
    function Name(): string {
      match this
      case Pending => "PENDING"
      case Running => "RUNNING"
      case Succeeded => "SUCCEEDED"
      case Failed => "FAILED"
      case Skipped => "SKIPPED"
    }
  }

  /** One row of `commands`. `kind` is the `type` column. */
  datatype Command = Command(
    id: nat,
    createdAt: int,
    actor: string,
    kind: string,
    payload: Option<Object>,
    idempotencyKey: Option<string>,
    status: Status,
    startedAt: Option<int>,
    finishedAt: Option<int>,
    result: Option<Object>,
    handledBy: Option<string>)

  /** The `action` values written by the queue and the executor. */
  datatype Action =
    | CommandEnqueued
    | CommandClaimed
    | CommandExecutionStarted
    | CommandCompleted
    | PositionClosed
    | PositionCloseSkipped
    | LiveCloseSkipped
    | BrokerCloseCalled
    | CloseAllSummary

  /** One row of `audit_log`. */
  datatype AuditEntry = AuditEntry(
    id: nat, ts: int, actor: string, action: Action, commandId: Option<nat>, details: Option<Object>)

  /** What every row satisfies given how each status is entered: a PENDING row was just
      enqueued, a RUNNING row has a start time, a finished row has a finish time. */
  predicate RowShape(c: Command) {
    && (c.status == Pending ==> c.startedAt.None? && c.finishedAt.None? && c.result.None? && c.handledBy.None?)
    && (c.status == Running ==> c.startedAt.Some?)
    && (c.status.IsFinal() ==> c.finishedAt.Some?)
  }

  /** Invariants of the `commands` table: ids are autoincrement (position + 1), idempotency keys
      are unique among non-null values (the partial unique index), and every row has the shape
      of its status. */
  ghost predicate TableInvariant(commands: seq<Command>) {
    && (forall j :: 0 <= j < |commands| ==> commands[j].id == j + 1)
    && (forall i, j :: 0 <= i < j < |commands| && commands[i].idempotencyKey.Some? ==>
          commands[i].idempotencyKey != commands[j].idempotencyKey)
    && (forall j :: 0 <= j < |commands| ==> RowShape(commands[j]))
  }

  /** Audit rows are numbered by position too. */
  ghost predicate AuditIds(audit: seq<AuditEntry>) {
    forall j :: 0 <= j < |audit| ==> audit[j].id == j + 1
  }

  /** `ORDER BY created_ts_utc ASC, id ASC`. */
  predicate OlderOrSame(a: Command, b: Command) {
    a.createdAt < b.createdAt || (a.createdAt == b.createdAt && a.id <= b.id)
  }

  /** `ORDER BY created_ts_utc DESC, id DESC`. */
  predicate NewerOrSame(a: Command, b: Command) {
    a.createdAt > b.createdAt || (a.createdAt == b.createdAt && a.id >= b.id)
  }

  lemma NewestFirstIsPreorder()
    ensures TotalPreorder(NewerOrSame)
  {
  }

  /** Index of the PENDING row that `fetch_next_pending` selects. */
  function NextPendingIndex(cs: seq<Command>): (r: Option<nat>)
    ensures r.Some? ==> r.value < |cs| && cs[r.value].status == Pending
    ensures r.Some? ==> forall j :: 0 <= j < |cs| && cs[j].status == Pending ==> OlderOrSame(cs[r.value], cs[j])
    ensures r.None? <==> forall j :: 0 <= j < |cs| ==> cs[j].status != Pending
    decreases |cs|
  {
    if cs == [] then None
    else
      var r := NextPendingIndex(cs[..|cs| - 1]);
      var last := cs[|cs| - 1];
      if last.status != Pending then r
      else if r.Some? && OlderOrSame(cs[r.value], last) then r
      else Some(|cs| - 1)
  }

  /** Index of the first row carrying idempotency key `k`. */
  function KeyIndex(cs: seq<Command>, k: string): (r: Option<nat>)
    ensures r.Some? ==> r.value < |cs| && cs[r.value].idempotencyKey == Some(k)
    ensures r.None? <==> forall j :: 0 <= j < |cs| ==> cs[j].idempotencyKey != Some(k)
    decreases |cs|
  {
    if cs == [] then None
    else if cs[0].idempotencyKey == Some(k) then Some(0)
    else match KeyIndex(cs[1..], k)
      case Some(i) => Some(i + 1)
      case None => None
  }

  /** The `WHERE` clause of the stale sweep. */
  predicate IsStale(c: Command, cutoff: int) {
    c.status == Running && c.startedAt.Some? && c.startedAt.value < cutoff
  }

  /** Ids of the stale rows, in table order. */
  function StaleIds(cs: seq<Command>, cutoff: int): (ids: seq<nat>)
    ensures forall x :: x in ids <==> exists c :: c in cs && IsStale(c, cutoff) && c.id == x
    decreases |cs|
  {
    if cs == [] then []
    else (if IsStale(cs[0], cutoff) then [cs[0].id] else []) + StaleIds(cs[1..], cutoff)
  }

  /** When ids are positions plus `base`, a row's id is among the stale ids exactly when the row is stale. */
  lemma {:induction false} StaleIdsExact(cs: seq<Command>, cutoff: int, base: nat)
    requires forall j :: 0 <= j < |cs| ==> cs[j].id == j + base
    ensures forall j :: 0 <= j < |cs| ==> (cs[j].id in StaleIds(cs, cutoff) <==> IsStale(cs[j], cutoff))
    ensures forall k :: 0 <= k < |StaleIds(cs, cutoff)| ==> base <= StaleIds(cs, cutoff)[k] < base + |cs|
    decreases |cs|
  {
    if cs != [] {
      var tail := cs[1..];
      StaleIdsExact(tail, cutoff, base + 1);
      forall j | 0 <= j < |cs| ensures cs[j].id in StaleIds(cs, cutoff) <==> IsStale(cs[j], cutoff) {
        if j > 0 {
          assert cs[j] == tail[j - 1];
          assert cs[j].id != cs[0].id;
        } else {
          assert cs[0].id !in StaleIds(tail, cutoff);
        }
      }
    }
  }

  /** The row after `claim_next_pending`'s conditional UPDATE. */
  function Claimed(c: Command, handledBy: string, now: int): (r: Command)
    ensures r.status == Running && r.startedAt == Some(now) && r.handledBy == Some(handledBy)
  {
    c.(status := Running, startedAt := Some(now), handledBy := Some(handledBy))
  }

  /** The row after `mark_command_running`: start time and handler are only filled in when missing. */
  function Running_(c: Command, handledBy: Option<string>, now: int): (r: Command)
    ensures r.status == Running && r.startedAt.Some?
    ensures c.startedAt.Some? ==> r.startedAt == c.startedAt
    ensures c.handledBy.Some? ==> r.handledBy == c.handledBy
  {
    c.(status := Running, startedAt := Some(c.startedAt.GetOr(now)),
       handledBy := if c.handledBy.Some? then c.handledBy else handledBy)
  }

  /** The row after `mark_command_finished`'s UPDATE. */
  function Finished(c: Command, status: Status, result: Option<Object>, now: int): (r: Command)
    ensures r.status == status && r.finishedAt == Some(now) && r.result == result
  {
    c.(status := status, finishedAt := Some(now), result := result)
  }

  /** The table after the stale sweep: every stale row FAILED with the timeout result. */
  function Swept(cs: seq<Command>, cutoff: int, now: int): (r: seq<Command>)
    ensures |r| == |cs|
    ensures forall j :: 0 <= j < |cs| && IsStale(cs[j], cutoff) ==>
      r[j] == Finished(cs[j], Failed, Some(map["error" := Str(StaleError)]), now)
    ensures forall j :: 0 <= j < |cs| && !IsStale(cs[j], cutoff) ==> r[j] == cs[j]
  {
    seq(|cs|, j requires 0 <= j < |cs| =>
      if IsStale(cs[j], cutoff) then Finished(cs[j], Failed, Some(map["error" := Str(StaleError)]), now) else cs[j])
  }

  function EnqueuedDetails(kind: string, key: Option<string>): Object {
    map["type" := Str(kind), "idempotency_key" := OptStr(key)]
  }

  function CompletedDetails(status: Status, result: Option<Object>): Object {
    map["status" := Str(status.Name()), "result" := OptObj(result)]
  }

  /** The two audit rows of a successful claim, numbered from `base + 1`. */
  function ClaimAudit(base: nat, c: Command, handledBy: string, now: int): seq<AuditEntry> {
    [ AuditEntry(base + 1, now, handledBy, CommandClaimed, Some(c.id), Some(map["previous_status" := Str("PENDING")])),
      AuditEntry(base + 2, now, handledBy, CommandExecutionStarted, Some(c.id), Some(map["type" := Str(c.kind)])) ]
  }

  /** `actor or (command_row.actor if command_row else "unknown")`. */
  function ResolvedActor(actor: Option<string>, cs: seq<Command>, id: nat): string {
    if actor.Some? && actor.value != "" then actor.value
    else if 1 <= id <= |cs| then cs[id - 1].actor
    else "unknown"
  }

  /** The COMMAND_COMPLETED row the stale sweep writes for `id`. */
  function StaleEntry(auditId: nat, id: nat, cs: seq<Command>, handledBy: string, now: int): AuditEntry {
    AuditEntry(auditId, now, ResolvedActor(Some(handledBy), cs, id), CommandCompleted, Some(id),
               Some(CompletedDetails(Failed, Some(map["error" := Str(StaleError)]))))
  }

  /** The COMMAND_COMPLETED rows the stale sweep appends, one per id in order, numbered from `base + 1`. */
  function StaleAudit(base: nat, ids: seq<nat>, cs: seq<Command>, handledBy: string, now: int): (r: seq<AuditEntry>)
    ensures |r| == |ids|
    ensures forall k :: 0 <= k < |ids| ==> r[k] == StaleEntry(base + k + 1, ids[k], cs, handledBy, now)
    decreases |ids|
  {
    if ids == [] then []
    else StaleAudit(base, ids[..|ids| - 1], cs, handledBy, now) + [StaleEntry(base + |ids|, ids[|ids| - 1], cs, handledBy, now)]
  }

  /** The table with the rows whose id is in `ids` set to FAILED with the timeout result. */
  function FinishIds(cs: seq<Command>, ids: seq<nat>, now: int): (r: seq<Command>)
  {
    seq(|cs|, j requires 0 <= j < |cs| =>
      if cs[j].id in ids then Finished(cs[j], Failed, Some(map["error" := Str(StaleError)]), now) else cs[j])
  }

  lemma FinishIdsStep(cs: seq<Command>, ids: seq<nat>, k: nat, now: int)
    requires forall j :: 0 <= j < |cs| ==> cs[j].id == j + 1
    requires k < |ids| && 1 <= ids[k] <= |cs|
    ensures var cur := FinishIds(cs, ids[..k], now);
      FinishIds(cs, ids[..k + 1], now) == cur[ids[k] - 1 := Finished(cur[ids[k] - 1], Failed, Some(map["error" := Str(StaleError)]), now)]
    ensures FinishIds(cs, ids[..k], now)[ids[k] - 1].actor == cs[ids[k] - 1].actor
  {
    assert ids[..k + 1] == ids[..k] + [ids[k]];
  }

  lemma FinishIdsAll(cs: seq<Command>, ids: seq<nat>, cutoff: int, now: int)
    requires forall j :: 0 <= j < |cs| ==> (cs[j].id in ids <==> IsStale(cs[j], cutoff))
    ensures FinishIds(cs, ids, now) == Swept(cs, cutoff, now)
  {
  }

  lemma StaleAuditStep(prefix: seq<AuditEntry>, ids: seq<nat>, k: nat, cs: seq<Command>, handledBy: string, now: int)
    requires k < |ids|
    ensures prefix + StaleAudit(|prefix|, ids[..k + 1], cs, handledBy, now)
         == (prefix + StaleAudit(|prefix|, ids[..k], cs, handledBy, now)) + [StaleEntry(|prefix| + k + 1, ids[k], cs, handledBy, now)]
  {
    assert ids[..k + 1][..k] == ids[..k];
  }

  class CommandQueue {
    var commands: seq<Command>
    var audit: seq<AuditEntry>

    /** The invariants of both tables. */
    ghost predicate Valid()
      reads this
    {
      TableInvariant(commands) && AuditIds(audit)
    }

    constructor ()
      ensures Valid() && commands == [] && audit == []
    {
      commands := [];
      audit := [];
    }

    /** `_write_audit_log`: appends one row, touching nothing else. */
    method WriteAuditLog(actor: string, action: Action, commandId: Option<nat>, details: Option<Object>, now: int)
      requires Valid()
      modifies this
      ensures Valid()
      ensures commands == old(commands)
      ensures audit == old(audit) + [AuditEntry(|old(audit)| + 1, now, actor, action, commandId, details)]
    {
      audit := audit + [AuditEntry(|audit| + 1, now, actor, action, commandId, details)];
    }

    /** `enqueue_command`. */
    method Enqueue(actor: string, kind: string, payload: Option<Object>, idempotencyKey: Option<string>, now: int)
      returns (r: Result<nat>)
      requires Valid()
      modifies this
      ensures Valid()
      // Unknown types are rejected before anything is read or written.
      ensures kind !in AllowedCommandTypes ==>
        r == Failure("Unsupported command type: " + kind) && commands == old(commands) && audit == old(audit)
      // A recorded key returns the existing id and writes nothing.
      ensures kind in AllowedCommandTypes && idempotencyKey.Some? && KeyIndex(old(commands), idempotencyKey.value).Some? ==>
        && r == Success(KeyIndex(old(commands), idempotencyKey.value).value + 1)
        && old(commands)[r.value - 1].idempotencyKey == idempotencyKey
        && commands == old(commands) && audit == old(audit)
      // Otherwise exactly one PENDING row and exactly one COMMAND_ENQUEUED audit row for its id.
      ensures kind in AllowedCommandTypes && (idempotencyKey.None? || KeyIndex(old(commands), idempotencyKey.value).None?) ==>
        && r == Success(|old(commands)| + 1)
        && commands == old(commands) + [Command(r.value, now, actor, kind, payload, idempotencyKey, Pending, None, None, None, None)]
        && audit == old(audit) + [AuditEntry(|old(audit)| + 1, now, actor, CommandEnqueued, Some(r.value),
                                             Some(EnqueuedDetails(kind, idempotencyKey)))]
    {
      if kind !in AllowedCommandTypes {
        return Failure("Unsupported command type: " + kind);
      }
      if idempotencyKey.Some? {
        var existing := KeyIndex(commands, idempotencyKey.value);
        if existing.Some? {
          return Success(existing.value + 1);
        }
      }
      var id := |commands| + 1;
      commands := commands + [Command(id, now, actor, kind, payload, idempotencyKey, Pending, None, None, None, None)];
      WriteAuditLog(actor, CommandEnqueued, Some(id), Some(EnqueuedDetails(kind, idempotencyKey)), now);
      r := Success(id);
    }

    /** `fetch_next_pending`: the oldest PENDING row by (created, id), if any. */
    function FetchNextPending(): (r: Option<Command>)
      reads this
      ensures r.Some? ==> r.value in commands && r.value.status == Pending
      ensures r.Some? ==> forall c :: c in commands && c.status == Pending ==> OlderOrSame(r.value, c)
      ensures r.None? <==> forall c :: c in commands ==> c.status != Pending
    {
      match NextPendingIndex(commands)
      case Some(i) => Some(commands[i])
      case None => None
    }

    /** The conditional `UPDATE ... WHERE id = ? AND status = 'PENDING'` of `claim_next_pending`
        for a row id read earlier, with its audit rows and the re-read of the row. */
    method ClaimIfPending(id: nat, handledBy: string, now: int) returns (claimed: Option<Command>)
      requires Valid()
      modifies this
      ensures Valid()
      ensures claimed.Some? <==> 1 <= id <= |old(commands)| && old(commands)[id - 1].status == Pending
      ensures claimed.Some? ==>
        && claimed.value == Claimed(old(commands)[id - 1], handledBy, now)
        && commands == old(commands)[id - 1 := claimed.value]
        && audit == old(audit) + ClaimAudit(|old(audit)|, old(commands)[id - 1], handledBy, now)
      // A row no longer PENDING is left alone and no audit row is written.
      ensures claimed.None? ==> commands == old(commands) && audit == old(audit)
    {
      if !(1 <= id <= |commands| && commands[id - 1].status == Pending) {
        return None;
      }
      var row := commands[id - 1];
      commands := commands[id - 1 := Claimed(row, handledBy, now)];
      WriteAuditLog(handledBy, CommandClaimed, Some(id), Some(map["previous_status" := Str("PENDING")]), now);
      WriteAuditLog(handledBy, CommandExecutionStarted, Some(id), Some(map["type" := Str(row.kind)]), now);
      claimed := Some(commands[id - 1]);
    }

    /** `claim_next_pending`. */
    method ClaimNextPending(handledBy: string, now: int) returns (claimed: Option<Command>)
      requires Valid()
      modifies this
      ensures Valid()
      ensures claimed.None? <==> old(FetchNextPending()).None?
      ensures claimed.None? ==> commands == old(commands) && audit == old(audit)
      ensures claimed.Some? ==>
        var row := old(FetchNextPending()).value;
        && 1 <= row.id <= |old(commands)| && old(commands)[row.id - 1] == row
        && claimed.value == Claimed(row, handledBy, now)
        && commands == old(commands)[row.id - 1 := claimed.value]
        && audit == old(audit) + ClaimAudit(|old(audit)|, row, handledBy, now)
    {
      var row := FetchNextPending();
      if row.None? {
        return None;
      }
      claimed := ClaimIfPending(row.value.id, handledBy, now);
    }

    /** `mark_command_running`: no status check; start time and handler only when missing. */
    method MarkRunning(id: nat, handledBy: Option<string>, now: int)
      requires Valid()
      modifies this
      ensures Valid()
      ensures commands == if 1 <= id <= |old(commands)|
                          then old(commands)[id - 1 := Running_(old(commands)[id - 1], handledBy, now)]
                          else old(commands)
      ensures audit == old(audit)
    {
      if 1 <= id <= |commands| {
        commands := commands[id - 1 := Running_(commands[id - 1], handledBy, now)];
      }
    }

    /** `mark_command_finished`: no check of the current status, only that the new one is final;
        the audit row is written even when no row has that id. */
    method MarkFinished(id: nat, status: Status, result: Option<Object>, actor: Option<string>, now: int)
      returns (r: Outcome)
      requires Valid()
      modifies this
      ensures Valid()
      ensures !status.IsFinal() ==>
        r == Fail("Invalid terminal status: " + status.Name()) && commands == old(commands) && audit == old(audit)
      ensures status.IsFinal() ==>
        && r == Pass
        && commands == (if 1 <= id <= |old(commands)|
                        then old(commands)[id - 1 := Finished(old(commands)[id - 1], status, result, now)]
                        else old(commands))
        && audit == old(audit) + [AuditEntry(|old(audit)| + 1, now, ResolvedActor(actor, old(commands), id),
                                             CommandCompleted, Some(id), Some(CompletedDetails(status, result)))]
    {
      if !status.IsFinal() {
        return Fail("Invalid terminal status: " + status.Name());
      }
      var resolved := ResolvedActor(actor, commands, id);
      if 1 <= id <= |commands| {
        commands := commands[id - 1 := Finished(commands[id - 1], status, result, now)];
      }
      WriteAuditLog(resolved, CommandCompleted, Some(id), Some(CompletedDetails(status, result)), now);
      r := Pass;
    }

    /** `mark_command_done`. */
    method MarkDone(id: nat, result: Option<Object>, now: int)
      requires Valid()
      modifies this
      ensures Valid()
      ensures commands == (if 1 <= id <= |old(commands)|
                           then old(commands)[id - 1 := Finished(old(commands)[id - 1], Succeeded, result, now)]
                           else old(commands))
      ensures audit == old(audit) + [AuditEntry(|old(audit)| + 1, now, ResolvedActor(None, old(commands), id),
                                                CommandCompleted, Some(id), Some(CompletedDetails(Succeeded, result)))]
    {
      var _ := MarkFinished(id, Succeeded, result, None, now);
    }

    /** `mark_command_failed`: the error text is added to (or replaces `error` in) the result. */
    method MarkFailed(id: nat, error: string, result: Option<Object>, now: int)
      requires Valid()
      modifies this
      ensures Valid()
      ensures commands == (if 1 <= id <= |old(commands)|
                           then old(commands)[id - 1 := Finished(old(commands)[id - 1], Failed,
                                                                 Some(OrEmpty(result)["error" := Str(error)]), now)]
                           else old(commands))
      ensures audit == old(audit) + [AuditEntry(|old(audit)| + 1, now, ResolvedActor(None, old(commands), id),
                                                CommandCompleted, Some(id),
                                                Some(CompletedDetails(Failed, Some(OrEmpty(result)["error" := Str(error)]))))]
    {
      var _ := MarkFinished(id, Failed, Some(OrEmpty(result)["error" := Str(error)]), None, now);
    }

    /** The loop of `fail_stale_running_commands`: `mark_command_finished` for each id in turn. */
    method FinishEach(ids: seq<nat>, handledBy: string, now: int)
      requires Valid()
      requires forall k :: 0 <= k < |ids| ==> 1 <= ids[k] <= |commands|
      modifies this
      ensures Valid()
      ensures commands == FinishIds(old(commands), ids, now)
      ensures audit == old(audit) + StaleAudit(|old(audit)|, ids, old(commands), handledBy, now)
    {
      ghost var before := commands;
      ghost var auditBefore := audit;
      var k := 0;
      assert ids[..0] == [];
      while k < |ids|
        invariant 0 <= k <= |ids|
        invariant Valid()
        invariant commands == FinishIds(before, ids[..k], now)
        invariant audit == auditBefore + StaleAudit(|auditBefore|, ids[..k], before, handledBy, now)
      {
        var id := ids[k];
        FinishIdsStep(before, ids, k, now);
        StaleAuditStep(auditBefore, ids, k, before, handledBy, now);
        assert ResolvedActor(Some(handledBy), commands, id) == ResolvedActor(Some(handledBy), before, id);
        ghost var a0 := audit;
        ghost var e := StaleEntry(|auditBefore| + k + 1, id, before, handledBy, now);
        var _ := MarkFinished(id, Failed, Some(map["error" := Str(StaleError)]), Some(handledBy), now);
        assert |audit| == |a0| + 1 && audit[..|a0|] == a0 && audit[|a0|] == e;
        assert audit == a0 + [e];
        k := k + 1;
      }
      assert ids[..|ids|] == ids;
    }

    /** `fail_stale_running_commands`: FAILED for exactly the RUNNING rows started strictly before
        `now - timeoutSec`, one COMMAND_COMPLETED row each; returns their ids. */
    method FailStaleRunning(timeoutSec: int, handledBy: string, now: int) returns (ids: seq<nat>)
      requires Valid()
      modifies this
      ensures Valid()
      ensures ids == StaleIds(old(commands), now - timeoutSec)
      ensures forall j :: 0 <= j < |old(commands)| ==> (old(commands)[j].id in ids <==> IsStale(old(commands)[j], now - timeoutSec))
      ensures commands == Swept(old(commands), now - timeoutSec, now)
      ensures audit == old(audit) + StaleAudit(|old(audit)|, ids, old(commands), handledBy, now)
    {
      ids := StaleIds(commands, now - timeoutSec);
      StaleIdsExact(commands, now - timeoutSec, 1);
      FinishIdsAll(commands, ids, now - timeoutSec, now);
      FinishEach(ids, handledBy, now);
    }

    /** `list_recent_commands`: newest first by (created, id), at most `limit` rows (SQLite reads a
        negative LIMIT as no limit). */
    function ListRecent(limit: int): (r: seq<Command>)
      reads this
      ensures |r| == if 0 <= limit < |commands| then limit else |commands|
      ensures Sorted(r, NewerOrSame)
      ensures multiset(r) <= multiset(commands)
      // Every row left out is no newer than every row returned.
      ensures forall x, y :: x in multiset(r) && y in multiset(commands) - multiset(r) ==> NewerOrSame(x, y)
    {
      NewestFirstIsPreorder();
      var all := SortBy(commands, NewerOrSame);
      var k := if 0 <= limit < |commands| then limit else |commands|;
      PrefixKeepsLeast(all, NewerOrSame, k);
      assert all == all[..k] + all[k..];
      assert multiset(all[..k]) <= multiset(all);
      all[..k]
    }
  }

  /** Two workers that read the same PENDING row race on the conditional update: exactly the
      first one claims it and the second one observes "no command claimed". */
  method ExclusiveClaim(q: CommandQueue, workerA: string, workerB: string, now: int)
    returns (a: Option<Command>, b: Option<Command>)
    requires q.Valid() && q.FetchNextPending().Some?
    modifies q
    ensures q.Valid()
    ensures a.Some? && a.value.handledBy == Some(workerA) && a.value.id == old(q.FetchNextPending()).value.id
    ensures b.None?
  {
    var row := q.FetchNextPending().value;
    a := q.ClaimIfPending(row.id, workerA, now);
    b := q.ClaimIfPending(row.id, workerB, now);
  }
}
