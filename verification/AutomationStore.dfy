// The automation store: definitions, runs, retention and durable commits.
//
// Each change is a function from snapshot to snapshot; the class of
// `DurableStore` makes the same change step by step and commits it.
module AutomationStore {
  import opened Outcomes
  import S = Schedules

  const RETAINED: nat := 200
  const FAILURE_LIMIT: nat := 3
  const PAUSED: string := "Paused after three failed or interrupted runs"
  const UNDISPATCHED: string := "Schedule paused before dispatch"

  datatype Error =
    | BadDefinition | BadSchedule(cause: S.Error)
    | Changed | Deleted | NotNew | KeyTaken | Missing
    | ActiveRun | NotDue | StillActive
    | BadVersion | DuplicateDefinition | BadRun | Io

  datatype Details = Details(
    name: string, prompt: string, project: string, model: string,
    effort: string, worktree: bool, notifyAll: bool)

  datatype Definition = Definition(
    id: string, revision: nat, details: Details, schedule: S.Schedule, enabled: bool,
    anchor: S.Instant, nextAt: Option<S.Instant>, failures: nat, pausedReason: Option<string>)

  datatype RunStatus =
    | Queued | Starting | Running | WaitingPermission | WaitingAnswer
    | Succeeded | Failed | Cancelled | Interrupted

  datatype Run = Run(
    id: string, definition: Definition, scheduledFor: Option<S.Instant>,
    createdAt: S.Instant, finishedAt: Option<S.Instant>, status: RunStatus,
    sessionId: string, sessionFile: Option<string>, error: Option<string>, reviewed: bool)

  datatype Snapshot = Snapshot(version: nat, revision: nat, definitions: seq<Definition>, runs: seq<Run>)

  const EMPTY: Snapshot := Snapshot(1, 0, [], [])

  predicate Active(status: RunStatus) {
    status in {Queued, Starting, Running, WaitingPermission, WaitingAnswer}
  }

  // --------------------------------------------------------------- Validation

  predicate IdChar(c: char) {
    'a' <= c <= 'z' || 'A' <= c <= 'Z' || '0' <= c <= '9' || c == '-' || c == '_'
  }

  predicate ValidId(id: string) {
    id != "" && forall c | c in id :: IdChar(c)
  }

  predicate Whitespace(c: char) {
    || '\t' <= c <= '\r' || c == ' ' || c == '\U{85}' || c == '\U{A0}' || c == '\U{1680}'
    || '\U{2000}' <= c <= '\U{200A}' || c == '\U{2028}' || c == '\U{2029}'
    || c == '\U{202F}' || c == '\U{205F}' || c == '\U{3000}'
  }

  predicate Blank(text: string) {
    forall c | c in text :: Whitespace(c)
  }

  function Utf8Length(text: string): nat {
    if text == "" then 0 else
      (if text[0] < '\U{80}' then 1 else if text[0] < '\U{800}' then 2
       else if text[0] < '\U{10000}' then 3 else 4) + Utf8Length(text[1..])
  }

  predicate ValidDetails(d: Details) {
    && !Blank(d.name) && |d.name| <= 160
    && !Blank(d.prompt) && Utf8Length(d.prompt) <= 64_000
    && "/" <= d.project
    && !Blank(d.model) && !("acp/" <= d.model)
  }

  function Validate(db: S.ZoneDb, d: Definition): Result<(), Error> {
    if !ValidId(d.id) || !ValidDetails(d.details) then Err(BadDefinition)
    else match S.Validate(db, d.schedule)
      case Ok(_) => Ok(())
      case Err(e) => Err(BadSchedule(e))
  }

  // ------------------------------------------------------------------ Lookups

  function DefIndex(defs: seq<Definition>, id: string): (r: Option<nat>)
    ensures r.Some? ==> r.value < |defs| && defs[r.value].id == id
    ensures r.None? <==> forall d | d in defs :: d.id != id
  {
    if defs == [] then None
    else if defs[0].id == id then Some(0)
    else
      assert defs == [defs[0]] + defs[1..];
      match DefIndex(defs[1..], id)
      case None => None
      case Some(i) => Some(i + 1)
  }

  function RunIndex(runs: seq<Run>, id: string): (r: Option<nat>)
    ensures r.Some? ==> r.value < |runs| && runs[r.value].id == id
    ensures r.None? <==> forall run | run in runs :: run.id != id
  {
    if runs == [] then None
    else if runs[0].id == id then Some(0)
    else
      assert runs == [runs[0]] + runs[1..];
      match RunIndex(runs[1..], id)
      case None => None
      case Some(i) => Some(i + 1)
  }

  predicate HasActive(runs: seq<Run>, id: string) {
    exists run | run in runs :: run.definition.id == id && Active(run.status)
  }

  function Without(defs: seq<Definition>, id: string): (r: seq<Definition>)
    ensures forall d :: d in r <==> d in defs && d.id != id
  {
    if defs == [] then []
    else
      assert defs == [defs[0]] + defs[1..];
      if defs[0].id == id then Without(defs[1..], id)
      else [defs[0]] + Without(defs[1..], id)
  }

  function WithoutRun(runs: seq<Run>, id: string): (r: seq<Run>)
    ensures forall run :: run in r <==> run in runs && run.id != id
  {
    if runs == [] then []
    else
      assert runs == [runs[0]] + runs[1..];
      if runs[0].id == id then WithoutRun(runs[1..], id)
      else [runs[0]] + WithoutRun(runs[1..], id)
  }

  // ---------------------------------------------------------------- Retention

  predicate Prunable(run: Run) {
    !Active(run.status) && run.reviewed
  }

  // How many reviewed, finished runs of one definition a history holds.
  function Reviewed(runs: seq<Run>, id: string): nat {
    if runs == [] then 0
    else (if Prunable(runs[0]) && runs[0].definition.id == id then 1 else 0) + Reviewed(runs[1..], id)
  }

  // Oldest first: keep a run unless it is prunable and at least 200 prunable
  // runs of its definition are newer.
  function Retained(runs: seq<Run>): (kept: seq<Run>)
    ensures forall run | run in kept :: run in runs
    ensures forall run | run in runs && !Prunable(run) :: run in kept
  {
    if runs == [] then []
    else
      assert runs == [runs[0]] + runs[1..];
      if Prunable(runs[0]) && Reviewed(runs[1..], runs[0].definition.id) >= RETAINED
      then Retained(runs[1..])
      else [runs[0]] + Retained(runs[1..])
  }

  function Reversed(runs: seq<Run>): (r: seq<Run>)
    ensures |r| == |runs|
  {
    if runs == [] then [] else Reversed(runs[1..]) + [runs[0]]
  }

  // ------------------------------------------------------------------ Changes

  function NextWhenEnabled(db: S.ZoneDb, d: Definition, at: S.Instant): Result<Option<S.Instant>, Error> {
    if !d.enabled then Ok(None)
    else match S.Next(db, d.schedule, at, at)
      case Ok(t) => Ok(t)
      case Err(e) => Err(BadSchedule(e))
  }

  function Edited(db: S.ZoneDb, was: Definition, d: Definition, at: S.Instant): Result<Definition, Error> {
    if was.revision != d.revision then Err(Changed)
    else
      var flipped := was.enabled != d.enabled;
      var counted := d.(
        revision := d.revision + 1,
        failures := if flipped then 0 else was.failures,
        pausedReason := if flipped then None else was.pausedReason);
      if was.schedule == d.schedule && !flipped then Ok(counted.(anchor := was.anchor, nextAt := was.nextAt))
      else
        var nextAt :- NextWhenEnabled(db, d, at);
        Ok(counted.(anchor := at, nextAt := nextAt))
  }

  function Created(db: S.ZoneDb, d: Definition, at: S.Instant): Result<Definition, Error> {
    if d.revision != 0 then Err(Deleted)
    else
      var nextAt :- NextWhenEnabled(db, d, at);
      Ok(d.(revision := 1, anchor := at, nextAt := nextAt))
  }

  function Save(db: S.ZoneDb, s: Snapshot, d: Definition, at: S.Instant): Result<Snapshot, Error> {
    var _ :- Validate(db, d);
    var i := DefIndex(s.definitions, d.id);
    var saved :- if i.Some? then Edited(db, s.definitions[i.value], d, at) else Created(db, d, at);
    Ok(s.(definitions := Without(s.definitions, d.id) + [saved]))
  }

  function Pause(run: Run, id: string, at: S.Instant): Run {
    if run.definition.id == id && run.status == Queued && run.scheduledFor.Some?
    then run.(status := Cancelled, finishedAt := Some(at), error := Some(UNDISPATCHED))
    else run
  }

  function PauseAll(runs: seq<Run>, id: string, at: S.Instant): seq<Run> {
    seq(|runs|, i requires 0 <= i < |runs| => Pause(runs[i], id, at))
  }

  function SetEnabled(db: S.ZoneDb, s: Snapshot, id: string, enabled: bool, at: S.Instant): Result<Snapshot, Error> {
    match DefIndex(s.definitions, id)
    case None => Err(Missing)
    case Some(i) =>
      var d := s.definitions[i].(enabled := enabled, revision := s.definitions[i].revision + 1,
                                 pausedReason := None, failures := 0, anchor := at);
      var nextAt :- NextWhenEnabled(db, d, at);
      Ok(s.(definitions := s.definitions[i := d.(nextAt := nextAt)],
            runs := if enabled then s.runs else PauseAll(s.runs, id, at)))
  }

  function Delete(s: Snapshot, id: string): Result<Snapshot, Error> {
    if HasActive(s.runs, id) then Err(ActiveRun)
    else Ok(s.(definitions := Without(s.definitions, id)))
  }

  function SessionOf(runId: string): string {
    "automation_" + runId
  }

  // Claim the latest due occurrence and move the schedule past `at`.
  function Claim(db: S.ZoneDb, d: Definition, at: S.Instant): Result<(Definition, S.Instant), Error>
    requires DefinitionOk(db, d) && 0 <= at
  {
    if d.nextAt.None? || d.nextAt.value > at || !d.enabled then Err(NotDue)
    else match S.Next(db, d.schedule, at, d.anchor)
      case Err(e) => Err(BadSchedule(e))
      case Ok(nextAt) =>
        match S.LatestDue(db, d.schedule, d.nextAt.value, at, d.anchor)
        case Err(e) => Err(BadSchedule(e))
        case Ok(latest) => Ok((d.(nextAt := nextAt), latest))
  }

  function Enqueue(db: S.ZoneDb, s: Snapshot, id: string, scheduled: bool, at: S.Instant, runId: string)
    : Result<Snapshot, Error>
    requires Inv(db, s) && 0 <= at
  {
    if HasActive(s.runs, id) then Err(ActiveRun)
    else match DefIndex(s.definitions, id)
      case None => Err(Missing)
      case Some(i) =>
        var d := s.definitions[i];
        if scheduled then
          var claim :- Claim(db, d, at);
          Ok(s.(definitions := s.definitions[i := claim.0],
                runs := s.runs + [NewRun(runId, claim.0, Some(claim.1), at)]))
        else
          Ok(s.(runs := s.runs + [NewRun(runId, d, None, at)]))
  }

  function NewRun(runId: string, d: Definition, scheduledFor: Option<S.Instant>, at: S.Instant): Run {
    Run(runId, d, scheduledFor, at, None, Queued, SessionOf(runId), None, None, false)
  }

  // What a finished run does to its definition.
  function Counted(d: Definition, status: RunStatus): Definition {
    var failures := if status in {Failed, Interrupted} then d.failures + 1
                    else if status == Succeeded then 0 else d.failures;
    if failures >= FAILURE_LIMIT
    then d.(failures := failures, enabled := false, revision := d.revision + 1, nextAt := None,
            pausedReason := Some(PAUSED))
    else d.(failures := failures)
  }

  function Settle(defs: seq<Definition>, id: string, status: RunStatus): seq<Definition> {
    match DefIndex(defs, id)
    case None => defs
    case Some(i) => defs[i := Counted(defs[i], status)]
  }

  function UpdateRun(s: Snapshot, id: string, status: RunStatus, error: Option<string>,
                     sessionFile: Option<string>, at: S.Instant): Result<Snapshot, Error> {
    match RunIndex(s.runs, id)
    case None => Err(Missing)
    case Some(i) =>
      var run := s.runs[i];
      if !Active(run.status) then Ok(s)
      else
        var updated := run.(status := status, error := error,
                            sessionFile := if sessionFile.Some? then sessionFile else run.sessionFile,
                            finishedAt := if Active(status) then run.finishedAt else Some(at));
        Ok(s.(runs := s.runs[i := updated],
              definitions := if Active(status) then s.definitions
                             else Settle(s.definitions, run.definition.id, status)))
  }

  function DeleteRun(s: Snapshot, id: string): Result<Snapshot, Error> {
    match RunIndex(s.runs, id)
    case None => Err(Missing)
    case Some(i) =>
      if Active(s.runs[i].status) then Err(StillActive)
      else Ok(s.(runs := WithoutRun(s.runs, id)))
  }

  function MarkReviewed(s: Snapshot, id: string): Result<Snapshot, Error> {
    match RunIndex(s.runs, id)
    case None => Err(Missing)
    case Some(i) =>
      if Active(s.runs[i].status) then Ok(s)
      else Ok(s.(runs := s.runs[i := s.runs[i].(reviewed := true)]))
  }

  datatype Op =
    | OpSave(definition: Definition, at: S.Instant)
    | OpSetEnabled(id: string, enabled: bool, at: S.Instant)
    | OpDelete(id: string)
    | OpEnqueue(id: string, scheduled: bool, at: S.Instant, runId: string)
    | OpUpdateRun(id: string, status: RunStatus, error: Option<string>, sessionFile: Option<string>, at: S.Instant)
    | OpDeleteRun(id: string)
    | OpMarkReviewed(id: string)

  // What the store's callers provide: non-negative times, fresh run ids, and
  // new definitions with no failures yet.
  ghost predicate Admissible(s: Snapshot, op: Op) {
    match op
    case OpSave(d, at) => 0 <= at && (DefIndex(s.definitions, d.id).None? ==> d.failures == 0)
    case OpSetEnabled(_, _, at) => 0 <= at
    case OpEnqueue(_, _, at, runId) => 0 <= at && ValidId(runId) && RunIndex(s.runs, runId).None?
    case _ => true
  }

  function Change(db: S.ZoneDb, s: Snapshot, op: Op): Result<Snapshot, Error>
    requires Inv(db, s) && Admissible(s, op)
  {
    match op
    case OpSave(d, at) => Save(db, s, d, at)
    case OpSetEnabled(id, enabled, at) => SetEnabled(db, s, id, enabled, at)
    case OpDelete(id) => Delete(s, id)
    case OpEnqueue(id, scheduled, at, runId) => Enqueue(db, s, id, scheduled, at, runId)
    case OpUpdateRun(id, status, error, file, at) => UpdateRun(s, id, status, error, file, at)
    case OpDeleteRun(id) => DeleteRun(s, id)
    case OpMarkReviewed(id) => MarkReviewed(s, id)
  }

  // Where a commit's writing can fail. Only the last point lies past the rename.
  datatype Fault = NoFault | TempFile | Serialize | FileSync | Rename | DirSync

  predicate Renamed(fault: Fault) {
    fault == NoFault || fault == DirSync
  }

  function Committed(s: Snapshot): Snapshot {
    s.(runs := Retained(s.runs), revision := s.revision + 1)
  }

  // ---------------------------------------------------------------- Invariant

  ghost predicate DefinitionOk(db: S.ZoneDb, d: Definition) {
    && Validate(db, d).Ok?
    && 0 <= d.anchor && 1 <= d.revision
    && (d.nextAt.Some? <==> d.enabled && !d.schedule.Manual?)
    && (d.nextAt.Some? ==> S.Fires(db, d.schedule, d.anchor, d.nextAt.value))
    && (d.enabled ==> d.failures < FAILURE_LIMIT)
  }

  ghost predicate RunOk(db: S.ZoneDb, defs: seq<Definition>, run: Run) {
    && Validate(db, run.definition).Ok?
    && ValidId(run.id)
    && run.sessionId == SessionOf(run.id)
    && (run.finishedAt.Some? <==> !Active(run.status))
    && (Active(run.status) ==> !run.reviewed && DefIndex(defs, run.definition.id).Some?)
  }

  // Two runs may coexist: different ids, and not both active for one definition.
  ghost predicate Apart(a: Run, b: Run) {
    && a.id != b.id
    && (Active(a.status) && Active(b.status) ==> a.definition.id != b.definition.id)
  }

  ghost predicate DistinctDefinitions(defs: seq<Definition>) {
    forall i, j | 0 <= i < j < |defs| :: defs[i].id != defs[j].id
  }

  ghost predicate DistinctRuns(runs: seq<Run>) {
    forall i, j | 0 <= i < j < |runs| :: Apart(runs[i], runs[j])
  }

  ghost predicate Inv(db: S.ZoneDb, s: Snapshot) {
    && s.version == 1
    && DistinctDefinitions(s.definitions)
    && (forall d | d in s.definitions :: DefinitionOk(db, d))
    && DistinctRuns(s.runs)
    && (forall run | run in s.runs :: RunOk(db, s.definitions, run))
  }

  lemma {:induction false} WithoutIsDistinct(defs: seq<Definition>, id: string)
    requires DistinctDefinitions(defs)
    ensures DistinctDefinitions(Without(defs, id))
  {
    if defs != [] {
      WithoutIsDistinct(defs[1..], id);
      var rest := Without(defs[1..], id);
      forall d | d in rest ensures d.id != defs[0].id {
        var k :| 0 <= k < |defs[1..]| && defs[1..][k] == d;
        assert defs[k + 1] == d;
      }
    }
  }

  lemma {:induction false} WithoutRunIsDistinct(runs: seq<Run>, id: string)
    requires DistinctRuns(runs)
    ensures DistinctRuns(WithoutRun(runs, id))
  {
    if runs != [] {
      WithoutRunIsDistinct(runs[1..], id);
      var rest := WithoutRun(runs[1..], id);
      forall run | run in rest ensures Apart(runs[0], run) {
        var k :| 0 <= k < |runs[1..]| && runs[1..][k] == run;
        assert runs[k + 1] == run;
      }
    }
  }

  lemma {:induction false} RetainedIsDistinct(runs: seq<Run>)
    requires DistinctRuns(runs)
    ensures DistinctRuns(Retained(runs))
  {
    if runs != [] {
      RetainedIsDistinct(runs[1..]);
      var rest := Retained(runs[1..]);
      forall run | run in rest ensures Apart(runs[0], run) {
        var k :| 0 <= k < |runs[1..]| && runs[1..][k] == run;
        assert runs[k + 1] == run;
      }
    }
  }

  lemma CommittedKeepsInv(db: S.ZoneDb, s: Snapshot)
    requires Inv(db, s)
    ensures Inv(db, Committed(s))
  {
    RetainedIsDistinct(s.runs);
  }

  lemma ScheduledOk(db: S.ZoneDb, d: Definition, at: S.Instant)
    requires Validate(db, d).Ok? && 1 <= d.revision && 0 <= at && NextWhenEnabled(db, d, at).Ok?
    requires d.enabled ==> d.failures < FAILURE_LIMIT
    ensures DefinitionOk(db, d.(anchor := at, nextAt := NextWhenEnabled(db, d, at).value))
  {
    if d.enabled {
      S.NextIsLater(db, d.schedule, at, at);
    }
  }

  lemma SaveKeepsInv(db: S.ZoneDb, s: Snapshot, d: Definition, at: S.Instant)
    requires Inv(db, s) && Admissible(s, OpSave(d, at)) && Save(db, s, d, at).Ok?
    ensures Inv(db, Save(db, s, d, at).value)
  {
    var next := Save(db, s, d, at).value;
    var saved := next.definitions[|next.definitions| - 1];
    match DefIndex(s.definitions, d.id) {
      case None => ScheduledOk(db, d.(revision := 1), at);
      case Some(i) =>
        assert s.definitions[i] in s.definitions;
        EditedOk(db, s.definitions[i], d, at);
    }
    MovedKeepsInv(db, s, saved);
  }

  // Moving a definition to the end in a new version.
  lemma MovedKeepsInv(db: S.ZoneDb, s: Snapshot, d: Definition)
    requires Inv(db, s) && DefinitionOk(db, d)
    ensures Inv(db, s.(definitions := Without(s.definitions, d.id) + [d]))
  {
    WithoutIsDistinct(s.definitions, d.id);
    assert d in Without(s.definitions, d.id) + [d];
  }

  lemma EditedOk(db: S.ZoneDb, was: Definition, d: Definition, at: S.Instant)
    requires DefinitionOk(db, was) && Validate(db, d).Ok? && 0 <= at && Edited(db, was, d, at).Ok?
    ensures DefinitionOk(db, Edited(db, was, d, at).value)
  {
    if !(was.schedule == d.schedule && was.enabled == d.enabled) {
      ScheduledOk(db, Edited(db, was, d, at).value, at);
    }
  }

  lemma SetEnabledKeepsInv(db: S.ZoneDb, s: Snapshot, id: string, enabled: bool, at: S.Instant)
    requires Inv(db, s) && 0 <= at && SetEnabled(db, s, id, enabled, at).Ok?
    ensures Inv(db, SetEnabled(db, s, id, enabled, at).value)
  {
    var next := SetEnabled(db, s, id, enabled, at).value;
    var i := DefIndex(s.definitions, id).value;
    var d := next.definitions[i];
    assert s.definitions[i] in s.definitions;
    ScheduledOk(db, d, at);
    SameIdsFound(s.definitions, next.definitions);
    forall run | run in next.runs ensures RunOk(db, next.definitions, run) {
      var k :| 0 <= k < |next.runs| && next.runs[k] == run;
      assert s.runs[k] in s.runs;
    }
  }

  // Lookups depend only on the identities a list holds.
  lemma SameIdsFound(a: seq<Definition>, b: seq<Definition>)
    requires |a| == |b| && forall k | 0 <= k < |a| :: a[k].id == b[k].id
    ensures forall id {:trigger DefIndex(b, id)} :: DefIndex(a, id) == DefIndex(b, id)
  {
    forall id ensures DefIndex(a, id) == DefIndex(b, id) {
      SameIdFound(a, b, id);
    }
  }

  lemma {:induction false} SameIdFound(a: seq<Definition>, b: seq<Definition>, id: string)
    requires |a| == |b| && forall k | 0 <= k < |a| :: a[k].id == b[k].id
    ensures DefIndex(a, id) == DefIndex(b, id)
  {
    if a != [] {
      assert forall k | 0 <= k < |a[1..]| :: a[1..][k].id == a[k + 1].id == b[1..][k].id;
      SameIdFound(a[1..], b[1..], id);
    }
  }

  lemma EnqueueKeepsInv(db: S.ZoneDb, s: Snapshot, id: string, scheduled: bool, at: S.Instant, runId: string)
    requires Inv(db, s) && Admissible(s, OpEnqueue(id, scheduled, at, runId))
    requires Enqueue(db, s, id, scheduled, at, runId).Ok?
    ensures Inv(db, Enqueue(db, s, id, scheduled, at, runId).value)
  {
    var next := Enqueue(db, s, id, scheduled, at, runId).value;
    var i := DefIndex(s.definitions, id).value;
    var d := s.definitions[i];
    assert d in s.definitions;
    if scheduled {
      S.NextIsLater(db, d.schedule, at, d.anchor);
    }
    SameIdsFound(s.definitions, next.definitions);
    assert next.definitions[i] in next.definitions;
    var added := next.runs[|s.runs|];
    forall k | 0 <= k < |s.runs| ensures Apart(s.runs[k], added) {
      assert s.runs[k] in s.runs;
    }
  }

  // Replacing one run by a later state of itself disturbs no other run.
  lemma ReplaceRun(db: S.ZoneDb, s: Snapshot, defs: seq<Definition>, i: nat, run: Run)
    requires Inv(db, s) && i < |s.runs|
    requires run.id == s.runs[i].id && run.definition == s.runs[i].definition
    requires Active(run.status) ==> Active(s.runs[i].status)
    requires forall x {:trigger DefIndex(defs, x)} :: DefIndex(s.definitions, x).Some? <==> DefIndex(defs, x).Some?
    requires RunOk(db, defs, run)
    ensures DistinctRuns(s.runs[i := run])
    ensures forall r | r in s.runs[i := run] :: RunOk(db, defs, r)
  {
    var runs := s.runs[i := run];
    forall r | r in runs ensures RunOk(db, defs, r) {
      var k :| 0 <= k < |runs| && runs[k] == r;
      assert s.runs[k] in s.runs;
    }
  }

  lemma UpdateRunKeepsInv(db: S.ZoneDb, s: Snapshot, id: string, status: RunStatus, error: Option<string>,
                          file: Option<string>, at: S.Instant)
    requires Inv(db, s) && UpdateRun(s, id, status, error, file, at).Ok?
    ensures Inv(db, UpdateRun(s, id, status, error, file, at).value)
  {
    var next := UpdateRun(s, id, status, error, file, at).value;
    var i := RunIndex(s.runs, id).value;
    var run := s.runs[i];
    assert RunOk(db, s.definitions, run);
    if Active(run.status) {
      if !Active(status) {
        SettleKeepsOk(db, s.definitions, run.definition.id, status);
      }
      ReplaceRun(db, s, next.definitions, i, next.runs[i]);
    }
  }

  lemma SettleKeepsOk(db: S.ZoneDb, defs: seq<Definition>, id: string, status: RunStatus)
    requires DistinctDefinitions(defs) && forall d | d in defs :: DefinitionOk(db, d)
    ensures var settled := Settle(defs, id, status);
            && DistinctDefinitions(settled)
            && (forall d | d in settled :: DefinitionOk(db, d))
            && (forall x {:trigger DefIndex(settled, x)} :: DefIndex(defs, x).Some? <==> DefIndex(settled, x).Some?)
  {
    var settled := Settle(defs, id, status);
    SameIdsFound(defs, settled);
    forall d | d in settled ensures DefinitionOk(db, d) {
      var k :| 0 <= k < |settled| && settled[k] == d;
      assert defs[k] in defs;
      CountedKeepsOk(db, defs[k], status);
    }
  }

  lemma CountedKeepsOk(db: S.ZoneDb, d: Definition, status: RunStatus)
    requires DefinitionOk(db, d)
    ensures DefinitionOk(db, Counted(d, status))
  {
  }

  lemma MarkReviewedKeepsInv(db: S.ZoneDb, s: Snapshot, id: string)
    requires Inv(db, s) && MarkReviewed(s, id).Ok?
    ensures Inv(db, MarkReviewed(s, id).value)
  {
    var i := RunIndex(s.runs, id).value;
    assert RunOk(db, s.definitions, s.runs[i]);
    ReplaceRun(db, s, s.definitions, i, MarkReviewed(s, id).value.runs[i]);
  }

  // Every operation keeps the invariant.
  lemma ChangeKeepsInv(db: S.ZoneDb, s: Snapshot, op: Op)
    requires Inv(db, s) && Admissible(s, op) && Change(db, s, op).Ok?
    ensures Inv(db, Change(db, s, op).value)
    ensures Inv(db, Committed(Change(db, s, op).value))
  {
    match op {
      case OpSave(d, at) => SaveKeepsInv(db, s, d, at);
      case OpSetEnabled(id, enabled, at) => SetEnabledKeepsInv(db, s, id, enabled, at);
      case OpDelete(id) => WithoutIsDistinct(s.definitions, id);
      case OpEnqueue(id, scheduled, at, runId) => EnqueueKeepsInv(db, s, id, scheduled, at, runId);
      case OpUpdateRun(id, status, error, file, at) => UpdateRunKeepsInv(db, s, id, status, error, file, at);
      case OpDeleteRun(id) => WithoutRunIsDistinct(s.runs, id);
      case OpMarkReviewed(id) => MarkReviewedKeepsInv(db, s, id);
    }
    CommittedKeepsInv(db, Change(db, s, op).value);
  }
}
