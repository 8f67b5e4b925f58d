// The automation store over whole runs: claims, failure counts and the
// immutability of run history.
module AutomationHistory {
  import opened Outcomes
  import opened AutomationStore
  import S = Schedules

  // An occurrence of definition `id` taken by a scheduled enqueue.
  datatype Claimed = Claimed(id: string, at: S.Instant)

  // What the failure count of a definition depends on.
  datatype Event = Reset(id: string) | Ended(id: string, status: RunStatus)

  datatype World = World(
    snapshot: Snapshot, clock: S.Instant, claims: seq<Claimed>, log: seq<Event>, used: set<string>)

  const START: World := World(EMPTY, 0, [], [], {})

  function OpTime(op: Op): Option<S.Instant> {
    match op
    case OpSave(_, at) => Some(at)
    case OpSetEnabled(_, _, at) => Some(at)
    case OpEnqueue(_, _, at, _) => Some(at)
    case OpUpdateRun(_, _, _, _, at) => Some(at)
    case _ => None
  }

  function EventsOf(s: Snapshot, op: Op): seq<Event> {
    match op
    case OpSave(d, _) =>
      (match DefIndex(s.definitions, d.id)
       case None => [Reset(d.id)]
       case Some(i) => if s.definitions[i].enabled != d.enabled then [Reset(d.id)] else [])
    case OpSetEnabled(id, _, _) => [Reset(id)]
    case OpUpdateRun(id, status, _, _, _) =>
      (match RunIndex(s.runs, id)
       case None => []
       case Some(i) =>
         if Active(s.runs[i].status) && !Active(status) then [Ended(s.runs[i].definition.id, status)] else [])
    case _ => []
  }

  function ClaimsOf(next: Snapshot, op: Op): seq<Claimed> {
    if op.OpEnqueue? && op.scheduled && next.runs != [] && next.runs[|next.runs| - 1].scheduledFor.Some?
    then [Claimed(op.id, next.runs[|next.runs| - 1].scheduledFor.value)]
    else []
  }

  // Failed or interrupted endings of one definition since its last success,
  // re-enabling, pausing or creation.
  function FailuresSince(log: seq<Event>, id: string): nat {
    if log == [] then 0
    else
      var before := log[..|log| - 1];
      match log[|log| - 1]
      case Reset(x) => if x == id then 0 else FailuresSince(before, id)
      case Ended(x, status) =>
        if x != id then FailuresSince(before, id)
        else if status == Succeeded then 0
        else if status in {Failed, Interrupted} then FailuresSince(before, id) + 1
        else FailuresSince(before, id)
  }

  // Callers' clocks never run backwards and run ids are never reused.
  ghost predicate Allowed(w: World, op: Op) {
    && Admissible(w.snapshot, op)
    && (OpTime(op).Some? ==> w.clock <= OpTime(op).value)
    && (op.OpEnqueue? ==> op.runId !in w.used)
  }

  // The world an operation asks for, before its snapshot is committed.
  function Advanced(w: World, op: Op, next: Snapshot): World {
    World(next,
          if OpTime(op).Some? then OpTime(op).value else w.clock,
          w.claims + ClaimsOf(next, op),
          w.log + EventsOf(w.snapshot, op),
          w.used + if op.OpEnqueue? then {op.runId} else {})
  }

  function Stepped(w: World, op: Op, fault: Fault, changed: Result<Snapshot, Error>): World {
    if changed.Err? || !Renamed(fault)
    then w.(clock := if OpTime(op).Some? then OpTime(op).value else w.clock)
    else Advanced(w, op, changed.value).(snapshot := Committed(changed.value))
  }

  function Step(db: S.ZoneDb, w: World, op: Op, fault: Fault): World
    requires Inv(db, w.snapshot) && Allowed(w, op)
  {
    Stepped(w, op, fault, Change(db, w.snapshot, op))
  }

  ghost predicate Follows(db: S.ZoneDb, w: World, next: World) {
    exists op, fault :: StepsBy(db, w, op, fault, next)
  }

  ghost predicate StepsBy(db: S.ZoneDb, w: World, op: Op, fault: Fault, next: World) {
    Inv(db, w.snapshot) && Allowed(w, op) && next == Step(db, w, op, fault)
  }

  // Any sequence of operations, each of which may fail at any I/O point.
  ghost predicate Behaviour(db: S.ZoneDb, worlds: seq<World>) {
    && worlds != []
    && worlds[0] == START
    && forall k | 0 <= k < |worlds| - 1 :: FollowsAt(db, worlds, k)
  }

  ghost predicate FollowsAt(db: S.ZoneDb, worlds: seq<World>, k: nat)
    requires k < |worlds| - 1
  {
    Follows(db, worlds[k], worlds[k + 1])
  }

  // ---------------------------------------------------------------- Invariant

  ghost predicate ClaimsIncrease(claims: seq<Claimed>) {
    forall i, j | 0 <= i < j < |claims| :: claims[i].id == claims[j].id ==> claims[i].at < claims[j].at
  }

  ghost predicate SchedulesAhead(defs: seq<Definition>, claims: seq<Claimed>) {
    forall d, c | d in defs && c in claims && d.nextAt.Some? && c.id == d.id :: c.at < d.nextAt.value
  }

  ghost predicate CountsFailures(defs: seq<Definition>, log: seq<Event>) {
    forall d | d in defs :: d.failures == FailuresSince(log, d.id)
  }

  // Within one definition, later runs carry later occurrences.
  ghost predicate RunsIncrease(runs: seq<Run>) {
    forall i, j | 0 <= i < j < |runs| :: Later(runs[i], runs[j])
  }

  ghost predicate Later(a: Run, b: Run) {
    a.definition.id == b.definition.id && a.scheduledFor.Some? && b.scheduledFor.Some? ==>
      a.scheduledFor.value < b.scheduledFor.value
  }

  ghost predicate RunsAccounted(w: World) {
    forall run | run in w.snapshot.runs ::
      && run.id in w.used
      && (run.scheduledFor.Some? ==> Claimed(run.definition.id, run.scheduledFor.value) in w.claims)
  }

  // Everything the history adds to the store's own invariant.
  ghost predicate Consistent(w: World) {
    && ClaimsIncrease(w.claims)
    && (forall c | c in w.claims :: c.at <= w.clock)
    && SchedulesAhead(w.snapshot.definitions, w.claims)
    && CountsFailures(w.snapshot.definitions, w.log)
    && RunsIncrease(w.snapshot.runs)
    && RunsAccounted(w)
  }

  ghost predicate WorldInv(db: S.ZoneDb, w: World) {
    Inv(db, w.snapshot) && Consistent(w)
  }

  lemma OtherEvents(log: seq<Event>, e: Event, id: string)
    ensures FailuresSince(log + [e], id) ==
      if e.id != id then FailuresSince(log, id)
      else if e.Reset? || e.status == Succeeded then 0
      else if e.status in {Failed, Interrupted} then FailuresSince(log, id) + 1
      else FailuresSince(log, id)
  {
  }

  lemma LaterThanFirst(runs: seq<Run>, rest: seq<Run>)
    requires RunsIncrease(runs) && runs != [] && RunsIncrease(rest) && forall run | run in rest :: run in runs[1..]
    ensures RunsIncrease([runs[0]] + rest)
  {
    forall run | run in rest ensures Later(runs[0], run) {
      var k :| 0 <= k < |runs[1..]| && runs[1..][k] == run;
      assert runs[k + 1] == run;
    }
  }

  lemma {:induction false} RetainedIncrease(runs: seq<Run>)
    requires RunsIncrease(runs)
    ensures RunsIncrease(Retained(runs))
  {
    if runs != [] {
      RetainedIncrease(runs[1..]);
      LaterThanFirst(runs, Retained(runs[1..]));
    }
  }

  lemma {:induction false} WithoutRunIncrease(runs: seq<Run>, id: string)
    requires RunsIncrease(runs)
    ensures RunsIncrease(WithoutRun(runs, id))
  {
    if runs != [] {
      WithoutRunIncrease(runs[1..], id);
      LaterThanFirst(runs, WithoutRun(runs[1..], id));
    }
  }

  // An operation that neither claims nor reschedules keeps claims ahead.
  lemma SaveStep(db: S.ZoneDb, w: World, d: Definition, at: S.Instant)
    requires WorldInv(db, w) && Allowed(w, OpSave(d, at)) && Save(db, w.snapshot, d, at).Ok?
    ensures var defs := Save(db, w.snapshot, d, at).value.definitions;
            SchedulesAhead(defs, w.claims) && CountsFailures(defs, w.log + EventsOf(w.snapshot, OpSave(d, at)))
  {
    SaveCounts(db, w, d, at);
    var defs := Save(db, w.snapshot, d, at).value.definitions;
    var saved := defs[|defs| - 1];
    var i := DefIndex(w.snapshot.definitions, d.id);
    if saved.nextAt.Some? {
      if i.Some? {
        assert w.snapshot.definitions[i.value] in w.snapshot.definitions;
      }
      RescheduledAhead(db, w, d, saved, at);
    }
  }

  lemma SaveCounts(db: S.ZoneDb, w: World, d: Definition, at: S.Instant)
    requires WorldInv(db, w) && Allowed(w, OpSave(d, at)) && Save(db, w.snapshot, d, at).Ok?
    ensures CountsFailures(Save(db, w.snapshot, d, at).value.definitions,
                           w.log + EventsOf(w.snapshot, OpSave(d, at)))
  {
    var defs := Save(db, w.snapshot, d, at).value.definitions;
    var events := EventsOf(w.snapshot, OpSave(d, at));
    assert defs == Without(w.snapshot.definitions, d.id) + [defs[|defs| - 1]];
    SavedCount(db, w, d, at);
    forall x | x in Without(w.snapshot.definitions, d.id) ensures x.failures == FailuresSince(w.log + events, x.id) {
      if events != [] {
        OtherEvents(w.log, events[0], x.id);
      } else {
        assert w.log + events == w.log;
      }
    }
  }

  lemma SavedCount(db: S.ZoneDb, w: World, d: Definition, at: S.Instant)
    requires WorldInv(db, w) && Allowed(w, OpSave(d, at)) && Save(db, w.snapshot, d, at).Ok?
    ensures var defs := Save(db, w.snapshot, d, at).value.definitions;
            var saved := defs[|defs| - 1];
            saved.id == d.id
            && saved.failures == FailuresSince(w.log + EventsOf(w.snapshot, OpSave(d, at)), d.id)
  {
    var events := EventsOf(w.snapshot, OpSave(d, at));
    if events != [] {
      OtherEvents(w.log, events[0], d.id);
      assert w.log + events == w.log + [events[0]];
    } else {
      assert w.log + events == w.log;
      var i := DefIndex(w.snapshot.definitions, d.id).value;
      assert w.snapshot.definitions[i] in w.snapshot.definitions;
    }
  }

  lemma RescheduledAhead(db: S.ZoneDb, w: World, d: Definition, saved: Definition, at: S.Instant)
    requires Consistent(w) && w.clock <= at && saved.nextAt.Some? && saved.id == d.id
    requires (NextWhenEnabled(db, d, at).Ok? && saved.nextAt == NextWhenEnabled(db, d, at).value)
          || exists x :: x in w.snapshot.definitions && x.id == saved.id && x.nextAt == saved.nextAt
    ensures forall c | c in w.claims && c.id == saved.id :: c.at < saved.nextAt.value
  {
    if NextWhenEnabled(db, d, at).Ok? && saved.nextAt == NextWhenEnabled(db, d, at).value {
      S.NextIsLater(db, d.schedule, at, at);
    }
  }

  lemma SetEnabledStep(db: S.ZoneDb, w: World, id: string, enabled: bool, at: S.Instant)
    requires WorldInv(db, w) && Allowed(w, OpSetEnabled(id, enabled, at))
    requires SetEnabled(db, w.snapshot, id, enabled, at).Ok?
    ensures var next := SetEnabled(db, w.snapshot, id, enabled, at).value;
            && SchedulesAhead(next.definitions, w.claims)
            && CountsFailures(next.definitions, w.log + [Reset(id)])
            && RunsIncrease(next.runs)
            && RunsAccounted(w.(snapshot := next))
  {
    var next := SetEnabled(db, w.snapshot, id, enabled, at).value;
    var i := DefIndex(w.snapshot.definitions, id).value;
    forall x | x in next.definitions ensures x.failures == FailuresSince(w.log + [Reset(id)], x.id) {
      OtherEvents(w.log, Reset(id), x.id);
      var k :| 0 <= k < |next.definitions| && next.definitions[k] == x;
      assert w.snapshot.definitions[k] in w.snapshot.definitions;
    }
    if enabled {
      var d := next.definitions[i];
      if d.nextAt.Some? {
        RescheduledAhead(db, w, d, d, at);
      }
    } else {
      assert next.runs == PauseAll(w.snapshot.runs, id, at);
      forall run | run in next.runs
        ensures run.id in w.used
        ensures run.scheduledFor.Some? ==> Claimed(run.definition.id, run.scheduledFor.value) in w.claims
      {
        var k :| 0 <= k < |next.runs| && next.runs[k] == run;
        assert w.snapshot.runs[k] in w.snapshot.runs;
      }
      forall a, b | 0 <= a < b < |next.runs| ensures Later(next.runs[a], next.runs[b]) {
        assert Later(w.snapshot.runs[a], w.snapshot.runs[b]);
      }
    }
  }

  lemma EnqueueStep(db: S.ZoneDb, w: World, id: string, scheduled: bool, at: S.Instant, runId: string)
    requires WorldInv(db, w) && Allowed(w, OpEnqueue(id, scheduled, at, runId))
    requires Enqueue(db, w.snapshot, id, scheduled, at, runId).Ok?
    ensures var next := Enqueue(db, w.snapshot, id, scheduled, at, runId).value;
            var claims := w.claims + ClaimsOf(next, OpEnqueue(id, scheduled, at, runId));
            && ClaimsIncrease(claims)
            && (forall c | c in claims :: c.at <= at)
            && SchedulesAhead(next.definitions, claims)
            && CountsFailures(next.definitions, w.log)
            && RunsIncrease(next.runs)
            && RunsAccounted(World(next, at, claims, w.log, w.used + {runId}))
  {
    var next := Enqueue(db, w.snapshot, id, scheduled, at, runId).value;
    var i := DefIndex(w.snapshot.definitions, id).value;
    var d := w.snapshot.definitions[i];
    assert d in w.snapshot.definitions;
    var added := next.runs[|next.runs| - 1];
    assert next.runs == w.snapshot.runs + [added];
    forall x | x in next.definitions ensures x.failures == FailuresSince(w.log, x.id) {
      var k :| 0 <= k < |next.definitions| && next.definitions[k] == x;
      assert w.snapshot.definitions[k] in w.snapshot.definitions;
    }
    if scheduled {
      ClaimBounds(db, d, at);
      ClaimIsNewest(w, d, added);
    }
  }

  // An occurrence at or past the definition's next one is past every claim.
  lemma ClaimIsNewest(w: World, d: Definition, added: Run)
    requires Consistent(w) && d in w.snapshot.definitions && d.nextAt.Some?
    requires added.definition.id == d.id && added.scheduledFor.Some? && d.nextAt.value <= added.scheduledFor.value
    ensures ClaimsIncrease(w.claims + [Claimed(d.id, added.scheduledFor.value)])
    ensures Claimed(d.id, added.scheduledFor.value) in w.claims + [Claimed(d.id, added.scheduledFor.value)]
    ensures RunsIncrease(w.snapshot.runs + [added])
  {
  }

  lemma ClaimBounds(db: S.ZoneDb, d: Definition, at: S.Instant)
    requires DefinitionOk(db, d) && 0 <= at && Claim(db, d, at).Ok?
    ensures var (moved, latest) := Claim(db, d, at).value;
            && d.nextAt.value <= latest <= at
            && (moved.nextAt.Some? ==> at < moved.nextAt.value)
            && moved == d.(nextAt := moved.nextAt)
  {
    S.LatestDueBounds(db, d.schedule, d.nextAt.value, at, d.anchor);
    S.NextIsLater(db, d.schedule, at, d.anchor);
  }

  lemma SettleStep(w: World, id: string, status: RunStatus)
    requires Consistent(w) && !Active(status)
    requires DistinctDefinitions(w.snapshot.definitions)
    ensures var settled := Settle(w.snapshot.definitions, id, status);
            SchedulesAhead(settled, w.claims) && CountsFailures(settled, w.log + [Ended(id, status)])
  {
  }

  lemma UpdateRunStep(db: S.ZoneDb, w: World, op: Op)
    requires op.OpUpdateRun? && WorldInv(db, w) && Allowed(w, op)
    requires UpdateRun(w.snapshot, op.id, op.status, op.error, op.sessionFile, op.at).Ok?
    ensures var next := UpdateRun(w.snapshot, op.id, op.status, op.error, op.sessionFile, op.at).value;
            && SchedulesAhead(next.definitions, w.claims)
            && CountsFailures(next.definitions, w.log + EventsOf(w.snapshot, op))
            && RunsIncrease(next.runs)
            && RunsAccounted(w.(snapshot := next))
  {
    var next := UpdateRun(w.snapshot, op.id, op.status, op.error, op.sessionFile, op.at).value;
    var i := RunIndex(w.snapshot.runs, op.id).value;
    var run := w.snapshot.runs[i];
    if Active(run.status) && !Active(op.status) {
      SettleStep(w, run.definition.id, op.status);
    } else {
      assert w.log + EventsOf(w.snapshot, op) == w.log;
    }
    KeepsRuns(w, next, i);
  }

  // A run replaced by a later state of itself keeps its claim.
  lemma KeepsRuns(w: World, next: Snapshot, i: nat)
    requires RunsIncrease(w.snapshot.runs) && RunsAccounted(w)
    requires |next.runs| == |w.snapshot.runs| && i < |next.runs|
    requires next.runs == w.snapshot.runs[i := next.runs[i]]
    requires next.runs[i].id == w.snapshot.runs[i].id
    requires next.runs[i].definition == w.snapshot.runs[i].definition
    requires next.runs[i].scheduledFor == w.snapshot.runs[i].scheduledFor
    ensures RunsIncrease(next.runs) && RunsAccounted(w.(snapshot := next))
  {
  }

  lemma ChangeStep(db: S.ZoneDb, w: World, op: Op)
    requires WorldInv(db, w) && Allowed(w, op) && Change(db, w.snapshot, op).Ok?
    ensures Consistent(Advanced(w, op, Change(db, w.snapshot, op).value))
  {
    var next := Change(db, w.snapshot, op).value;
    assert w.log + [] == w.log && w.claims + [] == w.claims;
    match op {
      case OpSave(d, at) => SaveStep(db, w, d, at);
      case OpSetEnabled(id, enabled, at) => SetEnabledStep(db, w, id, enabled, at);
      case OpDelete(id) =>
      case OpEnqueue(id, scheduled, at, runId) => EnqueueStep(db, w, id, scheduled, at, runId);
      case OpUpdateRun(_, _, _, _, _) => UpdateRunStep(db, w, op);
      case OpDeleteRun(id) => WithoutRunIncrease(w.snapshot.runs, id);
      case OpMarkReviewed(id) => KeepsRuns(w, next, RunIndex(w.snapshot.runs, id).value);
    }
  }

  lemma CommitIsConsistent(w: World)
    requires Consistent(w)
    ensures Consistent(w.(snapshot := Committed(w.snapshot)))
  {
    RetainedIncrease(w.snapshot.runs);
  }

  lemma ChangeKeepsWorld(db: S.ZoneDb, w: World, op: Op)
    requires WorldInv(db, w) && Allowed(w, op) && Change(db, w.snapshot, op).Ok?
    ensures var changed := Change(db, w.snapshot, op).value;
            WorldInv(db, Advanced(w, op, changed).(snapshot := Committed(changed)))
  {
    ChangeKeepsInv(db, w.snapshot, op);
    ChangeStep(db, w, op);
    CommitIsConsistent(Advanced(w, op, Change(db, w.snapshot, op).value));
  }

  lemma SteppedKeepsWorld(db: S.ZoneDb, w: World, op: Op, fault: Fault, changed: Result<Snapshot, Error>)
    requires WorldInv(db, w) && (OpTime(op).Some? ==> w.clock <= OpTime(op).value)
    requires changed.Ok? ==> WorldInv(db, Advanced(w, op, changed.value).(snapshot := Committed(changed.value)))
    ensures WorldInv(db, Stepped(w, op, fault, changed))
  {
  }

  // Every step keeps the whole invariant, at whichever point its I/O fails.
  lemma StepKeepsWorld(db: S.ZoneDb, w: World, op: Op, fault: Fault)
    requires WorldInv(db, w) && Allowed(w, op)
    ensures WorldInv(db, Step(db, w, op, fault))
  {
    var changed := Change(db, w.snapshot, op);
    if changed.Ok? {
      ChangeKeepsWorld(db, w, op);
    }
    SteppedKeepsWorld(db, w, op, fault, changed);
  }

  lemma StepAt(db: S.ZoneDb, worlds: seq<World>, k: nat) returns (op: Op, fault: Fault)
    requires Behaviour(db, worlds) && k < |worlds| - 1
    ensures StepsBy(db, worlds[k], op, fault, worlds[k + 1])
  {
    assert FollowsAt(db, worlds, k);
    op, fault :| StepsBy(db, worlds[k], op, fault, worlds[k + 1]);
  }

  lemma {:induction false} BehaviourKeepsWorld(db: S.ZoneDb, worlds: seq<World>, k: nat)
    requires Behaviour(db, worlds) && k < |worlds|
    ensures WorldInv(db, worlds[k])
  {
    if k > 0 {
      BehaviourKeepsWorld(db, worlds, k - 1);
      WorldStep(db, worlds, k - 1);
    }
  }

  lemma WorldStep(db: S.ZoneDb, worlds: seq<World>, k: nat)
    requires Behaviour(db, worlds) && k < |worlds| - 1 && WorldInv(db, worlds[k])
    ensures WorldInv(db, worlds[k + 1])
  {
    var op, fault := StepAt(db, worlds, k);
    StepKeepsWorld(db, worlds[k], op, fault);
  }

  // ------------------------------------------------------------ Main theorems

  // Over any run, the occurrences claimed for one definition strictly
  // increase, so none is claimed twice and no two runs share one.
  lemma OccurrencesAreClaimedOnce(db: S.ZoneDb, worlds: seq<World>, k: nat)
    requires Behaviour(db, worlds) && k < |worlds|
    ensures ClaimsIncrease(worlds[k].claims)
    ensures forall run | run in worlds[k].snapshot.runs && run.scheduledFor.Some? ::
              Claimed(run.definition.id, run.scheduledFor.value) in worlds[k].claims
    ensures forall i, j | 0 <= i < j < |worlds[k].snapshot.runs| ::
              Later(worlds[k].snapshot.runs[i], worlds[k].snapshot.runs[j])
  {
    BehaviourKeepsWorld(db, worlds, k);
  }

  // The stored failure count is always the count the history gives.
  lemma FailuresAreCounted(db: S.ZoneDb, worlds: seq<World>, k: nat)
    requires Behaviour(db, worlds) && k < |worlds|
    ensures forall d | d in worlds[k].snapshot.definitions ::
              && d.failures == FailuresSince(worlds[k].log, d.id)
              && (d.enabled ==> FailuresSince(worlds[k].log, d.id) < FAILURE_LIMIT)
  {
    BehaviourKeepsWorld(db, worlds, k);
    assert forall d | d in worlds[k].snapshot.definitions :: DefinitionOk(db, d);
  }

  // A scheduled enqueue claims the greatest firing not after `at` and leaves
  // the least firing after it.
  lemma EnqueueClaimsTheLatest(db: S.ZoneDb, d: Definition, at: S.Instant)
    requires DefinitionOk(db, d) && 0 <= at && Claim(db, d, at).Ok? && S.ZoneLaws(db, d.schedule)
    ensures var (moved, latest) := Claim(db, d, at).value;
            && S.Fires(db, d.schedule, d.anchor, latest) && latest <= at
            && (forall u: S.Instant :: S.Fires(db, d.schedule, d.anchor, u) && u <= at ==> u <= latest)
            && moved.nextAt.Some? && at < moved.nextAt.value
            && S.Fires(db, d.schedule, d.anchor, moved.nextAt.value)
            && (forall u: S.Instant :: S.Fires(db, d.schedule, d.anchor, u) && at < u ==> moved.nextAt.value <= u)
  {
    S.LatestDueIsGreatestFiring(db, d.schedule, d.nextAt.value, at, d.anchor);
    S.NextIsLeastFiring(db, d.schedule, at, d.anchor);
  }

  // A due claim is never refused while the next time fits and the calendar
  // covers the stretch since it was due.
  lemma DueClaimSucceeds(db: S.ZoneDb, d: Definition, at: S.Instant)
    requires DefinitionOk(db, d) && d.nextAt.Some? && d.nextAt.value <= at && 0 <= at
    requires d.schedule.Interval? ==>
               0 < d.schedule.minutes && S.GridNext(d.schedule.minutes * 60, at, d.anchor) <= S.I64_MAX
    requires d.schedule.Calendar? ==>
               && db(d.schedule.timezone).Some?
               && var zone := db(d.schedule.timezone).value;
                  S.DaysAhead(zone) && S.Covered(zone, d.schedule.rule, d.nextAt.value, at)
    ensures Claim(db, d, at).Ok?
  {
    S.LatestDueSucceeds(db, d.schedule, d.nextAt.value, at, d.anchor);
    match d.schedule {
      case Interval(minutes) => S.IntervalNextIsExact(minutes * 60, at, d.anchor);
      case Calendar(rule, timezone) =>
        assert S.GoesOn(db(timezone).value, rule, at);
        S.CalendarNextExists(db(timezone).value, rule, at);
    }
  }

  // ------------------------------------------------------ Run history is fixed

  // How a recorded run may change: never its identity or snapshot, and once
  // finished, only by being marked reviewed.
  ghost predicate Evolves(a: Run, b: Run) {
    && a.id == b.id && a.definition == b.definition && a.scheduledFor == b.scheduledFor
    && a.createdAt == b.createdAt && a.sessionId == b.sessionId
    && (a.reviewed ==> b.reviewed)
    && (!Active(a.status) ==> b == a.(reviewed := b.reviewed))
  }

  ghost predicate Descends(run: Run, runs: seq<Run>) {
    exists a :: a in runs && Evolves(a, run)
  }

  ghost predicate Linked(w: World, next: World) {
    && w.clock <= next.clock
    && w.used <= next.used
    && w.claims <= next.claims
    && forall run | run in next.snapshot.runs && run.id in w.used :: Descends(run, w.snapshot.runs)
  }

  lemma ReplacedDescends(runs: seq<Run>, i: nat, updated: Run, run: Run)
    requires i < |runs| && Evolves(runs[i], updated) && run in runs[i := updated]
    ensures Descends(run, runs)
  {
    var k :| 0 <= k < |runs| && runs[i := updated][k] == run;
    assert runs[k] in runs && Evolves(runs[k], run);
  }

  lemma PausedDescends(runs: seq<Run>, id: string, at: S.Instant, run: Run)
    requires run in PauseAll(runs, id, at)
    ensures Descends(run, runs)
  {
    var k :| 0 <= k < |runs| && PauseAll(runs, id, at)[k] == run;
    assert runs[k] in runs && Evolves(runs[k], run);
  }

  lemma UpdatedDescends(s: Snapshot, op: Op, run: Run)
    requires op.OpUpdateRun? && RunIndex(s.runs, op.id).Some?
    requires run in UpdateRun(s, op.id, op.status, op.error, op.sessionFile, op.at).value.runs
    ensures Descends(run, s.runs)
  {
    var i := RunIndex(s.runs, op.id).value;
    var next := UpdateRun(s, op.id, op.status, op.error, op.sessionFile, op.at).value;
    assert next.runs == s.runs[i := next.runs[i]];
    ReplacedDescends(s.runs, i, next.runs[i], run);
  }

  lemma ReviewedDescends(s: Snapshot, id: string, run: Run)
    requires MarkReviewed(s, id).Ok? && run in MarkReviewed(s, id).value.runs
    ensures Descends(run, s.runs)
  {
    var i := RunIndex(s.runs, id).value;
    var next := MarkReviewed(s, id).value;
    assert next.runs == s.runs[i := next.runs[i]];
    ReplacedDescends(s.runs, i, next.runs[i], run);
  }

  lemma ChangedDescends(db: S.ZoneDb, w: World, op: Op, run: Run)
    requires WorldInv(db, w) && Allowed(w, op) && Change(db, w.snapshot, op).Ok?
    requires run in Change(db, w.snapshot, op).value.runs && run.id in w.used
    ensures Descends(run, w.snapshot.runs)
  {
    assert Evolves(run, run);
    match op {
      case OpSetEnabled(id, enabled, at) =>
        if !enabled { PausedDescends(w.snapshot.runs, id, at, run); }
      case OpUpdateRun(_, _, _, _, _) => UpdatedDescends(w.snapshot, op, run);
      case OpMarkReviewed(id) => ReviewedDescends(w.snapshot, id, run);
      case _ =>
    }
  }

  lemma StepLinks(db: S.ZoneDb, w: World, op: Op, fault: Fault)
    requires WorldInv(db, w) && Allowed(w, op)
    ensures Linked(w, Step(db, w, op, fault))
  {
    var changed := Change(db, w.snapshot, op);
    forall run | run in Step(db, w, op, fault).snapshot.runs && run.id in w.used
      ensures Descends(run, w.snapshot.runs)
    {
      if changed.Ok? && Renamed(fault) {
        ChangedDescends(db, w, op, run);
      } else {
        assert Evolves(run, run);
      }
    }
  }

  lemma {:induction false} BehaviourLinks(db: S.ZoneDb, worlds: seq<World>, i: nat, j: nat)
    requires Behaviour(db, worlds) && i <= j < |worlds|
    ensures Linked(worlds[i], worlds[j])
    decreases j - i
  {
    if i == j {
      forall run | run in worlds[i].snapshot.runs ensures Descends(run, worlds[i].snapshot.runs) {
        assert Evolves(run, run);
      }
    } else {
      LinkAt(db, worlds, i);
      BehaviourLinks(db, worlds, i + 1, j);
      LinksJoin(worlds[i], worlds[i + 1], worlds[j]);
    }
  }

  lemma LinkAt(db: S.ZoneDb, worlds: seq<World>, i: nat)
    requires Behaviour(db, worlds) && i < |worlds| - 1
    ensures Linked(worlds[i], worlds[i + 1])
  {
    BehaviourKeepsWorld(db, worlds, i);
    var op, fault := StepAt(db, worlds, i);
    StepLinks(db, worlds[i], op, fault);
  }

  lemma LinksJoin(a: World, b: World, c: World)
    requires Linked(a, b) && Linked(b, c)
    ensures Linked(a, c)
  {
    forall run | run in c.snapshot.runs && run.id in a.used ensures Descends(run, a.snapshot.runs) {
      var y :| y in b.snapshot.runs && Evolves(y, run);
      var x :| x in a.snapshot.runs && Evolves(x, y);
      assert Evolves(x, run);
    }
  }

  lemma SameRun(runs: seq<Run>, a: Run, b: Run)
    requires DistinctRuns(runs) && a in runs && b in runs && a.id == b.id
    ensures a == b
  {
  }

  // A run keeps its definition snapshot for ever, and a terminal status,
  // finishing time and error never change again.
  lemma RunHistoryIsFixed(db: S.ZoneDb, worlds: seq<World>, i: nat, j: nat, a: Run, b: Run)
    requires Behaviour(db, worlds) && i <= j < |worlds|
    requires a in worlds[i].snapshot.runs && b in worlds[j].snapshot.runs && a.id == b.id
    ensures Evolves(a, b)
  {
    BehaviourKeepsWorld(db, worlds, i);
    BehaviourLinks(db, worlds, i, j);
    var c :| c in worlds[i].snapshot.runs && Evolves(c, b);
    SameRun(worlds[i].snapshot.runs, a, c);
  }

  // Once a definition is gone, no run that used its identity until then can
  // add a failure to a later definition of the same name.
  lemma NamesakesNeverCount(db: S.ZoneDb, worlds: seq<World>, i: nat, j: nat, op: Op)
    requires Behaviour(db, worlds) && i <= j < |worlds| && op.OpUpdateRun?
    requires RunIndex(worlds[j].snapshot.runs, op.id).Some? && op.id in worlds[i].used
    requires DefIndex(worlds[i].snapshot.definitions,
               worlds[j].snapshot.runs[RunIndex(worlds[j].snapshot.runs, op.id).value].definition.id).None?
    ensures EventsOf(worlds[j].snapshot, op) == []
    ensures UpdateRun(worlds[j].snapshot, op.id, op.status, op.error, op.sessionFile, op.at) == Ok(worlds[j].snapshot)
  {
    var run := worlds[j].snapshot.runs[RunIndex(worlds[j].snapshot.runs, op.id).value];
    BehaviourKeepsWorld(db, worlds, i);
    BehaviourLinks(db, worlds, i, j);
    var a :| a in worlds[i].snapshot.runs && Evolves(a, run);
    assert RunOk(db, worlds[i].snapshot.definitions, a);
  }
}
