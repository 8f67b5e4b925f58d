// What each operation of the store comes to, said of the snapshot it leaves and
// not of how it is computed, and what that means for every claim of a run.
module AutomationOutcomes {
  import opened Outcomes
  import opened AutomationStore
  import opened AutomationRetention
  import opened AutomationHistory
  import opened AutomationEdits
  import opened DurableStore
  import S = Schedules

  // n is the first firing after `after`.
  ghost predicate FirstAfter(db: S.ZoneDb, schedule: S.Schedule, anchor: S.Instant, after: S.Instant, n: S.Instant) {
    && S.Fires(db, schedule, anchor, n) && after < n
    && forall u: S.Instant :: S.Fires(db, schedule, anchor, u) && after < u ==> n <= u
  }

  // t is the last firing that is not after `at`.
  ghost predicate LastUpTo(db: S.ZoneDb, schedule: S.Schedule, anchor: S.Instant, at: S.Instant, t: S.Instant) {
    && S.Fires(db, schedule, anchor, t) && t <= at
    && forall u: S.Instant :: S.Fires(db, schedule, anchor, u) && u <= at ==> u <= t
  }

  // A definition scheduled anew at `at`.
  ghost predicate StartsAt(db: S.ZoneDb, d: Definition, at: S.Instant) {
    d.anchor == at
    && if d.enabled && !d.schedule.Manual?
       then d.nextAt.Some? && FirstAfter(db, d.schedule, at, at, d.nextAt.value)
       else d.nextAt.None?
  }

  // Definitions other than `id` are the same before and after.
  ghost predicate OthersStay(was: seq<Definition>, now: seq<Definition>, id: string) {
    forall d: Definition | d.id != id :: d in was <==> d in now
  }

  lemma ReplacedOthersStay(was: seq<Definition>, i: nat, d: Definition)
    requires DistinctDefinitions(was) && i < |was| && d.id == was[i].id
    ensures OthersStay(was, was[i := d], d.id)
  {
    var now := was[i := d];
    forall x: Definition | x.id != d.id ensures x in was <==> x in now {
      if x in was {
        var k :| 0 <= k < |was| && was[k] == x;
        assert now[k] == x;
      }
      if x in now {
        var k :| 0 <= k < |now| && now[k] == x;
        assert was[k] == x;
      }
    }
  }

  lemma ReplacedFound(s: Snapshot, i: nat, d: Definition, next: Snapshot)
    requires DistinctDefinitions(s.definitions) && DefIndex(s.definitions, d.id) == Some(i)
    requires next.definitions == s.definitions[i := d]
    ensures Has(next, d.id) && Get(next, d.id) == d && OthersStay(s.definitions, next.definitions, d.id)
  {
    SameIdsFound(s.definitions, next.definitions);
    ReplacedOthersStay(s.definitions, i, d);
  }

  lemma WhenEnabledIsFirst(db: S.ZoneDb, d: Definition, at: S.Instant)
    requires NextWhenEnabled(db, d, at).Ok? && S.ZoneLaws(db, d.schedule)
    ensures StartsAt(db, d.(anchor := at, nextAt := NextWhenEnabled(db, d, at).value), at)
  {
    if d.enabled {
      S.NextIsLater(db, d.schedule, at, at);
      if !d.schedule.Manual? {
        S.NextIsLeastFiring(db, d.schedule, at, at);
      }
    }
  }

  // ------------------------------------------------------------------ Queueing

  // A run just queued, of definition d.
  ghost predicate Queues(run: Run, runId: string, d: Definition, at: S.Instant) {
    && run.id == runId && run.definition == d && run.createdAt == at && run.status == Queued
    && run.sessionId == "automation_" + runId
    && run.finishedAt.None? && run.sessionFile.None? && run.error.None? && !run.reviewed
  }

  // A due occurrence was claimed: of all that are due the latest, and the
  // schedule is left at the first one still to come.
  ghost predicate Coalesces(db: S.ZoneDb, was: Definition, now: Definition, at: S.Instant, claimed: S.Instant) {
    && was.enabled && was.nextAt.Some? && was.nextAt.value <= at
    && LastUpTo(db, was.schedule, was.anchor, at, claimed)
    && now.nextAt.Some? && FirstAfter(db, was.schedule, was.anchor, at, now.nextAt.value)
    && now == was.(nextAt := now.nextAt)
  }

  // A run of its own joins the end of the history and nothing else of it moves;
  // by hand it carries no occurrence, by schedule the latest one due.
  lemma EnqueueAdds(db: S.ZoneDb, s: Snapshot, id: string, scheduled: bool, at: S.Instant, runId: string)
    requires Inv(db, s) && 0 <= at && Enqueue(db, s, id, scheduled, at, runId).Ok?
    requires Has(s, id) ==> S.ZoneLaws(db, Get(s, id).schedule)
    ensures var next := Enqueue(db, s, id, scheduled, at, runId).value;
            && Has(s, id) && Has(next, id) && OthersStay(s.definitions, next.definitions, id)
            && |next.runs| == |s.runs| + 1 && s.runs <= next.runs
            && var run := next.runs[|s.runs|];
            && Queues(run, runId, Get(next, id), at)
            && (forall x | x in s.runs && x.definition.id == id :: !Active(x.status))
            && if scheduled
               then run.scheduledFor.Some? && Coalesces(db, Get(s, id), Get(next, id), at, run.scheduledFor.value)
               else run.scheduledFor.None? && next.definitions == s.definitions
  {
    var i := DefIndex(s.definitions, id).value;
    var d := s.definitions[i];
    assert d in s.definitions;
    if scheduled {
      ClaimBounds(db, d, at);
      EnqueueClaimsTheLatest(db, d, at);
      ReplacedFound(s, i, Claim(db, d, at).value.0, Enqueue(db, s, id, scheduled, at, runId).value);
    }
  }

  // And why it is refused: a run is active, there is no such definition, or a
  // scheduled one is not due; by hand nothing else refuses it.
  lemma EnqueueRefusesExactly(db: S.ZoneDb, s: Snapshot, id: string, scheduled: bool, at: S.Instant, runId: string)
    requires Inv(db, s) && 0 <= at
    ensures var r := Enqueue(db, s, id, scheduled, at, runId);
            var busy := exists run :: run in s.runs && run.definition.id == id && Active(run.status);
            && (r == Err(ActiveRun) <==> busy)
            && (r == Err(Missing) <==> !busy && !Has(s, id))
            && (!busy && Has(s, id) ==>
                  var d := Get(s, id);
                  && (!scheduled ==> r.Ok?)
                  && (r == Err(NotDue) <==> scheduled && !(d.enabled && d.nextAt.Some? && d.nextAt.value <= at)))
  {
  }

  // -------------------------------------------------------------------- Saving

  // What is stored says what was asked for; an edit that leaves schedule and
  // switch alone leaves the schedule where it was, any other starts it anew.
  lemma SaveStores(db: S.ZoneDb, s: Snapshot, d: Definition, at: S.Instant)
    requires Inv(db, s) && 0 <= at && Save(db, s, d, at).Ok? && S.ZoneLaws(db, d.schedule)
    ensures var next := Save(db, s, d, at).value;
            && Has(next, d.id) && OthersStay(s.definitions, next.definitions, d.id) && next.runs == s.runs
            && var now := Get(next, d.id);
            && now.details == d.details && now.schedule == d.schedule && now.enabled == d.enabled
            && (!Has(s, d.id) ==> now.revision == 1 && StartsAt(db, now, at))
            && (Has(s, d.id) ==>
                  var was := Get(s, d.id);
                  && now.revision == was.revision + 1
                  && (if was.schedule == d.schedule && was.enabled == d.enabled
                      then now.anchor == was.anchor && now.nextAt == was.nextAt else StartsAt(db, now, at))
                  && (if was.enabled == d.enabled
                      then now.failures == was.failures && now.pausedReason == was.pausedReason
                      else now.failures == 0 && now.pausedReason.None?))
  {
    var next := Save(db, s, d, at).value;
    var saved := SavedLast(db, s, d, at);
    TheDefinition(next.definitions, saved);
    if NextWhenEnabled(db, d, at).Ok? {
      WhenEnabledIsFirst(db, d, at);
    }
    SavedOthersStay(s.definitions, saved);
  }

  lemma SavedOthersStay(was: seq<Definition>, saved: Definition)
    ensures OthersStay(was, Without(was, saved.id) + [saved], saved.id)
  {
  }

  // ----------------------------------------------------------------- Switching

  // A run the switch was turned off on: cancelled if it was still waiting for
  // its occurrence, else as it was.
  ghost predicate SwitchedOff(was: Run, now: Run, id: string, at: S.Instant) {
    if was.definition.id == id && was.status == Queued && was.scheduledFor.Some?
    then && now.status == Cancelled && now.finishedAt == Some(at) && now.error == Some("Schedule paused before dispatch")
         && now == was.(status := now.status, finishedAt := now.finishedAt, error := now.error)
    else now == was
  }

  lemma SetEnabledSwitches(db: S.ZoneDb, s: Snapshot, id: string, enabled: bool, at: S.Instant)
    requires Inv(db, s) && SetEnabled(db, s, id, enabled, at).Ok?
    requires Has(s, id) ==> S.ZoneLaws(db, Get(s, id).schedule)
    ensures var next := SetEnabled(db, s, id, enabled, at).value;
            && Has(s, id) && Has(next, id) && OthersStay(s.definitions, next.definitions, id)
            && var was, now := Get(s, id), Get(next, id);
            && now.enabled == enabled && StartsAt(db, now, at)
            && now.revision == was.revision + 1 && now.failures == 0 && now.pausedReason.None?
            && now.details == was.details && now.schedule == was.schedule
            && |next.runs| == |s.runs|
            && forall k | 0 <= k < |s.runs| ::
                 if enabled then next.runs[k] == s.runs[k] else SwitchedOff(s.runs[k], next.runs[k], id, at)
  {
    var i := DefIndex(s.definitions, id).value;
    var d := s.definitions[i].(enabled := enabled, revision := s.definitions[i].revision + 1,
                               pausedReason := None, failures := 0);
    assert NextWhenEnabled(db, d.(anchor := at), at) == NextWhenEnabled(db, d, at);
    WhenEnabledIsFirst(db, d, at);
    var next := SetEnabled(db, s, id, enabled, at).value;
    ReplacedFound(s, i, d.(anchor := at, nextAt := NextWhenEnabled(db, d, at).value), next);
  }

  // ---------------------------------------------------------------- Reporting

  // A run that moved says what it was told, and when it ended.
  ghost predicate Moved(was: Run, now: Run, status: RunStatus, error: Option<string>, file: Option<string>, at: S.Instant) {
    && now.status == status && now.error == error
    && now.sessionFile == (if file.Some? then file else was.sessionFile)
    && (Active(status) ==> now.finishedAt == was.finishedAt)
    && (!Active(status) ==> now.finishedAt == Some(at))
    && now == was.(status := now.status, error := now.error, sessionFile := now.sessionFile, finishedAt := now.finishedAt)
  }

  // What an ending leaves of its definition: failures and interruptions count,
  // success forgives, cancelling does neither; the third failure pauses.
  ghost predicate Bears(was: Definition, now: Definition, status: RunStatus) {
    && (status == Succeeded ==> now.failures == 0)
    && (status == Failed || status == Interrupted ==> now.failures == was.failures + 1)
    && (status == Cancelled ==> now.failures == was.failures)
    && (if now.failures < 3 then now == was.(failures := now.failures)
        else && !now.enabled && now.nextAt.None? && now.revision == was.revision + 1
             && now.pausedReason == Some("Paused after three failed or interrupted runs")
             && now == was.(failures := now.failures, enabled := false, nextAt := None,
                            revision := now.revision, pausedReason := now.pausedReason))
  }

  lemma UpdateRunMoves(db: S.ZoneDb, s: Snapshot, op: Op, k: nat)
    requires Inv(db, s) && op.OpUpdateRun? && k < |s.runs| && s.runs[k].id == op.id
    ensures var changed := UpdateRun(s, op.id, op.status, op.error, op.sessionFile, op.at);
            && changed.Ok?
            && var next, owner := changed.value, s.runs[k].definition.id;
            && (!Active(s.runs[k].status) ==> next == s)
            && (Active(s.runs[k].status) ==>
                  && |next.runs| == |s.runs| && (forall j | 0 <= j < |s.runs| && j != k :: next.runs[j] == s.runs[j])
                  && Moved(s.runs[k], next.runs[k], op.status, op.error, op.sessionFile, op.at)
                  && OthersStay(s.definitions, next.definitions, owner)
                  && (Active(op.status) ==> next.definitions == s.definitions)
                  && (!Active(op.status) ==> Has(s, owner) && Has(next, owner) && Bears(Get(s, owner), Get(next, owner), op.status)))
  {
    TheRun(s.runs, k);
    var owner := s.runs[k].definition.id;
    if Active(s.runs[k].status) && !Active(op.status) {
      assert RunOk(db, s.definitions, s.runs[k]) by { assert s.runs[k] in s.runs; }
      var i := DefIndex(s.definitions, owner).value;
      var next := UpdateRun(s, op.id, op.status, op.error, op.sessionFile, op.at).value;
      ReplacedFound(s, i, Counted(s.definitions[i], op.status), next);
    }
  }

  ghost predicate Alone(runs: seq<Run>, k: nat)
    requires k < |runs|
  {
    forall j | 0 <= j < |runs| && j != k :: runs[j].id != runs[k].id
  }

  lemma DistinctIsAlone(runs: seq<Run>, k: nat)
    requires DistinctRuns(runs) && k < |runs|
    ensures Alone(runs, k)
  {
    forall j | 0 <= j < |runs| && j != k ensures runs[j].id != runs[k].id {
      assert j < k ==> Apart(runs[j], runs[k]);
      assert k < j ==> Apart(runs[k], runs[j]);
    }
  }

  lemma TheRun(runs: seq<Run>, k: nat)
    requires DistinctRuns(runs) && k < |runs|
    ensures RunIndex(runs, runs[k].id) == Some(k)
  {
    assert runs[k] in runs;
    DistinctIsAlone(runs, k);
  }

  // ------------------------------------------------------- Removing, reviewing

  lemma DeleteRemoves(db: S.ZoneDb, s: Snapshot, id: string)
    requires Inv(db, s)
    ensures Delete(s, id).Ok? <==> forall run | run in s.runs && run.definition.id == id :: !Active(run.status)
    ensures Delete(s, id).Ok? ==>
              var next := Delete(s, id).value;
              !Has(next, id) && OthersStay(s.definitions, next.definitions, id) && next.runs == s.runs
  {
  }

  // Only a finished run leaves the history, alone.
  lemma DeleteRunRemoves(db: S.ZoneDb, s: Snapshot, k: nat)
    requires Inv(db, s) && k < |s.runs|
    ensures DeleteRun(s, s.runs[k].id).Ok? <==> !Active(s.runs[k].status)
    ensures DeleteRun(s, s.runs[k].id).Ok? ==>
              DeleteRun(s, s.runs[k].id).value == s.(runs := s.runs[..k] + s.runs[k + 1..])
  {
    TheRun(s.runs, k);
    DistinctIsAlone(s.runs, k);
    WithoutTheRun(s.runs, k);
  }

  lemma {:induction false} WithoutTheRun(runs: seq<Run>, k: nat)
    requires k < |runs| && Alone(runs, k)
    ensures WithoutRun(runs, runs[k].id) == runs[..k] + runs[k + 1..]
  {
    if k == 0 {
      WithoutNone(runs[1..], runs[0].id);
    } else {
      WithoutTheRun(runs[1..], k - 1);
      CutInTail(runs, k);
    }
  }

  lemma CutInTail<T>(s: seq<T>, k: nat)
    requires 0 < k < |s|
    ensures [s[0]] + (s[1..][..k - 1] + s[1..][k..]) == s[..k] + s[k + 1..]
  {
  }

  lemma {:induction false} WithoutNone(runs: seq<Run>, id: string)
    requires forall run | run in runs :: run.id != id
    ensures WithoutRun(runs, id) == runs
  {
    if runs != [] {
      WithoutNone(runs[1..], id);
    }
  }

  lemma MarkReviewedMarks(db: S.ZoneDb, s: Snapshot, k: nat)
    requires Inv(db, s) && k < |s.runs|
    ensures MarkReviewed(s, s.runs[k].id).Ok?
    ensures var next := MarkReviewed(s, s.runs[k].id).value;
            next == if Active(s.runs[k].status) then s else s.(runs := s.runs[k := s.runs[k].(reviewed := true)])
  {
    TheRun(s.runs, k);
  }

  // ------------------------------------------------------------------- Faults

  // A fault up to the rename leaves memory and file as they were; one after it
  // leaves the new snapshot in both, though a crash may still take it back.
  // Either way the caller is told; only a clean end is settled.
  lemma FaultsKeepMemoryAndFileTogether(db: S.ZoneDb, host: Host, op: Op, fault: Fault)
    requires Inv(db, host.snapshot) && Admissible(host.snapshot, op) && Change(db, host.snapshot, op).Ok?
    ensures var next, written := Applied(db, host, op, fault), Committed(Change(db, host.snapshot, op).value);
            && (fault in {TempFile, Serialize, FileSync, Rename} ==> next == host)
            && (fault == DirSync ==> next == Host(written, Disk(written, host.disk.afterCrash + {written})))
            && (fault == NoFault ==> next == Host(written, Disk(written, {written})))
            && (Answer(Change(db, host.snapshot, op), fault).Ok? <==> fault == NoFault)
  {
  }

  // A commit raises the revision by one and drops nothing but old reviewed runs.
  lemma CommitRaisesRevision(s: Snapshot)
    ensures Committed(s).revision == s.revision + 1
    ensures Committed(s).version == s.version && Committed(s).definitions == s.definitions
    ensures forall run | run in Committed(s).runs :: run in s.runs
    ensures forall run | run in s.runs && !(run.reviewed && run.status in {Succeeded, Failed, Cancelled, Interrupted}) ::
              run in Committed(s).runs
  {
    forall run | run in s.runs && !(run.reviewed && run.status in {Succeeded, Failed, Cancelled, Interrupted})
      ensures run in Committed(s).runs
    {
      SpentIsPrunable(run);
      assert !Spent(run, run.definition.id);
    }
  }

  // The revision tells snapshots apart: it never falls, and as long as it stays
  // the store holds the very same.
  lemma {:induction false} SameRevisionSameSnapshot(db: S.ZoneDb, worlds: seq<World>, i: nat, j: nat)
    requires Behaviour(db, worlds) && i <= j < |worlds|
    ensures worlds[i].snapshot.revision <= worlds[j].snapshot.revision
    ensures worlds[i].snapshot.revision == worlds[j].snapshot.revision ==> worlds[i].snapshot == worlds[j].snapshot
    decreases j - i
  {
    if i < j {
      SameRevisionSameSnapshot(db, worlds, i, j - 1);
      var op, fault := StepAt(db, worlds, j - 1);
      StepRaisesRevision(db, worlds[j - 1], op, fault);
    }
  }

  lemma StepRaisesRevision(db: S.ZoneDb, w: World, op: Op, fault: Fault)
    requires Inv(db, w.snapshot) && Allowed(w, op)
    ensures var next := Step(db, w, op, fault).snapshot; next == w.snapshot || next.revision == w.snapshot.revision + 1
  {
    if Change(db, w.snapshot, op).Ok? {
      CommitRaisesRevision(Change(db, w.snapshot, op).value);
      ChangeKeepsRevision(db, w.snapshot, op);
    }
  }

  lemma ChangeKeepsRevision(db: S.ZoneDb, s: Snapshot, op: Op)
    requires Inv(db, s) && Admissible(s, op) && Change(db, s, op).Ok?
    ensures Change(db, s, op).value.revision == s.revision && Change(db, s, op).value.version == s.version
  {
  }

  // What opens is sound: of the known version, with one valid definition an id
  // and one run an id, each run of a valid definition and named after its id.
  lemma OpenedIsSound(db: S.ZoneDb, s: Snapshot)
    requires Readable(db, s)
    ensures s.version == 1 && DistinctDefinitions(s.definitions)
    ensures forall d | d in s.definitions :: Validate(db, d).Ok?
    ensures forall i, j | 0 <= i < |s.runs| && 0 <= j < |s.runs| && s.runs[i].id == s.runs[j].id :: i == j
    ensures forall run | run in s.runs ::
              Validate(db, run.definition).Ok? && run.id != "" && run.sessionId == "automation_" + run.id
  {
    assert forall run | run in s.runs :: ReadableRun(db, run);
  }

  // A valid definition: a plain key, a name and a prompt that say something, an
  // absolute project, a model of our own, and a schedule that names a real time.
  lemma ValidMeans(db: S.ZoneDb, d: Definition)
    ensures Validate(db, d).Ok? <==>
              && d.id != ""
              && (forall c | c in d.id :: 'a' <= c <= 'z' || 'A' <= c <= 'Z' || '0' <= c <= '9' || c == '-' || c == '_')
              && (exists c :: c in d.details.name && !Whitespace(c)) && |d.details.name| <= 160
              && (exists c :: c in d.details.prompt && !Whitespace(c)) && Utf8Length(d.details.prompt) <= 64_000
              && |d.details.project| > 0 && d.details.project[0] == '/'
              && (exists c :: c in d.details.model && !Whitespace(c)) && !("acp/" <= d.details.model)
              && match d.schedule
                 case Manual => true
                 case Interval(minutes) => 1 <= minutes <= 365 * 24 * 60
                 case Calendar(rule, timezone) =>
                   && rule.hour < 24 && rule.minute < 60 && rule.days != [] && (forall day | day in rule.days :: day < 7)
                   && db(timezone).Some?
  {
  }

  // -------------------------------------------------------- Every claim of a run

  // The step that made a claim: of what was due then it took the latest, it is
  // in the history as a run of that occurrence, and the schedule moved past it.
  ghost predicate ClaimedAt(db: S.ZoneDb, w: World, next: World, c: Claimed) {
    && Has(w.snapshot, c.id) && Has(next.snapshot, c.id)
    && Coalesces(db, Get(w.snapshot, c.id), Get(next.snapshot, c.id), next.clock, c.at)
    && exists run :: run in next.snapshot.runs && run.scheduledFor == Some(c.at) && run.definition == Get(next.snapshot, c.id)
  }

  ghost predicate AllZonesLawful(db: S.ZoneDb) {
    forall schedule | S.Validate(db, schedule).Ok? :: S.ZoneLaws(db, schedule)
  }

  // A step made no claim, or this one.
  ghost predicate ClaimsOne(db: S.ZoneDb, w: World, next: World) {
    next.claims == w.claims || exists c :: next.claims == w.claims + [c] && ClaimedAt(db, w, next, c)
  }

  lemma LawfulHere(db: S.ZoneDb, s: Snapshot, id: string)
    requires Inv(db, s) && AllZonesLawful(db)
    ensures Has(s, id) ==> S.ZoneLaws(db, Get(s, id).schedule)
  {
    assert Has(s, id) ==> Get(s, id) in s.definitions;
  }

  lemma StepClaims(db: S.ZoneDb, w: World, op: Op, fault: Fault)
    requires WorldInv(db, w) && Allowed(w, op) && AllZonesLawful(db)
    ensures ClaimsOne(db, w, Step(db, w, op, fault))
  {
    var changed := Change(db, w.snapshot, op);
    if changed.Ok? && Renamed(fault) {
      assert w.claims + [] == w.claims;
      if op.OpEnqueue? && op.scheduled {
        EnqueueStepClaims(db, w, op, fault);
      }
    }
  }

  // What a scheduled enqueue claims, seen in the committed snapshot.
  lemma EnqueueCommits(db: S.ZoneDb, s: Snapshot, op: Op) returns (c: Claimed)
    requires Inv(db, s) && Admissible(s, op) && AllZonesLawful(db)
    requires op.OpEnqueue? && op.scheduled && Change(db, s, op).Ok?
    ensures var changed := Change(db, s, op).value;
            var next := Committed(changed);
            && ClaimsOf(changed, op) == [c] && c.id == op.id
            && Has(s, c.id) && Has(next, c.id) && Coalesces(db, Get(s, c.id), Get(next, c.id), op.at, c.at)
            && exists run :: run in next.runs && run.scheduledFor == Some(c.at) && run.definition == Get(next, c.id)
  {
    var changed := Change(db, s, op).value;
    LawfulHere(db, s, op.id);
    EnqueueAdds(db, s, op.id, true, op.at, op.runId);
    var run := changed.runs[|s.runs|];
    assert run in changed.runs && run in Committed(changed).runs;
    c := Claimed(op.id, run.scheduledFor.value);
  }

  lemma EnqueueStepClaims(db: S.ZoneDb, w: World, op: Op, fault: Fault)
    requires WorldInv(db, w) && Allowed(w, op) && AllZonesLawful(db)
    requires op.OpEnqueue? && op.scheduled && Change(db, w.snapshot, op).Ok? && Renamed(fault)
    ensures ClaimsOne(db, w, Step(db, w, op, fault))
  {
    var c := EnqueueCommits(db, w.snapshot, op);
    assert ClaimedAt(db, w, Step(db, w, op, fault), c);
  }

  lemma WorldClaims(db: S.ZoneDb, worlds: seq<World>, k: nat)
    requires Behaviour(db, worlds) && AllZonesLawful(db) && k < |worlds| - 1
    ensures ClaimsOne(db, worlds[k], worlds[k + 1])
  {
    BehaviourKeepsWorld(db, worlds, k);
    var op, fault := StepAt(db, worlds, k);
    StepClaims(db, worlds[k], op, fault);
  }

  // Every claim there ever was claimed the latest occurrence due at its moment.
  lemma {:induction false} EveryClaimIsTheLatest(db: S.ZoneDb, worlds: seq<World>, k: nat, i: nat) returns (m: nat)
    requires Behaviour(db, worlds) && AllZonesLawful(db) && k < |worlds| && i < |worlds[k].claims|
    ensures m < k && |worlds[m].claims| == i && ClaimedAt(db, worlds[m], worlds[m + 1], worlds[k].claims[i])
  {
    WorldClaims(db, worlds, k - 1);
    if i < |worlds[k - 1].claims| {
      m := EveryClaimIsTheLatest(db, worlds, k - 1, i);
    } else {
      m := k - 1;
    }
  }
}
