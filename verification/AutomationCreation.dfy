// Creating once: what a retried creation answers, at any later time.
module AutomationCreation {
  import opened Outcomes
  import opened AutomationStore
  import opened AutomationHistory
  import opened AutomationEdits
  import opened DurableStore
  import S = Schedules

  // A definition is still what was asked for.
  predicate SameRequest(d: Definition, stored: Definition) {
    d.details == stored.details && d.schedule == stored.schedule && d.enabled == stored.enabled
  }

  // A key in use answers the stored definition exactly while that is still what
  // was asked for; after that the retry is refused, whoever changed it.
  lemma RetryAnswersExactly(db: S.ZoneDb, s: Snapshot, d: Definition, later: S.Instant)
    requires Has(s, d.id) && Validate(db, d).Ok? && d.revision == 0
    ensures CreateOnce(db, s, d, later)
            == if SameRequest(d, Get(s, d.id)) then Ok((false, Get(s, d.id))) else Err(KeyTaken)
  {
    var stored := Get(s, d.id);
    assert stored == d.(revision := stored.revision, anchor := stored.anchor, nextAt := stored.nextAt,
                        failures := stored.failures, pausedReason := stored.pausedReason)
           <==> SameRequest(d, stored);
  }

  // And what else a creation is answered: its own fault first, then whether it is
  // new, and without a definition of that key what saving it comes to.
  lemma CreationAnswers(db: S.ZoneDb, s: Snapshot, d: Definition, at: S.Instant)
    ensures Validate(db, d).Err? ==> CreateOnce(db, s, d, at) == Err(Validate(db, d).error)
    ensures Validate(db, d).Ok? && d.revision != 0 ==> CreateOnce(db, s, d, at) == Err(NotNew)
    ensures Validate(db, d).Ok? && d.revision == 0 && !Has(s, d.id) ==>
              match Save(db, s, d, at)
              case Ok(next) => Has(next, d.id) && CreateOnce(db, s, d, at) == Ok((true, Get(next, d.id)))
              case Err(e) => CreateOnce(db, s, d, at) == Err(e)
  {
    if Validate(db, d).Ok? && d.revision == 0 && !Has(s, d.id) && Save(db, s, d, at).Ok? {
      LastFound(Without(s.definitions, d.id), CreateOnce(db, s, d, at).value.1);
    }
  }

  // A step that creates a definition.
  ghost predicate Creates(db: S.ZoneDb, w: World, d: Definition, at: S.Instant, next: World) {
    && Inv(db, w.snapshot) && Allowed(w, OpSave(d, at))
    && CreateOnce(db, w.snapshot, d, at).Ok? && CreateOnce(db, w.snapshot, d, at).value.0
    && next == Step(db, w, OpSave(d, at), NoFault)
  }

  // From a creation on, for as long as the definition lives: the retry answers
  // it until it has been edited, switched or paused.
  lemma CreationIsRemembered(db: S.ZoneDb, worlds: seq<World>, i: nat, j: nat, d: Definition, at: S.Instant, later: S.Instant)
    requires Behaviour(db, worlds) && i < j < |worlds|
    requires Creates(db, worlds[i], d, at, worlds[i + 1])
    requires forall k | i < k <= j :: Has(worlds[k].snapshot, d.id)
    ensures var now := Get(worlds[j].snapshot, d.id);
            && CreateOnce(db, worlds[j].snapshot, d, later)
               == (if SameRequest(d, now) then Ok((false, now)) else Err(KeyTaken))
            && 1 <= now.revision
            && (now.revision == 1 ==> SameRequest(d, now))
  {
    CreatedAsAsked(db, worlds[i], d, at, worlds[i + 1]);
    RemembersWhile(db, worlds, i + 1, j, d, later);
  }

  lemma RemembersWhile(db: S.ZoneDb, worlds: seq<World>, i: nat, j: nat, d: Definition, later: S.Instant)
    requires Behaviour(db, worlds) && i <= j < |worlds| && Validate(db, d).Ok? && d.revision == 0
    requires forall k | i <= k <= j :: Has(worlds[k].snapshot, d.id)
    requires SameRequest(d, Get(worlds[i].snapshot, d.id)) && Get(worlds[i].snapshot, d.id).revision == 1
    ensures var now := Get(worlds[j].snapshot, d.id);
            && CreateOnce(db, worlds[j].snapshot, d, later)
               == (if SameRequest(d, now) then Ok((false, now)) else Err(KeyTaken))
            && 1 <= now.revision && (now.revision == 1 ==> SameRequest(d, now))
  {
    RetryAnswersExactly(db, worlds[j].snapshot, d, later);
    UnchangedRevisionMeansUnchangedContent(db, worlds, i, j, d.id);
    StillAsAsked(d, Get(worlds[i].snapshot, d.id), Get(worlds[j].snapshot, d.id));
  }

  lemma StillAsAsked(d: Definition, first: Definition, now: Definition)
    requires SameRequest(d, first) && first.revision == 1 && Revised(first, now)
    ensures 1 <= now.revision && (now.revision == 1 ==> SameRequest(d, now))
  {
  }

  lemma CreatedAsAsked(db: S.ZoneDb, w: World, d: Definition, at: S.Instant, next: World)
    requires Creates(db, w, d, at, next)
    ensures Validate(db, d).Ok? && d.revision == 0
    ensures Has(next.snapshot, d.id) && SameRequest(d, Get(next.snapshot, d.id)) && Get(next.snapshot, d.id).revision == 1
  {
    var saved := SavedLast(db, w.snapshot, d, at);
    TheDefinition(Save(db, w.snapshot, d, at).value.definitions, saved);
  }

  // ------------------------------------------- A retry refused by a pause

  lemma RunQueued(db: S.ZoneDb, worlds: seq<World>, id: string, runId: string) returns (next: World)
    requires Behaviour(db, worlds)
    requires var w := worlds[|worlds| - 1];
             Has(w.snapshot, id) && !HasActive(w.snapshot.runs, id) && ValidId(runId) && runId !in w.used
    ensures Behaviour(db, worlds + [next])
    ensures var w := worlds[|worlds| - 1];
            && next.snapshot.definitions == w.snapshot.definitions && next.used == w.used + {runId}
            && exists run :: run in next.snapshot.runs && run.id == runId && run.definition.id == id && Active(run.status)
  {
    var w := worlds[|worlds| - 1];
    ClockIsPositive(db, worlds, |worlds| - 1);
    UnusedIsFresh(db, worlds, runId);
    next := GoesOn(db, worlds, OpEnqueue(id, false, w.clock, runId));
    QueuedIsThere(db, w.snapshot, id, w.clock, runId);
  }

  lemma UnusedIsFresh(db: S.ZoneDb, worlds: seq<World>, runId: string)
    requires Behaviour(db, worlds) && runId !in worlds[|worlds| - 1].used
    ensures RunIndex(worlds[|worlds| - 1].snapshot.runs, runId).None?
  {
    BehaviourKeepsWorld(db, worlds, |worlds| - 1);
    assert forall run | run in worlds[|worlds| - 1].snapshot.runs :: run.id in worlds[|worlds| - 1].used;
  }

  lemma QueuedIsThere(db: S.ZoneDb, s: Snapshot, id: string, at: S.Instant, runId: string)
    requires Inv(db, s) && 0 <= at && Has(s, id) && !HasActive(s.runs, id)
    ensures Enqueue(db, s, id, false, at, runId).Ok?
    ensures var next := Committed(Enqueue(db, s, id, false, at, runId).value);
            && next.definitions == s.definitions
            && exists run :: run in next.runs && run.id == runId && run.definition.id == id && Active(run.status)
  {
    var changed := Enqueue(db, s, id, false, at, runId).value;
    var added := changed.runs[|s.runs|];
    assert added in changed.runs && added in Committed(changed).runs;
  }

  lemma {:induction false} ClockIsPositive(db: S.ZoneDb, worlds: seq<World>, k: nat)
    requires Behaviour(db, worlds) && k < |worlds|
    ensures 0 <= worlds[k].clock
  {
    if k > 0 {
      ClockIsPositive(db, worlds, k - 1);
      assert FollowsAt(db, worlds, k - 1);
    }
  }

  lemma RunFailed(db: S.ZoneDb, worlds: seq<World>, id: string, runId: string) returns (next: World)
    requires Behaviour(db, worlds)
    requires var w := worlds[|worlds| - 1];
             && Has(w.snapshot, id)
             && (exists run :: run in w.snapshot.runs && run.id == runId && run.definition.id == id && Active(run.status))
    ensures Behaviour(db, worlds + [next]) && Has(next.snapshot, id)
    ensures var w := worlds[|worlds| - 1];
            && Get(next.snapshot, id) == Counted(Get(w.snapshot, id), Failed)
            && !HasActive(next.snapshot.runs, id) && next.used == w.used
  {
    var w := worlds[|worlds| - 1];
    next := GoesOn(db, worlds, OpUpdateRun(runId, Failed, None, None, w.clock));
    EndedIdle(db, w.snapshot, id, runId, w.clock);
    CommittedIdle(UpdateRun(w.snapshot, runId, Failed, None, None, w.clock).value, id);
  }

  lemma CommittedIdle(s: Snapshot, id: string)
    requires Has(s, id) && forall run | run in s.runs :: run.definition.id == id ==> !Active(run.status)
    ensures Has(Committed(s), id) && Get(Committed(s), id) == Get(s, id) && !HasActive(Committed(s).runs, id)
  {
  }

  // Ending the one active run of a definition leaves it none.
  lemma EndedIdle(db: S.ZoneDb, s: Snapshot, id: string, runId: string, at: S.Instant)
    requires Inv(db, s) && Has(s, id)
    requires exists run :: run in s.runs && run.id == runId && run.definition.id == id && Active(run.status)
    ensures UpdateRun(s, runId, Failed, None, None, at).Ok?
    ensures var next := UpdateRun(s, runId, Failed, None, None, at).value;
            && Has(next, id) && Get(next, id) == Counted(Get(s, id), Failed)
            && forall run | run in next.runs :: run.definition.id == id ==> !Active(run.status)
  {
    var run :| run in s.runs && run.id == runId && run.definition.id == id && Active(run.status);
    var i := RunIndex(s.runs, runId).value;
    SameRun(s.runs, run, s.runs[i]);
    var next := UpdateRun(s, runId, Failed, None, None, at).value;
    SameIdsFound(s.definitions, next.definitions);
    forall k | 0 <= k < |next.runs| && next.runs[k].definition.id == id ensures !Active(next.runs[k].status) {
      if k != i {
        assert Apart(s.runs[if k < i then k else i], s.runs[if k < i then i else k]);
      }
    }
  }

  lemma RunFails(db: S.ZoneDb, worlds: seq<World>, id: string, runId: string) returns (more: seq<World>)
    requires Behaviour(db, worlds)
    requires var w := worlds[|worlds| - 1];
             Has(w.snapshot, id) && !HasActive(w.snapshot.runs, id) && ValidId(runId) && runId !in w.used
    ensures |more| == 2 && Behaviour(db, worlds + more)
    ensures var w, v := worlds[|worlds| - 1], more[1];
            && Has(more[0].snapshot, id) && Has(v.snapshot, id)
            && Get(v.snapshot, id) == Counted(Get(w.snapshot, id), Failed)
            && !HasActive(v.snapshot.runs, id) && v.used == w.used + {runId}
  {
    var queued := RunQueued(db, worlds, id, runId);
    var ended := RunFailed(db, worlds + [queued], id, runId);
    more := [queued, ended];
    assert worlds + more == worlds + [queued] + [ended];
  }

  // A definition created switched on, whose runs fail three times, is paused by
  // the store itself; the very request that created it is then refused.
  lemma AutomaticPauseRefusesTheRetry(db: S.ZoneDb, d: Definition, later: S.Instant) returns (worlds: seq<World>)
    requires Validate(db, d).Ok? && d.revision == 0 && d.failures == 0 && d.enabled && NextWhenEnabled(db, d, 0).Ok?
    ensures |worlds| == 8 && Behaviour(db, worlds) && CreateOnce(db, START.snapshot, d, 0).Ok?
    ensures HasAt(worlds, 1, d.id) && LivesFrom(worlds, 2, d.id)
    ensures CreateOnce(db, worlds[1].snapshot, d, later) == Ok((false, Get(worlds[1].snapshot, d.id)))
    ensures CreateOnce(db, worlds[7].snapshot, d, later) == Err(KeyTaken)
  {
    var created := CreatedNext(db, d);
    RetryAnswersExactly(db, created.snapshot, d, later);
    var ids := ThreeIds();
    worlds := FailsOften(db, [START, created], d.id, ids);
    assert worlds[1] == [START, created][1];
    FailingRefuses(db, worlds[7].snapshot, d, Get(created.snapshot, d.id), later);
  }

  lemma ThreeIds() returns (ids: seq<string>)
    ensures |ids| == 3 && forall k | 0 <= k < 3 :: ValidId(ids[k])
    ensures forall i, j | 0 <= i < j < 3 :: ids[i] != ids[j]
  {
    ids := ["a", "b", "c"];
    assert ids[0][0] == 'a' && ids[1][0] == 'b' && ids[2][0] == 'c';
  }

  // A definition without active runs, and run ids not yet used.
  ghost predicate Ready(w: World, id: string, ids: seq<string>) {
    && Has(w.snapshot, id) && !HasActive(w.snapshot.runs, id)
    && (forall k | 0 <= k < |ids| :: ValidId(ids[k]) && ids[k] !in w.used)
    && (forall i, j | 0 <= i < j < |ids| :: ids[i] != ids[j])
  }

  lemma ThreeFailuresPause(d: Definition)
    requires d.failures == 0
    ensures !Failing(d, 3).enabled
  {
    var once := Counted(d, Failed);
    var twice := Counted(once, Failed);
    assert Failing(d, 3) == Failing(once, 2) == Failing(twice, 1) == Failing(Counted(twice, Failed), 0);
  }

  function Failing(d: Definition, n: nat): Definition
    decreases n
  {
    if n == 0 then d else Failing(Counted(d, Failed), n - 1)
  }

  ghost predicate LivesFrom(worlds: seq<World>, i: nat, id: string) {
    forall k | i <= k < |worlds| :: HasAt(worlds, k, id)
  }

  ghost predicate HasAt(worlds: seq<World>, k: nat, id: string)
    requires k < |worlds|
  {
    Has(worlds[k].snapshot, id)
  }

  lemma LivesOn(worlds: seq<World>, all: seq<World>, i: nat, id: string)
    requires worlds <= all && LivesFrom(worlds, i, id) && LivesFrom(all, |worlds|, id)
    ensures LivesFrom(all, i, id)
  {
    forall k | i <= k < |all| ensures HasAt(all, k, id) {
      assert k < |worlds| ==> HasAt(worlds, k, id);
    }
  }

  lemma FailsFirst(db: S.ZoneDb, worlds: seq<World>, id: string, ids: seq<string>) returns (all: seq<World>)
    requires Behaviour(db, worlds) && ids != [] && Ready(worlds[|worlds| - 1], id, ids)
    ensures |all| == |worlds| + 2 && worlds <= all && Behaviour(db, all)
    ensures LivesFrom(all, |worlds|, id) && Ready(all[|all| - 1], id, ids[1..])
    ensures Get(all[|all| - 1].snapshot, id) == Counted(Get(worlds[|worlds| - 1].snapshot, id), Failed)
  {
    var first := RunFails(db, worlds, id, ids[0]);
    all := worlds + first;
  }

  lemma {:induction false} FailsOften(db: S.ZoneDb, worlds: seq<World>, id: string, ids: seq<string>) returns (all: seq<World>)
    requires Behaviour(db, worlds) && Ready(worlds[|worlds| - 1], id, ids)
    ensures |all| == |worlds| + 2 * |ids| && worlds <= all && Behaviour(db, all)
    ensures LivesFrom(all, |worlds|, id) && Has(all[|all| - 1].snapshot, id)
    ensures Get(all[|all| - 1].snapshot, id) == Failing(Get(worlds[|worlds| - 1].snapshot, id), |ids|)
    decreases |ids|
  {
    if ids == [] {
      all := worlds;
    } else {
      var first := FailsFirst(db, worlds, id, ids);
      all := FailsOften(db, first, id, ids[1..]);
      FailingUnfolds(Get(worlds[|worlds| - 1].snapshot, id), |ids|);
      LivesOn(first, all, |worlds|, id);
    }
  }

  lemma FailingUnfolds(d: Definition, n: nat)
    requires 0 < n
    ensures Failing(d, n) == Failing(Counted(d, Failed), n - 1)
    ensures n == 1 ==> Failing(d, n) == Counted(d, Failed)
  {
  }

  lemma FailingRefuses(db: S.ZoneDb, s: Snapshot, d: Definition, was: Definition, later: S.Instant)
    requires Has(s, d.id) && Validate(db, d).Ok? && d.revision == 0 && d.enabled
    requires was.failures == 0 && Get(s, d.id) == Failing(was, 3)
    ensures CreateOnce(db, s, d, later) == Err(KeyTaken)
  {
    ThreeFailuresPause(was);
    RetryAnswersExactly(db, s, d, later);
  }

  lemma CreatedNext(db: S.ZoneDb, d: Definition) returns (created: World)
    requires Validate(db, d).Ok? && d.revision == 0 && d.failures == 0 && NextWhenEnabled(db, d, 0).Ok?
    ensures Behaviour(db, [START, created]) && Has(created.snapshot, d.id) && CreateOnce(db, START.snapshot, d, 0).Ok?
    ensures SameRequest(d, Get(created.snapshot, d.id)) && Get(created.snapshot, d.id).failures == 0
    ensures created.used == {} && created.snapshot.runs == []
  {
    created := GoesOn(db, [START], OpSave(d, 0));
    assert [START] + [created] == [START, created];
    var saved := SavedLast(db, START.snapshot, d, 0);
    TheDefinition(Save(db, START.snapshot, d, 0).value.definitions, saved);
  }
}
