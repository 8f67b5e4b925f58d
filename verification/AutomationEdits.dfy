// Edits against each other: what the optimistic revision check protects, and
// exactly when it does not.
module AutomationEdits {
  import opened Outcomes
  import opened AutomationStore
  import opened AutomationHistory
  import S = Schedules

  // --------------------------------------------------------------- Revisions

  ghost predicate Has(s: Snapshot, id: string) {
    DefIndex(s.definitions, id).Some?
  }

  ghost function Get(s: Snapshot, id: string): Definition
    requires Has(s, id)
  {
    s.definitions[DefIndex(s.definitions, id).value]
  }

  // What a person edits, and the switch that edits and pauses share.
  ghost predicate SameContent(a: Definition, b: Definition) {
    a.details == b.details && a.schedule == b.schedule && a.enabled == b.enabled && a.anchor == b.anchor
  }

  ghost predicate Revised(a: Definition, b: Definition) {
    a.revision < b.revision || (a.revision == b.revision && SameContent(a, b))
  }

  lemma TheDefinition(defs: seq<Definition>, d: Definition)
    requires DistinctDefinitions(defs) && d in defs
    ensures DefIndex(defs, d.id).Some? && defs[DefIndex(defs, d.id).value] == d
  {
  }

  lemma SettleRevises(defs: seq<Definition>, runDefinition: string, status: RunStatus, id: string)
    requires DefIndex(defs, id).Some?
    ensures var settled := Settle(defs, runDefinition, status);
            DefIndex(settled, id).Some? &&
            Revised(defs[DefIndex(defs, id).value], settled[DefIndex(settled, id).value])
  {
    SameIdsFound(defs, Settle(defs, runDefinition, status));
  }

  lemma SaveRevises(db: S.ZoneDb, s: Snapshot, d: Definition, at: S.Instant, id: string)
    requires Inv(db, s) && Admissible(s, OpSave(d, at)) && Save(db, s, d, at).Ok? && Has(s, id)
    ensures Has(Save(db, s, d, at).value, id)
    ensures Revised(Get(s, id), Get(Save(db, s, d, at).value, id))
    ensures d.id == id ==> Get(Save(db, s, d, at).value, id).revision == Get(s, id).revision + 1 == d.revision + 1
  {
    var next := Save(db, s, d, at).value.definitions;
    var saved := SavedLast(db, s, d, at);
    if d.id == id {
      TheDefinition(next, saved);
    } else {
      assert Get(s, id) in next;
      TheDefinition(next, Get(s, id));
    }
  }

  // A save moves its definition to the end and touches no other.
  lemma SavedLast(db: S.ZoneDb, s: Snapshot, d: Definition, at: S.Instant) returns (saved: Definition)
    requires DistinctDefinitions(s.definitions) && Save(db, s, d, at).Ok?
    ensures Save(db, s, d, at).value.definitions == Without(s.definitions, d.id) + [saved]
    ensures DistinctDefinitions(Save(db, s, d, at).value.definitions)
    ensures saved in Save(db, s, d, at).value.definitions && saved.id == d.id
    ensures DefIndex(s.definitions, d.id).Some? ==>
              saved.revision == s.definitions[DefIndex(s.definitions, d.id).value].revision + 1 == d.revision + 1
  {
    var next := Save(db, s, d, at).value.definitions;
    saved := next[|next| - 1];
    WithoutIsDistinct(s.definitions, d.id);
  }

  lemma ReplacedRevises(a: Snapshot, b: Snapshot, i: nat, id: string)
    requires |a.definitions| == |b.definitions| && i < |a.definitions|
    requires b.definitions == a.definitions[i := b.definitions[i]]
    requires a.definitions[i].id == b.definitions[i].id && Revised(a.definitions[i], b.definitions[i])
    requires Has(a, id)
    ensures Has(b, id) && Revised(Get(a, id), Get(b, id))
  {
    SameIdsFound(a.definitions, b.definitions);
  }

  lemma DeleteRevises(s: Snapshot, x: string, id: string)
    requires DistinctDefinitions(s.definitions) && Delete(s, x).Ok? && Has(s, id) && Has(Delete(s, x).value, id)
    ensures Get(Delete(s, x).value, id) == Get(s, id)
  {
  }

  lemma EnqueueRevises(db: S.ZoneDb, s: Snapshot, x: string, scheduled: bool, at: S.Instant, runId: string, id: string)
    requires Inv(db, s) && 0 <= at && Enqueue(db, s, x, scheduled, at, runId).Ok? && Has(s, id)
    ensures Has(Enqueue(db, s, x, scheduled, at, runId).value, id)
    ensures Revised(Get(s, id), Get(Enqueue(db, s, x, scheduled, at, runId).value, id))
  {
    ReplacedRevises(s, Enqueue(db, s, x, scheduled, at, runId).value, DefIndex(s.definitions, x).value, id);
  }

  lemma SetEnabledRevises(db: S.ZoneDb, s: Snapshot, x: string, enabled: bool, at: S.Instant, id: string)
    requires SetEnabled(db, s, x, enabled, at).Ok? && Has(s, id)
    ensures Has(SetEnabled(db, s, x, enabled, at).value, id)
    ensures Revised(Get(s, id), Get(SetEnabled(db, s, x, enabled, at).value, id))
  {
    ReplacedRevises(s, SetEnabled(db, s, x, enabled, at).value, DefIndex(s.definitions, x).value, id);
  }

  lemma UpdateRevises(s: Snapshot, op: Op, id: string)
    requires op.OpUpdateRun? && UpdateRun(s, op.id, op.status, op.error, op.sessionFile, op.at).Ok? && Has(s, id)
    ensures var next := UpdateRun(s, op.id, op.status, op.error, op.sessionFile, op.at).value;
            Has(next, id) && Revised(Get(s, id), Get(next, id))
  {
    SettleRevises(s.definitions, s.runs[RunIndex(s.runs, op.id).value].definition.id, op.status, id);
  }

  lemma ChangeRevises(db: S.ZoneDb, s: Snapshot, op: Op, id: string)
    requires Inv(db, s) && Admissible(s, op) && Change(db, s, op).Ok?
    requires Has(s, id) && Has(Change(db, s, op).value, id)
    ensures Revised(Get(s, id), Get(Change(db, s, op).value, id))
  {
    match op {
      case OpSave(d, at) => SaveRevises(db, s, d, at, id);
      case OpDelete(x) => DeleteRevises(s, x, id);
      case OpSetEnabled(x, enabled, at) => SetEnabledRevises(db, s, x, enabled, at, id);
      case OpEnqueue(x, scheduled, at, runId) => EnqueueRevises(db, s, x, scheduled, at, runId, id);
      case OpUpdateRun(_, _, _, _, _) => UpdateRevises(s, op, id);
      case _ =>
    }
  }

  lemma StepRevises(db: S.ZoneDb, w: World, op: Op, fault: Fault, id: string)
    requires WorldInv(db, w) && Allowed(w, op)
    requires Has(w.snapshot, id) && Has(Step(db, w, op, fault).snapshot, id)
    ensures Revised(Get(w.snapshot, id), Get(Step(db, w, op, fault).snapshot, id))
  {
    if Change(db, w.snapshot, op).Ok? && Renamed(fault) {
      ChangeRevises(db, w.snapshot, op, id);
    }
  }

  // While a definition lives, an unchanged revision means unchanged content.
  lemma {:induction false} UnchangedRevisionMeansUnchangedContent(db: S.ZoneDb, worlds: seq<World>, i: nat, j: nat, id: string)
    requires Behaviour(db, worlds) && i <= j < |worlds|
    requires forall k | i <= k <= j :: Has(worlds[k].snapshot, id)
    ensures Revised(Get(worlds[i].snapshot, id), Get(worlds[j].snapshot, id))
    decreases j - i
  {
    if i < j {
      BehaviourKeepsWorld(db, worlds, i);
      var op, fault := StepAt(db, worlds, i);
      StepRevises(db, worlds[i], op, fault, id);
      UnchangedRevisionMeansUnchangedContent(db, worlds, i + 1, j, id);
    }
  }

  // An edit read at one moment and accepted at a later one, with the definition
  // alive in between, overwrites nobody's work.
  lemma AcceptedEditOverwritesNothing(db: S.ZoneDb, worlds: seq<World>, i: nat, j: nat, edit: Definition, at: S.Instant)
    requires Behaviour(db, worlds) && i <= j < |worlds| && 0 <= at
    requires forall k | i <= k <= j :: Has(worlds[k].snapshot, edit.id)
    requires edit.revision == Get(worlds[i].snapshot, edit.id).revision
    requires Save(db, worlds[j].snapshot, edit, at).Ok?
    ensures SameContent(Get(worlds[i].snapshot, edit.id), Get(worlds[j].snapshot, edit.id))
    ensures var next := Save(db, worlds[j].snapshot, edit, at).value;
            && Has(next, edit.id) && Get(next, edit.id).details == edit.details
            && Get(next, edit.id).revision == edit.revision + 1
            && forall again: Definition | again.id == edit.id && again.revision == edit.revision ::
                 Save(db, next, again, at).Err?
  {
    UnchangedRevisionMeansUnchangedContent(db, worlds, i, j, edit.id);
    BehaviourKeepsWorld(db, worlds, j);
    EditLands(db, worlds[j].snapshot, edit, at);
  }

  // An accepted edit is what is stored next, and the same edit is then refused.
  lemma EditLands(db: S.ZoneDb, s: Snapshot, edit: Definition, at: S.Instant)
    requires Inv(db, s) && Has(s, edit.id) && 0 <= at && Save(db, s, edit, at).Ok?
    ensures Get(s, edit.id).revision == edit.revision
    ensures var next := Save(db, s, edit, at).value;
            && Has(next, edit.id) && Get(next, edit.id).details == edit.details
            && Get(next, edit.id).revision == edit.revision + 1
            && forall again: Definition | again.id == edit.id && again.revision == edit.revision ::
                 Save(db, next, again, at).Err?
  {
    var saved := SavedLast(db, s, edit, at);
    TheDefinition(Save(db, s, edit, at).value.definitions, saved);
  }

  // ------------------------------------------------- Where the check gives way

  // An edit of a stored definition is accepted exactly when it is valid, bears
  // the stored revision and its next time can be found, if that is asked for.
  lemma SaveAcceptsExactly(db: S.ZoneDb, s: Snapshot, d: Definition, at: S.Instant)
    requires Has(s, d.id)
    ensures Save(db, s, d, at).Ok? <==>
              && Validate(db, d).Ok? && d.revision == Get(s, d.id).revision
              && ((d.schedule == Get(s, d.id).schedule && d.enabled == Get(s, d.id).enabled)
                  || NextWhenEnabled(db, d, at).Ok?)
  {
  }

  // The world after a save that nothing disturbs.
  function Saved(db: S.ZoneDb, w: World, d: Definition, at: S.Instant): World
    requires Inv(db, w.snapshot) && Allowed(w, OpSave(d, at))
  {
    Step(db, w, OpSave(d, at), NoFault)
  }

  // Someone else's disabled definition, as it stands after r saves.
  ghost predicate RemadeAs(s: Snapshot, other: Definition, r: nat) {
    && 0 < r && RevisionIs(s, other.id, r)
    && Get(s, other.id).details == other.details && Get(s, other.id).schedule == other.schedule
    && !Get(s, other.id).enabled
  }

  // The revision of a stored definition, or nothing at revision 0.
  ghost predicate RevisionIs(s: Snapshot, id: string, r: nat) {
    if r == 0 then !Has(s, id) else Has(s, id) && Get(s, id).revision == r
  }

  // What someone else may save: valid, switched off, new.
  ghost predicate Creatable(db: S.ZoneDb, other: Definition) {
    Validate(db, other).Ok? && !other.enabled && other.revision == 0 && other.failures == 0
  }

  lemma SavesOnce(db: S.ZoneDb, w: World, other: Definition, r: nat, at: S.Instant)
    requires WorldInv(db, w) && Creatable(db, other) && w.clock <= at && 0 <= at
    requires RevisionIs(w.snapshot, other.id, r)
    ensures Allowed(w, OpSave(other.(revision := r), at))
    ensures var next := Saved(db, w, other.(revision := r), at);
            RemadeAs(next.snapshot, other, r + 1) && next.clock == at && next.snapshot.runs == Committed(w.snapshot).runs
  {
    var d := other.(revision := r);
    var saved := SavedLast(db, w.snapshot, d, at);
    TheDefinition(Save(db, w.snapshot, d, at).value.definitions, saved);
  }

  lemma BehaviourExtends(db: S.ZoneDb, worlds: seq<World>, next: World)
    requires Behaviour(db, worlds) && Follows(db, worlds[|worlds| - 1], next)
    ensures Behaviour(db, worlds + [next])
  {
    var all := worlds + [next];
    forall k | 0 <= k < |all| - 1 ensures FollowsAt(db, all, k) {
      assert k < |worlds| - 1 ==> FollowsAt(db, worlds, k);
    }
  }

  // A run goes on with any operation its callers may ask for.
  lemma GoesOn(db: S.ZoneDb, worlds: seq<World>, op: Op) returns (next: World)
    requires Behaviour(db, worlds) && Allowed(worlds[|worlds| - 1], op)
    ensures Inv(db, worlds[|worlds| - 1].snapshot)
    ensures Behaviour(db, worlds + [next]) && next == Step(db, worlds[|worlds| - 1], op, NoFault)
  {
    BehaviourKeepsWorld(db, worlds, |worlds| - 1);
    next := Step(db, worlds[|worlds| - 1], op, NoFault);
    assert StepsBy(db, worlds[|worlds| - 1], op, NoFault, next);
    BehaviourExtends(db, worlds, next);
  }

  lemma SavedNext(db: S.ZoneDb, worlds: seq<World>, other: Definition, r: nat, at: S.Instant) returns (next: World)
    requires Behaviour(db, worlds) && Creatable(db, other) && worlds[|worlds| - 1].clock <= at && 0 <= at
    requires RevisionIs(worlds[|worlds| - 1].snapshot, other.id, r)
    ensures Behaviour(db, worlds + [next]) && RemadeAs(next.snapshot, other, r + 1) && next.clock == at
    ensures next.snapshot.runs == Committed(worlds[|worlds| - 1].snapshot).runs
  {
    BehaviourKeepsWorld(db, worlds, |worlds| - 1);
    SavesOnce(db, worlds[|worlds| - 1], other, r, at);
    next := GoesOn(db, worlds, OpSave(other.(revision := r), at));
  }

  ghost predicate AllHave(worlds: seq<World>, id: string) {
    forall w | w in worlds :: Has(w.snapshot, id)
  }

  // From wherever a definition stands, or from nothing, saves can bring it to any
  // later revision with any valid content, and it never goes missing on the way.
  lemma {:induction false} RemadeAtAnyRevision(db: S.ZoneDb, worlds: seq<World>, other: Definition, from: nat, r: nat, at: S.Instant)
    returns (more: seq<World>)
    requires Behaviour(db, worlds) && RevisionIs(worlds[|worlds| - 1].snapshot, other.id, from) && from < r
    requires Creatable(db, other) && worlds[|worlds| - 1].clock <= at && 0 <= at
    ensures more != [] && Behaviour(db, worlds + more) && AllHave(more, other.id)
    ensures RemadeAs(more[|more| - 1].snapshot, other, r) && more[|more| - 1].clock == at
  {
    if r == from + 1 {
      var next := SavedNext(db, worlds, other, from, at);
      more := [next];
    } else {
      var before := RemadeAtAnyRevision(db, worlds, other, from, r - 1, at);
      var next := SavedNext(db, worlds + before, other, r - 1, at);
      assert worlds + before + [next] == worlds + (before + [next]);
      more := before + [next];
    }
  }

  // A run goes on, with the definition present, to a moment where an edit of
  // what was read is accepted over content it was not made from.
  ghost predicate Escapes(db: S.ZoneDb, worlds: seq<World>, read: Definition, edit: Definition, more: seq<World>, at: S.Instant) {
    var all := worlds + more;
    && Behaviour(db, all) && all[|all| - 1].clock <= at && 0 <= at
    && Has(all[|all| - 1].snapshot, edit.id) && AllHave(more, edit.id)
    && Save(db, all[|all| - 1].snapshot, edit, at).Ok?
    && !SameContent(read, Get(all[|all| - 1].snapshot, edit.id))
  }

  // What tells, at any moment, whether that can still happen: the definition is
  // absent, or stands at an earlier revision than was read, or at the same one
  // with other content.
  ghost predicate Exposed(s: Snapshot, read: Definition) {
    || !Has(s, read.id)
    || Get(s, read.id).revision < read.revision
    || (Get(s, read.id).revision == read.revision && !SameContent(read, Get(s, read.id)))
  }

  // The check can be escaped, whatever revision the edit bears, exactly when
  // what was read is exposed.
  lemma CheckIsEscapedExactlyWhenExposed(
      db: S.ZoneDb, worlds: seq<World>, read: Definition, edit: Definition, other: Definition, at: S.Instant)
    requires Behaviour(db, worlds) && worlds[|worlds| - 1].clock <= at && 0 <= at
    requires edit.id == read.id && edit.revision == read.revision >= 1
    requires Validate(db, edit).Ok? && NextWhenEnabled(db, edit, at).Ok?
    requires Creatable(db, other) && other.id == read.id && other.details != read.details
    ensures (exists more, when :: Escapes(db, worlds, read, edit, more, when))
            <==> Exposed(worlds[|worlds| - 1].snapshot, read)
  {
    if Exposed(worlds[|worlds| - 1].snapshot, read) {
      var more := ExposedEscapes(db, worlds, read, edit, other, at);
    } else {
      forall more, when ensures !Escapes(db, worlds, read, edit, more, when) {
        if Escapes(db, worlds, read, edit, more, when) {
          CoveredHolds(db, worlds, read, edit, more, when);
        }
      }
    }
  }

  lemma EscapesLater(
      db: S.ZoneDb, worlds: seq<World>, from: nat, read: Definition, edit: Definition, other: Definition, at: S.Instant)
    returns (more: seq<World>)
    requires Behaviour(db, worlds) && worlds[|worlds| - 1].clock <= at && 0 <= at
    requires edit.id == read.id && edit.revision == read.revision > from
    requires Validate(db, edit).Ok? && NextWhenEnabled(db, edit, at).Ok?
    requires Creatable(db, other) && other.id == read.id && other.details != read.details
    requires RevisionIs(worlds[|worlds| - 1].snapshot, read.id, from)
    ensures Escapes(db, worlds, read, edit, more, at)
  {
    more := RemadeAtAnyRevision(db, worlds, other, from, read.revision, at);
    var last := more[|more| - 1];
    assert (worlds + more)[|worlds + more| - 1] == last;
    SaveAcceptsExactly(db, last.snapshot, edit, at);
  }

  lemma ExposedEscapes(db: S.ZoneDb, worlds: seq<World>, read: Definition, edit: Definition, other: Definition, at: S.Instant)
    returns (more: seq<World>)
    requires Behaviour(db, worlds) && worlds[|worlds| - 1].clock <= at && 0 <= at
    requires edit.id == read.id && edit.revision == read.revision >= 1
    requires Validate(db, edit).Ok? && NextWhenEnabled(db, edit, at).Ok?
    requires Creatable(db, other) && other.id == read.id && other.details != read.details
    requires Exposed(worlds[|worlds| - 1].snapshot, read)
    ensures Escapes(db, worlds, read, edit, more, at)
  {
    var s := worlds[|worlds| - 1].snapshot;
    if Has(s, read.id) && Get(s, read.id).revision == read.revision {
      more := [];
      assert worlds + more == worlds;
      SaveAcceptsExactly(db, s, edit, at);
    } else {
      BehaviourKeepsWorld(db, worlds, |worlds| - 1);
      StoredRevision(db, s, read.id);
      more := EscapesLater(db, worlds, if Has(s, read.id) then Get(s, read.id).revision else 0, read, edit, other, at);
    }
  }

  lemma StoredRevision(db: S.ZoneDb, s: Snapshot, id: string)
    requires Inv(db, s)
    ensures Has(s, id) ==> 1 <= Get(s, id).revision
  {
    assert Has(s, id) ==> Get(s, id) in s.definitions;
  }

  lemma CoveredHolds(db: S.ZoneDb, worlds: seq<World>, read: Definition, edit: Definition, more: seq<World>, at: S.Instant)
    requires worlds != [] && Escapes(db, worlds, read, edit, more, at) && edit.id == read.id && edit.revision == read.revision
    ensures Exposed(worlds[|worlds| - 1].snapshot, read)
  {
    if Has(worlds[|worlds| - 1].snapshot, read.id) {
      SaveAcceptsExactly(db, (worlds + more)[|worlds + more| - 1].snapshot, edit, at);
      RevisedAlong(db, worlds, more, read.id);
    }
  }

  lemma RevisedAlong(db: S.ZoneDb, worlds: seq<World>, more: seq<World>, id: string)
    requires worlds != [] && Behaviour(db, worlds + more) && AllHave(more, id) && Has(worlds[|worlds| - 1].snapshot, id)
    ensures Has((worlds + more)[|worlds + more| - 1].snapshot, id)
    ensures Revised(Get(worlds[|worlds| - 1].snapshot, id), Get((worlds + more)[|worlds + more| - 1].snapshot, id))
  {
    var all, i := worlds + more, |worlds| - 1;
    forall k | i <= k < |all| ensures Has(all[k].snapshot, id) {
      assert k > i ==> all[k] in more;
    }
    UnchangedRevisionMeansUnchangedContent(db, all, i, |all| - 1, id);
  }

  // And only absence exposes what was read.
  lemma OnlyAbsenceExposes(db: S.ZoneDb, worlds: seq<World>, i: nat, id: string)
    requires Behaviour(db, worlds) && i < |worlds| && Has(worlds[i].snapshot, id)
    requires Exposed(worlds[|worlds| - 1].snapshot, Get(worlds[i].snapshot, id))
    ensures exists k :: i < k < |worlds| && !Has(worlds[k].snapshot, id)
  {
    FoundUnderItsId(worlds[i].snapshot, id);
    if forall k | i < k < |worlds| :: Has(worlds[k].snapshot, id) {
      UnchangedRevisionMeansUnchangedContent(db, worlds, i, |worlds| - 1, id);
    }
  }

  lemma FoundUnderItsId(s: Snapshot, id: string)
    requires Has(s, id)
    ensures Get(s, id).id == id
  {
  }

  // And it does happen: save, read, delete, and the read edit can escape.
  lemma AnEditEscapes(db: S.ZoneDb, d: Definition, other: Definition)
    returns (worlds: seq<World>, more: seq<World>)
    requires Creatable(db, d) && Creatable(db, other) && other.id == d.id && other.details != d.details
    ensures |worlds| == 3 && Behaviour(db, worlds) && RemadeAs(worlds[1].snapshot, d, 1)
    ensures Escapes(db, worlds, Get(worlds[1].snapshot, d.id), d.(revision := 1), more, 0)
  {
    worlds := SavedThenDeleted(db, d);
    FoundUnderItsId(worlds[1].snapshot, d.id);
    more := ExposedEscapes(db, worlds, Get(worlds[1].snapshot, d.id), d.(revision := 1), other, 0);
  }

  lemma SavedThenDeleted(db: S.ZoneDb, d: Definition) returns (worlds: seq<World>)
    requires Creatable(db, d)
    ensures |worlds| == 3 && Behaviour(db, worlds) && RemadeAs(worlds[1].snapshot, d, 1)
    ensures !Has(worlds[2].snapshot, d.id) && worlds[2].clock == 0
  {
    var read := SavedNext(db, [START], d, 0, 0);
    var gone := DeletedNext(db, [START] + [read], d.id);
    worlds := [START] + [read] + [gone];
  }

  lemma DeletedNext(db: S.ZoneDb, worlds: seq<World>, id: string) returns (next: World)
    requires Behaviour(db, worlds) && worlds[|worlds| - 1].snapshot.runs == []
    ensures Behaviour(db, worlds + [next]) && !Has(next.snapshot, id) && next.clock == worlds[|worlds| - 1].clock
  {
    next := GoesOn(db, worlds, OpDelete(id));
  }
}
