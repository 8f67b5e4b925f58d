// The store as its callers hold it: an in-memory snapshot, a file, and one
// write-then-publish commit behind every operation.
module DurableStore {
  import opened Outcomes
  import opened AutomationStore
  import opened AutomationRetention
  import S = Schedules

  // `visible` is what a reader of the file sees now; `afterCrash` holds every
  // snapshot the file may hold after a crash, because a rename whose directory
  // was not synced can still be lost.
  datatype Disk = Disk(visible: Snapshot, afterCrash: set<Snapshot>)

  // The disk after each step of a commit: temporary file made, written,
  // synced, renamed into place, directory synced.
  function Phases(disk: Disk, next: Snapshot): seq<Disk> {
    [disk, disk, disk, Disk(next, disk.afterCrash + {next}), Disk(next, {next})]
  }

  // How many steps finished when a fault stopped the commit.
  function Finished(fault: Fault): nat {
    match fault
    case TempFile => 0
    case Serialize => 1
    case FileSync => 2
    case Rename => 2
    case DirSync => 3
    case NoFault => 4
  }

  function Written(disk: Disk, next: Snapshot, fault: Fault): Disk {
    Phases(disk, next)[Finished(fault)]
  }

  datatype Host = Host(snapshot: Snapshot, disk: Disk)

  // How an operation answers: its own refusal, or whether the commit ended well.
  function Answer(changed: Result<Snapshot, Error>, fault: Fault): Result<(), Error> {
    match changed
    case Err(e) => Err(e)
    case Ok(_) => if fault == NoFault then Ok(()) else Err(Io)
  }

  function Applied(db: S.ZoneDb, host: Host, op: Op, fault: Fault): Host
    requires Inv(db, host.snapshot) && Admissible(host.snapshot, op)
  {
    match Change(db, host.snapshot, op)
    case Err(_) => host
    case Ok(changed) =>
      var next := Committed(changed);
      Host(if Renamed(fault) then next else host.snapshot, Written(host.disk, next, fault))
  }

  // ------------------------------------------------------------- Reading back

  // The checks made on a stored snapshot before it is trusted.
  predicate Readable(db: S.ZoneDb, s: Snapshot) {
    && s.version == 1
    && (forall d | d in s.definitions :: Validate(db, d).Ok?)
    && (forall i, j | 0 <= i < j < |s.definitions| :: s.definitions[i].id != s.definitions[j].id)
    && (forall run | run in s.runs :: ReadableRun(db, run))
    && (forall i, j | 0 <= i < j < |s.runs| :: s.runs[i].id != s.runs[j].id)
  }

  method CheckDefinitions(db: S.ZoneDb, defs: seq<Definition>) returns (r: Result<(), Error>)
    ensures r.Ok? <==> (forall d | d in defs :: Validate(db, d).Ok?)
                       && forall i, j | 0 <= i < j < |defs| :: defs[i].id != defs[j].id
  {
    for i := 0 to |defs|
      invariant forall k | 0 <= k < i :: Validate(db, defs[k]).Ok?
    {
      var valid := Validate(db, defs[i]);
      if valid.Err? {
        return Err(valid.error);
      }
    }
    var ids: set<string> := {};
    for i := 0 to |defs|
      invariant forall id :: id in ids <==> exists k | 0 <= k < i :: defs[k].id == id
      invariant forall a, b | 0 <= a < b < i :: defs[a].id != defs[b].id
    {
      if defs[i].id in ids {
        return Err(DuplicateDefinition);
      }
      ids := ids + {defs[i].id};
    }
    r := Ok(());
  }

  predicate ReadableRun(db: S.ZoneDb, run: Run) {
    Validate(db, run.definition).Ok? && ValidId(run.id) && run.sessionId == SessionOf(run.id)
  }

  method CheckRuns(db: S.ZoneDb, runs: seq<Run>) returns (r: Result<(), Error>)
    ensures r.Ok? <==> (forall run | run in runs :: ReadableRun(db, run))
                       && forall i, j | 0 <= i < j < |runs| :: runs[i].id != runs[j].id
  {
    var ids: set<string> := {};
    for i := 0 to |runs|
      invariant forall id :: id in ids <==> exists k | 0 <= k < i :: runs[k].id == id
      invariant forall a, b | 0 <= a < b < i :: runs[a].id != runs[b].id
      invariant forall k | 0 <= k < i :: ReadableRun(db, runs[k])
    {
      var run := runs[i];
      assert run in runs;
      var valid := Validate(db, run.definition);
      if valid.Err? {
        return Err(valid.error);
      }
      if !ValidId(run.id) || run.sessionId != SessionOf(run.id) || run.id in ids {
        return Err(BadRun);
      }
      ids := ids + {run.id};
    }
    r := Ok(());
  }

  // A missing file opens as the empty snapshot.
  method Open(db: S.ZoneDb, stored: Option<Snapshot>) returns (r: Result<Snapshot, Error>)
    ensures r.Ok? <==> stored.None? || Readable(db, stored.value)
    ensures r.Ok? ==> r.value == if stored.None? then EMPTY else stored.value
  {
    if stored.None? {
      return Ok(EMPTY);
    }
    var s := stored.value;
    if s.version != 1 {
      return Err(BadVersion);
    }
    var _ :- CheckDefinitions(db, s.definitions);
    var _ :- CheckRuns(db, s.runs);
    r := Ok(s);
  }

  lemma InvIsReadable(db: S.ZoneDb, s: Snapshot)
    requires Inv(db, s)
    ensures Readable(db, s)
  {
    forall i, j | 0 <= i < j < |s.runs| ensures s.runs[i].id != s.runs[j].id {
      assert Apart(s.runs[i], s.runs[j]);
    }
    assert forall d | d in s.definitions :: DefinitionOk(db, d);
    assert forall run | run in s.runs :: RunOk(db, s.definitions, run);
  }

  // -------------------------------------------------------------- Crash safety

  // A host either finishes an operation (perhaps with a fault), or crashes
  // during one and reopens whichever snapshot the file kept.
  datatype Move =
    | Operate(op: Op, fault: Fault)
    | Crash(op: Op, phase: nat, kept: Snapshot)

  ghost predicate Moves(db: S.ZoneDb, host: Host, move: Move, next: Host) {
    && Inv(db, host.snapshot)
    && Admissible(host.snapshot, move.op)
    && match move
       case Operate(op, fault) => next == Applied(db, host, op, fault)
       case Crash(op, phase, kept) =>
         && Change(db, host.snapshot, op).Ok?
         && phase < 5
         && kept in Phases(host.disk, Committed(Change(db, host.snapshot, op).value))[phase].afterCrash
         && next == Host(kept, Disk(kept, {kept}))
  }

  ghost predicate Proceeds(db: S.ZoneDb, host: Host, next: Host) {
    exists move :: Moves(db, host, move, next)
  }

  ghost predicate HostInv(db: S.ZoneDb, host: Host) {
    && host.snapshot == host.disk.visible
    && host.disk.visible in host.disk.afterCrash
    && forall s | s in host.disk.afterCrash :: Inv(db, s)
  }

  ghost predicate Life(db: S.ZoneDb, hosts: seq<Host>) {
    && hosts != []
    && hosts[0] == Host(EMPTY, Disk(EMPTY, {EMPTY}))
    && forall k | 0 <= k < |hosts| - 1 :: ProceedsAt(db, hosts, k)
  }

  ghost predicate ProceedsAt(db: S.ZoneDb, hosts: seq<Host>, k: nat)
    requires k < |hosts| - 1
  {
    Proceeds(db, hosts[k], hosts[k + 1])
  }

  lemma MoveKeepsHost(db: S.ZoneDb, host: Host, move: Move, next: Host)
    requires HostInv(db, host) && Moves(db, host, move, next)
    ensures HostInv(db, next)
  {
    if Change(db, host.snapshot, move.op).Ok? {
      ChangeKeepsInv(db, host.snapshot, move.op);
      var next' := Committed(Change(db, host.snapshot, move.op).value);
      PhasesKeep(db, host, next', if move.Operate? then Finished(move.fault) else move.phase);
    }
  }

  // Every step of a commit leaves valid images, the visible one among them.
  lemma PhasesKeep(db: S.ZoneDb, host: Host, next: Snapshot, phase: nat)
    requires HostInv(db, host) && Inv(db, next) && phase < 5
    ensures var disk := Phases(host.disk, next)[phase];
            && disk.visible in disk.afterCrash && (forall s | s in disk.afterCrash :: Inv(db, s))
            && disk.visible == if phase < 3 then host.snapshot else next
  {
  }

  lemma {:induction false} HostsStayOk(db: S.ZoneDb, hosts: seq<Host>, k: nat)
    requires Life(db, hosts) && k < |hosts|
    ensures HostInv(db, hosts[k])
  {
    if k > 0 {
      HostsStayOk(db, hosts, k - 1);
      HostStep(db, hosts, k - 1);
    }
  }

  lemma HostStep(db: S.ZoneDb, hosts: seq<Host>, k: nat)
    requires Life(db, hosts) && k < |hosts| - 1 && HostInv(db, hosts[k])
    ensures HostInv(db, hosts[k + 1])
    ensures forall s | s in hosts[k + 1].disk.afterCrash ::
              s in hosts[k].disk.afterCrash || s == hosts[k + 1].disk.visible
  {
    var move := MoveAt(db, hosts, k);
    MoveKeepsHost(db, hosts[k], move, hosts[k + 1]);
    ImagesMove(db, hosts[k], move, hosts[k + 1]);
  }

  lemma ImageStep(db: S.ZoneDb, hosts: seq<Host>, k: nat, s: Snapshot)
    requires Life(db, hosts) && k < |hosts| - 1 && s in hosts[k + 1].disk.afterCrash
    ensures s in hosts[k].disk.afterCrash || s == hosts[k + 1].disk.visible
  {
    HostsStayOk(db, hosts, k);
    HostStep(db, hosts, k);
  }

  lemma MoveAt(db: S.ZoneDb, hosts: seq<Host>, k: nat) returns (move: Move)
    requires Life(db, hosts) && k < |hosts| - 1
    ensures Moves(db, hosts[k], move, hosts[k + 1])
  {
    assert ProceedsAt(db, hosts, k);
    move :| Moves(db, hosts[k], move, hosts[k + 1]);
  }

  // At every moment of a store's life, through faults and crashes, memory
  // agrees with the file, and whatever a crash leaves passes the checks of
  // `open` and still satisfies the whole invariant.
  lemma EveryCrashReopens(db: S.ZoneDb, hosts: seq<Host>, k: nat)
    requires Life(db, hosts) && k < |hosts|
    ensures hosts[k].snapshot == hosts[k].disk.visible
    ensures HostInv(db, hosts[k])
    ensures forall s | s in hosts[k].disk.afterCrash :: Readable(db, s)
  {
    HostsStayOk(db, hosts, k);
    forall s | s in hosts[k].disk.afterCrash ensures Readable(db, s) {
      InvIsReadable(db, s);
    }
  }

  // ------------------------------------------------------ What a crash may take

  // A crash can bring back nothing but the current snapshot.
  ghost predicate Settled(host: Host) {
    host.disk.afterCrash == {host.snapshot}
  }

  // An operation that takes effect without a fault settles the file.
  lemma AcknowledgedIsSettled(db: S.ZoneDb, host: Host, op: Op, next: Host)
    requires HostInv(db, host) && Moves(db, host, Operate(op, NoFault), next) && Change(db, host.snapshot, op).Ok?
    ensures Settled(next) && next.snapshot == Committed(Change(db, host.snapshot, op).value)
  {
  }

  ghost predicate SeenBetween(hosts: seq<Host>, i: nat, k: nat, s: Snapshot)
    requires i <= k < |hosts|
  {
    exists m :: i <= m <= k && hosts[m].disk.visible == s
  }

  // A step adds to the possible images only what it makes visible.
  lemma ImagesMove(db: S.ZoneDb, host: Host, move: Move, next: Host)
    requires HostInv(db, host) && Moves(db, host, move, next)
    ensures forall s | s in next.disk.afterCrash :: s in host.disk.afterCrash || s == next.disk.visible
  {
  }

  lemma {:induction false} ImagesWereVisible(db: S.ZoneDb, hosts: seq<Host>, i: nat, k: nat)
    requires Life(db, hosts) && i <= k < |hosts| && Settled(hosts[i])
    ensures forall s | s in hosts[k].disk.afterCrash :: SeenBetween(hosts, i, k, s)
  {
    if i == k {
      HostsStayOk(db, hosts, k);
    } else {
      ImagesWereVisible(db, hosts, i, k - 1);
      forall s | s in hosts[k].disk.afterCrash ensures SeenBetween(hosts, i, k, s) {
        ImageStep(db, hosts, k - 1, s);
        SeenLater(hosts, i, k, s);
      }
    }
  }

  lemma SeenLater(hosts: seq<Host>, i: nat, k: nat, s: Snapshot)
    requires i < k < |hosts| && (SeenBetween(hosts, i, k - 1, s) || hosts[k].disk.visible == s)
    ensures SeenBetween(hosts, i, k, s)
  {
  }

  // Whatever faults came before, a crash brings back a snapshot that was visible
  // at or after the last moment the file was settled, or the one being written:
  // nothing acknowledged is lost. Before the rename it is never the new one, and
  // after the directory sync always.
  lemma CrashKeepsWhatWasAcknowledged(db: S.ZoneDb, hosts: seq<Host>, i: nat, k: nat, op: Op, phase: nat, kept: Snapshot)
    requires Life(db, hosts) && i <= k < |hosts| - 1 && Settled(hosts[i])
    requires Moves(db, hosts[k], Crash(op, phase, kept), hosts[k + 1])
    ensures hosts[k + 1].snapshot == kept
    ensures var written := Committed(Change(db, hosts[k].snapshot, op).value);
            && (SeenBetween(hosts, i, k, kept) || kept == written)
            && (phase < 3 ==> SeenBetween(hosts, i, k, kept))
            && (phase == 4 ==> kept == written)
    ensures Settled(hosts[0]) && Settled(hosts[k + 1])
  {
    ImagesWereVisible(db, hosts, i, k);
  }

  // ------------------------------------------------------------ Creating once

  function CreateOnce(db: S.ZoneDb, s: Snapshot, d: Definition, at: S.Instant): Result<(bool, Definition), Error>
  {
    var _ :- Validate(db, d);
    if d.revision != 0 then Err(NotNew)
    else match DefIndex(s.definitions, d.id)
      case Some(i) =>
        var existing := s.definitions[i];
        if d.(revision := existing.revision, anchor := existing.anchor, nextAt := existing.nextAt,
              failures := existing.failures, pausedReason := existing.pausedReason) == existing
        then Ok((false, existing)) else Err(KeyTaken)
      case None =>
        var created :- Created(db, d, at);
        Ok((true, created))
  }

  lemma LastFound(defs: seq<Definition>, d: Definition)
    requires forall x | x in defs :: x.id != d.id
    ensures DefIndex(defs + [d], d.id) == Some(|defs|)
  {
  }

  // ---------------------------------------------------------------- The store

  lemma {:induction false} FirstDefinition(defs: seq<Definition>, i: nat, id: string)
    requires i < |defs| && defs[i].id == id && forall k | 0 <= k < i :: defs[k].id != id
    ensures DefIndex(defs, id) == Some(i)
  {
    if i > 0 {
      assert forall k | 0 <= k < i - 1 :: defs[1..][k] == defs[k + 1];
      FirstDefinition(defs[1..], i - 1, id);
    }
  }

  lemma {:induction false} FirstRun(runs: seq<Run>, i: nat, id: string)
    requires i < |runs| && runs[i].id == id && forall k | 0 <= k < i :: runs[k].id != id
    ensures RunIndex(runs, id) == Some(i)
  {
    if i > 0 {
      assert forall k | 0 <= k < i - 1 :: runs[1..][k] == runs[k + 1];
      FirstRun(runs[1..], i - 1, id);
    }
  }

  method FindDefinition(defs: seq<Definition>, id: string) returns (r: Option<nat>)
    ensures r == DefIndex(defs, id)
  {
    for i := 0 to |defs|
      invariant forall k | 0 <= k < i :: defs[k].id != id
    {
      if defs[i].id == id {
        FirstDefinition(defs, i, id);
        return Some(i);
      }
    }
    r := None;
  }

  method FindRun(runs: seq<Run>, id: string) returns (r: Option<nat>)
    ensures r == RunIndex(runs, id)
  {
    for i := 0 to |runs|
      invariant forall k | 0 <= k < i :: runs[k].id != id
    {
      if runs[i].id == id {
        FirstRun(runs, i, id);
        return Some(i);
      }
    }
    r := None;
  }

  method AnyActive(runs: seq<Run>, id: string) returns (r: bool)
    ensures r == HasActive(runs, id)
  {
    for i := 0 to |runs|
      invariant !HasActive(runs[..i], id)
    {
      if runs[i].definition.id == id && Active(runs[i].status) {
        assert runs[i] in runs;
        return true;
      }
      assert runs[..i + 1] == runs[..i] + [runs[i]];
    }
    assert runs[..|runs|] == runs;
    r := false;
  }

  method DropDefinition(defs: seq<Definition>, id: string) returns (r: seq<Definition>)
    ensures r == Without(defs, id)
  {
    r := [];
    for i := 0 to |defs|
      invariant Without(defs, id) == r + Without(defs[i..], id)
    {
      assert defs[i..][1..] == defs[i + 1..];
      if defs[i].id != id {
        assert r + ([defs[i]] + Without(defs[i + 1..], id)) == r + [defs[i]] + Without(defs[i + 1..], id);
        r := r + [defs[i]];
      }
    }
  }

  method DropRun(runs: seq<Run>, id: string) returns (r: seq<Run>)
    ensures r == WithoutRun(runs, id)
  {
    r := [];
    for i := 0 to |runs|
      invariant WithoutRun(runs, id) == r + WithoutRun(runs[i..], id)
    {
      assert runs[i..][1..] == runs[i + 1..];
      if runs[i].id != id {
        assert r + ([runs[i]] + WithoutRun(runs[i + 1..], id)) == r + [runs[i]] + WithoutRun(runs[i + 1..], id);
        r := r + [runs[i]];
      }
    }
  }

  method CountEnding(definition: Definition, status: RunStatus) returns (d: Definition)
    requires !Active(status)
    ensures d == Counted(definition, status)
  {
    d := definition;
    if status == Failed || status == Interrupted {
      d := d.(failures := d.failures + 1);
    }
    if status == Succeeded {
      d := d.(failures := 0);
    }
    if d.failures >= 3 {
      d := d.(enabled := false, revision := d.revision + 1, nextAt := None, pausedReason := Some(PAUSED));
    }
  }

  // The change `set_enabled` makes: pausing also cancels what was queued by
  // schedule and not yet dispatched.
  method Toggle(db: S.ZoneDb, s: Snapshot, id: string, enabled: bool, at: S.Instant) returns (r: Result<Snapshot, Error>)
    ensures r == SetEnabled(db, s, id, enabled, at)
  {
    var state := s;
    var found := FindDefinition(state.definitions, id);
    if found.None? {
      return Err(Missing);
    }
    var d := state.definitions[found.value];
    d := d.(enabled := enabled, revision := d.revision + 1, pausedReason := None, failures := 0, anchor := at, nextAt := None);
    if enabled {
      var next := S.FindNext(db, d.schedule, at, at);
      if next.Err? {
        return Err(BadSchedule(next.error));
      }
      d := d.(nextAt := next.value);
    }
    state := state.(definitions := state.definitions[found.value := d]);
    if !enabled {
      var runs := state.runs;
      for i := 0 to |runs|
        invariant |runs| == |state.runs|
        invariant forall k | 0 <= k < i :: runs[k] == Pause(state.runs[k], id, at)
        invariant forall k | i <= k < |runs| :: runs[k] == state.runs[k]
      {
        if runs[i].definition.id == id && runs[i].status == Queued && runs[i].scheduledFor.Some? {
          runs := runs[i := runs[i].(status := Cancelled, finishedAt := Some(at), error := Some(UNDISPATCHED))];
        }
      }
      assert runs == PauseAll(state.runs, id, at);
      state := state.(runs := runs);
    }
    r := Ok(state);
  }

  // The change `update_run` makes: only an active run moves, and only its
  // ending touches the definition it came from.
  method Progress(s: Snapshot, id: string, status: RunStatus, error: Option<string>, sessionFile: Option<string>, at: S.Instant)
    returns (r: Result<Snapshot, Error>)
    ensures r == UpdateRun(s, id, status, error, sessionFile, at)
  {
    var state := s;
    var found := FindRun(state.runs, id);
    if found.None? {
      return Err(Missing);
    }
    var run := state.runs[found.value];
    if !Active(run.status) {
      return Ok(state);
    }
    run := run.(status := status, error := error);
    if sessionFile.Some? {
      run := run.(sessionFile := sessionFile);
    }
    if !Active(status) {
      run := run.(finishedAt := Some(at));
      var owner := FindDefinition(state.definitions, run.definition.id);
      if owner.Some? {
        var d := CountEnding(state.definitions[owner.value], status);
        state := state.(definitions := state.definitions[owner.value := d]);
      }
    }
    r := Ok(state.(runs := state.runs[found.value := run]));
  }

  // The change `save` makes.
  method Edit(db: S.ZoneDb, s: Snapshot, definition: Definition, at: S.Instant) returns (r: Result<Snapshot, Error>)
    ensures r == Save(db, s, definition, at)
  {
    var valid := Validate(db, definition);
    if valid.Err? {
      return Err(valid.error);
    }
    var state := s;
    var d := definition;
    var found := FindDefinition(state.definitions, d.id);
    if found.Some? {
      var previous := state.definitions[found.value];
      if previous.revision != d.revision {
        return Err(Changed);
      }
      d := d.(revision := d.revision + 1);
      d := d.(failures := previous.failures, pausedReason := previous.pausedReason);
      if previous.enabled != d.enabled {
        d := d.(failures := 0, pausedReason := None);
      }
      if previous.schedule == d.schedule && previous.enabled == d.enabled {
        d := d.(anchor := previous.anchor, nextAt := previous.nextAt);
      } else {
        d := d.(anchor := at, nextAt := None);
        if d.enabled {
          var next := S.FindNext(db, d.schedule, at, at);
          if next.Err? {
            return Err(BadSchedule(next.error));
          }
          d := d.(nextAt := next.value);
        }
      }
    } else {
      if d.revision != 0 {
        return Err(Deleted);
      }
      d := d.(revision := 1, anchor := at, nextAt := None);
      if d.enabled {
        var next := S.FindNext(db, d.schedule, at, at);
        if next.Err? {
          return Err(BadSchedule(next.error));
        }
        d := d.(nextAt := next.value);
      }
    }
    var rest := DropDefinition(state.definitions, d.id);
    r := Ok(state.(definitions := rest + [d]));
  }

  // The change `enqueue` makes.
  method Admit(db: S.ZoneDb, s: Snapshot, id: string, scheduled: bool, at: S.Instant, runId: string)
    returns (r: Result<Snapshot, Error>)
    requires Inv(db, s) && 0 <= at
    ensures r == Enqueue(db, s, id, scheduled, at, runId)
  {
    var state := s;
    var busy := AnyActive(state.runs, id);
    if busy {
      return Err(ActiveRun);
    }
    var found := FindDefinition(state.definitions, id);
    if found.None? {
      return Err(Missing);
    }
    var d := state.definitions[found.value];
    assert d in state.definitions;
    var scheduledFor: Option<S.Instant> := None;
    if scheduled {
      if d.nextAt.None? || !(d.nextAt.value <= at && d.enabled) {
        return Err(NotDue);
      }
      var due := d.nextAt.value;
      var next := S.FindNext(db, d.schedule, at, d.anchor);
      if next.Err? {
        return Err(BadSchedule(next.error));
      }
      var latest := S.FindLatestDue(db, d.schedule, due, at, d.anchor);
      if latest.Err? {
        return Err(BadSchedule(latest.error));
      }
      d := d.(nextAt := next.value);
      state := state.(definitions := state.definitions[found.value := d]);
      scheduledFor := Some(latest.value);
    }
    var run := Run(runId, d, scheduledFor, at, None, Queued, "automation_" + runId, None, None, false);
    r := Ok(state.(runs := state.runs + [run]));
  }

  method Discard(s: Snapshot, id: string) returns (r: Result<Snapshot, Error>)
    ensures r == Delete(s, id)
  {
    var busy := AnyActive(s.runs, id);
    if busy {
      return Err(ActiveRun);
    }
    var rest := DropDefinition(s.definitions, id);
    r := Ok(s.(definitions := rest));
  }

  method Forget(s: Snapshot, id: string) returns (r: Result<Snapshot, Error>)
    ensures r == DeleteRun(s, id)
  {
    var found := FindRun(s.runs, id);
    if found.None? {
      return Err(Missing);
    }
    if Active(s.runs[found.value].status) {
      return Err(StillActive);
    }
    var rest := DropRun(s.runs, id);
    r := Ok(s.(runs := rest));
  }

  method Acknowledge(s: Snapshot, id: string) returns (r: Result<Snapshot, Error>)
    ensures r == MarkReviewed(s, id)
  {
    var state := s;
    var found := FindRun(state.runs, id);
    if found.None? {
      return Err(Missing);
    }
    var run := state.runs[found.value];
    if !Active(run.status) {
      state := state.(runs := state.runs[found.value := run.(reviewed := true)]);
    }
    r := Ok(state);
  }

  class Store {
    var snapshot: Snapshot
    var disk: Disk

    ghost function View(): Host
      reads this
    {
      Host(snapshot, disk)
    }

    constructor (stored: Snapshot)
      ensures View() == Host(stored, Disk(stored, {stored}))
    {
      snapshot := stored;
      disk := Disk(stored, {stored});
    }

    // Prune, bump the revision, write, and publish only what reached the file.
    method Commit(changed: Snapshot, fault: Fault) returns (r: Result<(), Error>)
      modifies this
      ensures disk == Written(old(disk), Committed(changed), fault)
      ensures snapshot == if Renamed(fault) then Committed(changed) else old(snapshot)
      ensures r == if fault == NoFault then Ok(()) else Err(Io)
    {
      var runs := Prune(changed.runs);
      var next := changed.(runs := runs, revision := changed.revision + 1);
      if fault in {TempFile, Serialize, FileSync, Rename} {
        return Err(Io);
      }
      disk := Disk(next, disk.afterCrash + {next});
      snapshot := next;
      if fault == DirSync {
        return Err(Io);
      }
      disk := Disk(next, {next});
      r := Ok(());
    }

    // Commit what an operation changed, or answer its refusal.
    method Publish(ghost db: S.ZoneDb, ghost op: Op, changed: Result<Snapshot, Error>, fault: Fault)
      returns (r: Result<(), Error>)
      requires Inv(db, snapshot) && Admissible(snapshot, op) && changed == Change(db, snapshot, op)
      modifies this
      ensures View() == Applied(db, old(View()), op, fault) && r == Answer(changed, fault)
    {
      if changed.Err? {
        return Err(changed.error);
      }
      r := Commit(changed.value, fault);
    }

    method SaveDefinition(db: S.ZoneDb, definition: Definition, at: S.Instant, fault: Fault) returns (r: Result<(), Error>)
      requires Inv(db, snapshot) && Admissible(snapshot, OpSave(definition, at))
      modifies this
      ensures View() == Applied(db, old(View()), OpSave(definition, at), fault)
      ensures r == Answer(Save(db, old(snapshot), definition, at), fault)
    {
      var changed := Edit(db, snapshot, definition, at);
      r := Publish(db, OpSave(definition, at), changed, fault);
    }

    method Create(db: S.ZoneDb, definition: Definition, at: S.Instant, fault: Fault) returns (r: Result<Definition, Error>)
      requires Inv(db, snapshot) && Admissible(snapshot, OpSave(definition, at))
      modifies this
      ensures var once := CreateOnce(db, old(snapshot), definition, at);
              && (once.Err? ==> r == Err(once.error) && View() == old(View()))
              && (once.Ok? && !once.value.0 ==> r == Ok(once.value.1) && View() == old(View()))
              && (once.Ok? && once.value.0 ==>
                    && View() == Applied(db, old(View()), OpSave(definition, at), fault)
                    && r == if fault == NoFault then Ok(once.value.1) else Err(Io))
    {
      var valid := Validate(db, definition);
      if valid.Err? {
        return Err(valid.error);
      }
      if definition.revision != 0 {
        return Err(NotNew);
      }
      var found := FindDefinition(snapshot.definitions, definition.id);
      if found.Some? {
        var existing := snapshot.definitions[found.value];
        var d := definition.(revision := existing.revision, anchor := existing.anchor, nextAt := existing.nextAt);
        d := d.(failures := existing.failures, pausedReason := existing.pausedReason);
        if d == existing {
          return Ok(existing);
        }
        return Err(KeyTaken);
      }
      ghost var before := snapshot;
      var saved := SaveDefinition(db, definition, at, fault);
      if saved.Err? {
        return Err(if fault != NoFault && Created(db, definition, at).Ok? then Io else saved.error);
      }
      LastFound(Without(before.definitions, definition.id), CreateOnce(db, before, definition, at).value.1);
      found := FindDefinition(snapshot.definitions, definition.id);
      r := Ok(snapshot.definitions[found.value]);
    }

    method Enable(db: S.ZoneDb, id: string, enabled: bool, at: S.Instant, fault: Fault) returns (r: Result<(), Error>)
      requires Inv(db, snapshot) && 0 <= at
      modifies this
      ensures View() == Applied(db, old(View()), OpSetEnabled(id, enabled, at), fault)
      ensures r == Answer(SetEnabled(db, old(snapshot), id, enabled, at), fault)
    {
      var changed := Toggle(db, snapshot, id, enabled, at);
      r := Publish(db, OpSetEnabled(id, enabled, at), changed, fault);
    }

    method Remove(db: S.ZoneDb, id: string, fault: Fault) returns (r: Result<(), Error>)
      requires Inv(db, snapshot)
      modifies this
      ensures View() == Applied(db, old(View()), OpDelete(id), fault)
      ensures r == Answer(Delete(old(snapshot), id), fault)
    {
      var changed := Discard(snapshot, id);
      r := Publish(db, OpDelete(id), changed, fault);
    }

    method Queue(db: S.ZoneDb, id: string, scheduled: bool, at: S.Instant, runId: string, fault: Fault)
      returns (r: Result<string, Error>)
      requires Inv(db, snapshot) && Admissible(snapshot, OpEnqueue(id, scheduled, at, runId))
      modifies this
      ensures View() == Applied(db, old(View()), OpEnqueue(id, scheduled, at, runId), fault)
      ensures r == match Answer(Enqueue(db, old(snapshot), id, scheduled, at, runId), fault)
                   case Ok(_) => Ok(runId)
                   case Err(e) => Err(e)
    {
      var changed := Admit(db, snapshot, id, scheduled, at, runId);
      var done := Publish(db, OpEnqueue(id, scheduled, at, runId), changed, fault);
      r := if done.Ok? then Ok(runId) else Err(done.error);
    }

    method Report(db: S.ZoneDb, id: string, status: RunStatus, error: Option<string>, sessionFile: Option<string>,
                  at: S.Instant, fault: Fault) returns (r: Result<(), Error>)
      requires Inv(db, snapshot)
      modifies this
      ensures View() == Applied(db, old(View()), OpUpdateRun(id, status, error, sessionFile, at), fault)
      ensures r == Answer(UpdateRun(old(snapshot), id, status, error, sessionFile, at), fault)
    {
      var changed := Progress(snapshot, id, status, error, sessionFile, at);
      r := Publish(db, OpUpdateRun(id, status, error, sessionFile, at), changed, fault);
    }

    method RemoveRun(db: S.ZoneDb, id: string, fault: Fault) returns (r: Result<(), Error>)
      requires Inv(db, snapshot)
      modifies this
      ensures View() == Applied(db, old(View()), OpDeleteRun(id), fault)
      ensures r == Answer(DeleteRun(old(snapshot), id), fault)
    {
      var changed := Forget(snapshot, id);
      r := Publish(db, OpDeleteRun(id), changed, fault);
    }

    method Review(db: S.ZoneDb, id: string, fault: Fault) returns (r: Result<(), Error>)
      requires Inv(db, snapshot)
      modifies this
      ensures View() == Applied(db, old(View()), OpMarkReviewed(id), fault)
      ensures r == Answer(MarkReviewed(old(snapshot), id), fault)
    {
      var changed := Acknowledge(snapshot, id);
      r := Publish(db, OpMarkReviewed(id), changed, fault);
    }
  }
}
