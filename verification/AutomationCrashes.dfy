// Claims across crashes: what was acknowledged is never claimed again; what was
// not may be.
module AutomationCrashes {
  import opened Outcomes
  import opened AutomationStore
  import opened AutomationHistory
  import opened DurableStore
  import S = Schedules

  // A host with its callers' clock, and the claims whose enqueue was answered
  // with success.
  datatype Machine = Machine(host: Host, clock: S.Instant, acked: seq<Claimed>)

  const POWERED_ON: Machine := Machine(Host(EMPTY, Disk(EMPTY, {EMPTY})), 0, [])

  ghost function Acknowledged(db: S.ZoneDb, host: Host, move: Move): seq<Claimed>
    requires Inv(db, host.snapshot) && Admissible(host.snapshot, move.op)
  {
    if move.Operate? && move.fault == NoFault && Change(db, host.snapshot, move.op).Ok?
    then ClaimsOf(Change(db, host.snapshot, move.op).value, move.op) else []
  }

  ghost predicate Acts(db: S.ZoneDb, m: Machine, move: Move, next: Machine) {
    && Moves(db, m.host, move, next.host)
    && (OpTime(move.op).Some? ==> m.clock <= OpTime(move.op).value)
    && next.clock == (if OpTime(move.op).Some? then OpTime(move.op).value else m.clock)
    && next.acked == m.acked + Acknowledged(db, m.host, move)
  }

  ghost predicate Continues(db: S.ZoneDb, m: Machine, next: Machine) {
    exists move :: Acts(db, m, move, next)
  }

  ghost predicate ContinuesAt(db: S.ZoneDb, machines: seq<Machine>, k: nat)
    requires k < |machines| - 1
  {
    Continues(db, machines[k], machines[k + 1])
  }

  // Operations, faults and crashes in any order.
  ghost predicate Runs(db: S.ZoneDb, machines: seq<Machine>) {
    && machines != []
    && machines[0] == POWERED_ON
    && forall k | 0 <= k < |machines| - 1 :: ContinuesAt(db, machines, k)
  }

  // --------------------------------------------------- Schedules only move on

  // A definition's next time is one it had before, or past `at`.
  ghost predicate MovesOn(before: seq<Definition>, after: seq<Definition>, at: S.Instant) {
    forall x | x in after && x.nextAt.Some? :: Kept(before, x) || at < x.nextAt.value
  }

  ghost predicate Kept(before: seq<Definition>, x: Definition) {
    exists y :: y in before && y.id == x.id && y.nextAt == x.nextAt
  }

  lemma MovedOnIsAhead(before: seq<Definition>, after: seq<Definition>, claims: seq<Claimed>, at: S.Instant)
    requires MovesOn(before, after, at) && SchedulesAhead(before, claims)
    requires forall c | c in claims :: c.at <= at
    ensures SchedulesAhead(after, claims)
  {
    forall x, c | x in after && c in claims && x.nextAt.Some? && c.id == x.id ensures c.at < x.nextAt.value {
      if Kept(before, x) {
        var y :| y in before && y.id == x.id && y.nextAt == x.nextAt;
      }
    }
  }

  lemma SaveMovesOn(db: S.ZoneDb, s: Snapshot, d: Definition, at: S.Instant)
    requires Save(db, s, d, at).Ok?
    ensures MovesOn(s.definitions, Save(db, s, d, at).value.definitions, at)
  {
    var next := Save(db, s, d, at).value.definitions;
    var saved := next[|next| - 1];
    forall x | x in next && x.nextAt.Some? ensures Kept(s.definitions, x) || at < x.nextAt.value {
      if x == saved {
        if d.enabled && NextWhenEnabled(db, d, at).Ok? {
          S.NextIsLater(db, d.schedule, at, at);
        }
        var i := DefIndex(s.definitions, d.id);
        assert i.Some? ==> s.definitions[i.value] in s.definitions;
      }
    }
  }

  lemma ReplacedMovesOn(before: seq<Definition>, i: nat, d: Definition, at: S.Instant)
    requires i < |before| && d.id == before[i].id
    requires d.nextAt.Some? ==> d.nextAt == before[i].nextAt || at < d.nextAt.value
    ensures MovesOn(before, before[i := d], at)
  {
    forall x | x in before[i := d] && x.nextAt.Some? ensures Kept(before, x) || at < x.nextAt.value {
      var k :| 0 <= k < |before| && before[i := d][k] == x;
      assert before[k] in before;
    }
  }

  lemma SetEnabledMovesOn(db: S.ZoneDb, s: Snapshot, id: string, enabled: bool, at: S.Instant)
    requires SetEnabled(db, s, id, enabled, at).Ok?
    ensures MovesOn(s.definitions, SetEnabled(db, s, id, enabled, at).value.definitions, at)
  {
    var i := DefIndex(s.definitions, id).value;
    var d := SetEnabled(db, s, id, enabled, at).value.definitions[i];
    if enabled {
      S.NextIsLater(db, d.schedule, at, at);
    }
    ReplacedMovesOn(s.definitions, i, d, at);
  }

  lemma EnqueueMovesOn(db: S.ZoneDb, s: Snapshot, id: string, scheduled: bool, at: S.Instant, runId: string)
    requires Inv(db, s) && 0 <= at && Enqueue(db, s, id, scheduled, at, runId).Ok?
    ensures MovesOn(s.definitions, Enqueue(db, s, id, scheduled, at, runId).value.definitions, at)
  {
    var i := DefIndex(s.definitions, id).value;
    assert s.definitions[i] in s.definitions;
    if scheduled {
      ClaimBounds(db, s.definitions[i], at);
      ReplacedMovesOn(s.definitions, i, Claim(db, s.definitions[i], at).value.0, at);
    } else {
      ReplacedMovesOn(s.definitions, i, s.definitions[i], at);
      assert s.definitions[i := s.definitions[i]] == s.definitions;
    }
  }

  lemma SettleMovesOn(defs: seq<Definition>, id: string, status: RunStatus, at: S.Instant)
    ensures MovesOn(defs, Settle(defs, id, status), at) && MovesOn(defs, defs, at)
  {
    assert forall x | x in defs :: Kept(defs, x);
    if DefIndex(defs, id).Some? {
      var i := DefIndex(defs, id).value;
      ReplacedMovesOn(defs, i, Counted(defs[i], status), at);
    }
  }

  lemma ChangeMovesOn(db: S.ZoneDb, s: Snapshot, op: Op, at: S.Instant)
    requires Inv(db, s) && Admissible(s, op) && Change(db, s, op).Ok?
    requires OpTime(op).Some? ==> at == OpTime(op).value
    ensures MovesOn(s.definitions, Change(db, s, op).value.definitions, at)
  {
    SettleMovesOn(s.definitions, "", Succeeded, at);
    match op {
      case OpSave(d, _) => SaveMovesOn(db, s, d, at);
      case OpSetEnabled(id, enabled, _) => SetEnabledMovesOn(db, s, id, enabled, at);
      case OpEnqueue(id, scheduled, _, runId) => EnqueueMovesOn(db, s, id, scheduled, at, runId);
      case OpUpdateRun(id, status, _, _, _) =>
        SettleMovesOn(s.definitions, s.runs[RunIndex(s.runs, id).value].definition.id, status, at);
      case OpDelete(_) => assert forall x | x in s.definitions :: Kept(s.definitions, x);
      case _ =>
    }
  }

  // --------------------------------------------------------------- Invariant

  // Every snapshot a crash may bring back has its schedules past every
  // acknowledged claim.
  ghost predicate MachineInv(db: S.ZoneDb, m: Machine) {
    && HostInv(db, m.host) && ClaimsIncrease(m.acked)
    && (forall c | c in m.acked :: c.at <= m.clock)
    && forall s | s in m.host.disk.afterCrash :: SchedulesAhead(s.definitions, m.acked)
  }

  // A new claim is past all acknowledged ones, and the schedule is past it.
  lemma ClaimIsPast(db: S.ZoneDb, s: Snapshot, claims: seq<Claimed>, op: Op)
    requires Inv(db, s) && Admissible(s, op) && Change(db, s, op).Ok? && op.OpEnqueue? && op.scheduled
    requires SchedulesAhead(s.definitions, claims) && ClaimsIncrease(claims)
    requires forall c | c in claims :: c.at <= op.at
    ensures var next := Change(db, s, op).value;
            var all := claims + ClaimsOf(next, op);
            ClaimsIncrease(all) && SchedulesAhead(next.definitions, all) && forall c | c in all :: c.at <= op.at
  {
    var next := Change(db, s, op).value;
    var i := DefIndex(s.definitions, op.id).value;
    var d := s.definitions[i];
    assert d in s.definitions;
    ClaimBounds(db, d, op.at);
    var claim := Claimed(op.id, Claim(db, d, op.at).value.1);
    assert ClaimsOf(next, op) == [claim];
    forall c | c in claims && c.id == op.id ensures c.at < claim.at {
      assert c.at < d.nextAt.value;
    }
    EnqueueMovesOn(db, s, op.id, true, op.at, op.runId);
    MovedOnIsAhead(s.definitions, next.definitions, claims, op.at);
    ClaimedIsAhead(db, s, op, claim);
  }

  lemma ClaimedIsAhead(db: S.ZoneDb, s: Snapshot, op: Op, claim: Claimed)
    requires Inv(db, s) && Admissible(s, op) && Change(db, s, op).Ok? && op.OpEnqueue? && op.scheduled
    requires claim.id == op.id && claim.at <= op.at
    ensures forall x | x in Change(db, s, op).value.definitions && x.nextAt.Some? && x.id == op.id :: claim.at < x.nextAt.value
  {
    var i := DefIndex(s.definitions, op.id).value;
    assert s.definitions[i] in s.definitions;
    ClaimBounds(db, s.definitions[i], op.at);
  }

  lemma OperateKeeps(db: S.ZoneDb, m: Machine, move: Move, next: Machine)
    requires MachineInv(db, m) && Acts(db, m, move, next) && Change(db, m.host.snapshot, move.op).Ok?
    ensures var written := Committed(Change(db, m.host.snapshot, move.op).value);
            SchedulesAhead(written.definitions, next.acked) && ClaimsIncrease(next.acked)
            && forall c | c in next.acked :: c.at <= next.clock
  {
    var s := m.host.snapshot;
    ChangeMovesOn(db, s, move.op, next.clock);
    MovedOnIsAhead(s.definitions, Change(db, s, move.op).value.definitions, m.acked, next.clock);
    if Acknowledged(db, m.host, move) == [] {
      assert next.acked == m.acked;
    } else {
      ClaimIsPast(db, s, m.acked, move.op);
    }
  }

  lemma ActKeepsMachine(db: S.ZoneDb, m: Machine, move: Move, next: Machine)
    requires MachineInv(db, m) && Acts(db, m, move, next)
    ensures MachineInv(db, next)
  {
    MoveKeepsHost(db, m.host, move, next.host);
    if Change(db, m.host.snapshot, move.op).Ok? {
      OperateKeeps(db, m, move, next);
      ImagesAfter(db, m, move, next);
    }
  }

  // An acknowledged operation leaves one image; any other acknowledges nothing.
  lemma ImagesAfter(db: S.ZoneDb, m: Machine, move: Move, next: Machine)
    requires MachineInv(db, m) && Acts(db, m, move, next) && Change(db, m.host.snapshot, move.op).Ok?
    ensures forall s | s in next.host.disk.afterCrash ::
              || s == Committed(Change(db, m.host.snapshot, move.op).value)
              || (s in m.host.disk.afterCrash && next.acked == m.acked)
  {
  }

  lemma {:induction false} MachinesStayOk(db: S.ZoneDb, machines: seq<Machine>, k: nat)
    requires Runs(db, machines) && k < |machines|
    ensures MachineInv(db, machines[k])
  {
    if k > 0 {
      MachinesStayOk(db, machines, k - 1);
      MachineStep(db, machines, k - 1);
    }
  }

  lemma MachineStep(db: S.ZoneDb, machines: seq<Machine>, k: nat)
    requires Runs(db, machines) && k < |machines| - 1 && MachineInv(db, machines[k])
    ensures MachineInv(db, machines[k + 1])
  {
    assert ContinuesAt(db, machines, k);
    var move :| Acts(db, machines[k], move, machines[k + 1]);
    ActKeepsMachine(db, machines[k], move, machines[k + 1]);
  }

  // Through any operations, faults and crashes, the acknowledged claims of one
  // definition strictly increase: an occurrence whose enqueue was answered with
  // success is never claimed with success again.
  lemma AcknowledgedClaimsIncrease(db: S.ZoneDb, machines: seq<Machine>, k: nat)
    requires Runs(db, machines) && k < |machines|
    ensures ClaimsIncrease(machines[k].acked)
    ensures forall s, d, c | s in machines[k].host.disk.afterCrash && d in s.definitions && c in machines[k].acked
              && d.nextAt.Some? && c.id == d.id :: c.at < d.nextAt.value
  {
    MachinesStayOk(db, machines, k);
  }

  // A crash before the first step of a commit brings back any image of the file.
  lemma CrashActs(db: S.ZoneDb, m: Machine, idle: string, kept: Snapshot) returns (crashed: Machine)
    requires MachineInv(db, m) && kept in m.host.disk.afterCrash && !HasActive(m.host.snapshot.runs, idle)
    ensures Acts(db, m, Crash(OpDelete(idle), 0, kept), crashed)
    ensures crashed == Machine(Host(kept, Disk(kept, {kept})), m.clock, m.acked)
  {
    crashed := Machine(Host(kept, Disk(kept, {kept})), m.clock, m.acked);
    assert m.acked + [] == m.acked;
  }

  lemma FaultActs(db: S.ZoneDb, m: Machine, op: Op) returns (faulted: Machine)
    requires MachineInv(db, m) && Settled(m.host) && op.OpEnqueue? && Admissible(m.host.snapshot, op) && m.clock <= op.at
    requires Change(db, m.host.snapshot, op).Ok?
    ensures Acts(db, m, Operate(op, DirSync), faulted) && faulted.acked == m.acked && faulted.clock == op.at
    ensures faulted.host.snapshot == Committed(Change(db, m.host.snapshot, op).value)
    ensures m.host.snapshot in faulted.host.disk.afterCrash
  {
    faulted := Machine(Applied(db, m.host, op, DirSync), op.at, m.acked);
    assert m.acked + [] == m.acked;
  }

  // The run's id does not decide what is claimed.
  lemma SameClaim(db: S.ZoneDb, s: Snapshot, op: Op, again: string)
    requires Inv(db, s) && op.OpEnqueue? && op.scheduled && Admissible(s, op) && Admissible(s, op.(runId := again))
    requires Change(db, s, op).Ok?
    ensures Change(db, s, op.(runId := again)).Ok?
    ensures ClaimsOf(Change(db, s, op.(runId := again)).value, op.(runId := again))
            == ClaimsOf(Change(db, s, op).value, op) != []
  {
  }

  // A claim whose directory sync failed was not acknowledged, and a crash after
  // it can have the same occurrence claimed again, this time with success.
  lemma UnacknowledgedClaimsMayRepeat(db: S.ZoneDb, m: Machine, op: Op, idle: string, again: string)
    returns (faulted: Machine, crashed: Machine)
    requires MachineInv(db, m) && Settled(m.host)
    requires op.OpEnqueue? && op.scheduled && Admissible(m.host.snapshot, op) && m.clock <= op.at
    requires Change(db, m.host.snapshot, op).Ok?
    requires !HasActive(Committed(Change(db, m.host.snapshot, op).value).runs, idle)
    requires Admissible(m.host.snapshot, op.(runId := again))
    ensures Acts(db, m, Operate(op, DirSync), faulted) && faulted.acked == m.acked
    ensures Acts(db, faulted, Crash(OpDelete(idle), 0, m.host.snapshot), crashed)
    ensures crashed.host.snapshot == m.host.snapshot && crashed.clock == op.at
    ensures Change(db, crashed.host.snapshot, op.(runId := again)).Ok?
    ensures ClaimsOf(Change(db, crashed.host.snapshot, op.(runId := again)).value, op.(runId := again))
            == ClaimsOf(Change(db, m.host.snapshot, op).value, op) != []
  {
    faulted := FaultActs(db, m, op);
    ActKeepsMachine(db, m, Operate(op, DirSync), faulted);
    crashed := CrashActs(db, faulted, idle, m.host.snapshot);
    SameClaim(db, m.host.snapshot, op, again);
  }
}
