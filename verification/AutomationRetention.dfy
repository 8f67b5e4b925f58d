// The retention pass: newest-first counting against its declarative meaning.
module AutomationRetention {
  import opened AutomationStore

  // A finished run of definition `id` that was reviewed.
  predicate Spent(run: Run, id: string) {
    run.definition.id == id && run.reviewed && run.status in {Succeeded, Failed, Cancelled, Interrupted}
  }

  // The places from `from` on where one stands.
  function SpentFrom(runs: seq<Run>, from: nat, id: string): set<nat> {
    set k: nat | from <= k < |runs| && Spent(runs[k], id)
  }

  // A run survives when it is active, unreviewed, or among the newest 200
  // reviewed finished runs of its definition.
  predicate Keeps(runs: seq<Run>, i: nat)
    requires i < |runs|
  {
    var id := runs[i].definition.id;
    !Spent(runs[i], id) || |SpentFrom(runs, i + 1, id)| < 200
  }

  lemma SpentIsPrunable(run: Run)
    ensures forall id :: Spent(run, id) <==> Prunable(run) && run.definition.id == id
  {
    match run.status {
      case Queued => case Starting => case Running => case WaitingPermission => case WaitingAnswer =>
      case Succeeded => case Failed => case Cancelled => case Interrupted =>
    }
  }

  lemma {:induction false} ReviewedCounts(runs: seq<Run>, from: nat, id: string)
    requires from <= |runs|
    ensures Reviewed(runs[from..], id) == |SpentFrom(runs, from, id)|
    decreases |runs| - from
  {
    if from == |runs| {
      assert SpentFrom(runs, from, id) == {};
    } else {
      ReviewedCounts(runs, from + 1, id);
      assert runs[from..][1..] == runs[from + 1..];
      SpentIsPrunable(runs[from]);
      var rest := SpentFrom(runs, from + 1, id);
      assert SpentFrom(runs, from, id) == if Spent(runs[from], id) then {from} + rest else rest;
    }
  }

  lemma ConsRuns(run: Run, rest: seq<Run>, id: string)
    ensures Reviewed([run] + rest, id) ==
            Reviewed(rest, id) + if Prunable(run) && run.definition.id == id then 1 else 0
    ensures Reversed([run] + rest) == Reversed(rest) + [run]
    ensures Retained([run] + rest) ==
            if Prunable(run) && Reviewed(rest, run.definition.id) >= RETAINED then Retained(rest)
            else [run] + Retained(rest)
  {
  }

  // The runs at the marked positions, in order.
  function Select(runs: seq<Run>, marks: seq<bool>): seq<Run>
    requires |marks| == |runs|
  {
    if runs == [] then []
    else if marks[0] then [runs[0]] + Select(runs[1..], marks[1..])
    else Select(runs[1..], marks[1..])
  }

  function Marks(runs: seq<Run>): seq<bool> {
    seq(|runs|, i requires 0 <= i < |runs| => Keeps(runs, i))
  }

  // Retention is exactly the filter, position by position and in order.
  lemma {:induction false} RetainedIsFilter(runs: seq<Run>)
    ensures Retained(runs) == Select(runs, Marks(runs))
  {
    if runs != [] {
      RetainedIsFilter(runs[1..]);
      forall i: nat | 0 < i < |runs| ensures Marks(runs)[i] == Marks(runs[1..])[i - 1] {
        assert runs[1..][i..] == runs[i + 1..];
        ReviewedCounts(runs, i + 1, runs[i].definition.id);
        ReviewedCounts(runs[1..], i, runs[i].definition.id);
      }
      ReviewedCounts(runs, 1, runs[0].definition.id);
      SpentIsPrunable(runs[0]);
      assert Marks(runs)[1..] == Marks(runs[1..]);
    }
  }

  lemma {:induction false} RetainedCount(runs: seq<Run>, id: string)
    ensures Reviewed(Retained(runs), id) ==
            if Reviewed(runs, id) < RETAINED then Reviewed(runs, id) else RETAINED
  {
    if runs != [] {
      RetainedCount(runs[1..], id);
      ConsRuns(runs[0], Retained(runs[1..]), id);
    }
  }

  // Running the pass on its own result changes nothing.
  lemma {:induction false} RetainedIsIdempotent(runs: seq<Run>)
    ensures Retained(Retained(runs)) == Retained(runs)
  {
    if runs != [] {
      RetainedIsIdempotent(runs[1..]);
      RetainedCount(runs[1..], runs[0].definition.id);
      ConsRuns(runs[0], Retained(runs[1..]), runs[0].definition.id);
    }
  }

  lemma {:induction false} ReversedAt(runs: seq<Run>, i: nat)
    requires i < |runs|
    ensures Reversed(runs)[i] == runs[|runs| - 1 - i]
  {
    if i < |runs| - 1 {
      ReversedAt(runs[1..], i);
    }
  }

  lemma ReversedTwice(runs: seq<Run>)
    ensures Reversed(Reversed(runs)) == runs
  {
    var back := Reversed(Reversed(runs));
    forall i: nat | i < |runs| ensures back[i] == runs[i] {
      ReversedAt(Reversed(runs), i);
      ReversedAt(runs, |runs| - 1 - i);
    }
  }

  // Reverse, retain with one counter per definition, reverse back.
  method Prune(runs: seq<Run>) returns (kept: seq<Run>)
    ensures kept == Retained(runs)
  {
    var newest := Reversed(runs);
    var counts: map<string, nat> := map[];
    kept := [];
    ghost var seen: seq<Run> := [];
    for i := 0 to |newest|
      invariant seen == runs[|runs| - i..]
      invariant kept == Reversed(Retained(seen))
      invariant forall id :: Reviewed(seen, id) == if id in counts then counts[id] else 0
    {
      var run := newest[i];
      ReversedAt(runs, i);
      assert runs[|runs| - i - 1..] == [run] + seen;
      forall id {
        ConsRuns(run, seen, id);
      }
      ConsRuns(run, Retained(seen), run.definition.id);
      seen := [run] + seen;
      if Active(run.status) || !run.reviewed {
        kept := kept + [run];
        continue;
      }
      var id := run.definition.id;
      var count := (if id in counts then counts[id] else 0) + 1;
      counts := counts[id := count];
      if count <= RETAINED {
        kept := kept + [run];
      }
    }
    assert seen == runs;
    ReversedTwice(Retained(runs));
    kept := Reversed(kept);
  }
}
