// What an automation run came to, read from its chat's journal: the ending of
// the first main operation, and the task result it reported before ending.
module TaskResults {
  import opened Outcomes

  const MAIN: string := "main"
  const CONTRACT_KEY: string := "automation_result_contract"
  const RESULT_KEY: string := "automation_task_result"
  const CONTRACT: string := "1"
  const MAX_SUMMARY: nat := 4000

  datatype OperationOutcome = Completed | Aborted | Broken | Declined

  datatype Record =
    | Started(seqno: nat, id: string, lane: string)
    | FactSet(seqno: nat, run: Option<string>, lane: string, key: string, value: string)
    | Finished(seqno: nat, run: Option<string>, outcome: OperationOutcome, error: Option<string>)
    | AbortRequested(seqno: nat, run: Option<string>)
    | Other(seqno: nat)

  datatype TaskStatus = TaskSucceeded | TaskBlocked | TaskFailed

  datatype TaskResult = TaskResult(status: TaskStatus, summary: string)

  // The text form of a task result; reading back what was written gives it back.
  datatype Codec = Codec(decode: string -> Option<TaskResult>, encode: TaskResult -> string) {
    ghost predicate Sound() {
      forall r :: decode(encode(r)) == Some(r)
    }
  }

  datatype RunStatus = Succeeded | Cancelled | Failed

  datatype Note = Text(text: string) | Unreported

  datatype Verdict = Verdict(status: RunStatus, note: Option<Note>)

  predicate WhiteSpace(c: char) {
    var n := c as int;
    || 9 <= n <= 13 || n == 0x20 || n == 0x85 || n == 0xA0 || n == 0x1680 || 0x2000 <= n <= 0x200A
    || n == 0x2028 || n == 0x2029 || n == 0x202F || n == 0x205F || n == 0x3000
  }

  // A summary that says something and is not too long.
  predicate Acceptable(summary: string) {
    (exists c | c in summary :: !WhiteSpace(c)) && |summary| <= MAX_SUMMARY
  }

  // ------------------------------------------------------------- The scans

  predicate StartsMain(r: Record) {
    r.Started? && r.lane == MAIN
  }

  // The first main operation started at i.
  predicate MainAt(records: seq<Record>, i: int) {
    && 0 <= i < |records| && records[i].Started? && records[i].lane == "main"
    && forall k | 0 <= k < i :: !(records[k].Started? && records[k].lane == "main")
  }

  function FirstMain(records: seq<Record>): Option<string> {
    if records == [] then None
    else if StartsMain(records[0]) then Some(records[0].id)
    else FirstMain(records[1..])
  }

  // It is the id of the first main operation,
  lemma {:induction false} FirstMainIs(records: seq<Record>, i: nat)
    requires MainAt(records, i)
    ensures FirstMain(records) == Some(records[i].id)
  {
    if i > 0 {
      assert records[1..][i - 1] == records[i];
      assert forall k | 0 <= k < i - 1 :: records[1..][k] == records[k + 1];
      FirstMainIs(records[1..], i - 1);
    }
  }

  // if there is one.
  lemma {:induction false} FirstMainAt(records: seq<Record>) returns (i: nat)
    requires FirstMain(records).Some?
    ensures MainAt(records, i)
  {
    if StartsMain(records[0]) {
      i := 0;
    } else {
      var j := FirstMainAt(records[1..]);
      i := j + 1;
      assert forall k | 0 < k < i :: records[k] == records[1..][k - 1];
    }
  }

  predicate Ends(r: Record, id: string) {
    (r.Finished? || r.AbortRequested?) && r.run == Some(id)
  }

  predicate Reports(r: Record, id: string, before: nat) {
    r.FactSet? && r.run == Some(id) && r.lane == MAIN && r.key == RESULT_KEY && r.seqno < before
  }

  function LastEnding(records: seq<Record>, id: string): (r: Option<nat>)
    ensures r.Some? ==> r.value < |records| && Ends(records[r.value], id)
    ensures r.Some? ==> forall i | r.value < i < |records| :: !Ends(records[i], id)
    ensures r.None? ==> forall i | 0 <= i < |records| :: !Ends(records[i], id)
  {
    if records == [] then None
    else if Ends(records[|records| - 1], id) then Some(|records| - 1)
    else LastEnding(records[..|records| - 1], id)
  }

  function LastReport(records: seq<Record>, id: string, before: nat): (r: Option<nat>)
    ensures r.Some? ==> r.value < |records| && Reports(records[r.value], id, before)
    ensures r.Some? ==> forall i | r.value < i < |records| :: !Reports(records[i], id, before)
    ensures r.None? ==> forall i | 0 <= i < |records| :: !Reports(records[i], id, before)
  {
    if records == [] then None
    else if Reports(records[|records| - 1], id, before) then Some(|records| - 1)
    else LastReport(records[..|records| - 1], id, before)
  }

  predicate ChatFact(r: Record, key: string) {
    r.FactSet? && r.run.None? && r.key == key
  }

  predicate LastFactAt(records: seq<Record>, key: string, i: int) {
    && 0 <= i < |records| && ChatFact(records[i], key)
    && forall k | i < k < |records| :: !ChatFact(records[k], key)
  }

  // The latest value of a fact that belongs to the chat rather than a run.
  function Fact(records: seq<Record>, key: string): Option<string> {
    if records == [] then None
    else if ChatFact(records[|records| - 1], key) then Some(records[|records| - 1].value)
    else Fact(records[..|records| - 1], key)
  }

  lemma {:induction false} FactIs(records: seq<Record>, key: string, i: nat)
    requires LastFactAt(records, key, i)
    ensures Fact(records, key) == Some(records[i].value)
  {
    var n := |records| - 1;
    if i < n {
      assert LastFactAt(records[..n], key, i);
      FactIs(records[..n], key, i);
    }
  }

  lemma {:induction false} FactAt(records: seq<Record>, key: string) returns (i: nat)
    requires Fact(records, key).Some?
    ensures LastFactAt(records, key, i)
  {
    var n := |records| - 1;
    if ChatFact(records[n], key) {
      i := n;
    } else {
      i := FactAt(records[..n], key);
      assert forall k | i < k < n :: records[k] == records[..n][k];
    }
  }

  // The chat's latest contract asks for a reported result.
  ghost predicate Contracted(records: seq<Record>) {
    exists i :: LastFactAt(records, CONTRACT_KEY, i) && records[i].value == "1"
  }

  lemma ContractIsFact(records: seq<Record>)
    ensures Contracted(records) <==> Fact(records, CONTRACT_KEY) == Some(CONTRACT)
  {
    if Contracted(records) {
      var i :| LastFactAt(records, CONTRACT_KEY, i) && records[i].value == "1";
      FactIs(records, CONTRACT_KEY, i);
    } else if Fact(records, CONTRACT_KEY).Some? {
      var i := FactAt(records, CONTRACT_KEY);
      FactIs(records, CONTRACT_KEY, i);
    }
  }

  function Judged(c: Codec, value: Option<string>): Verdict {
    var result := match value case Some(v) => c.decode(v) case None => None;
    match result
    case Some(TaskResult(status, summary)) =>
      if !Acceptable(summary) then Verdict(Failed, Some(Unreported))
      else if status.TaskSucceeded? then Verdict(Succeeded, None)
      else Verdict(Failed, Some(Text(summary)))
    case None => Verdict(Failed, Some(Unreported))
  }

  function Ending(c: Codec, records: seq<Record>, id: string, end: Record): Verdict
    requires Ends(end, id)
  {
    if end.AbortRequested? then Verdict(Cancelled, None)
    else
      var note := match end.error case Some(text) => Some(Text(text)) case None => None;
      match end.outcome
      case Aborted => Verdict(Cancelled, note)
      case Broken => Verdict(Failed, note)
      case Declined => Verdict(Failed, note)
      case Completed =>
        if Fact(records, CONTRACT_KEY) != Some(CONTRACT) then Verdict(Succeeded, note)
        else
          match LastReport(records, id, end.seqno)
          case Some(i) => Judged(c, Some(records[i].value))
          case None => Judged(c, None)
  }

  function DurableResult(c: Codec, records: seq<Record>): Option<Verdict> {
    match FirstMain(records)
    case None => None
    case Some(id) =>
      match LastEnding(records, id)
      case None => None
      case Some(i) => Some(Ending(c, records, id, records[i]))
  }

  // ------------------------------------------------------------- Reporting

  datatype Refusal = Unreadable | EmptyOrLong | NoOperation | NotTheOriginal | NotStored

  predicate MayReport(records: seq<Record>, id: string) {
    && Fact(records, CONTRACT_KEY) == Some(CONTRACT) && FirstMain(records) == Some(id)
    && forall r | r in records :: !(r.Finished? && r.run == Some(id))
  }

  function ResultFact(seqno: nat, id: string, value: string): Record {
    FactSet(seqno, Some(id), MAIN, RESULT_KEY, value)
  }

  // The records of a chat and the highest sequence number given out, to records
  // and chat entries alike.
  datatype Log = Log(records: seq<Record>, maxSeq: nat)

  // One use of the reporting tool: its arguments, the operation it is used in,
  // and whether the append succeeds.
  datatype Call = Call(arguments: string, run: Option<string>, stored: bool)

  predicate Accepted(c: Codec, records: seq<Record>, call: Call) {
    && c.decode(call.arguments).Some? && Acceptable(c.decode(call.arguments).value.summary)
    && call.run.Some? && MayReport(records, call.run.value) && call.stored
  }

  function Reported(c: Codec, log: Log, call: Call): Log {
    if Accepted(c, log.records, call)
    then Log(log.records + [ResultFact(log.maxSeq + 1, call.run.value, c.encode(c.decode(call.arguments).value))],
             log.maxSeq + 1)
    else log
  }

  ghost predicate Ordered(records: seq<Record>) {
    forall i, j | 0 <= i < j < |records| :: records[i].seqno < records[j].seqno
  }

  class Journal {
    var records: seq<Record>
    var maxSeq: nat

    function View(): Log
      reads this
    {
      Log(records, maxSeq)
    }

    ghost predicate Valid()
      reads this
    {
      Ordered(records) && forall i | 0 <= i < |records| :: records[i].seqno <= maxSeq
    }

    constructor ()
      ensures Valid() && records == []
    {
      records, maxSeq := [], 0;
    }

    method Report(c: Codec, arguments: string, run: Option<string>, stored: bool) returns (r: Result<(), Refusal>)
      requires Valid()
      modifies this
      ensures Valid()
      ensures r.Ok? <==> Accepted(c, old(records), Call(arguments, run, stored))
      ensures View() == Reported(c, old(View()), Call(arguments, run, stored))
      ensures r == Err(Unreadable) <==> c.decode(arguments).None?
      ensures r == Err(EmptyOrLong) <==> c.decode(arguments).Some? && !Acceptable(c.decode(arguments).value.summary)
    {
      var decoded := c.decode(arguments);
      if decoded.None? {
        return Err(Unreadable);
      }
      var result := decoded.value;
      var blank := true;
      for i := 0 to |result.summary|
        invariant blank <==> forall k | 0 <= k < i :: WhiteSpace(result.summary[k])
      {
        blank := blank && WhiteSpace(result.summary[i]);
      }
      if blank || |result.summary| > MAX_SUMMARY {
        return Err(EmptyOrLong);
      }
      if run.None? {
        return Err(NoOperation);
      }
      var id := run.value;
      var finished := false;
      for i := 0 to |records|
        invariant finished <==> exists k | 0 <= k < i :: records[k].Finished? && records[k].run == run
      {
        finished := finished || (records[i].Finished? && records[i].run == run);
      }
      if Fact(records, CONTRACT_KEY) != Some(CONTRACT) || FirstMain(records) != run || finished {
        return Err(NotTheOriginal);
      }
      if !stored {
        return Err(NotStored);
      }
      maxSeq := maxSeq + 1;
      records := records + [ResultFact(maxSeq, id, c.encode(result))];
      r := Ok(());
    }
  }

  // ---------------------------------------------------------- Main results

  lemma LastEndingIs(records: seq<Record>, id: string, i: nat)
    requires i < |records| && Ends(records[i], id) && forall k | i < k < |records| :: !Ends(records[k], id)
    ensures LastEnding(records, id) == Some(i)
  {
  }

  lemma LastReportIs(records: seq<Record>, id: string, before: nat, i: nat)
    requires i < |records| && Reports(records[i], id, before)
    requires forall k | i < k < |records| :: !Reports(records[k], id, before)
    ensures LastReport(records, id, before) == Some(i)
  {
  }

  lemma LateReportsDoNotCount(records: seq<Record>, more: seq<Record>, id: string, i: nat)
    requires Ordered(records + more) && i < |records|
    ensures LastReport(records + more, id, records[i].seqno) == LastReport(records, id, records[i].seqno)
  {
    var all, before := records + more, records[i].seqno;
    assert all[i] == records[i];
    assert forall k | |records| <= k < |all| :: all[i].seqno < all[k].seqno;
    match LastReport(records, id, before) {
      case Some(k) => LastReportIs(all, id, before, k);
      case None => assert forall k | 0 <= k < |records| :: all[k] == records[k];
    }
  }

  // An operation ends by finishing, or by the request to abort it.
  predicate EndAt(records: seq<Record>, id: string, i: int) {
    0 <= i < |records| && match records[i]
                          case Finished(_, run, _, _) => run == Some(id)
                          case AbortRequested(_, run) => run == Some(id)
                          case _ => false
  }

  ghost predicate Ended(records: seq<Record>, id: string) {
    exists i :: EndAt(records, id, i)
  }

  predicate LastEndingAt(records: seq<Record>, id: string, i: int) {
    EndAt(records, id, i) && forall k | i < k < |records| :: !EndAt(records, id, k)
  }

  // There is a verdict exactly when a main operation has started and the first
  // one has ended.
  lemma NoVerdictExactlyWhileOpen(c: Codec, records: seq<Record>)
    ensures DurableResult(c, records).Some? <==> exists i :: MainAt(records, i) && Ended(records, records[i].id)
  {
    forall i | MainAt(records, i) ensures FirstMain(records) == Some(records[i].id) {
      FirstMainIs(records, i);
    }
    if FirstMain(records).Some? {
      var i := FirstMainAt(records);
      forall k | 0 <= k < |records| ensures EndAt(records, records[i].id, k) <==> Ends(records[k], records[i].id) {
      }
    }
  }

  // What an ending says: an abort request or an aborted run is cancelled, a
  // broken or declined one has failed, with the error it recorded; success takes
  // a completed run, and without the contract that is enough.
  ghost predicate Follows(records: seq<Record>, end: Record, v: Verdict)
    requires end.Finished? || end.AbortRequested?
  {
    var asked := Contracted(records);
    && (v.status.Cancelled? <==> end.AbortRequested? || end.outcome.Aborted?)
    && (end.AbortRequested? ==> v.note.None?)
    && (end.Finished? && (end.outcome.Broken? || end.outcome.Declined?) ==> v.status.Failed?)
    && (v.status.Succeeded? ==> end.Finished? && end.outcome.Completed?)
    && (end.Finished? && end.outcome.Completed? && !asked ==> v.status.Succeeded?)
    && (end.Finished? && !(end.outcome.Completed? && asked) ==>
          v.note == match end.error case Some(text) => Some(Text(text)) case None => None)
  }

  lemma EndingFollows(c: Codec, records: seq<Record>, id: string, end: Record)
    requires Ends(end, id)
    ensures Follows(records, end, Ending(c, records, id, end))
  {
    ContractIsFact(records);
  }

  // The last ending of the first main operation decides the verdict.
  lemma VerdictFollowsTheLastEnding(c: Codec, records: seq<Record>, main: nat, i: nat)
    requires MainAt(records, main) && LastEndingAt(records, records[main].id, i)
    ensures DurableResult(c, records).Some? && Follows(records, records[i], DurableResult(c, records).value)
  {
    ResultIsEnding(c, records, main, i);
    EndingFollows(c, records, records[main].id, records[i]);
  }

  lemma ResultIsEnding(c: Codec, records: seq<Record>, main: nat, i: nat)
    requires MainAt(records, main) && LastEndingAt(records, records[main].id, i)
    ensures DurableResult(c, records) == Some(Ending(c, records, records[main].id, records[i]))
  {
    FirstMainIs(records, main);
    forall k | i < k < |records| ensures !Ends(records[k], records[main].id) {
      assert !EndAt(records, records[main].id, k);
    }
    LastEndingIs(records, records[main].id, i);
  }

  lemma MainStays(records: seq<Record>, more: seq<Record>, main: nat)
    requires MainAt(records, main)
    ensures MainAt(records + more, main) && (records + more)[main] == records[main]
  {
  }

  // Once there is a verdict, no further record changes it, except an ending of
  // the same operation or a change of the contract.
  lemma VerdictIsStable(c: Codec, records: seq<Record>, more: seq<Record>, main: nat)
    requires Ordered(records + more) && MainAt(records, main) && Ended(records, records[main].id)
    requires forall r | r in more :: !Ends(r, records[main].id)
    requires Contracted(records + more) <==> Contracted(records)
    ensures DurableResult(c, records).Some? && DurableResult(c, records + more) == DurableResult(c, records)
  {
    var id := records[main].id;
    var i := LastEnding(records, id).value;
    MainStays(records, more, main);
    assert forall k | |records| <= k < |records + more| :: (records + more)[k] in more;
    ResultIsEnding(c, records, main, i);
    ResultIsEnding(c, records + more, main, i);
    LateReportsDoNotCount(records, more, id, i);
    ContractIsFact(records);
    ContractIsFact(records + more);
    ReportStays(records, more, id, records[i].seqno);
  }

  lemma ReportStays(records: seq<Record>, more: seq<Record>, id: string, before: nat)
    requires LastReport(records + more, id, before) == LastReport(records, id, before)
    ensures LastReport(records, id, before).Some? ==>
              var k := LastReport(records, id, before).value; (records + more)[k] == records[k]
  {
  }

  // Under the contract a completed run succeeded exactly when the last result
  // it reported before finishing is an acceptable success.
  lemma SuccessIsReported(c: Codec, records: seq<Record>, main: nat, end: nat)
    requires CompletedAt(records, main, end)
    ensures DurableResult(c, records).Some?
    ensures DurableResult(c, records).value.status.Succeeded?
            <==> exists i :: IsLastReport(records, records[main].id, records[end].seqno, i) && Succeeds(c, records[i])
  {
    CompletedVerdict(c, records, main, end);
    var id := records[main].id;
    match LastReport(records, id, records[end].seqno) {
      case Some(i) =>
        assert IsLastReport(records, id, records[end].seqno, i);
        assert forall k | IsLastReport(records, id, records[end].seqno, k) :: k == i;
      case None =>
    }
  }

  // The first main operation, started at `main`, asks for a result and last
  // ended, completed, at `end`.
  ghost predicate CompletedAt(records: seq<Record>, main: int, end: int) {
    && MainAt(records, main) && Contracted(records)
    && LastEndingAt(records, records[main].id, end)
    && records[end].Finished? && records[end].outcome.Completed?
  }

  lemma CompletedVerdict(c: Codec, records: seq<Record>, main: nat, end: nat)
    requires CompletedAt(records, main, end)
    ensures var last := LastReport(records, records[main].id, records[end].seqno);
            DurableResult(c, records)
            == Some(match last case Some(i) => Judged(c, Some(records[i].value)) case None => Judged(c, None))
  {
    ResultIsEnding(c, records, main, end);
    ContractIsFact(records);
  }

  // A result of the operation, reported before it ended.
  predicate ReportAt(records: seq<Record>, id: string, before: nat, i: int) {
    && 0 <= i < |records| && records[i].FactSet? && records[i].key == "automation_task_result"
    && records[i].run == Some(id) && records[i].lane == "main" && records[i].seqno < before
  }

  predicate IsLastReport(records: seq<Record>, id: string, before: nat, i: int) {
    ReportAt(records, id, before, i) && forall k | i < k < |records| :: !ReportAt(records, id, before, k)
  }

  predicate Succeeds(c: Codec, r: Record)
    requires r.FactSet?
  {
    c.decode(r.value).Some? && c.decode(r.value).value.status.TaskSucceeded?
    && Acceptable(c.decode(r.value).value.summary)
  }

  // The journal after one more report, what came between, and the completion.
  function Concluded(c: Codec, records: seq<Record>, id: string, result: TaskResult,
                     between: seq<Record>, seqno: nat, end: nat): seq<Record> {
    records + [ResultFact(seqno, id, c.encode(result))] + between + [Finished(end, Some(id), Completed, None)]
  }

  // From report to verdict: if the run reports once more, then completes, and
  // reports nothing between, the verdict is what that report said.
  lemma LastReportDecides(c: Codec, records: seq<Record>, main: nat, result: TaskResult,
                          between: seq<Record>, seqno: nat, end: nat)
    requires c.Sound() && MainAt(records, main) && Acceptable(result.summary)
    requires var all := Concluded(c, records, records[main].id, result, between, seqno, end);
             Ordered(all) && Contracted(all)
    requires forall r | r in between :: !Ends(r, records[main].id) && !Reports(r, records[main].id, end)
    ensures DurableResult(c, Concluded(c, records, records[main].id, result, between, seqno, end))
            == Some(if result.status.TaskSucceeded? then Verdict(Succeeded, None)
                    else Verdict(Failed, Some(Text(result.summary))))
  {
    var id := records[main].id;
    var report, last := ResultFact(seqno, id, c.encode(result)), Finished(end, Some(id), Completed, None);
    var all := Concluded(c, records, id, result, between, seqno, end);
    assert all == records + ([report] + between + [last]);
    MainStays(records, [report] + between + [last], main);
    assert all[|records|] == report && all[|all| - 1] == last;
    assert all[|records|].seqno < all[|all| - 1].seqno;
    forall k | |records| < k < |all| - 1 ensures !Reports(all[k], id, end) {
      assert all[k] == between[k - |records| - 1];
    }
    VerdictAt(c, all, main, |records|, result);
  }

  lemma VerdictAt(c: Codec, all: seq<Record>, main: nat, i: nat, result: TaskResult)
    requires CompletedAt(all, main, |all| - 1)
    requires IsLastReport(all, all[main].id, all[|all| - 1].seqno, i)
    requires c.decode(all[i].value) == Some(result) && Acceptable(result.summary)
    ensures DurableResult(c, all)
            == Some(if result.status.TaskSucceeded? then Verdict(Succeeded, None)
                    else Verdict(Failed, Some(Text(result.summary))))
  {
    CompletedVerdict(c, all, main, |all| - 1);
    forall k | i < k < |all| ensures !Reports(all[k], all[main].id, all[|all| - 1].seqno) {
      assert !ReportAt(all, all[main].id, all[|all| - 1].seqno, k);
    }
    LastReportIs(all, all[main].id, all[|all| - 1].seqno, i);
  }

  // A use of the tool is accepted exactly when it reads as an acceptable result,
  // is made in the first main operation while that has not finished, under the
  // contract, and can be stored.
  lemma AcceptedExactly(c: Codec, records: seq<Record>, call: Call)
    ensures Accepted(c, records, call) <==>
              && c.decode(call.arguments).Some? && call.stored
              && (var summary := c.decode(call.arguments).value.summary;
                  (exists x :: x in summary && !WhiteSpace(x)) && |summary| <= 4000)
              && Contracted(records)
              && exists i :: MainAt(records, i) && call.run == Some(records[i].id)
                             && forall r | r in records :: r.Finished? ==> r.run != call.run
  {
    ContractIsFact(records);
    forall i | MainAt(records, i) ensures FirstMain(records) == Some(records[i].id) {
      FirstMainIs(records, i);
    }
    if FirstMain(records).Some? {
      var i := FirstMainAt(records);
    }
  }

  // ---------------------------------------------------------- Whole histories

  predicate IsResult(r: Record) {
    r.FactSet? && r.run.Some? && r.lane == MAIN && r.key == RESULT_KEY
  }

  predicate Readable(c: Codec, r: Record)
    requires r.FactSet?
  {
    c.decode(r.value).Some? && Acceptable(c.decode(r.value).value.summary)
  }

  // A chat's journal grows by uses of the tool and by other records; only the
  // tool writes task results.
  datatype Step = Tool(call: Call) | Write(record: Record)

  ghost predicate Grows(c: Codec, log: Log, step: Step, next: Log) {
    match step
    case Tool(call) => next == Reported(c, log, call)
    case Write(record) =>
      !IsResult(record) && record.seqno > log.maxSeq && next == Log(log.records + [record], record.seqno)
  }

  ghost predicate Continues(c: Codec, log: Log, next: Log) {
    exists step :: Grows(c, log, step, next)
  }

  ghost predicate ContinuesAt(c: Codec, logs: seq<Log>, k: nat)
    requires k < |logs| - 1
  {
    Continues(c, logs[k], logs[k + 1])
  }

  ghost predicate History(c: Codec, logs: seq<Log>) {
    && logs != []
    && logs[0] == Log([], 0)
    && forall k | 0 <= k < |logs| - 1 :: ContinuesAt(c, logs, k)
  }

  // No result of an operation stands after the record that finished it.
  ghost predicate NoneAfter(records: seq<Record>) {
    forall i, j | 0 <= i < j < |records| :: FinishesBefore(records[i], records[j])
  }

  ghost predicate FinishesBefore(a: Record, b: Record) {
    a.Finished? && IsResult(b) ==> a.run != b.run
  }

  ghost predicate LogInv(c: Codec, log: Log) {
    && Ordered(log.records) && (forall r | r in log.records :: r.seqno <= log.maxSeq)
    && (forall r | r in log.records :: IsResult(r) ==> Readable(c, r))
    && NoneAfter(log.records)
  }

  lemma AppendKeeps(c: Codec, log: Log, r: Record)
    requires LogInv(c, log) && r.seqno > log.maxSeq
    requires IsResult(r) ==> Readable(c, r) && forall x | x in log.records :: x.Finished? ==> x.run != r.run
    ensures LogInv(c, Log(log.records + [r], r.seqno))
  {
    var all := log.records + [r];
    forall i, j | 0 <= i < j < |all| ensures FinishesBefore(all[i], all[j]) && all[i].seqno < all[j].seqno {
      assert all[i] == log.records[i] && all[i] in log.records;
      assert j < |log.records| ==> FinishesBefore(log.records[i], log.records[j]);
    }
  }

  lemma GrowthKeeps(c: Codec, log: Log, step: Step, next: Log)
    requires c.Sound() && LogInv(c, log) && Grows(c, log, step, next)
    ensures LogInv(c, next)
  {
    match step {
      case Write(record) => AppendKeeps(c, log, record);
      case Tool(call) =>
        if Accepted(c, log.records, call) {
          AppendKeeps(c, log, next.records[|log.records|]);
        }
    }
  }

  lemma {:induction false} HistoryKeeps(c: Codec, logs: seq<Log>, k: nat)
    requires c.Sound() && History(c, logs) && k < |logs|
    ensures LogInv(c, logs[k])
  {
    if k > 0 {
      HistoryKeeps(c, logs, k - 1);
      LogStep(c, logs, k - 1);
    }
  }

  lemma LogStep(c: Codec, logs: seq<Log>, k: nat)
    requires c.Sound() && History(c, logs) && k < |logs| - 1 && LogInv(c, logs[k])
    ensures LogInv(c, logs[k + 1])
  {
    assert ContinuesAt(c, logs, k);
    var step :| Grows(c, logs[k], step, logs[k + 1]);
    GrowthKeeps(c, logs[k], step, logs[k + 1]);
  }

  predicate ResultOf(r: Record, id: string) {
    IsResult(r) && r.run == Some(id)
  }

  predicate IsLastResult(records: seq<Record>, id: string, i: int) {
    && 0 <= i < |records| && ResultOf(records[i], id)
    && forall j | i < j < |records| :: !ResultOf(records[j], id)
  }

  lemma ResultIsEarly(c: Codec, log: Log, id: string, end: nat, i: nat)
    requires LogInv(c, log) && end < |log.records| && i < |log.records|
    requires log.records[end].Finished? && log.records[end].run == Some(id) && ResultOf(log.records[i], id)
    ensures i < end && Readable(c, log.records[i]) && Reports(log.records[i], id, log.records[end].seqno)
  {
    assert log.records[i] in log.records;
    assert end < i ==> FinishesBefore(log.records[end], log.records[i]);
  }

  // The scan for reports before the end finds the last result there is.
  lemma ReportsAreResults(c: Codec, log: Log, id: string, end: nat)
    requires LogInv(c, log) && end < |log.records|
    requires log.records[end].Finished? && log.records[end].run == Some(id)
    ensures var last := LastReport(log.records, id, log.records[end].seqno);
            && (last.None? <==> forall r | r in log.records :: !ResultOf(r, id))
            && (last.Some? ==> Readable(c, log.records[last.value]))
            && forall i | IsLastResult(log.records, id, i) :: last == Some(i)
  {
    var records := log.records;
    var last := LastReport(records, id, records[end].seqno);
    if last.Some? {
      assert ResultOf(records[last.value], id) && records[last.value] in records;
    }
    forall i | 0 <= i < |records| && ResultOf(records[i], id) ensures last.Some? && i <= last.value {
      ResultIsEarly(c, log, id, end, i);
    }
  }

  // Whatever else was written and however often the tool was used: no use of it
  // after the end is recorded, every result that is recorded was made before
  // the end and is readable, the last of them is the verdict, and a completed
  // run counts as unreported exactly when it recorded none.
  lemma EveryRecordedReportCounts(c: Codec, logs: seq<Log>, k: nat, main: nat, end: nat)
    requires c.Sound() && History(c, logs) && k < |logs| && CompletedAt(logs[k].records, main, end)
    ensures var records, verdict := logs[k].records, DurableResult(c, logs[k].records);
            var id := records[main].id;
            && (forall call: Call | call.run == Some(id) :: Reported(c, logs[k], call) == logs[k])
            && (forall i | 0 <= i < |records| && ResultOf(records[i], id) :: i < end && Readable(c, records[i]))
            && verdict.Some?
            && (verdict.value.note == Some(Unreported) <==> forall r | r in records :: !ResultOf(r, id))
            && forall i | IsLastResult(records, id, i) :: verdict == Some(Judged(c, Some(records[i].value)))
  {
    var log, id := logs[k], logs[k].records[main].id;
    HistoryKeeps(c, logs, k);
    forall i | 0 <= i < |log.records| && ResultOf(log.records[i], id)
      ensures i < end && Readable(c, log.records[i])
    {
      ResultIsEarly(c, log, id, end, i);
    }
    ReportsAreResults(c, log, id, end);
    CompletedVerdict(c, log.records, main, end);
    FinishedRefuses(c, log, id, end);
  }

  lemma FinishedRefuses(c: Codec, log: Log, id: string, end: nat)
    requires end < |log.records| && log.records[end].Finished? && log.records[end].run == Some(id)
    ensures forall call: Call | call.run == Some(id) :: Reported(c, log, call) == log
  {
    assert log.records[end] in log.records;
  }
}
