// The connection to an agent: numbered requests matched to their answers as in
// section 5 of JSON-RPC 2.0, and the queue of session updates beside them.
module AcpConnection {
  import opened Outcomes
  import opened AcpTurn

  // What an answer carries: the result or the error of the request.
  type Payload = Result<int, int>

  // A line from the agent. Its own requests and unreadable lines are noise here.
  datatype Line = Update(note: Notification) | Answer(id: nat, payload: Payload) | Noise

  datatype Outcome = Replied(payload: Payload) | Closed | TimedOut | Unsent

  datatype Link = Link(next: nat, waiting: set<nat>, outcomes: map<nat, Outcome>, updates: seq<Notification>)

  const NEW: Link := Link(0, {}, map[], [])

  function Ask(l: Link, sent: bool): Link {
    if sent then l.(next := l.next + 1, waiting := l.waiting + {l.next})
    else l.(next := l.next + 1, outcomes := l.outcomes[l.next := Unsent])
  }

  function Settle(l: Link, id: nat, outcome: Outcome): Link {
    if id in l.waiting then l.(waiting := l.waiting - {id}, outcomes := l.outcomes[id := outcome]) else l
  }

  function Read(l: Link, line: Line): Link {
    match line
    case Update(note) => l.(updates := l.updates + [note])
    case Answer(id, payload) => Settle(l, id, Replied(payload))
    case Noise => l
  }

  function FailAll(outcomes: map<nat, Outcome>, ids: set<nat>): map<nat, Outcome> {
    map id | id in outcomes.Keys + ids :: if id in ids then Closed else outcomes[id]
  }

  function Close(l: Link): Link {
    l.(waiting := {}, outcomes := FailAll(l.outcomes, l.waiting))
  }

  // Every number given out is waiting or has its outcome, never both.
  ghost predicate LinkOk(l: Link) {
    && (forall id | id in l.waiting || id in l.outcomes :: id < l.next)
    && (forall id | 0 <= id < l.next :: id in l.waiting <==> id !in l.outcomes)
  }

  class Connection {
    var next: nat
    var pending: set<nat>
    var outcomes: map<nat, Outcome>
    var updates: seq<Notification>

    ghost function Contents(): Link
      reads this
    {
      Link(next, pending, outcomes, updates)
    }

    constructor ()
      ensures Contents() == NEW
    {
      next, pending, outcomes, updates := 0, {}, map[], [];
    }

    // Insert the waiter first; take it out again if the line cannot be sent.
    method Request(sent: bool) returns (id: nat)
      requires LinkOk(Contents())
      modifies this
      ensures Contents() == Ask(old(Contents()), sent) && LinkOk(Contents()) && id == old(next)
    {
      id := next;
      next := next + 1;
      pending := pending + {id};
      if !sent {
        pending := pending - {id};
        outcomes := outcomes[id := Unsent];
      }
    }

    method OnTimeout(id: nat)
      requires LinkOk(Contents())
      modifies this`pending, this`outcomes
      ensures Contents() == Settle(old(Contents()), id, TimedOut) && LinkOk(Contents())
    {
      if id in pending {
        pending := pending - {id};
        outcomes := outcomes[id := TimedOut];
      }
    }

    // One turn of the read loop.
    method OnLine(line: Line)
      requires LinkOk(Contents())
      modifies this`pending, this`outcomes, this`updates
      ensures Contents() == Read(old(Contents()), line) && LinkOk(Contents())
    {
      match line {
        case Update(note) => updates := updates + [note];
        case Noise =>
        case Answer(id, payload) =>
          if id !in pending {
            return;
          }
          pending := pending - {id};
          outcomes := outcomes[id := Replied(payload)];
      }
    }

    // The agent closed the connection: fail every waiter.
    method OnEnd()
      requires LinkOk(Contents())
      modifies this`pending, this`outcomes
      ensures Contents() == Close(old(Contents())) && LinkOk(Contents())
    {
      ghost var failed: set<nat> := {};
      while pending != {}
        invariant failed + pending == old(pending) && failed !! pending
        invariant outcomes == FailAll(old(outcomes), failed)
        invariant next == old(next) && updates == old(updates)
        decreases pending
      {
        var id :| id in pending;
        pending := pending - {id};
        outcomes := outcomes[id := Closed];
        failed := failed + {id};
      }
      assert failed == old(pending);
    }
  }

  // --------------------------------------------- The read loop and the turns

  // A turn takes updates while its prompt is open; answered, it takes what is
  // queued and ends. A cancelled one leaves its prompt open until the next turn
  // waits for it and throws away what is queued.
  datatype Phase =
    | Idle
    | Collecting(prompt: nat)
    | Draining(prompt: nat)
    | Cancelled(prompt: nat)
    | Discarding(prompt: nat)
    | Ended

  datatype Entry = Kept(prompt: nat, note: Notification) | Dropped(note: Notification)

  // `log` is every line read; `asked` and `answered` are where in it a number
  // was given out and answered; `ledger` is where every update taken off the
  // queue went, and `starts` how many were gone when a turn began.
  datatype World = World(
    link: Link, log: seq<Line>, asked: map<nat, nat>, answered: map<nat, nat>,
    phase: Phase, turn: Turn, ledger: seq<Entry>, starts: map<nat, nat>, done: map<nat, Turn>)

  const BEGIN: World := World(NEW, [], map[], map[], Idle, FRESH, [], map[], map[])

  datatype Action =
    | ReadLine(line: Line)
    | End
    | Request(sent: bool)
    | Timeout(id: nat)
    | Prompt(sent: bool)
    | Take
    | Resolve
    | Finish
    | Cancel
    | AwaitCancelled
    | Discard
    | Cleared

  predicate Enabled(w: World, a: Action) {
    match a
    case Prompt(_) => w.phase.Idle?
    case Take => (w.phase.Collecting? || w.phase.Draining?) && w.link.updates != []
    case Resolve => w.phase.Collecting? && w.phase.prompt in w.link.outcomes
    case Finish => w.phase.Draining? && w.link.updates == [] && w.phase.prompt in w.link.outcomes
    case Cancel => w.phase.Collecting?
    case AwaitCancelled => w.phase.Cancelled? && w.phase.prompt in w.link.outcomes
    case Discard => w.phase.Discarding? && w.link.updates != []
    case Cleared => w.phase.Discarding? && w.link.updates == []
    case Timeout(id) => !(w.phase.Collecting? || w.phase.Draining? || w.phase.Cancelled?) || id != w.phase.prompt
    case _ => true
  }

  function Act(w: World, session: string, a: Action): World
    requires Enabled(w, a)
  {
    match a
    case ReadLine(line) =>
      w.(link := Read(w.link, line), log := w.log + [line],
         answered := if line.Answer? && line.id in w.link.waiting then w.answered[line.id := |w.log|] else w.answered)
    case End => w.(link := Close(w.link))
    case Request(sent) => w.(link := Ask(w.link, sent), asked := w.asked[w.link.next := |w.log|])
    case Timeout(id) => w.(link := Settle(w.link, id, TimedOut))
    case Prompt(sent) =>
      w.(link := Ask(w.link, sent), asked := w.asked[w.link.next := |w.log|],
         phase := Collecting(w.link.next), turn := FRESH, starts := w.starts[w.link.next := |w.ledger|])
    case Take =>
      var note := w.link.updates[0];
      w.(link := w.link.(updates := w.link.updates[1..]), turn := AbsorbAll(w.turn, EventsOf(session, [note])),
         ledger := w.ledger + [Kept(w.phase.prompt, note)])
    case Resolve => w.(phase := Draining(w.phase.prompt))
    case Finish =>
      w.(done := w.done[w.phase.prompt := w.turn],
         phase := if w.link.outcomes[w.phase.prompt].Replied? && w.link.outcomes[w.phase.prompt].payload.Ok? then Idle
                  else Ended)
    case Cancel => w.(phase := Cancelled(w.phase.prompt))
    case AwaitCancelled => w.(phase := Discarding(w.phase.prompt))
    case Discard =>
      w.(link := w.link.(updates := w.link.updates[1..]), ledger := w.ledger + [Dropped(w.link.updates[0])])
    case Cleared => w.(phase := Idle)
  }

  ghost predicate Steps(w: World, session: string, next: World) {
    exists a :: Enabled(w, a) && next == Act(w, session, a)
  }

  ghost predicate Behaviour(run: seq<World>, session: string) {
    && run != []
    && run[0] == BEGIN
    && forall k | 0 <= k < |run| - 1 :: StepsAt(run, session, k)
  }

  ghost predicate StepsAt(run: seq<World>, session: string, k: nat)
    requires k < |run| - 1
  {
    Steps(run[k], session, run[k + 1])
  }

  function Updates(log: seq<Line>): seq<Notification> {
    if log == [] then []
    else
      var last := log[|log| - 1];
      if last.Update? then Updates(log[..|log| - 1]) + [last.note] else Updates(log[..|log| - 1])
  }

  function Notes(ledger: seq<Entry>): seq<Notification> {
    seq(|ledger|, i requires 0 <= i < |ledger| => ledger[i].note)
  }

  // --------------------------------------------- Requests are answered once

  predicate IsAnswer(line: Line, id: nat) {
    line.Answer? && line.id == id
  }

  ghost predicate NoAnswer(log: seq<Line>, id: nat, from: nat, to: nat) {
    forall i | from <= i < to && i < |log| :: !IsAnswer(log[i], id)
  }

  // A waiting number has not been answered since it was given out; a replied
  // one has the payload of the first line that answered it.
  ghost predicate RequestOk(l: Link, log: seq<Line>, asked: map<nat, nat>, answered: map<nat, nat>, id: nat) {
    && id in asked && asked[id] <= |log|
    && (id in l.waiting ==> NoAnswer(log, id, asked[id], |log|))
    && (id in answered ==>
          && asked[id] <= answered[id] < |log|
          && IsAnswer(log[answered[id]], id) && NoAnswer(log, id, asked[id], answered[id])
          && id in l.outcomes && l.outcomes[id] == Replied(log[answered[id]].payload))
    && (id in l.outcomes && l.outcomes[id].Replied? ==> id in answered)
  }

  ghost predicate RequestInv(l: Link, log: seq<Line>, asked: map<nat, nat>, answered: map<nat, nat>) {
    && LinkOk(l)
    && (forall id | id in answered || id in asked :: id < l.next)
    && (forall id | 0 <= id < l.next :: RequestOk(l, log, asked, answered, id))
  }

  lemma AskKeepsRequests(l: Link, log: seq<Line>, asked: map<nat, nat>, answered: map<nat, nat>, sent: bool)
    requires RequestInv(l, log, asked, answered)
    ensures RequestInv(Ask(l, sent), log, asked[l.next := |log|], answered)
  {
    var l', asked' := Ask(l, sent), asked[l.next := |log|];
    forall id | 0 <= id < l'.next ensures RequestOk(l', log, asked', answered, id) {
      if id < l.next {
        assert RequestOk(l, log, asked, answered, id);
      }
    }
  }

  lemma ReadKeepsRequests(l: Link, log: seq<Line>, asked: map<nat, nat>, answered: map<nat, nat>, line: Line)
    requires RequestInv(l, log, asked, answered)
    ensures RequestInv(Read(l, line), log + [line], asked,
                       if line.Answer? && line.id in l.waiting then answered[line.id := |log|] else answered)
  {
    var answered' := if line.Answer? && line.id in l.waiting then answered[line.id := |log|] else answered;
    forall id | 0 <= id < l.next ensures RequestOk(Read(l, line), log + [line], asked, answered', id) {
      assert RequestOk(l, log, asked, answered, id);
    }
  }

  lemma SettleKeepsRequests(l: Link, log: seq<Line>, asked: map<nat, nat>, answered: map<nat, nat>,
                            id: nat, outcome: Outcome)
    requires RequestInv(l, log, asked, answered) && !outcome.Replied?
    ensures RequestInv(Settle(l, id, outcome), log, asked, answered)
  {
    forall x | 0 <= x < l.next ensures RequestOk(Settle(l, id, outcome), log, asked, answered, x) {
      assert RequestOk(l, log, asked, answered, x);
    }
  }

  lemma CloseKeepsRequests(l: Link, log: seq<Line>, asked: map<nat, nat>, answered: map<nat, nat>)
    requires RequestInv(l, log, asked, answered)
    ensures RequestInv(Close(l), log, asked, answered)
  {
    forall x | 0 <= x < l.next ensures RequestOk(Close(l), log, asked, answered, x) {
      assert RequestOk(l, log, asked, answered, x);
    }
  }

  lemma UpdatesKeepRequests(l: Link, log: seq<Line>, asked: map<nat, nat>, answered: map<nat, nat>,
                            updates: seq<Notification>)
    requires RequestInv(l, log, asked, answered)
    ensures RequestInv(l.(updates := updates), log, asked, answered)
  {
    forall x | 0 <= x < l.next ensures RequestOk(l.(updates := updates), log, asked, answered, x) {
      assert RequestOk(l, log, asked, answered, x);
    }
  }

  lemma ActKeepsRequests(w: World, session: string, a: Action)
    requires Enabled(w, a) && RequestInv(w.link, w.log, w.asked, w.answered)
    ensures var next := Act(w, session, a); RequestInv(next.link, next.log, next.asked, next.answered)
  {
    match a {
      case ReadLine(line) => ReadKeepsRequests(w.link, w.log, w.asked, w.answered, line);
      case End => CloseKeepsRequests(w.link, w.log, w.asked, w.answered);
      case Request(sent) => AskKeepsRequests(w.link, w.log, w.asked, w.answered, sent);
      case Prompt(sent) => AskKeepsRequests(w.link, w.log, w.asked, w.answered, sent);
      case Timeout(id) => SettleKeepsRequests(w.link, w.log, w.asked, w.answered, id, TimedOut);
      case Take => UpdatesKeepRequests(w.link, w.log, w.asked, w.answered, w.link.updates[1..]);
      case Discard => UpdatesKeepRequests(w.link, w.log, w.asked, w.answered, w.link.updates[1..]);
      case _ =>
    }
  }

  // An outcome, once there, stays.
  lemma OutcomesStay(w: World, session: string, a: Action, id: nat)
    requires Enabled(w, a) && LinkOk(w.link) && id in w.link.outcomes
    ensures id in Act(w, session, a).link.outcomes && Act(w, session, a).link.outcomes[id] == w.link.outcomes[id]
    ensures w.link.next <= Act(w, session, a).link.next
  {
  }

  // ------------------------------------------- Every update goes to one place

  // Everything read is still queued or has gone to one place, in order.
  ghost predicate LedgerInv(l: Link, log: seq<Line>, ledger: seq<Entry>) {
    Notes(ledger) + l.updates == Updates(log)
  }

  lemma TakeKeepsLedger(l: Link, log: seq<Line>, ledger: seq<Entry>, e: Entry)
    requires LedgerInv(l, log, ledger) && l.updates != [] && e.note == l.updates[0]
    ensures LedgerInv(l.(updates := l.updates[1..]), log, ledger + [e])
    ensures Notes(ledger + [e]) == Notes(ledger) + [e.note]
  {
    assert Notes(ledger + [e]) == Notes(ledger) + [e.note];
    assert [l.updates[0]] + l.updates[1..] == l.updates;
    assert Notes(ledger) + [e.note] + l.updates[1..] == Notes(ledger) + ([e.note] + l.updates[1..]);
  }

  lemma ActKeepsLedger(w: World, session: string, a: Action)
    requires Enabled(w, a) && LedgerInv(w.link, w.log, w.ledger)
    ensures var next := Act(w, session, a); LedgerInv(next.link, next.log, next.ledger)
  {
    match a {
      case ReadLine(line) =>
        assert (w.log + [line])[..|w.log|] == w.log;
        if line.Update? {
          assert Notes(w.ledger) + (w.link.updates + [line.note]) == Notes(w.ledger) + w.link.updates + [line.note];
        }
      case Take => TakeKeepsLedger(w.link, w.log, w.ledger, Kept(w.phase.prompt, w.link.updates[0]));
      case Discard => TakeKeepsLedger(w.link, w.log, w.ledger, Dropped(w.link.updates[0]));
      case _ =>
    }
  }

  // ------------------------------------------------------ What a turn collects

  predicate Prompting(phase: Phase) {
    phase.Collecting? || phase.Draining? || phase.Cancelled? || phase.Discarding?
  }

  ghost predicate Owns(w: World, p: nat) {
    && p in w.starts && w.starts[p] <= |w.ledger|
    && forall i | w.starts[p] <= i < |w.ledger| :: w.ledger[i].Kept? && w.ledger[i].prompt == p
  }

  // The running turn is the fold of everything taken since it began.
  ghost predicate TurnInv(w: World, session: string) {
    && (w.phase.Collecting? || w.phase.Draining? || w.phase.Cancelled? ==> Owns(w, w.phase.prompt))
    && (w.phase.Collecting? || w.phase.Draining? ==>
          w.turn == Collected(session, Notes(w.ledger)[w.starts[w.phase.prompt]..]))
    && (w.phase.Draining? || w.phase.Discarding? ==> w.phase.prompt in w.link.outcomes)
  }

  // What a turn keeps it took after it began.
  ghost predicate KeptInv(w: World) {
    && (forall p | p in w.starts :: p < w.link.next && w.starts[p] <= |w.ledger|)
    && (forall i | 0 <= i < |w.ledger| && w.ledger[i].Kept? ::
          w.ledger[i].prompt in w.starts && w.starts[w.ledger[i].prompt] <= i)
  }

  lemma CollectedMore(session: string, notes: seq<Notification>, note: Notification)
    ensures Collected(session, notes + [note]) == AbsorbAll(Collected(session, notes), EventsOf(session, [note]))
  {
    EventsJoin(session, notes, [note]);
    AbsorbJoins(FRESH, EventsOf(session, notes), EventsOf(session, [note]));
  }

  lemma TakeKeepsTurn(w: World, session: string)
    requires Enabled(w, Take) && TurnInv(w, session) && LedgerInv(w.link, w.log, w.ledger)
    ensures TurnInv(Act(w, session, Take), session)
  {
    var p := w.phase.prompt;
    var note := w.link.updates[0];
    TakeKeepsLedger(w.link, w.log, w.ledger, Kept(p, note));
    assert (Notes(w.ledger) + [note])[w.starts[p]..] == Notes(w.ledger)[w.starts[p]..] + [note];
    CollectedMore(session, Notes(w.ledger)[w.starts[p]..], note);
  }

  lemma ActKeepsTurn(w: World, session: string, a: Action)
    requires Enabled(w, a) && TurnInv(w, session) && LedgerInv(w.link, w.log, w.ledger) && LinkOk(w.link)
    ensures TurnInv(Act(w, session, a), session)
  {
    if w.phase.Draining? || w.phase.Discarding? {
      OutcomesStay(w, session, a, w.phase.prompt);
    }
    match a {
      case Take => TakeKeepsTurn(w, session);
      case Prompt(sent) => assert Notes(w.ledger)[|w.ledger|..] == [];
      case _ =>
    }
  }

  lemma ActKeepsKept(w: World, session: string, a: Action)
    requires Enabled(w, a) && KeptInv(w) && TurnInv(w, session)
    ensures KeptInv(Act(w, session, a))
  {
    var next := Act(w, session, a);
    forall i | 0 <= i < |next.ledger| && next.ledger[i].Kept?
      ensures next.ledger[i].prompt in next.starts && next.starts[next.ledger[i].prompt] <= i
    {
      assert i < |w.ledger| ==> next.ledger[i] == w.ledger[i];
      assert i < |w.ledger| ==> w.ledger[i].prompt < w.link.next;
    }
  }

  // ------------------------------------------------------- Turns do not mix

  // The updates read before a prompt's answer.
  function Before(log: seq<Line>, answered: map<nat, nat>, p: nat): nat
    requires p in answered
  {
    if answered[p] <= |log| then |Updates(log[..answered[p]])| else 0
  }

  // A prompt that is over has its outcome, and everything read before its
  // answer has left the queue before a later turn begins.
  ghost predicate OrderInv(w: World) {
    && (forall p | p in w.starts :: Prompting(w.phase) ==> p <= w.phase.prompt)
    && (forall p | p in w.starts && !(Prompting(w.phase) && p == w.phase.prompt) ::
          p in w.link.outcomes)
    && (forall p, q | p in w.starts && q in w.starts && p < q && p in w.answered ::
          Before(w.log, w.answered, p) <= w.starts[q])
    && (w.phase.Idle? ==> forall p | p in w.starts && p in w.answered ::
          Before(w.log, w.answered, p) <= |w.ledger|)
  }

  lemma {:induction false} UpdatesGrow(log: seq<Line>, n: nat)
    requires n <= |log|
    ensures |Updates(log[..n])| <= |Updates(log)|
  {
    if n < |log| {
      UpdatesGrow(log[..|log| - 1], n);
      assert log[..|log| - 1][..n] == log[..n];
    } else {
      assert log[..n] == log;
    }
  }

  lemma EmptyQueueIsBehind(w: World, p: nat)
    requires LedgerInv(w.link, w.log, w.ledger) && w.link.updates == [] && p in w.answered
    ensures Before(w.log, w.answered, p) <= |w.ledger|
  {
    assert |Notes(w.ledger)| == |w.ledger|;
    if w.answered[p] <= |w.log| {
      UpdatesGrow(w.log, w.answered[p]);
    }
  }

  // A turn begins no later in the stream than its prompt is sent.
  ghost predicate StartInv(w: World) {
    forall p | p in w.starts ::
      && p in w.asked && w.asked[p] <= |w.log|
      && w.starts[p] <= |Updates(w.log[..w.asked[p]])|
  }

  ghost predicate WorldInv(w: World, session: string) {
    && RequestInv(w.link, w.log, w.asked, w.answered)
    && LedgerInv(w.link, w.log, w.ledger)
    && TurnInv(w, session) && KeptInv(w) && StartInv(w) && OrderInv(w)
  }

  lemma BeforeStays(w: World, line: Line, p: nat)
    requires RequestInv(w.link, w.log, w.asked, w.answered) && p in w.answered
    ensures Before(w.log + [line], w.answered, p) == Before(w.log, w.answered, p)
  {
    assert RequestOk(w.link, w.log, w.asked, w.answered, p);
    assert (w.log + [line])[..w.answered[p]] == w.log[..w.answered[p]];
  }

  lemma IdleIsBehind(w: World, p: nat)
    requires OrderInv(w) && LedgerInv(w.link, w.log, w.ledger) && p in w.starts && p in w.answered
    requires w.phase.Idle? || w.link.updates == []
    ensures Before(w.log, w.answered, p) <= |w.ledger|
  {
    if !w.phase.Idle? {
      EmptyQueueIsBehind(w, p);
    }
  }

  lemma ReadKeepsOrder(w: World, session: string, line: Line)
    requires WorldInv(w, session)
    ensures OrderInv(Act(w, session, ReadLine(line)))
  {
    var next := Act(w, session, ReadLine(line));
    forall p | p in w.starts && p in w.answered
      ensures Before(next.log, next.answered, p) == Before(w.log, w.answered, p)
    {
      assert RequestOk(w.link, w.log, w.asked, w.answered, p);
      BeforeStays(w, line, p);
    }
    if line.Answer? && line.id in w.link.waiting && line.id in w.starts {
      assert Prompting(w.phase) && line.id == w.phase.prompt;
    }
  }

  lemma PromptKeepsOrder(w: World, session: string, sent: bool)
    requires WorldInv(w, session) && w.phase.Idle?
    ensures OrderInv(Act(w, session, Prompt(sent)))
  {
    var next := Act(w, session, Prompt(sent));
    forall p, q | p in next.starts && q in next.starts && p < q && p in next.answered
      ensures Before(next.log, next.answered, p) <= next.starts[q]
    {
      assert p in w.starts;
      if q == w.link.next {
        IdleIsBehind(w, p);
      }
    }
  }

  lemma DoneKeepsOrder(w: World, session: string, a: Action)
    requires WorldInv(w, session) && Enabled(w, a) && (a.Finish? || a.Cleared?)
    ensures OrderInv(Act(w, session, a))
  {
    var next := Act(w, session, a);
    if next.phase.Idle? {
      forall p | p in next.starts && p in next.answered
        ensures Before(next.log, next.answered, p) <= |next.ledger|
      {
        IdleIsBehind(w, p);
      }
    }
  }

  lemma ActKeepsWorld(w: World, session: string, a: Action)
    requires Enabled(w, a) && WorldInv(w, session)
    ensures WorldInv(Act(w, session, a), session)
  {
    ActKeepsRequests(w, session, a);
    ActKeepsLedger(w, session, a);
    ActKeepsTurn(w, session, a);
    ActKeepsKept(w, session, a);
    ActKeepsStart(w, session, a);
    ActKeepsOrder(w, session, a);
  }

  lemma ActKeepsStart(w: World, session: string, a: Action)
    requires Enabled(w, a) && StartInv(w) && KeptInv(w) && LedgerInv(w.link, w.log, w.ledger)
    ensures StartInv(Act(w, session, a))
  {
    var next := Act(w, session, a);
    assert |Notes(w.ledger)| == |w.ledger| && w.log[..|w.log|] == w.log;
    forall p | p in next.starts
      ensures p in next.asked && next.asked[p] <= |next.log|
      ensures next.starts[p] <= |Updates(next.log[..next.asked[p]])|
    {
      if p in w.starts {
        assert next.log[..w.asked[p]] == w.log[..w.asked[p]];
      }
    }
  }

  lemma ActKeepsOrder(w: World, session: string, a: Action)
    requires Enabled(w, a) && WorldInv(w, session)
    ensures OrderInv(Act(w, session, a))
  {
    forall p | p in w.link.outcomes ensures p in Act(w, session, a).link.outcomes {
      OutcomesStay(w, session, a, p);
    }
    match a {
      case ReadLine(line) => ReadKeepsOrder(w, session, line);
      case Prompt(sent) => PromptKeepsOrder(w, session, sent);
      case Finish => DoneKeepsOrder(w, session, a);
      case Cleared => DoneKeepsOrder(w, session, a);
      case _ =>
    }
  }

  lemma {:induction false} BehaviourKeepsWorld(run: seq<World>, session: string, k: nat)
    requires Behaviour(run, session) && k < |run|
    ensures WorldInv(run[k], session)
  {
    if k > 0 {
      BehaviourKeepsWorld(run, session, k - 1);
      assert StepsAt(run, session, k - 1);
      var a :| Enabled(run[k - 1], a) && run[k] == Act(run[k - 1], session, a);
      ActKeepsWorld(run[k - 1], session, a);
    }
  }

  // ------------------------------------------------------------ Main results

  // Every number given out is waiting, unanswered so far, or has one outcome;
  // a reply is the payload of the first line answering it, and nothing that
  // happens later changes it.
  lemma RequestsResolveOnce(run: seq<World>, session: string, j: nat, k: nat, id: nat)
    requires Behaviour(run, session) && j <= k < |run| && id < run[j].link.next
    ensures id in run[j].asked && (id in run[j].link.waiting <==> id !in run[j].link.outcomes)
    ensures id in run[j].link.waiting ==> NoAnswer(run[j].log, id, run[j].asked[id], |run[j].log|)
    ensures id in run[j].link.outcomes && run[j].link.outcomes[id].Replied? ==>
              && id in run[j].answered
              && var at := run[j].answered[id];
              && run[j].asked[id] <= at < |run[j].log| && NoAnswer(run[j].log, id, run[j].asked[id], at)
              && run[j].log[at] == Answer(id, run[j].link.outcomes[id].payload)
    ensures id in run[j].link.outcomes ==>
              id in run[k].link.outcomes && run[k].link.outcomes[id] == run[j].link.outcomes[id]
  {
    BehaviourKeepsWorld(run, session, j);
    assert RequestOk(run[j].link, run[j].log, run[j].asked, run[j].answered, id);
    if id in run[j].link.outcomes {
      OutcomeStays(run, session, j, k, id);
    }
  }

  lemma StepKeepsOutcome(w: World, session: string, next: World, id: nat)
    requires Steps(w, session, next) && LinkOk(w.link) && id in w.link.outcomes
    ensures id in next.link.outcomes && next.link.outcomes[id] == w.link.outcomes[id]
  {
    var a :| Enabled(w, a) && next == Act(w, session, a);
    OutcomesStay(w, session, a, id);
  }

  lemma {:induction false} OutcomeStays(run: seq<World>, session: string, j: nat, k: nat, id: nat)
    requires Behaviour(run, session) && j <= k < |run| && id in run[j].link.outcomes
    ensures id in run[k].link.outcomes && run[k].link.outcomes[id] == run[j].link.outcomes[id]
  {
    if k > j {
      OutcomeStays(run, session, j, k - 1, id);
      LinksStayOk(run, session, k - 1);
      assert StepsAt(run, session, k - 1);
      StepKeepsOutcome(run[k - 1], session, run[k], id);
    }
  }

  lemma LinksStayOk(run: seq<World>, session: string, k: nat)
    requires Behaviour(run, session) && k < |run|
    ensures LinkOk(run[k].link)
  {
    BehaviourKeepsWorld(run, session, k);
  }

  // Every update read is in one place, in the order read: kept by one turn,
  // dropped, or still queued.
  lemma EveryUpdateGoesToOnePlace(run: seq<World>, session: string, k: nat)
    requires Behaviour(run, session) && k < |run|
    ensures Notes(run[k].ledger) + run[k].link.updates == Updates(run[k].log)
  {
    BehaviourKeepsWorld(run, session, k);
  }

  // However the read loop and the turn interleave, a turn about to finish holds
  // the fold of the updates read since it began: those before its answer, and
  // any the agent sent after it that were read in time.
  lemma TurnIsTheSequentialFold(run: seq<World>, session: string, k: nat)
    requires Behaviour(run, session) && k < |run| && Enabled(run[k], Finish)
    requires run[k].phase.prompt in run[k].answered
    ensures var w, p := run[k], run[k].phase.prompt;
            var at := w.answered[p];
            && at <= |w.log| && p in w.starts && w.starts[p] <= |Updates(w.log[..at])|
            && w.turn == AbsorbAll(Collected(session, Updates(w.log[..at])[w.starts[p]..]),
                                   EventsOf(session, Updates(w.log[at..])))
  {
    BehaviourKeepsWorld(run, session, k);
    FoldSplits(run[k], session);
  }

  // In the end the turn is what was read since it began, and says the text of
  // exactly those notes that name its session.
  lemma TurnSaysItsOwnText(run: seq<World>, session: string, k: nat)
    requires Behaviour(run, session) && k < |run| && Enabled(run[k], Finish)
    ensures var w, p := run[k], run[k].phase.prompt;
            && p in w.starts && w.starts[p] <= |Updates(w.log)|
            && w.turn == Collected(session, Updates(w.log)[w.starts[p]..])
            && Preambles(w.turn.tools) + w.turn.reply == TextOf(session, Updates(w.log)[w.starts[p]..])
  {
    BehaviourKeepsWorld(run, session, k);
    TurnIsCollected(run[k], session);
    OwnTextIsCollected(session, Updates(run[k].log)[run[k].starts[run[k].phase.prompt]..]);
  }

  lemma TurnIsCollected(w: World, session: string)
    requires WorldInv(w, session) && Enabled(w, Finish)
    ensures var p := w.phase.prompt;
            && p in w.starts && w.starts[p] <= |Updates(w.log)|
            && w.turn == Collected(session, Updates(w.log)[w.starts[p]..])
  {
    assert Notes(w.ledger) == Updates(w.log);
  }

  // What a caller hears: nothing while it waits, then why.
  lemma EveryWaiterIsTold(run: seq<World>, session: string, k: nat, id: nat)
    requires Behaviour(run, session) && k < |run| && id in run[k].link.waiting
    ensures Close(run[k].link).waiting == {} && id in Close(run[k].link).outcomes && Close(run[k].link).outcomes[id] == Closed
    ensures id in Settle(run[k].link, id, TimedOut).outcomes && Settle(run[k].link, id, TimedOut).outcomes[id] == TimedOut
    ensures forall payload :: id in Read(run[k].link, Answer(id, payload)).outcomes
                              && Read(run[k].link, Answer(id, payload)).outcomes[id] == Replied(payload)
    ensures forall other, payload | other != id :: id in Read(run[k].link, Answer(other, payload)).waiting
  {
    BehaviourKeepsWorld(run, session, k);
  }

  // A request that cannot be sent is told so at once and never waits.
  lemma UnsentNeverWaits(run: seq<World>, session: string, k: nat, sent: bool)
    requires Behaviour(run, session) && k < |run|
    ensures var l, next := run[k].link, Ask(run[k].link, sent);
            && l.next !in l.waiting && l.next !in l.outcomes && next.next == l.next + 1
            && (if sent then l.next in next.waiting else l.next !in next.waiting && l.next in next.outcomes && next.outcomes[l.next] == Unsent)
            && forall id | id in l.waiting :: id in next.waiting
  {
    BehaviourKeepsWorld(run, session, k);
  }

  // A finishing turn is handed over as it is; the session takes another prompt
  // exactly if the agent's answer was a result.
  lemma FinishedTurnsAreHandedOver(run: seq<World>, session: string, k: nat)
    requires Behaviour(run, session) && k < |run| && Enabled(run[k], Finish)
    ensures var w, next, p := run[k], Act(run[k], session, Finish), run[k].phase.prompt;
            && p in next.done && next.done[p] == w.turn
            && (Enabled(next, Prompt(true)) <==> w.link.outcomes[p].Replied? && w.link.outcomes[p].payload.Ok?)
            && next.link == w.link && next.ledger == w.ledger
  {
  }

  lemma FoldSplits(w: World, session: string)
    requires WorldInv(w, session) && Enabled(w, Finish) && w.phase.prompt in w.answered
    ensures var p := w.phase.prompt;
            var at := w.answered[p];
            && at <= |w.log| && p in w.starts && w.starts[p] <= |Updates(w.log[..at])|
            && w.turn == AbsorbAll(Collected(session, Updates(w.log[..at])[w.starts[p]..]),
                                   EventsOf(session, Updates(w.log[at..])))
  {
    var p := w.phase.prompt;
    assert RequestOk(w.link, w.log, w.asked, w.answered, p);
    var at := w.answered[p];
    UpdatesGrow(w.log[..at], w.asked[p]);
    assert w.log[..at][..w.asked[p]] == w.log[..w.asked[p]];
    UpdatesSplit(w.log, at);
    var early, late := Updates(w.log[..at]), Updates(w.log[at..]);
    assert Notes(w.ledger) == early + late;
    assert (early + late)[w.starts[p]..] == early[w.starts[p]..] + late;
    EventsJoin(session, early[w.starts[p]..], late);
    AbsorbJoins(FRESH, EventsOf(session, early[w.starts[p]..]), EventsOf(session, late));
  }

  lemma {:induction false} UpdatesSplit(log: seq<Line>, n: nat)
    requires n <= |log|
    ensures Updates(log) == Updates(log[..n]) + Updates(log[n..])
  {
    if n == |log| {
      assert log[..n] == log && log[n..] == [];
    } else {
      var last := |log| - 1;
      UpdatesSplit(log[..last], n);
      assert log[..last][..n] == log[..n] && log[..last][n..] == log[n..][..last - n];
      assert log[n..][|log[n..]| - 1] == log[last];
    }
  }

  // So the result does not depend on the interleaving when the agent sends this
  // session nothing after its answer: two runs that begin a turn at the same
  // place and read the same lines up to the answer collect the same turn.
  lemma InterleavingIsInvisible(run: seq<World>, other: seq<World>, session: string, k: nat, m: nat)
    requires Behaviour(run, session) && k < |run| && Enabled(run[k], Finish)
    requires Behaviour(other, session) && m < |other| && Enabled(other[m], Finish)
    requires var w, v := run[k], other[m];
             && w.phase.prompt in w.answered && v.phase.prompt in v.answered
             && w.phase.prompt in w.starts && v.phase.prompt in v.starts
             && w.starts[w.phase.prompt] == v.starts[v.phase.prompt]
             && w.answered[w.phase.prompt] == v.answered[v.phase.prompt] <= |w.log|
             && w.answered[w.phase.prompt] <= |v.log|
             && w.log[..w.answered[w.phase.prompt]] == v.log[..v.answered[v.phase.prompt]]
             && EventsOf(session, Updates(w.log[w.answered[w.phase.prompt]..])) == []
             && EventsOf(session, Updates(v.log[v.answered[v.phase.prompt]..])) == []
    ensures run[k].turn == other[m].turn
  {
    TurnIsTheSequentialFold(run, session, k);
    TurnIsTheSequentialFold(other, session, m);
  }

  // Nothing read before a prompt's answer is ever kept by a later turn, whether
  // the prompt's own turn finished or was cancelled.
  lemma EarlierUpdatesNeverEnterALaterTurn(run: seq<World>, session: string, k: nat, p: nat, q: nat, i: nat)
    requires Behaviour(run, session) && k < |run| && i < |run[k].ledger|
    requires p in run[k].starts && p in run[k].answered && p < q
    requires run[k].ledger[i].Kept? && run[k].ledger[i].prompt == q
    ensures run[k].answered[p] <= |run[k].log|
    ensures |Updates(run[k].log[..run[k].answered[p]])| <= i < |Updates(run[k].log)|
    ensures run[k].ledger[i].note == Updates(run[k].log)[i]
  {
    BehaviourKeepsWorld(run, session, k);
    var w := run[k];
    assert RequestOk(w.link, w.log, w.asked, w.answered, p);
    assert Notes(w.ledger)[i] == w.ledger[i].note;
    assert Before(w.log, w.answered, p) <= w.starts[q];
  }
}
