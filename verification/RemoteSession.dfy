// The remote client's reconnect protocol: a resume cursor, a per-socket
// cursor, an outbound queue, and request waiters that may outlive one drop.
//
// The client is a class updated step by step and specified by functions on
// its state. Around it, the daemon and the socket are the environment: the
// daemon replays the journaled entries newer than the cursor it was given and
// then forwards live ones, and the socket may repeat frames or drop at any time.
// Admission (connected check, insertion, enqueueing) is one step.
module RemoteSession {
  import opened Outcomes

  const REQUEST_VERSION: nat := 2
  const SEARCH_VERSION: nat := 6
  const GUARDED_VERSION: nat := 7
  const LSP_VERSION: nat := 8

  datatype Kind = CancelQueued | EditorLsp | FileSearch | GuardedFile | OtherCommand

  // One daemon event. Every event takes a sequence number, but only journaled
  // ones are kept for replay; a journaled cancellation names the request that
  // asked for it.
  datatype Entry = Entry(journaled: bool, cancels: Option<nat>, payload: int)

  datatype Frame =
    | Event(number: nat, entry: Entry)
    | Reply(requestId: nat, answer: int)
    | Undecodable

  datatype Outcome = Answered(answer: int) | Cancelled(payload: int) | Reused | ConnectionLost | TimedOut | NotConnected | Unsupported

  // `ticket` numbers the calls, so that a reused request id stays two calls.
  datatype Waiter = Waiter(ticket: nat, replayable: bool, survived: bool)

  datatype Outbound = Outbound(requestId: Option<nat>, epoch: nat)

  datatype Delivery = Delivered(number: nat, entry: Entry) | DroppedCommands(count: nat) | Disconnected | BadFrame

  // A call's request id and kind, and where it stood when it was issued: drops
  // so far, and the cursor.
  datatype Birth = Birth(requestId: nat, kind: Kind, drops: nat, cursor: nat)

  datatype State = State(
    connected: bool, epoch: nat, version: nat,
    lastSeq: nat, socketSeq: nat,
    queue: seq<Outbound>, written: seq<Outbound>,
    pending: map<nat, Waiter>, outcomes: map<nat, Outcome>, born: seq<Birth>,
    delivered: seq<Delivery>, drops: nat)

  const INITIAL: State := State(false, 0, 0, 0, 0, [], [], map[], map[], [], [], 0)

  function MinVersion(kind: Kind): nat {
    match kind
    case EditorLsp => LSP_VERSION
    case FileSearch => SEARCH_VERSION
    case GuardedFile => GUARDED_VERSION
    case _ => REQUEST_VERSION
  }

  predicate Survives(w: Waiter) {
    w.replayable && !w.survived
  }

  function Survivors(pending: map<nat, Waiter>): map<nat, Waiter> {
    map id | id in pending && Survives(pending[id]) :: pending[id].(survived := true)
  }

  function FailedTickets(pending: map<nat, Waiter>): set<nat> {
    set id | id in pending && !Survives(pending[id]) :: pending[id].ticket
  }

  function FailAll(outcomes: map<nat, Outcome>, tickets: set<nat>): map<nat, Outcome> {
    map ticket | ticket in outcomes.Keys + tickets ::
      if ticket in tickets then ConnectionLost else outcomes[ticket]
  }

  // -------------------------------------------------------------- Client steps

  function Connect(c: State, version: nat): State {
    c.(connected := true, epoch := c.epoch + 1, version := version, socketSeq := 0)
  }

  function Drop(c: State): State {
    c.(connected := false, queue := [],
       pending := Survivors(c.pending),
       outcomes := FailAll(c.outcomes, FailedTickets(c.pending)),
       delivered := c.delivered
                    + (if c.queue == [] then [Disconnected] else [DroppedCommands(|c.queue|), Disconnected]),
       drops := c.drops + 1)
  }

  function Issue(c: State, requestId: nat, kind: Kind): State {
    var ticket := |c.born|;
    var issued := c.(born := c.born + [Birth(requestId, kind, c.drops, c.lastSeq)]);
    if !c.connected then issued.(outcomes := c.outcomes[ticket := NotConnected])
    else if c.version < MinVersion(kind) then issued.(outcomes := c.outcomes[ticket := Unsupported])
    else issued.(
      outcomes := if requestId in c.pending then c.outcomes[c.pending[requestId].ticket := Reused] else c.outcomes,
      pending := c.pending[requestId := Waiter(ticket, kind == CancelQueued, false)],
      queue := c.queue + [Outbound(Some(requestId), c.epoch)])
  }

  function Send(c: State, kind: Kind): State {
    if !c.connected || (kind == EditorLsp && c.version < LSP_VERSION) then c
    else c.(queue := c.queue + [Outbound(None, c.epoch)])
  }

  function Write(c: State): State
    requires c.queue != []
  {
    c.(written := c.written + [c.queue[0]], queue := c.queue[1..])
  }

  function Resolve(c: State, requestId: nat, outcome: Outcome): State {
    if requestId in c.pending
    then c.(pending := c.pending - {requestId}, outcomes := c.outcomes[c.pending[requestId].ticket := outcome])
    else c
  }

  function Receive(c: State, frame: Frame): State {
    match frame
    case Undecodable => c.(delivered := c.delivered + [BadFrame])
    case Reply(requestId, answer) => Resolve(c, requestId, Answered(answer))
    case Event(number, entry) =>
      if 0 < number <= c.socketSeq then c
      else
        var moved := if number > 0 then c.(socketSeq := number, lastSeq := number) else c;
        var settled := if entry.cancels.Some? then Resolve(moved, entry.cancels.value, Cancelled(entry.payload)) else moved;
        settled.(delivered := c.delivered + [Delivered(number, entry)])
  }

  function Expire(c: State, requestId: nat): State {
    Resolve(c, requestId, TimedOut)
  }

  // ----------------------------------------------------------------- The class

  class Client {
    var connected: bool
    var epoch: nat
    var version: nat
    var lastSeq: nat
    var socketSeq: nat
    var queue: seq<Outbound>
    var written: seq<Outbound>
    var pending: map<nat, Waiter>
    var outcomes: map<nat, Outcome>
    var born: seq<Birth>
    var delivered: seq<Delivery>
    var drops: nat

    function View(): State
      reads this
    {
      State(connected, epoch, version, lastSeq, socketSeq, queue, written, pending, outcomes, born, delivered, drops)
    }

    constructor ()
      ensures View() == INITIAL
    {
      connected, epoch, version, lastSeq, socketSeq := false, 0, 0, 0, 0;
      queue, written, pending, outcomes := [], [], map[], map[];
      born, delivered, drops := [], [], 0;
    }

    method OnConnect(peerVersion: nat)
      modifies this
      ensures View() == Connect(old(View()), peerVersion)
    {
      version := peerVersion;
      epoch := epoch + 1;
      connected := true;
      socketSeq := 0;
    }

    method DrainQueue() returns (dropped: nat)
      modifies this`queue
      ensures queue == [] && dropped == |old(queue)|
    {
      dropped := 0;
      while queue != []
        invariant dropped + |queue| == |old(queue)|
        decreases |queue|
      {
        queue := queue[1..];
        dropped := dropped + 1;
      }
    }

    // Take every waiter out; put back, marked, those that may wait for one
    // reconnect, and fail the others.
    method DrainWaiters()
      modifies this`pending, this`outcomes
      ensures pending == Survivors(old(pending))
      ensures outcomes == FailAll(old(outcomes), FailedTickets(old(pending)))
    {
      var drained := pending;
      pending := map[];
      ghost var done: map<nat, Waiter> := map[];
      while drained != map[]
        invariant done.Keys !! drained.Keys && done + drained == old(pending)
        invariant pending == Survivors(done)
        invariant outcomes == FailAll(old(outcomes), FailedTickets(done))
        decreases drained.Keys
      {
        var requestId :| requestId in drained;
        var waiter := drained[requestId];
        OneMoreWaiter(done, requestId, waiter);
        OneMoreFailure(old(outcomes), FailedTickets(done), waiter.ticket);
        Moved(done, drained, requestId);
        drained := drained - {requestId};
        done := done[requestId := waiter];
        if waiter.replayable && !waiter.survived {
          pending := pending[requestId := waiter.(survived := true)];
        } else {
          outcomes := outcomes[waiter.ticket := ConnectionLost];
        }
      }
      assert done == old(pending);
    }

    // Drain the queue, settle the waiters, and tell every subscriber.
    method OnDrop()
      modifies this
      ensures View() == Drop(old(View()))
    {
      connected := false;
      drops := drops + 1;
      var dropped := DrainQueue();
      if dropped > 0 {
        delivered := delivered + [DroppedCommands(dropped)];
      }
      DrainWaiters();
      delivered := delivered + [Disconnected];
    }

    method OnIssue(requestId: nat, kind: Kind)
      modifies this
      ensures View() == Issue(old(View()), requestId, kind)
    {
      var ticket := |born|;
      born := born + [Birth(requestId, kind, drops, lastSeq)];
      if !connected {
        outcomes := outcomes[ticket := NotConnected];
        return;
      }
      if version < REQUEST_VERSION
        || (kind == EditorLsp && version < LSP_VERSION)
        || (kind == FileSearch && version < SEARCH_VERSION)
        || (kind == GuardedFile && version < GUARDED_VERSION)
      {
        outcomes := outcomes[ticket := Unsupported];
        return;
      }
      if requestId in pending {
        outcomes := outcomes[pending[requestId].ticket := Reused];
      }
      pending := pending[requestId := Waiter(ticket, kind == CancelQueued, false)];
      queue := queue + [Outbound(Some(requestId), epoch)];
    }

    method OnSend(kind: Kind) returns (accepted: bool)
      modifies this
      ensures View() == Send(old(View()), kind)
      ensures accepted <==> old(connected) && (kind == EditorLsp ==> old(version) >= LSP_VERSION)
    {
      if !connected || (kind == EditorLsp && version < LSP_VERSION) {
        return false;
      }
      queue := queue + [Outbound(None, epoch)];
      accepted := true;
    }

    method OnWrite()
      requires queue != []
      modifies this
      ensures View() == Write(old(View()))
    {
      var message := queue[0];
      queue := queue[1..];
      written := written + [message];
    }

    method Settle(requestId: nat, outcome: Outcome)
      modifies this`pending, this`outcomes
      ensures View() == Resolve(old(View()), requestId, outcome)
    {
      if requestId in pending {
        var waiter := pending[requestId];
        pending := pending - {requestId};
        outcomes := outcomes[waiter.ticket := outcome];
      }
    }

    method OnFrame(frame: Frame)
      modifies this
      ensures View() == Receive(old(View()), frame)
    {
      match frame {
        case Undecodable =>
          delivered := delivered + [BadFrame];
        case Reply(requestId, answer) =>
          Settle(requestId, Answered(answer));
        case Event(number, entry) =>
          if number > 0 {
            if number <= socketSeq {
              return;
            }
            socketSeq := number;
            lastSeq := number;
          }
          if entry.cancels.Some? {
            Settle(entry.cancels.value, Cancelled(entry.payload));
          }
          delivered := delivered + [Delivered(number, entry)];
      }
    }

    method OnTimeout(requestId: nat)
      modifies this
      ensures View() == Expire(old(View()), requestId)
    {
      Settle(requestId, TimedOut);
    }
  }

  lemma OneMoreFailure(outcomes: map<nat, Outcome>, tickets: set<nat>, ticket: nat)
    ensures FailAll(outcomes, tickets + {ticket}) == FailAll(outcomes, tickets)[ticket := ConnectionLost]
  {
  }

  lemma Moved(done: map<nat, Waiter>, left: map<nat, Waiter>, id: nat)
    requires done.Keys !! left.Keys && id in left
    ensures done[id := left[id]].Keys !! (left - {id}).Keys
    ensures done[id := left[id]] + (left - {id}) == done + left
  {
  }

  lemma OneMoreWaiter(done: map<nat, Waiter>, id: nat, w: Waiter)
    requires id !in done
    ensures Survives(w) ==> Survivors(done[id := w]) == Survivors(done)[id := w.(survived := true)]
    ensures Survives(w) ==> FailedTickets(done[id := w]) == FailedTickets(done)
    ensures !Survives(w) ==> Survivors(done[id := w]) == Survivors(done)
    ensures !Survives(w) ==> FailedTickets(done[id := w]) == FailedTickets(done) + {w.ticket}
  {
    var all := done[id := w];
    forall ticket | ticket in FailedTickets(done) ensures ticket in FailedTickets(all) {
      var k :| k in done && !Survives(done[k]) && done[k].ticket == ticket;
      assert k in all && !Survives(all[k]);
    }
    if !Survives(w) {
      assert id in all && !Survives(all[id]);
    }
  }
}
