// The client of `RemoteSession` running against a daemon over a socket that
// may repeat frames and drop at any time, within one daemon lifetime.
module RemoteProtocol {
  import opened Outcomes
  import opened RemoteSession

  // `log` is every event the daemon has numbered, entry k under number k + 1.
  // On the current socket it started after `since`, found `attached` events
  // already logged, and has considered events up to `cursor`; `wire` is what
  // the socket has not yet delivered. `lagged` holds the entries that a
  // forwarder which fell behind skipped.
  datatype System = System(
    client: State, log: seq<Entry>, since: nat, attached: nat, cursor: nat, lagged: set<nat>, wire: seq<Frame>)

  const START: System := System(INITIAL, [], 0, 0, 0, {}, [])

  datatype Action =
    | Log(entry: Entry)
    | Attach(version: nat)
    | Forward
    | Lag(count: nat, notice: Entry)
    | Repeat(number: nat)
    | Notice(entry: Entry)
    | Answer(requestId: nat, answer: int)
    | Garble
    | Deliver
    | Break
    | Request(requestId: nat, kind: Kind)
    | Command(kind: Kind)
    | Flush
    | Timeout(ticket: nat)

  // Events numbered before the attach are replayed only if journaled.
  predicate Forwardable(s: System, number: nat)
    requires 0 < number <= |s.log|
  {
    s.attached < number || s.log[number - 1].journaled
  }

  // A forwarder lags only behind live events, and says so. A timeout comes to a
  // call that still waits.
  predicate Enabled(s: System, a: Action) {
    match a
    case Log(entry) => entry.cancels.Some? ==> entry.journaled
    case Attach(_) => !s.client.connected
    case Forward => s.client.connected && s.cursor < |s.log|
    case Lag(count, notice) =>
      s.client.connected && s.attached <= s.cursor && s.cursor + count <= |s.log| && notice.cancels.None?
    case Repeat(number) =>
      && s.client.connected && s.since < number <= s.cursor && number <= |s.log|
      && Forwardable(s, number) && number - 1 !in s.lagged
    case Notice(entry) => s.client.connected && entry.cancels.None?
    case Answer(_, _) => s.client.connected
    case Garble => s.client.connected
    case Deliver => s.client.connected && s.wire != []
    case Break => s.client.connected
    case Flush => s.client.connected && s.client.queue != []
    case Timeout(ticket) => ticket < |s.client.born| && ticket !in s.client.outcomes
    case _ => true
  }

  function Min(a: nat, b: nat): nat {
    if a < b then a else b
  }

  function Indices(from: nat, to: nat): (r: set<nat>)
    ensures forall k: nat :: k in r <==> from <= k < to
  {
    if to <= from then {} else Indices(from, to - 1) + {to - 1}
  }

  // The daemon replays what is newer than the cursor it is given and forwards
  // every live event after that, so a cursor past its log is the log's end to it.
  function Act(s: System, a: Action): System
    requires Enabled(s, a)
  {
    match a
    case Log(entry) => s.(log := s.log + [entry])
    case Attach(version) =>
      var from := Min(s.client.lastSeq, |s.log|);
      s.(client := Connect(s.client, version), since := from, attached := |s.log|, cursor := from,
         lagged := (set k | k in s.lagged && k < from), wire := [])
    case Forward =>
      if Forwardable(s, s.cursor + 1)
      then s.(cursor := s.cursor + 1, wire := s.wire + [Event(s.cursor + 1, s.log[s.cursor])])
      else s.(cursor := s.cursor + 1)
    case Lag(count, notice) =>
      s.(cursor := s.cursor + count, lagged := s.lagged + Indices(s.cursor, s.cursor + count),
         wire := s.wire + [Event(0, notice)])
    case Repeat(number) => s.(wire := s.wire + [Event(number, s.log[number - 1])])
    case Notice(entry) => s.(wire := s.wire + [Event(0, entry)])
    case Answer(requestId, answer) => s.(wire := s.wire + [Reply(requestId, answer)])
    case Garble => s.(wire := s.wire + [Undecodable])
    case Deliver => s.(client := Receive(s.client, s.wire[0]), wire := s.wire[1..])
    case Break => s.(client := Drop(s.client), wire := [])
    case Request(requestId, kind) => s.(client := Issue(s.client, requestId, kind))
    case Command(kind) => s.(client := Send(s.client, kind))
    case Flush => s.(client := Write(s.client))
    case Timeout(ticket) => s.(client := Expire(s.client, s.client.born[ticket].requestId))
  }

  ghost predicate Steps(s: System, next: System) {
    exists a :: Enabled(s, a) && next == Act(s, a)
  }

  ghost predicate Behaviour(run: seq<System>) {
    && run != []
    && run[0] == START
    && forall k | 0 <= k < |run| - 1 :: StepsAt(run, k)
  }

  ghost predicate StepsAt(run: seq<System>, k: nat)
    requires k < |run| - 1
  {
    Steps(run[k], run[k + 1])
  }

  // ------------------------------------------------------------ What arrived

  function Journaled(delivered: seq<Delivery>): seq<(nat, Entry)> {
    if delivered == [] then []
    else
      var last := delivered[|delivered| - 1];
      Journaled(delivered[..|delivered| - 1])
      + if last.Delivered? && last.number > 0 && last.entry.journaled then [(last.number, last.entry)] else []
  }

  predicate Kept(log: seq<Entry>, lagged: set<nat>, k: nat)
    requires k < |log|
  {
    log[k].journaled && k !in lagged
  }

  // The journaled entries after the first `from` events and up to number n, but
  // for what was skipped.
  function Journal(log: seq<Entry>, lagged: set<nat>, from: nat, n: nat): seq<(nat, Entry)>
    requires n <= |log|
  {
    if n <= from then []
    else Journal(log, lagged, from, n - 1) + if Kept(log, lagged, n - 1) then [(n, log[n - 1])] else []
  }

  function Numbers(delivered: seq<Delivery>): seq<nat> {
    if delivered == [] then []
    else
      var last := delivered[|delivered| - 1];
      Numbers(delivered[..|delivered| - 1])
      + if last.Delivered? && last.number > 0 then [last.number] else []
  }

  ghost predicate Increasing(numbers: seq<nat>, limit: nat) {
    && (forall i, j | 0 <= i < j < |numbers| :: numbers[i] < numbers[j])
    && (forall i | 0 <= i < |numbers| :: numbers[i] <= limit)
  }

  ghost predicate Quiet(log: seq<Entry>, lagged: set<nat>, from: nat, to: nat) {
    forall k | from <= k < to && k < |log| && log[k].journaled :: k in lagged
  }

  // Read from cursor c, the wire repeats old frames and otherwise carries on
  // from c, skipping only unjournaled and lagged events, up to the daemon's own
  // cursor.
  ghost predicate WireOk(s: System, c: nat, wire: seq<Frame>)
    decreases |wire|
  {
    if wire == [] then c <= s.cursor && Quiet(s.log, s.lagged, c, s.cursor)
    else
      match wire[0]
      case Event(number, entry) =>
        if number == 0 then entry.cancels.None? && WireOk(s, c, wire[1..])
        else
          && number <= |s.log| && entry == s.log[number - 1] && number - 1 !in s.lagged
          && if number <= c then s.since < number && WireOk(s, c, wire[1..])
             else Quiet(s.log, s.lagged, c, number - 1) && WireOk(s, number, wire[1..])
      case _ => WireOk(s, c, wire[1..])
  }

  ghost predicate CursorOk(s: System) {
    var c := s.client;
    && c.lastSeq <= |s.log|
    && (c.connected ==>
          && s.since <= c.lastSeq && s.cursor <= |s.log| && s.attached <= |s.log|
          && (forall k | k in s.lagged :: k < s.cursor)
          && (c.socketSeq == c.lastSeq || (c.socketSeq == 0 && s.since == c.lastSeq))
          && WireOk(s, c.lastSeq, s.wire))
  }

  // What was delivered is the journal from `lost` on: from the beginning, unless
  // the daemon restarted its numbering.
  ghost predicate DeliveryInv(lost: nat, s: System) {
    && CursorOk(s) && lost <= s.client.lastSeq
    && Journaled(s.client.delivered) == Journal(s.log, s.lagged, lost, s.client.lastSeq)
    && Increasing(Numbers(s.client.delivered), s.client.lastSeq)
    && (forall k | 0 <= k < |s.log| :: s.log[k].cancels.Some? ==> s.log[k].journaled)
  }

  // The journal up to n is settled by what happened up to n.
  lemma {:induction false} JournalStays(log: seq<Entry>, more: seq<Entry>, lagged: set<nat>, also: set<nat>, from: nat, n: nat)
    requires n <= |log| && log <= more && forall k: nat | k < n :: k in lagged <==> k in also
    ensures Journal(more, also, from, n) == Journal(log, lagged, from, n)
  {
    if from < n {
      JournalStays(log, more, lagged, also, from, n - 1);
    }
  }

  lemma {:induction false} QuietJournal(log: seq<Entry>, lagged: set<nat>, from: nat, m: nat, n: nat)
    requires from <= m <= n <= |log| && Quiet(log, lagged, m, n)
    ensures Journal(log, lagged, from, n) == Journal(log, lagged, from, m)
  {
    if m < n {
      QuietJournal(log, lagged, from, m, n - 1);
    }
  }

  lemma {:induction false} LogKeepsWire(s: System, entry: Entry, c: nat, wire: seq<Frame>)
    requires WireOk(s, c, wire) && s.cursor <= |s.log|
    ensures WireOk(s.(log := s.log + [entry]), c, wire)
    decreases |wire|
  {
    if wire != [] {
      match wire[0] {
        case Event(number, e) =>
          LogKeepsWire(s, entry, if number <= c then c else number, wire[1..]);
        case _ => LogKeepsWire(s, entry, c, wire[1..]);
      }
    }
  }

  lemma {:induction false} WireReaches(s: System, c: nat, wire: seq<Frame>)
    requires WireOk(s, c, wire)
    ensures c <= s.cursor
    decreases |wire|
  {
    if wire != [] {
      match wire[0] {
        case Event(number, e) => WireReaches(s, if number <= c then c else number, wire[1..]);
        case _ => WireReaches(s, c, wire[1..]);
      }
    }
  }

  // Appending the next event, an old one, or anything unnumbered keeps the wire.
  lemma {:induction false} WireAppend(s: System, t: System, c: nat, wire: seq<Frame>, frame: Frame)
    requires WireOk(s, c, wire) && s.cursor <= |s.log|
    requires t.log == s.log && t.since == s.since && t.lagged == s.lagged
    requires match frame
             case Event(number, entry) =>
               if number == 0 then t.cursor == s.cursor && entry.cancels.None?
               else (
                 && number <= |s.log| && entry == s.log[number - 1] && number - 1 !in s.lagged
                 && ((s.since < number <= s.cursor && t.cursor == s.cursor) || (number == s.cursor + 1 && t.cursor == number)))
             case _ => t.cursor == s.cursor
    ensures WireOk(t, c, wire + [frame])
    decreases |wire|
  {
    assert (wire + [frame])[0] == if wire == [] then frame else wire[0];
    if wire == [] {
      assert (wire + [frame])[1..] == [];
    } else {
      assert (wire + [frame])[1..] == wire[1..] + [frame];
      match wire[0] {
        case Event(number, e) => WireAppend(s, t, if number <= c then c else number, wire[1..], frame);
        case _ => WireAppend(s, t, c, wire[1..], frame);
      }
    }
  }

  // Events nobody is to hear may be passed over, or become such by being passed.
  lemma {:induction false} SkipKeepsWire(s: System, t: System, c: nat, wire: seq<Frame>)
    requires WireOk(s, c, wire) && s.cursor <= t.cursor <= |s.log| && t.log == s.log && t.since == s.since
    requires (forall k | k in t.lagged && k !in s.lagged :: s.cursor <= k) && s.lagged <= t.lagged
    requires Quiet(s.log, t.lagged, s.cursor, t.cursor)
    ensures WireOk(t, c, wire)
    decreases |wire|
  {
    if wire != [] {
      match wire[0] {
        case Event(number, e) =>
          WireReaches(s, if number <= c then c else number, wire[1..]);
          SkipKeepsWire(s, t, if number <= c then c else number, wire[1..]);
        case _ => SkipKeepsWire(s, t, c, wire[1..]);
      }
    }
  }

  // Client changes do not disturb the wire.
  lemma {:induction false} SameWire(s: System, t: System, c: nat, wire: seq<Frame>)
    requires WireOk(s, c, wire)
    requires t.log == s.log && t.since == s.since && t.cursor == s.cursor && t.lagged == s.lagged
    ensures WireOk(t, c, wire)
    decreases |wire|
  {
    if wire != [] {
      match wire[0] {
        case Event(number, e) => SameWire(s, t, if number <= c then c else number, wire[1..]);
        case _ => SameWire(s, t, c, wire[1..]);
      }
    }
  }

  lemma AppendDelivery(delivered: seq<Delivery>, d: Delivery)
    ensures Journaled(delivered + [d]) ==
            Journaled(delivered) + if d.Delivered? && d.number > 0 && d.entry.journaled then [(d.number, d.entry)] else []
    ensures Numbers(delivered + [d]) == Numbers(delivered) + if d.Delivered? && d.number > 0 then [d.number] else []
  {
    assert (delivered + [d])[..|delivered|] == delivered;
  }

  lemma SkipRepeated(lost: nat, s: System)
    requires DeliveryInv(lost, s) && s.client.connected && s.wire != []
    requires s.wire[0].Event? && 0 < s.wire[0].number <= s.client.lastSeq
    ensures Act(s, Deliver) == s.(wire := s.wire[1..]) && DeliveryInv(lost, Act(s, Deliver))
  {
    SameWire(s, s.(wire := s.wire[1..]), s.client.lastSeq, s.wire[1..]);
  }

  lemma TakeNext(lost: nat, s: System)
    requires DeliveryInv(lost, s) && s.client.connected && s.wire != []
    requires s.wire[0].Event? && s.client.lastSeq < s.wire[0].number
    ensures DeliveryInv(lost, Act(s, Deliver))
  {
    var c, number, entry := s.client, s.wire[0].number, s.wire[0].entry;
    NextDelivers(c, number, entry);
    QuietJournal(s.log, s.lagged, lost, c.lastSeq, number - 1);
    WireReaches(s, number, s.wire[1..]);
    SameWire(s, Act(s, Deliver), number, s.wire[1..]);
  }

  lemma NextDelivers(c: State, number: nat, entry: Entry)
    requires c.connected && c.socketSeq <= c.lastSeq < number
    ensures var t := Receive(c, Event(number, entry));
            && t.lastSeq == t.socketSeq == number && t.connected == c.connected
            && Numbers(t.delivered) == Numbers(c.delivered) + [number]
            && Journaled(t.delivered) == Journaled(c.delivered) + if entry.journaled then [(number, entry)] else []
  {
    AppendDelivery(c.delivered, Delivered(number, entry));
  }

  lemma TakeUnnumbered(lost: nat, s: System)
    requires DeliveryInv(lost, s) && s.client.connected && s.wire != []
    requires s.wire[0].Event? ==> s.wire[0].number == 0
    ensures DeliveryInv(lost, Act(s, Deliver))
  {
    SameWire(s, Act(s, Deliver), s.client.lastSeq, s.wire[1..]);
    UnnumberedDelivers(s.client, s.wire[0]);
  }

  lemma UnnumberedDelivers(c: State, frame: Frame)
    requires frame.Event? ==> frame.number == 0
    ensures Journaled(Receive(c, frame).delivered) == Journaled(c.delivered)
    ensures Numbers(Receive(c, frame).delivered) == Numbers(c.delivered)
    ensures Receive(c, frame).lastSeq == c.lastSeq && Receive(c, frame).socketSeq == c.socketSeq
  {
    match frame {
      case Event(number, entry) => AppendDelivery(c.delivered, Delivered(number, entry));
      case Undecodable => AppendDelivery(c.delivered, BadFrame);
      case Reply(_, _) =>
    }
  }

  lemma DeliverKeeps(lost: nat, s: System)
    requires DeliveryInv(lost, s) && s.client.connected && s.wire != []
    ensures DeliveryInv(lost, Act(s, Deliver))
  {
    if s.wire[0].Event? && 0 < s.wire[0].number {
      if s.wire[0].number <= s.client.lastSeq { SkipRepeated(lost, s); } else { TakeNext(lost, s); }
    } else {
      TakeUnnumbered(lost, s);
    }
  }

  lemma DropDelivers(c: State)
    ensures Journaled(Drop(c).delivered) == Journaled(c.delivered)
    ensures Numbers(Drop(c).delivered) == Numbers(c.delivered)
  {
    var told := if c.queue == [] then c.delivered else c.delivered + [DroppedCommands(|c.queue|)];
    AppendDelivery(c.delivered, DroppedCommands(|c.queue|));
    AppendDelivery(told, Disconnected);
    assert Drop(c).delivered == told + [Disconnected];
  }

  lemma BreakKeeps(lost: nat, s: System)
    requires DeliveryInv(lost, s) && s.client.connected
    ensures DeliveryInv(lost, Act(s, Break))
  {
    DropDelivers(s.client);
    assert Act(s, Break).client == Drop(s.client);
  }

  lemma LogKeeps(lost: nat, s: System, entry: Entry)
    requires DeliveryInv(lost, s) && Enabled(s, Log(entry))
    ensures DeliveryInv(lost, Act(s, Log(entry)))
  {
    JournalStays(s.log, s.log + [entry], s.lagged, s.lagged, lost, s.client.lastSeq);
    if s.client.connected {
      LogKeepsWire(s, entry, s.client.lastSeq, s.wire);
    }
  }

  lemma ForwardKeeps(lost: nat, s: System)
    requires DeliveryInv(lost, s) && Enabled(s, Forward)
    ensures DeliveryInv(lost, Act(s, Forward))
  {
    if Forwardable(s, s.cursor + 1) {
      WireAppend(s, Act(s, Forward), s.client.lastSeq, s.wire, Event(s.cursor + 1, s.log[s.cursor]));
    } else {
      SkipKeepsWire(s, Act(s, Forward), s.client.lastSeq, s.wire);
    }
  }

  lemma AttachKeeps(lost: nat, s: System, version: nat)
    requires DeliveryInv(lost, s) && Enabled(s, Attach(version))
    ensures DeliveryInv(lost, Act(s, Attach(version)))
  {
    JournalStays(s.log, s.log, s.lagged, Act(s, Attach(version)).lagged, lost, s.client.lastSeq);
  }

  lemma LagKeeps(lost: nat, s: System, count: nat, notice: Entry)
    requires DeliveryInv(lost, s) && Enabled(s, Lag(count, notice))
    ensures DeliveryInv(lost, Act(s, Lag(count, notice)))
  {
    var t := Act(s, Lag(count, notice));
    var skipped := s.(cursor := t.cursor, lagged := t.lagged);
    WireReaches(s, s.client.lastSeq, s.wire);
    SkipKeepsWire(s, skipped, s.client.lastSeq, s.wire);
    WireAppend(skipped, t, s.client.lastSeq, s.wire, Event(0, notice));
    JournalStays(s.log, s.log, s.lagged, t.lagged, lost, s.client.lastSeq);
  }

  // What the daemon and the socket do of their own accord.
  predicate Feeds(a: Action) {
    a.Repeat? || a.Notice? || a.Answer? || a.Garble?
  }

  lemma FeedKeeps(lost: nat, s: System, a: Action)
    requires DeliveryInv(lost, s) && Enabled(s, a) && Feeds(a)
    ensures DeliveryInv(lost, Act(s, a))
  {
    var last, t := s.client.lastSeq, Act(s, a);
    match a {
      case Repeat(number) => WireAppend(s, t, last, s.wire, Event(number, s.log[number - 1]));
      case Notice(entry) => WireAppend(s, t, last, s.wire, Event(0, entry));
      case Answer(requestId, answer) => WireAppend(s, t, last, s.wire, Reply(requestId, answer));
      case Garble => WireAppend(s, t, last, s.wire, Undecodable);
    }
  }

  // What the client does of its own accord touches no delivery.
  lemma CallKeeps(lost: nat, s: System, a: Action)
    requires DeliveryInv(lost, s) && Enabled(s, a) && (a.Request? || a.Command? || a.Flush? || a.Timeout?)
    ensures DeliveryInv(lost, Act(s, a))
  {
    if s.client.connected {
      SameWire(s, Act(s, a), s.client.lastSeq, s.wire);
    }
  }

  lemma ActKeepsDelivery(lost: nat, s: System, a: Action)
    requires DeliveryInv(lost, s) && Enabled(s, a)
    ensures DeliveryInv(lost, Act(s, a))
  {
    match a {
      case Log(entry) => LogKeeps(lost, s, entry);
      case Attach(version) => AttachKeeps(lost, s, version);
      case Forward => ForwardKeeps(lost, s);
      case Lag(count, notice) => LagKeeps(lost, s, count, notice);
      case Deliver => DeliverKeeps(lost, s);
      case Break => BreakKeeps(lost, s);
      case _ => if Feeds(a) { FeedKeeps(lost, s, a); } else { CallKeeps(lost, s, a); }
    }
  }

  // ---------------------------------------------------------------- Requests

  ghost predicate Waiting(c: State, ticket: nat) {
    exists id :: id in c.pending && c.pending[id].ticket == ticket
  }

  ghost predicate WaiterOk(c: State, w: Waiter) {
    && w.ticket < |c.born| && w.ticket !in c.outcomes
    && (w.replayable <==> c.born[w.ticket].kind.CancelQueued?)
    && (w.survived ==> w.replayable)
    && c.drops == c.born[w.ticket].drops + (if w.survived then 1 else 0)
    && c.born[w.ticket].cursor <= c.lastSeq
    && (!c.connected ==> w.survived)
  }

  ghost predicate DistinctTickets(pending: map<nat, Waiter>) {
    forall a, b | a in pending && b in pending && a != b :: pending[a].ticket != pending[b].ticket
  }

  // Every call, and nothing else, is resolved or waiting.
  ghost predicate Accounted(c: State) {
    && (forall ticket | ticket in c.outcomes :: ticket < |c.born|)
    && (forall ticket: nat | ticket < |c.born| :: ticket in c.outcomes || Waiting(c, ticket))
    && (forall k | 0 <= k < |c.born| :: c.born[k].drops <= c.drops)
  }

  ghost predicate QueueOk(c: State) {
    && (!c.connected ==> c.queue == [])
    && (forall m | m in c.queue :: m.epoch == c.epoch)
  }

  ghost predicate RequestInv(c: State) {
    && (forall id | id in c.pending :: WaiterOk(c, c.pending[id]) && c.born[c.pending[id].ticket].requestId == id)
    && DistinctTickets(c.pending)
    && Accounted(c)
    && QueueOk(c)
  }

  lemma ResolveKeeps(c: State, id: nat, outcome: Outcome)
    requires RequestInv(c)
    ensures RequestInv(Resolve(c, id, outcome))
  {
    var d := Resolve(c, id, outcome);
    if id in c.pending {
      forall ticket: nat | ticket < |d.born| ensures ticket in d.outcomes || Waiting(d, ticket) {
        if ticket !in c.outcomes {
          var k :| k in c.pending && c.pending[k].ticket == ticket;
          assert k != id ==> k in d.pending;
        }
      }
    }
  }

  lemma IssueWaits(c: State, id: nat, kind: Kind, t: nat)
    requires RequestInv(c) && t <= |c.born|
    ensures t in Issue(c, id, kind).outcomes || Waiting(Issue(c, id, kind), t)
  {
    var d, ticket := Issue(c, id, kind), |c.born|;
    if t !in d.outcomes {
      if t < ticket {
        assert t in c.outcomes || Waiting(c, t);
        var k :| k in c.pending && c.pending[k].ticket == t;
        assert k in d.pending && d.pending[k].ticket == t;
      } else {
        assert id in d.pending && d.pending[id].ticket == ticket;
      }
    }
  }

  lemma IssueWaiters(c: State, id: nat, kind: Kind)
    requires RequestInv(c)
    ensures var d := Issue(c, id, kind);
            forall k | k in d.pending :: WaiterOk(d, d.pending[k]) && d.born[d.pending[k].ticket].requestId == k
  {
    var d := Issue(c, id, kind);
    forall k | k in d.pending ensures WaiterOk(d, d.pending[k]) && d.born[d.pending[k].ticket].requestId == k {
      if d.pending != c.pending && k == id {
        assert d.born[|c.born|] == Birth(id, kind, c.drops, c.lastSeq);
      } else {
        assert WaiterOk(c, c.pending[k]);
        assert d.born[c.pending[k].ticket] == c.born[c.pending[k].ticket];
      }
    }
  }

  lemma IssueAccounts(c: State, id: nat, kind: Kind)
    requires RequestInv(c)
    ensures Accounted(Issue(c, id, kind))
  {
    var d := Issue(c, id, kind);
    assert id in c.pending ==> WaiterOk(c, c.pending[id]);
    forall t: nat | t < |d.born| ensures t in d.outcomes || Waiting(d, t) {
      IssueWaits(c, id, kind, t);
    }
  }

  lemma IssueKeeps(c: State, id: nat, kind: Kind)
    requires RequestInv(c)
    ensures RequestInv(Issue(c, id, kind))
  {
    IssueWaiters(c, id, kind);
    IssueAccounts(c, id, kind);
    IssueDistinct(c, id, kind);
  }

  lemma IssueDistinct(c: State, id: nat, kind: Kind)
    requires RequestInv(c)
    ensures DistinctTickets(Issue(c, id, kind).pending)
  {
  }

  lemma DropKeeps(c: State)
    requires RequestInv(c)
    ensures c.connected ==> RequestInv(Drop(c))
  {
    var d := Drop(c);
    forall k | k in d.pending ensures c.connected ==> WaiterOk(d, d.pending[k]) {
      assert WaiterOk(c, c.pending[k]);
    }
    forall t: nat | t < |d.born| ensures t in d.outcomes || Waiting(d, t) {
      if t !in c.outcomes {
        var k :| k in c.pending && c.pending[k].ticket == t;
        if Survives(c.pending[k]) {
          assert k in d.pending && d.pending[k].ticket == t;
        } else {
          assert t in FailedTickets(c.pending);
        }
      }
    }
    forall t | t in d.outcomes ensures t < |d.born| {
      if t in FailedTickets(c.pending) {
        var k :| k in c.pending && !Survives(c.pending[k]) && c.pending[k].ticket == t;
        assert WaiterOk(c, c.pending[k]);
      }
    }
  }

  // Only the cursor moving forward matters to the waiters.
  lemma CursorKeeps(c: State, d: State)
    requires RequestInv(c) && c.lastSeq <= d.lastSeq
    requires d == c.(lastSeq := d.lastSeq, socketSeq := d.socketSeq, delivered := d.delivered)
    ensures RequestInv(d)
  {
  }

  lemma ReceiveKeeps(c: State, frame: Frame)
    requires RequestInv(c) && (frame.Event? && c.socketSeq < frame.number ==> c.lastSeq <= frame.number)
    ensures RequestInv(Receive(c, frame))
  {
    var d := Receive(c, frame);
    match frame {
      case Undecodable => CursorKeeps(c, d);
      case Reply(id, answer) => ResolveKeeps(c, id, Answered(answer));
      case Event(number, entry) =>
        if !(0 < number <= c.socketSeq) {
          var moved := if number > 0 then c.(socketSeq := number, lastSeq := number) else c;
          CursorKeeps(c, moved);
          if entry.cancels.Some? {
            ResolveKeeps(moved, entry.cancels.value, Cancelled(entry.payload));
          }
          var settled := if entry.cancels.Some? then Resolve(moved, entry.cancels.value, Cancelled(entry.payload)) else moved;
          CursorKeeps(settled, d);
        }
    }
  }

  lemma TransportKeeps(c: State, d: State)
    requires RequestInv(c) && d.pending == c.pending && d.outcomes == c.outcomes && d.born == c.born
    requires d.drops == c.drops && d.lastSeq == c.lastSeq && (!d.connected ==> !c.connected && d.queue == [])
    requires forall m | m in d.queue :: m.epoch == d.epoch
    ensures RequestInv(d)
  {
  }

  lemma ActKeepsRequests(s: System, a: Action)
    requires DeliveryInv(0, s) && RequestInv(s.client) && Enabled(s, a)
    ensures RequestInv(Act(s, a).client)
  {
    var c := s.client;
    match a {
      case Attach(version) => TransportKeeps(c, Connect(c, version));
      case Deliver => ReceiveKeeps(c, s.wire[0]);
      case Break => DropKeeps(c);
      case Request(id, kind) => IssueKeeps(c, id, kind);
      case Command(kind) => TransportKeeps(c, Send(c, kind));
      case Flush => TransportKeeps(c, Write(c));
      case Timeout(ticket) => ResolveKeeps(c, c.born[ticket].requestId, TimedOut);
      case _ =>
    }
  }

  // No waiter is still parked on an outcome the journal has already delivered.
  ghost predicate CancelsHeard(s: System) {
    forall id, k | id in s.client.pending && s.client.pending[id].ticket < |s.client.born|
        && s.client.born[s.client.pending[id].ticket].cursor <= k < s.client.lastSeq && k < |s.log| && k !in s.lagged ::
      s.log[k].cancels != Some(id)
  }

  // A waiter that was there before, or one born at the present cursor.
  ghost predicate OldOrNew(c: State, d: State, id: nat)
    requires id in d.pending
  {
    || (id in c.pending && c.pending[id].ticket == d.pending[id].ticket)
    || (d.pending[id].ticket < |d.born| && d.born[d.pending[id].ticket].cursor == d.lastSeq)
  }

  // Fewer waiters, with the same births, over a log that only grew.
  lemma FewerWaiters(s: System, t: System)
    requires RequestInv(s.client) && CancelsHeard(s) && s.log <= t.log && s.client.lastSeq <= |s.log|
    requires t.client.lastSeq == s.client.lastSeq && s.client.born <= t.client.born
    requires forall k | k in s.lagged && k < s.client.lastSeq :: k in t.lagged
    requires forall id | id in t.client.pending :: OldOrNew(s.client, t.client, id)
    ensures CancelsHeard(t)
  {
    assert forall id | id in s.client.pending :: WaiterOk(s.client, s.client.pending[id]);
  }

  lemma TakenWaiters(c: State, number: nat, entry: Entry)
    requires c.socketSeq < number
    ensures var d := Receive(c, Event(number, entry));
            && d.lastSeq == number && d.born == c.born
            && forall id | id in d.pending :: id in c.pending && d.pending[id] == c.pending[id] && entry.cancels != Some(id)
  {
  }

  lemma TakeHears(s: System, t: System, number: nat)
    requires RequestInv(s.client) && CancelsHeard(s) && s.client.socketSeq <= s.client.lastSeq < number <= |s.log|
    requires forall k | s.client.lastSeq <= k < number - 1 && k !in s.lagged :: s.log[k].cancels == None
    requires t == s.(client := Receive(s.client, Event(number, s.log[number - 1])), wire := t.wire)
    ensures CancelsHeard(t)
  {
    TakenWaiters(s.client, number, s.log[number - 1]);
  }

  lemma TakeKeepsCancels(s: System)
    requires DeliveryInv(0, s) && RequestInv(s.client) && CancelsHeard(s) && s.client.connected && s.wire != []
    requires s.wire[0].Event? && s.client.lastSeq < s.wire[0].number
    ensures CancelsHeard(Act(s, Deliver))
  {
    TakeHears(s, Act(s, Deliver), s.wire[0].number);
  }

  lemma ActKeepsCancels(s: System, a: Action)
    requires DeliveryInv(0, s) && RequestInv(s.client) && CancelsHeard(s) && Enabled(s, a)
    ensures CancelsHeard(Act(s, a))
  {
    if a.Deliver? && s.wire[0].Event? && 0 < s.wire[0].number {
      if s.wire[0].number <= s.client.lastSeq {
        SkipRepeated(0, s);
      } else {
        TakeKeepsCancels(s);
      }
    } else {
      WaitersOnlyGo(s, a);
      FewerWaiters(s, Act(s, a));
    }
  }

  lemma ReceiveOnlySettles(c: State, frame: Frame)
    requires !(frame.Event? && 0 < frame.number)
    ensures var d := Receive(c, frame);
            d.lastSeq == c.lastSeq && d.born == c.born && forall id | id in d.pending :: OldOrNew(c, d, id)
  {
  }

  // Other steps move no cursor, and only a request adds a waiter.
  lemma WaitersOnlyGo(s: System, a: Action)
    requires DeliveryInv(0, s) && Enabled(s, a)
    requires !(a.Deliver? && s.wire[0].Event? && 0 < s.wire[0].number)
    ensures var c, d := s.client, Act(s, a).client;
            && d.lastSeq == c.lastSeq && c.born <= d.born && s.log <= Act(s, a).log
            && (forall k | k in s.lagged && k < c.lastSeq :: k in Act(s, a).lagged)
            && forall id | id in d.pending :: OldOrNew(c, d, id)
  {
    if a.Deliver? {
      ReceiveOnlySettles(s.client, s.wire[0]);
    }
  }

  ghost predicate SystemInv(s: System) {
    DeliveryInv(0, s) && RequestInv(s.client) && CancelsHeard(s)
  }

  lemma ActKeepsInv(s: System, a: Action)
    requires SystemInv(s) && Enabled(s, a)
    ensures SystemInv(Act(s, a))
  {
    ActKeepsDelivery(0, s, a);
    ActKeepsRequests(s, a);
    ActKeepsCancels(s, a);
  }

  lemma {:induction false} BehaviourKeepsInv(run: seq<System>, k: nat)
    requires Behaviour(run) && k < |run|
    ensures SystemInv(run[k])
  {
    if k > 0 {
      BehaviourKeepsInv(run, k - 1);
      assert StepsAt(run, k - 1);
      var a :| Enabled(run[k - 1], a) && run[k] == Act(run[k - 1], a);
      ActKeepsInv(run[k - 1], a);
    }
  }

  // Later states only add: calls, outcomes once given, drops, and the cursor.
  ghost predicate Extends(c: State, d: State) {
    && c.born <= d.born
    && c.drops <= d.drops
    && c.lastSeq <= d.lastSeq
    && forall t | t in c.outcomes :: t in d.outcomes && d.outcomes[t] == c.outcomes[t]
  }

  lemma FailuresAreFresh(c: State)
    requires RequestInv(c)
    ensures FailedTickets(c.pending) !! c.outcomes.Keys
  {
  }

  lemma ReceiveExtends(c: State, frame: Frame)
    requires RequestInv(c) && (frame.Event? && c.socketSeq < frame.number ==> c.lastSeq <= frame.number)
    ensures Extends(c, Receive(c, frame))
  {
  }

  lemma IssueExtends(c: State, id: nat, kind: Kind)
    requires RequestInv(c)
    ensures Extends(c, Issue(c, id, kind))
  {
  }

  // A call that still waits is the one under its own request id.
  lemma TimeoutFindsItsOwn(c: State, ticket: nat)
    requires RequestInv(c) && ticket < |c.born| && ticket !in c.outcomes
    ensures var id := c.born[ticket].requestId; id in c.pending && c.pending[id].ticket == ticket
  {
    assert Waiting(c, ticket);
  }

  lemma ActExtends(s: System, a: Action)
    requires SystemInv(s) && Enabled(s, a)
    ensures Extends(s.client, Act(s, a).client)
  {
    match a {
      case Break => FailuresAreFresh(s.client);
      case Deliver => ReceiveExtends(s.client, s.wire[0]);
      case Request(id, kind) => IssueExtends(s.client, id, kind);
      case Timeout(ticket) => TimeoutFindsItsOwn(s.client, ticket);
      case _ =>
    }
  }

  lemma {:induction false} BehaviourExtends(run: seq<System>, i: nat, j: nat)
    requires Behaviour(run) && i <= j < |run|
    ensures Extends(run[i].client, run[j].client)
    decreases j - i
  {
    if i < j {
      BehaviourKeepsInv(run, i);
      assert StepsAt(run, i);
      var a :| Enabled(run[i], a) && run[i + 1] == Act(run[i], a);
      ActExtends(run[i], a);
      BehaviourExtends(run, i + 1, j);
    }
  }

  // ------------------------------------------------------------ Main theorems

  // Whatever the interleaving of connects, drops and repeated frames, the
  // journaled events subscribers saw are the journal up to the cursor, in
  // order, each once, but for what a forwarder that fell behind skipped; and no
  // numbered event at all arrives twice.
  lemma JournalIsDeliveredOnce(run: seq<System>, k: nat)
    requires Behaviour(run) && k < |run|
    ensures var s := run[k];
            && s.client.lastSeq <= |s.log|
            && Journaled(s.client.delivered) == Journal(s.log, s.lagged, 0, s.client.lastSeq)
            && Increasing(Numbers(s.client.delivered), s.client.lastSeq)
  {
    BehaviourKeepsInv(run, k);
  }

  // Every call is waiting or resolved, never both, and an outcome once given
  // is never replaced.
  lemma RequestsResolveOnce(run: seq<System>, i: nat, j: nat, ticket: nat)
    requires Behaviour(run) && i <= j < |run| && ticket < |run[i].client.born|
    ensures ticket in run[j].client.outcomes <==> !Waiting(run[j].client, ticket)
    ensures ticket in run[i].client.outcomes ==>
              ticket in run[j].client.outcomes && run[j].client.outcomes[ticket] == run[i].client.outcomes[ticket]
  {
    BehaviourExtends(run, i, j);
    BehaviourKeepsInv(run, j);
    assert forall id | id in run[j].client.pending :: WaiterOk(run[j].client, run[j].client.pending[id]);
  }

  // What a drop does to a call, exactly: one that still waits is a queued
  // message's cancellation not yet dropped on, and goes on waiting under its id,
  // or it is told the connection was lost. Calls already resolved keep their
  // outcome; the queue is thrown away and subscribers are told how much was in it.
  lemma BreakSettlesExactly(run: seq<System>, k: nat, ticket: nat)
    requires Behaviour(run) && k < |run| && Enabled(run[k], Break) && ticket < |run[k].client.born|
    ensures var c, d := run[k].client, Act(run[k], Break).client;
            var birth := c.born[ticket];
            && d.born == c.born
            && (ticket in c.outcomes ==> ticket in d.outcomes && d.outcomes[ticket] == c.outcomes[ticket])
            && (ticket !in c.outcomes ==>
                  if birth.kind.CancelQueued? && birth.drops == c.drops
                  then ticket !in d.outcomes && birth.requestId in d.pending && d.pending[birth.requestId].ticket == ticket
                  else ticket in d.outcomes && d.outcomes[ticket] == ConnectionLost)
  {
    BehaviourKeepsInv(run, k);
    DropSettlesExactly(run[k].client, ticket);
  }

  lemma DropSettlesExactly(c: State, ticket: nat)
    requires RequestInv(c) && c.connected && ticket < |c.born|
    ensures var d := Drop(c);
            var birth := c.born[ticket];
            && d.born == c.born
            && (ticket in c.outcomes ==> ticket in d.outcomes && d.outcomes[ticket] == c.outcomes[ticket])
            && (ticket !in c.outcomes ==>
                  if birth.kind.CancelQueued? && birth.drops == c.drops
                  then ticket !in d.outcomes && birth.requestId in d.pending && d.pending[birth.requestId].ticket == ticket
                  else ticket in d.outcomes && d.outcomes[ticket] == ConnectionLost)
  {
    FailuresAreFresh(c);
    if ticket !in c.outcomes {
      TimeoutFindsItsOwn(c, ticket);
      var id := c.born[ticket].requestId;
      assert WaiterOk(c, c.pending[id]);
      if Survives(c.pending[id]) {
        FailedIsAnother(c, id);
      } else {
        assert ticket in FailedTickets(c.pending);
      }
    }
  }

  lemma FailedIsAnother(c: State, id: nat)
    requires RequestInv(c) && id in c.pending && Survives(c.pending[id])
    ensures c.pending[id].ticket !in FailedTickets(c.pending)
  {
  }

  lemma BreakTells(run: seq<System>, k: nat)
    requires Behaviour(run) && k < |run| && Enabled(run[k], Break)
    ensures var c, d := run[k].client, Act(run[k], Break).client;
            && !d.connected && d.queue == [] && d.drops == c.drops + 1 && d.lastSeq == c.lastSeq
            && (c.queue == [] ==> d.delivered == c.delivered + [Disconnected])
            && (c.queue != [] ==> d.delivered == c.delivered + [DroppedCommands(|c.queue|), Disconnected])
  {
  }

  // A cancellation that arrives, on this socket or after a drop that its caller
  // outlived, is that caller's answer.
  lemma CancellationResolves(run: seq<System>, k: nat, ticket: nat)
    requires Behaviour(run) && k < |run| && Enabled(run[k], Deliver)
    requires ticket < |run[k].client.born| && ticket !in run[k].client.outcomes
    requires run[k].wire[0].Event? && run[k].wire[0].entry.cancels == Some(run[k].client.born[ticket].requestId)
    requires run[k].wire[0].number == 0 || run[k].client.socketSeq < run[k].wire[0].number
    ensures var d := Act(run[k], Deliver).client;
            && ticket in d.outcomes && d.outcomes[ticket] == Cancelled(run[k].wire[0].entry.payload)
            && run[k].client.born[ticket].requestId !in d.pending
  {
    BehaviourKeepsInv(run, k);
    TimeoutFindsItsOwn(run[k].client, ticket);
  }

  // A call is refused without a connection or by a daemon too old for its kind;
  // otherwise it waits under its id, last in the queue, and a call already
  // waiting there is told its id was reused.
  lemma IssueDecides(run: seq<System>, k: nat, id: nat, kind: Kind)
    requires Behaviour(run) && k < |run|
    ensures var c, d := run[k].client, Act(run[k], Request(id, kind)).client;
            var ticket := |c.born|;
            var needed := match kind case EditorLsp => 8 case GuardedFile => 7 case FileSearch => 6 case _ => 2;
            && |d.born| == ticket + 1 && d.born[ticket].requestId == id && d.born[ticket].kind == kind
            && (!c.connected ==> ticket in d.outcomes && d.outcomes[ticket] == NotConnected && d.pending == c.pending)
            && (c.connected && c.version < needed ==>
                  ticket in d.outcomes && d.outcomes[ticket] == Unsupported && d.pending == c.pending)
            && (c.connected && c.version >= needed ==>
                  && ticket !in d.outcomes && id in d.pending && d.pending[id].ticket == ticket
                  && d.queue == c.queue + [Outbound(Some(id), c.epoch)]
                  && (forall x | x != id :: x in c.pending <==> x in d.pending)
                  && (forall x | x != id && x in c.pending :: d.pending[x] == c.pending[x])
                  && (id in c.pending ==> c.pending[id].ticket in d.outcomes && d.outcomes[c.pending[id].ticket] == Reused))
  {
    BehaviourKeepsInv(run, k);
    assert id in run[k].client.pending ==> WaiterOk(run[k].client, run[k].client.pending[id]);
  }

  // A command joins the end of the queue of a live connection that understands
  // it, and is refused otherwise.
  lemma SendDecides(run: seq<System>, k: nat, kind: Kind)
    requires Behaviour(run) && k < |run|
    ensures var c, d := run[k].client, Act(run[k], Command(kind)).client;
            d == if c.connected && (kind == EditorLsp ==> c.version >= 8)
                 then c.(queue := c.queue + [Outbound(None, c.epoch)]) else c
  {
  }

  // Subscribers hear of every frame that is no reply and no repeat, in its turn.
  lemma FramesAreTold(run: seq<System>, k: nat)
    requires Behaviour(run) && k < |run| && Enabled(run[k], Deliver)
    ensures var c, d, frame := run[k].client, Act(run[k], Deliver).client, run[k].wire[0];
            && (frame.Undecodable? ==> d == c.(delivered := c.delivered + [BadFrame]))
            && (frame.Reply? ==> d.delivered == c.delivered && d.lastSeq == c.lastSeq && d.socketSeq == c.socketSeq)
            && (frame.Event? && 0 < frame.number <= c.socketSeq ==> d == c)
            && (frame.Event? && (frame.number == 0 || c.socketSeq < frame.number) ==>
                  d.delivered == c.delivered + [Delivered(frame.number, frame.entry)])
  {
  }

  // A new connection has an epoch and a socket cursor of its own and an empty
  // queue; it keeps the resume cursor and whoever still waits.
  lemma AttachStartsAfresh(run: seq<System>, k: nat, version: nat)
    requires Behaviour(run) && k < |run| && Enabled(run[k], Attach(version))
    ensures var c, d := run[k].client, Act(run[k], Attach(version)).client;
            && d.connected && d.version == version && d.socketSeq == 0 && d.queue == []
            && d.epoch == c.epoch + 1 && d.lastSeq == c.lastSeq && d.pending == c.pending && d.outcomes == c.outcomes
            && Act(run[k], Attach(version)).since == c.lastSeq
  {
    BehaviourKeepsInv(run, k);
  }

  // A reply answers the one call that waits under its id.
  lemma ReplyResolves(run: seq<System>, k: nat, ticket: nat)
    requires Behaviour(run) && k < |run| && Enabled(run[k], Deliver) && run[k].wire[0].Reply?
    requires ticket < |run[k].client.born| && ticket !in run[k].client.outcomes
    ensures var c, d := run[k].client, Act(run[k], Deliver).client;
            if c.born[ticket].requestId == run[k].wire[0].requestId
            then ticket in d.outcomes && d.outcomes[ticket] == Answered(run[k].wire[0].answer)
            else ticket !in d.outcomes && Waiting(d, ticket)
  {
    BehaviourKeepsInv(run, k);
    var c, d := run[k].client, Act(run[k], Deliver).client;
    TimeoutFindsItsOwn(c, ticket);
    var id := c.born[ticket].requestId;
    assert id != run[k].wire[0].requestId ==> id in d.pending && d.pending[id].ticket == ticket;
  }

  lemma ActQueues(s: System, a: Action)
    requires Enabled(s, a) && !a.Break?
    ensures var c, d := s.client, Act(s, a).client;
            c.written <= d.written && c.queue <= d.written[|c.written|..] + d.queue
  {
  }

  // As long as nothing drops, what was queued is written first and in order.
  lemma {:induction false} CommandsLeaveInOrder(run: seq<System>, i: nat, j: nat)
    requires Behaviour(run) && i <= j < |run| && run[i].client.drops == run[j].client.drops
    ensures run[i].client.written <= run[j].client.written
    ensures run[i].client.queue <= run[j].client.written[|run[i].client.written|..] + run[j].client.queue
    decreases j - i
  {
    if i < j {
      NoDropBetween(run, i, j);
      CommandsLeaveInOrder(run, i, j - 1);
      var a := ActionTaken(run, j - 1);
      ActQueues(run[j - 1], a);
      QueuesJoin(run[i].client, run[j - 1].client, run[j].client);
    }
  }

  lemma ActionTaken(run: seq<System>, k: nat) returns (a: Action)
    requires Behaviour(run) && k < |run| - 1
    ensures Enabled(run[k], a) && run[k + 1] == Act(run[k], a)
  {
    assert StepsAt(run, k);
    a :| Enabled(run[k], a) && run[k + 1] == Act(run[k], a);
  }

  lemma NoDropBetween(run: seq<System>, i: nat, j: nat)
    requires Behaviour(run) && i < j < |run| && run[i].client.drops == run[j].client.drops
    ensures run[j - 1].client.drops == run[i].client.drops
    ensures forall a | Enabled(run[j - 1], a) && run[j] == Act(run[j - 1], a) :: !a.Break?
  {
    BehaviourExtends(run, i, j - 1);
    BehaviourExtends(run, j - 1, j);
  }

  lemma QueuesJoin(a: State, b: State, c: State)
    requires a.written <= b.written && a.queue <= b.written[|a.written|..] + b.queue
    requires b.written <= c.written && b.queue <= c.written[|b.written|..] + c.queue
    ensures a.written <= c.written && a.queue <= c.written[|a.written|..] + c.queue
  {
    assert c.written[|a.written|..] == b.written[|a.written|..] + c.written[|b.written|..];
    assert c.written[|a.written|..] + c.queue == b.written[|a.written|..] + (c.written[|b.written|..] + c.queue);
  }

  // A call outlives a drop only if its outcome is journaled, and never two.
  lemma DropsSettleCalls(run: seq<System>, i: nat, j: nat, ticket: nat)
    requires Behaviour(run) && i <= j < |run| && ticket < |run[i].client.born|
    ensures run[i].client.drops + 2 <= run[j].client.drops ==> ticket in run[j].client.outcomes
    ensures run[i].client.drops < run[j].client.drops ==>
              ticket in run[j].client.outcomes
              || exists id :: id in run[j].client.pending && run[j].client.pending[id] == Waiter(ticket, true, true)
  {
    BehaviourExtends(run, i, j);
    BehaviourKeepsInv(run, i);
    BehaviourKeepsInv(run, j);
    var c := run[j].client;
    assert c.born[ticket] == run[i].client.born[ticket];
    if ticket !in c.outcomes {
      var id :| id in c.pending && c.pending[id].ticket == ticket;
      assert WaiterOk(c, c.pending[id]);
    }
  }

  // A waiter whose cancellation was journaled after it was issued is settled
  // as soon as the cursor passes that event, on this socket or a later one.
  lemma JournaledOutcomesAreHeard(run: seq<System>, k: nat, id: nat, event: nat)
    requires Behaviour(run) && k < |run|
    requires event < run[k].client.lastSeq && event < |run[k].log| && run[k].log[event].cancels == Some(id)
    requires event !in run[k].lagged
    requires id in run[k].client.pending
    ensures run[k].client.pending[id].ticket < |run[k].client.born|
    ensures event < run[k].client.born[run[k].client.pending[id].ticket].cursor
  {
    BehaviourKeepsInv(run, k);
    assert WaiterOk(run[k].client, run[k].client.pending[id]);
  }

  // Nothing queued on an earlier connection is ever written to a later one.
  lemma NoStaleCommandIsWritten(run: seq<System>, k: nat)
    requires Behaviour(run) && k < |run| && Enabled(run[k], Flush)
    ensures run[k].client.queue[0].epoch == run[k].client.epoch
    ensures forall m | m in run[k].client.queue :: m.epoch == run[k].client.epoch
  {
    BehaviourKeepsInv(run, k);
  }

  // A timeout settles the call it belongs to and takes out no other waiter.
  lemma TimeoutSettlesItsOwn(run: seq<System>, k: nat, ticket: nat)
    requires Behaviour(run) && k < |run| && Enabled(run[k], Timeout(ticket))
    ensures var c, d := run[k].client, Act(run[k], Timeout(ticket)).client;
            var id := c.born[ticket].requestId;
            && id in c.pending && c.pending[id].ticket == ticket
            && d.pending == c.pending - {id} && d.outcomes == c.outcomes[ticket := TimedOut]
  {
    BehaviourKeepsInv(run, k);
    TimeoutFindsItsOwn(run[k].client, ticket);
  }
}
