// The client of `RemoteSession` against a daemon that has restarted: the journal
// and its numbering lived in the daemon's memory and begin again, while the
// client keeps the cursor it had.
module RemoteRestart {
  import opened RemoteSession
  import opened RemoteProtocol

  // `delivered` is counted from the restart on.
  function Restarted(c: State): System {
    System(c.(delivered := []), [], 0, 0, 0, {}, [])
  }

  // A disconnected client, whatever its cursor, and what follows.
  ghost predicate Afterwards(c: State, run: seq<System>) {
    && !c.connected && run != []
    && run[0] == Restarted(c)
    && forall k | 0 <= k < |run| - 1 :: StepsAt(run, k)
  }

  // No numbered event has come since the restart.
  predicate Silent(s: System) {
    Numbers(s.client.delivered) == []
  }

  // Until one does, the old cursor stands, and each socket starts after it or
  // after the whole of the new log, whichever is less.
  ghost predicate SilentInv(stale: nat, s: System) {
    && Silent(s) && Journaled(s.client.delivered) == []
    && s.client.lastSeq == stale
    && (forall k | 0 <= k < |s.log| :: s.log[k].cancels.Some? ==> s.log[k].journaled)
    && (s.client.connected ==>
          && s.attached <= |s.log| && s.since == Min(stale, s.attached) && s.since <= s.cursor <= |s.log|
          && (forall k | k in s.lagged :: k < s.cursor)
          && s.client.socketSeq == 0
          && WireOk(s, s.since, s.wire))
  }

  // --------------------------------------------------- Before anything is heard

  lemma LogStaysSilent(stale: nat, s: System, entry: Entry)
    requires SilentInv(stale, s) && Enabled(s, Log(entry))
    ensures SilentInv(stale, Act(s, Log(entry)))
  {
    if s.client.connected {
      LogKeepsWire(s, entry, s.since, s.wire);
    }
  }

  lemma ForwardStaysSilent(stale: nat, s: System)
    requires SilentInv(stale, s) && Enabled(s, Forward)
    ensures SilentInv(stale, Act(s, Forward))
  {
    if Forwardable(s, s.cursor + 1) {
      WireAppend(s, Act(s, Forward), s.since, s.wire, Event(s.cursor + 1, s.log[s.cursor]));
    } else {
      SkipKeepsWire(s, Act(s, Forward), s.since, s.wire);
    }
  }

  lemma LagStaysSilent(stale: nat, s: System, count: nat, notice: Entry)
    requires SilentInv(stale, s) && Enabled(s, Lag(count, notice))
    ensures SilentInv(stale, Act(s, Lag(count, notice)))
  {
    var t := Act(s, Lag(count, notice));
    var skipped := s.(cursor := t.cursor, lagged := t.lagged);
    SkipKeepsWire(s, skipped, s.since, s.wire);
    WireAppend(skipped, t, s.since, s.wire, Event(0, notice));
  }

  lemma FeedStaysSilent(stale: nat, s: System, a: Action)
    requires SilentInv(stale, s) && Enabled(s, a) && Feeds(a)
    ensures SilentInv(stale, Act(s, a))
  {
    match a {
      case Repeat(number) => WireAppend(s, Act(s, a), s.since, s.wire, Event(number, s.log[number - 1]));
      case Notice(entry) => WireAppend(s, Act(s, a), s.since, s.wire, Event(0, entry));
      case Answer(requestId, answer) => WireAppend(s, Act(s, a), s.since, s.wire, Reply(requestId, answer));
      case Garble => WireAppend(s, Act(s, a), s.since, s.wire, Undecodable);
    }
  }

  lemma CallStaysSilent(stale: nat, s: System, a: Action)
    requires SilentInv(stale, s) && Enabled(s, a) && (a.Request? || a.Command? || a.Flush? || a.Timeout?)
    ensures SilentInv(stale, Act(s, a))
  {
    if s.client.connected {
      SameWire(s, Act(s, a), s.since, s.wire);
    }
  }

  lemma UnnumberedStaysSilent(stale: nat, s: System)
    requires SilentInv(stale, s) && Enabled(s, Deliver) && (s.wire[0].Event? ==> s.wire[0].number == 0)
    ensures SilentInv(stale, Act(s, Deliver))
  {
    UnnumberedDelivers(s.client, s.wire[0]);
    SameWire(s, Act(s, Deliver), s.since, s.wire[1..]);
    UnnumberedStaysConnected(s.client, s.wire[0]);
  }

  lemma UnnumberedStaysConnected(c: State, frame: Frame)
    requires frame.Event? ==> frame.number == 0
    ensures Receive(c, frame).connected == c.connected
  {
  }

  lemma BreakStaysSilent(stale: nat, s: System)
    requires SilentInv(stale, s) && Enabled(s, Break)
    ensures SilentInv(stale, Act(s, Break))
  {
    DropDelivers(s.client);
    assert Act(s, Break).client == Drop(s.client);
  }

  // A numbered event arrives.
  predicate Hears(s: System, a: Action)
    requires Enabled(s, a)
  {
    a.Deliver? && s.wire[0].Event? && s.wire[0].number > 0
  }

  lemma ActStaysSilent(stale: nat, s: System, a: Action)
    requires SilentInv(stale, s) && Enabled(s, a) && !Hears(s, a)
    ensures SilentInv(stale, Act(s, a))
  {
    match a {
      case Log(entry) => LogStaysSilent(stale, s, entry);
      case Attach(_) =>
      case Forward => ForwardStaysSilent(stale, s);
      case Lag(count, notice) => LagStaysSilent(stale, s, count, notice);
      case Deliver => UnnumberedStaysSilent(stale, s);
      case Break => BreakStaysSilent(stale, s);
      case _ => if Feeds(a) { FeedStaysSilent(stale, s, a); } else { CallStaysSilent(stale, s, a); }
    }
  }

  // ------------------------------------------------------- The first one heard

  lemma FirstFrame(stale: nat, s: System)
    requires SilentInv(stale, s) && s.client.connected && s.wire != [] && s.wire[0].Event? && s.wire[0].number > 0
    ensures var number := s.wire[0].number;
            && s.since < number <= s.cursor && s.wire[0].entry == s.log[number - 1] && number - 1 !in s.lagged
            && Quiet(s.log, s.lagged, s.since, number - 1) && WireOk(s, number, s.wire[1..])
  {
    WireReaches(s, s.wire[0].number, s.wire[1..]);
  }

  lemma FirstDelivers(c: State, number: nat, entry: Entry)
    requires c.connected && c.socketSeq == 0 < number && Numbers(c.delivered) == [] && Journaled(c.delivered) == []
    ensures var d := Receive(c, Event(number, entry));
            && d.lastSeq == d.socketSeq == number && d.connected
            && Numbers(d.delivered) == [number]
            && Journaled(d.delivered) == if entry.journaled then [(number, entry)] else []
  {
    AppendDelivery(c.delivered, Delivered(number, entry));
  }

  // It sets the cursor; the new log up to where its socket started is behind it.
  lemma FirstIsHeard(stale: nat, s: System)
    requires SilentInv(stale, s) && Enabled(s, Deliver) && Hears(s, Deliver)
    ensures DeliveryInv(s.since, Act(s, Deliver)) && !Silent(Act(s, Deliver))
  {
    var number, t := s.wire[0].number, Act(s, Deliver);
    FirstFrame(stale, s);
    FirstDelivers(s.client, number, s.wire[0].entry);
    SameWire(s, t, number, s.wire[1..]);
    QuietJournal(s.log, s.lagged, s.since, s.since, number - 1);
    assert Journal(s.log, s.lagged, s.since, s.since) == [];
  }

  lemma HeardStaysHeard(lost: nat, s: System, a: Action)
    requires DeliveryInv(lost, s) && Enabled(s, a) && !Silent(s)
    ensures !Silent(Act(s, a))
  {
    match a {
      case Deliver =>
        var c, frame := s.client, s.wire[0];
        if frame.Event? && frame.number > 0 {
          AppendDelivery(c.delivered, Delivered(frame.number, frame.entry));
        } else {
          UnnumberedDelivers(c, frame);
        }
      case Break => DropDelivers(s.client);
      case _ =>
    }
  }

  // --------------------------------------------------------------- Whole runs

  // The socket that state m sits on is the one that brings the first event.
  ghost predicate FirstHeardAfter(c: State, run: seq<System>, m: nat)
    requires m < |run| - 1
  {
    Silent(run[m]) && !Silent(run[m + 1]) && run[m].since == Min(c.lastSeq, run[m].attached)
  }

  lemma ActionAt(c: State, run: seq<System>, k: nat) returns (a: Action)
    requires Afterwards(c, run) && k < |run| - 1
    ensures Enabled(run[k], a) && run[k + 1] == Act(run[k], a)
  {
    assert StepsAt(run, k);
    a :| Enabled(run[k], a) && run[k + 1] == Act(run[k], a);
  }

  lemma SilentStep(c: State, run: seq<System>, k: nat)
    requires Afterwards(c, run) && k < |run| - 1 && SilentInv(c.lastSeq, run[k])
    ensures if Silent(run[k + 1]) then SilentInv(c.lastSeq, run[k + 1])
            else DeliveryInv(run[k].since, run[k + 1]) && FirstHeardAfter(c, run, k)
  {
    var a := ActionAt(c, run, k);
    if Hears(run[k], a) {
      FirstIsHeard(c.lastSeq, run[k]);
    } else {
      ActStaysSilent(c.lastSeq, run[k], a);
    }
  }

  lemma HeardStep(c: State, run: seq<System>, k: nat, lost: nat)
    requires Afterwards(c, run) && k < |run| - 1 && DeliveryInv(lost, run[k]) && !Silent(run[k])
    ensures DeliveryInv(lost, run[k + 1]) && !Silent(run[k + 1])
  {
    var a := ActionAt(c, run, k);
    ActKeepsDelivery(lost, run[k], a);
    HeardStaysHeard(lost, run[k], a);
  }

  lemma {:induction false} RestartInv(c: State, run: seq<System>, k: nat) returns (m: nat)
    requires Afterwards(c, run) && k < |run|
    ensures if Silent(run[k]) then SilentInv(c.lastSeq, run[k])
            else m < k && FirstHeardAfter(c, run, m) && DeliveryInv(run[m].since, run[k])
  {
    m := 0;
    if k > 0 {
      m := RestartInv(c, run, k - 1);
      if Silent(run[k - 1]) {
        SilentStep(c, run, k - 1);
        m := k - 1;
      } else {
        HeardStep(c, run, k - 1, run[m].since);
      }
    }
  }

  lemma {:induction false} JournalHolds(log: seq<Entry>, lagged: set<nat>, from: nat, n: nat, i: nat)
    requires i < |log| && n <= |log|
    ensures (i + 1, log[i]) in Journal(log, lagged, from, n) <==> from <= i < n && Kept(log, lagged, i)
  {
    if from < n {
      JournalHolds(log, lagged, from, n - 1, i);
    }
  }

  // ------------------------------------------------------------ Main theorems

  // What a restart costs the client. While no numbered event has come it keeps
  // its stale cursor; from the first one on it has heard the new journal in order
  // and each entry once, but for the entries numbered up to its stale cursor that
  // were logged before the socket it first heard one on, and those a forwarder
  // skipped.
  lemma RestartLosesExactly(c: State, run: seq<System>, k: nat) returns (m: nat)
    requires Afterwards(c, run) && k < |run|
    ensures Silent(run[k]) ==> run[k].client.lastSeq == c.lastSeq && Journaled(run[k].client.delivered) == []
    ensures !Silent(run[k]) ==>
              m < k &&
              var s, lost := run[k], Min(c.lastSeq, run[m].attached);
              && Silent(run[m]) && !Silent(run[m + 1])
              && lost <= s.client.lastSeq <= |s.log|
              && Journaled(s.client.delivered) == Journal(s.log, s.lagged, lost, s.client.lastSeq)
              && Increasing(Numbers(s.client.delivered), s.client.lastSeq)
              && forall i | 0 <= i < s.client.lastSeq ::
                   (i + 1, s.log[i]) in Journaled(s.client.delivered)
                   <==> lost <= i && s.log[i].journaled && i !in s.lagged
  {
    m := RestartInv(c, run, k);
    if !Silent(run[k]) {
      var s := run[k];
      forall i | 0 <= i < s.client.lastSeq
        ensures (i + 1, s.log[i]) in Journaled(s.client.delivered) <==> run[m].since <= i && Kept(s.log, s.lagged, i)
      {
        JournalHolds(s.log, s.lagged, run[m].since, s.client.lastSeq, i);
      }
    }
  }

  lemma OneMore(c: State, run: seq<System>, a: Action)
    requires Afterwards(c, run) && Enabled(run[|run| - 1], a)
    ensures Afterwards(c, run + [Act(run[|run| - 1], a)])
  {
    var more := run + [Act(run[|run| - 1], a)];
    forall k | 0 <= k < |more| - 1 ensures StepsAt(more, k) {
      assert k < |run| - 1 ==> StepsAt(run, k);
    }
  }

  // Logged before the client is back: a cursor of at least 1 has it start after.
  lemma BackAfterTheFirst(c: State, version: nat, first: Entry) returns (run: seq<System>)
    requires !c.connected && c.lastSeq > 0 && first.journaled
    ensures Afterwards(c, run)
    ensures run[|run| - 1] == System(Connect(c.(delivered := []), version), [first], 1, 1, 1, {}, [])
  {
    run := [Restarted(c)];
    OneMore(c, run, Log(first));
    run := run + [Act(run[0], Log(first))];
    OneMore(c, run, Attach(version));
    run := run + [Act(run[1], Attach(version))];
    assert run[2].lagged == {};
  }

  lemma LogAndForward(c: State, run: seq<System>, second: Entry) returns (more: seq<System>)
    requires Afterwards(c, run) && second.cancels.None?
    requires var s := run[|run| - 1]; s.client.connected && s.cursor == |s.log| == s.attached
    ensures Afterwards(c, more)
    ensures var s := run[|run| - 1];
            more[|more| - 1] == s.(log := s.log + [second], cursor := |s.log| + 1, wire := s.wire + [Event(|s.log| + 1, second)])
  {
    OneMore(c, run, Log(second));
    more := run + [Act(run[|run| - 1], Log(second))];
    OneMore(c, more, Forward);
    more := more + [Act(more[|more| - 1], Forward)];
  }

  // Any cursor at all loses the first entry a restarted daemon logs before the
  // client is back, although the daemon still holds it.
  lemma RestartLosesAnEntry(c: State, version: nat, first: Entry, second: Entry) returns (run: seq<System>)
    requires !c.connected && c.lastSeq > 0
    requires first.journaled && second.journaled && second.cancels.None?
    ensures Afterwards(c, run)
    ensures var s := run[|run| - 1];
            && s.log == [first, second] && s.lagged == {} && s.client.lastSeq == 2
            && Journaled(s.client.delivered) == [(2, second)]
  {
    var back := BackAfterTheFirst(c, version, first);
    run := LogAndForward(c, back, second);
    OneMore(c, run, Deliver);
    FirstDelivers(run[|run| - 1].client, 2, second);
    run := run + [Act(run[|run| - 1], Deliver)];
  }
}
