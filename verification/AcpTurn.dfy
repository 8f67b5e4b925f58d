// What an agent's session updates add up to: the reply, the tool activities
// with the text spoken before each, and the latest plan.
module AcpTurn {
  import opened Outcomes

  datatype TurnEvent =
    | Text(text: string)
    | Plan(plan: string)
    | ToolStart(call: string, name: string, arguments: string)
    | ToolEnd(call: string, name: string, result: string)
    | Quiet

  datatype Notification = Notification(session: string, events: seq<TurnEvent>)

  datatype Tool = Tool(preamble: string, call: string, name: string, arguments: string, result: Option<string>)

  datatype Turn = Turn(reply: string, tools: seq<Tool>, plan: Option<string>)

  const FRESH: Turn := Turn("", [], None)

  // The newest activity of a call.
  function Latest(tools: seq<Tool>, call: string): (r: Option<nat>)
    ensures r.Some? ==> r.value < |tools| && tools[r.value].call == call
    ensures r.Some? ==> forall k | r.value < k < |tools| :: tools[k].call != call
    ensures r.None? ==> forall k | 0 <= k < |tools| :: tools[k].call != call
  {
    if tools == [] then None
    else if tools[|tools| - 1].call == call then Some(|tools| - 1)
    else Latest(tools[..|tools| - 1], call)
  }

  function Absorb(t: Turn, e: TurnEvent): Turn {
    match e
    case Text(text) => t.(reply := t.reply + text)
    case Plan(plan) => t.(plan := Some(plan))
    case ToolStart(call, name, arguments) =>
      t.(tools := t.tools + [Tool(t.reply, call, name, arguments, None)], reply := "")
    case ToolEnd(call, name, result) =>
      (match Latest(t.tools, call)
       case Some(k) => t.(tools := t.tools[k := t.tools[k].(result := Some(result))])
       case None => t.(tools := t.tools + [Tool(t.reply, call, name, "", Some(result))], reply := ""))
    case Quiet => t
  }

  function AbsorbAll(t: Turn, events: seq<TurnEvent>): Turn {
    if events == [] then t else Absorb(AbsorbAll(t, events[..|events| - 1]), events[|events| - 1])
  }

  // The events of one session's notifications, in order.
  function EventsOf(session: string, notes: seq<Notification>): seq<TurnEvent> {
    if notes == [] then []
    else
      var last := notes[|notes| - 1];
      EventsOf(session, notes[..|notes| - 1]) + if last.session == session then last.events else []
  }

  function Collected(session: string, notes: seq<Notification>): Turn {
    AbsorbAll(FRESH, EventsOf(session, notes))
  }

  class Collector {
    var reply: string
    var tools: seq<Tool>
    var plan: Option<string>

    ghost function Contents(): Turn
      reads this
    {
      Turn(reply, tools, plan)
    }

    constructor ()
      ensures Contents() == FRESH
    {
      reply, tools, plan := "", [], None;
    }

    method ForwardUpdate(note: Notification, session: string)
      modifies this
      ensures Contents() == AbsorbAll(old(Contents()), EventsOf(session, [note]))
    {
      assert [note][..0] == [];
      if note.session != session {
        return;
      }
      assert EventsOf(session, [note]) == note.events;
      for i := 0 to |note.events|
        invariant Contents() == AbsorbAll(old(Contents()), note.events[..i])
      {
        assert note.events[..i + 1][..i] == note.events[..i];
        match note.events[i] {
          case Text(text) => reply := reply + text;
          case Plan(updated) => plan := Some(updated);
          case ToolStart(call, name, arguments) =>
            tools := tools + [Tool(reply, call, name, arguments, None)];
            reply := "";
          case ToolEnd(call, name, result) => Finish(call, name, result);
          case Quiet =>
        }
      }
      assert note.events[..|note.events|] == note.events;
    }

    method Finish(call: string, name: string, result: string)
      modifies this
      ensures Contents() == Absorb(old(Contents()), ToolEnd(call, name, result))
    {
      var k := |tools|;
      assert tools[..k] == tools;
      while k > 0
        invariant 0 <= k <= |tools| && Contents() == old(Contents())
        invariant Latest(tools, call) == Latest(tools[..k], call)
      {
        k := k - 1;
        assert tools[..k + 1][..k] == tools[..k];
        if tools[k].call == call {
          tools := tools[k := tools[k].(result := Some(result))];
          return;
        }
      }
      tools := tools + [Tool(reply, call, name, "", Some(result))];
      reply := "";
    }

    // Everything already queued when the prompt was answered.
    method Drain(queued: seq<Notification>, session: string)
      modifies this
      ensures Contents() == AbsorbAll(old(Contents()), EventsOf(session, queued))
    {
      for i := 0 to |queued|
        invariant Contents() == AbsorbAll(old(Contents()), EventsOf(session, queued[..i]))
      {
        assert queued[..i + 1] == queued[..i] + [queued[i]];
        EventsJoin(session, queued[..i], [queued[i]]);
        AbsorbJoins(old(Contents()), EventsOf(session, queued[..i]), EventsOf(session, [queued[i]]));
        ForwardUpdate(queued[i], session);
      }
      assert queued[..|queued|] == queued;
    }
  }

  lemma {:induction false} EventsJoin(session: string, a: seq<Notification>, b: seq<Notification>)
    ensures EventsOf(session, a + b) == EventsOf(session, a) + EventsOf(session, b)
  {
    if b == [] {
      assert a + b == a;
    } else {
      EventsJoin(session, a, b[..|b| - 1]);
      assert (a + b)[..|a + b| - 1] == a + b[..|b| - 1];
    }
  }

  lemma {:induction false} AbsorbJoins(t: Turn, a: seq<TurnEvent>, b: seq<TurnEvent>)
    ensures AbsorbAll(t, a + b) == AbsorbAll(AbsorbAll(t, a), b)
  {
    if b == [] {
      assert a + b == a;
    } else {
      AbsorbJoins(t, a, b[..|b| - 1]);
      assert (a + b)[..|a + b| - 1] == a + b[..|b| - 1];
    }
  }

  // --------------------------------------------------------------- The text

  function Preambles(tools: seq<Tool>): string {
    if tools == [] then "" else Preambles(tools[..|tools| - 1]) + tools[|tools| - 1].preamble
  }

  function Streamed(events: seq<TurnEvent>): string {
    if events == [] then ""
    else Streamed(events[..|events| - 1]) + if events[|events| - 1].Text? then events[|events| - 1].text else ""
  }

  lemma {:induction false} SamePreambles(a: seq<Tool>, b: seq<Tool>)
    requires |a| == |b| && forall k | 0 <= k < |a| :: a[k].preamble == b[k].preamble
    ensures Preambles(a) == Preambles(b)
  {
    if a != [] {
      SamePreambles(a[..|a| - 1], b[..|b| - 1]);
    }
  }

  lemma AbsorbKeepsText(t: Turn, e: TurnEvent)
    ensures var after := Absorb(t, e);
            Preambles(after.tools) + after.reply
            == Preambles(t.tools) + t.reply + if e.Text? then e.text else ""
  {
    var after := Absorb(t, e);
    if |after.tools| == |t.tools| {
      SamePreambles(after.tools, t.tools);
    } else {
      assert after.tools[..|after.tools| - 1] == t.tools;
    }
  }

  // No character is lost, repeated or reordered: the preambles and the reply,
  // joined, are the text the agent streamed.
  lemma {:induction false} TextIsConserved(events: seq<TurnEvent>)
    ensures Preambles(AbsorbAll(FRESH, events).tools) + AbsorbAll(FRESH, events).reply == Streamed(events)
  {
    if events != [] {
      TextIsConserved(events[..|events| - 1]);
      AbsorbKeepsText(AbsorbAll(FRESH, events[..|events| - 1]), events[|events| - 1]);
    }
  }

  // -------------------------------------------------------------- The tools

  lemma LatestIs(tools: seq<Tool>, k: nat, call: string)
    requires k < |tools| && tools[k].call == call
    requires forall i | k < i < |tools| :: tools[i].call != call
    ensures Latest(tools, call) == Some(k)
  {
  }

  ghost predicate Kept(tools: seq<Tool>, j: nat, a: Tool, call: string, reopened: bool) {
    && j < |tools| && tools[j] == a && a.call == call
    && if reopened then exists k :: j < k < |tools| && tools[k].call == call else Latest(tools, call) == Some(j)
  }

  lemma KeptStep(t: Turn, e: TurnEvent, j: nat, a: Tool, call: string, reopened: bool)
    requires Kept(t.tools, j, a, call, reopened)
    requires reopened || !e.ToolEnd? || e.call != call
    ensures Kept(Absorb(t, e).tools, j, a, call, reopened || (e.ToolStart? && e.call == call))
  {
    var after := Absorb(t, e);
    if reopened {
      var k :| j < k < |t.tools| && t.tools[k].call == call;
      assert after.tools[k].call == call;
    } else if e.ToolStart? && e.call == call {
      assert after.tools[|t.tools|].call == call;
    } else {
      LatestIs(after.tools, j, call);
    }
  }

  // The call's first event among these is no end.
  ghost predicate Undisturbed(events: seq<TurnEvent>, call: string) {
    forall k | 0 <= k < |events| && events[k].ToolEnd? && events[k].call == call :: Reopened(events[..k], call)
  }

  ghost predicate Reopened(events: seq<TurnEvent>, call: string) {
    exists k | 0 <= k < |events| :: events[k].ToolStart? && events[k].call == call
  }

  lemma {:induction false} KeptThrough(t: Turn, events: seq<TurnEvent>, j: nat, a: Tool, call: string)
    requires Kept(t.tools, j, a, call, false) && Undisturbed(events, call)
    ensures Kept(AbsorbAll(t, events).tools, j, a, call, Reopened(events, call))
  {
    if events != [] {
      var before, e := events[..|events| - 1], events[|events| - 1];
      assert forall k | 0 <= k < |before| :: events[..k] == before[..k];
      assert events[..|events| - 1] == before;
      KeptThrough(t, before, j, a, call);
      KeptStep(AbsorbAll(t, before), e, j, a, call, Reopened(before, call));
      assert Reopened(events, call) <==> Reopened(before, call) || (e.ToolStart? && e.call == call) by {
        assert forall k | 0 <= k < |before| :: events[k] == before[k];
      }
    }
  }

  // Every end is recorded: on the latest activity of its call, or on one made
  // for it that takes the text so far. It stays there for good unless the call
  // ends again without starting again.
  lemma EveryEndIsRecorded(before: seq<TurnEvent>, end: TurnEvent, after: seq<TurnEvent>)
    requires end.ToolEnd? && Undisturbed(after, end.call)
    ensures var was := AbsorbAll(FRESH, before);
            var final := AbsorbAll(FRESH, before + [end] + after);
            match Latest(was.tools, end.call)
            case Some(k) =>
              k < |final.tools| && final.tools[k] == was.tools[k].(result := Some(end.result))
            case None =>
              var k := |was.tools|;
              k < |final.tools| && final.tools[k] == Tool(was.reply, end.call, end.name, "", Some(end.result))
  {
    var was := AbsorbAll(FRESH, before);
    var now := Absorb(was, end);
    assert (before + [end])[..|before|] == before;
    assert AbsorbAll(FRESH, before + [end]) == now;
    AbsorbJoins(FRESH, before + [end], after);
    var k := match Latest(was.tools, end.call) case Some(i) => i case None => |was.tools|;
    LatestIs(now.tools, k, end.call);
    KeptThrough(now, after, k, now.tools[k], end.call);
  }

  // And nothing else is: a recorded result came from an end of that call.
  lemma {:induction false} ResultsComeFromEnds(events: seq<TurnEvent>, k: nat)
    requires k < |AbsorbAll(FRESH, events).tools| && AbsorbAll(FRESH, events).tools[k].result.Some?
    ensures exists i | 0 <= i < |events| ::
              events[i].ToolEnd? && events[i].call == AbsorbAll(FRESH, events).tools[k].call
              && events[i].result == AbsorbAll(FRESH, events).tools[k].result.value
  {
    var before, e := events[..|events| - 1], events[|events| - 1];
    var was := AbsorbAll(FRESH, before);
    var now := Absorb(was, e);
    if k < |was.tools| && was.tools[k] == now.tools[k] {
      ResultsComeFromEnds(before, k);
      var i :| 0 <= i < |before| && before[i].ToolEnd? && before[i].call == was.tools[k].call
               && before[i].result == was.tools[k].result.value;
      assert events[i] == before[i];
    } else {
      assert e.ToolEnd? && e.call == now.tools[k].call && e.result == now.tools[k].result.value;
    }
  }

  // ------------------------------------------------- Whose updates, and which

  // A notification of another session changes nothing, wherever it stands.
  lemma OthersChangeNothing(session: string, before: seq<Notification>, other: Notification, after: seq<Notification>)
    requires other.session != session
    ensures Collected(session, before + [other] + after) == Collected(session, before + after)
  {
    assert [other][..0] == [];
    EventsJoin(session, before + [other], after);
    EventsJoin(session, before, [other]);
    EventsJoin(session, before, after);
    assert EventsOf(session, before) + [] == EventsOf(session, before);
  }

  // Without one of this session nothing is collected at all.
  lemma {:induction false} StrangersCollectNothing(session: string, notes: seq<Notification>)
    requires forall note | note in notes :: note.session != session
    ensures Collected(session, notes) == FRESH
  {
    if notes != [] {
      var n := |notes| - 1;
      StrangersCollectNothing(session, notes[..n]);
      assert notes[n] in notes;
      OthersChangeNothing(session, notes[..n], notes[n], []);
      assert notes[..n] + [notes[n]] + [] == notes && notes[..n] + [] == notes[..n];
    }
  }

  // The text of the notes that name this session, in the order they came.
  function TextOf(session: string, notes: seq<Notification>): string {
    if notes == [] then ""
    else (if notes[0].session == session then Streamed(notes[0].events) else "") + TextOf(session, notes[1..])
  }

  lemma {:induction false} StreamedJoins(a: seq<TurnEvent>, b: seq<TurnEvent>)
    ensures Streamed(a + b) == Streamed(a) + Streamed(b)
  {
    if b == [] {
      assert a + b == a;
    } else {
      StreamedJoins(a, b[..|b| - 1]);
      assert (a + b)[..|a + b| - 1] == a + b[..|b| - 1];
    }
  }

  lemma {:induction false} OwnTextIsStreamed(session: string, notes: seq<Notification>)
    ensures Streamed(EventsOf(session, notes)) == TextOf(session, notes)
  {
    if notes != [] {
      OwnTextIsStreamed(session, notes[1..]);
      assert notes == [notes[0]] + notes[1..] && [notes[0]][..0] == [];
      assert EventsOf(session, [notes[0]]) == if notes[0].session == session then notes[0].events else [];
      EventsJoin(session, [notes[0]], notes[1..]);
      StreamedJoins(EventsOf(session, [notes[0]]), EventsOf(session, notes[1..]));
    }
  }

  // The preambles and the reply of a turn are the text of this session's notes,
  // and of no other's, in order.
  lemma OwnTextIsCollected(session: string, notes: seq<Notification>)
    ensures Preambles(Collected(session, notes).tools) + Collected(session, notes).reply == TextOf(session, notes)
  {
    TextIsConserved(EventsOf(session, notes));
    OwnTextIsStreamed(session, notes);
  }

  // An event of a call: a start, or an end of one that has had no event before.
  predicate Concerns(e: TurnEvent, call: string) {
    (e.ToolStart? || e.ToolEnd?) && e.call == call
  }

  predicate Known(events: seq<TurnEvent>, call: string) {
    exists e | e in events :: Concerns(e, call)
  }

  predicate Opens(before: seq<TurnEvent>, e: TurnEvent) {
    e.ToolStart? || (e.ToolEnd? && !Known(before, e.call))
  }

  function Openings(events: seq<TurnEvent>): nat {
    if events == [] then 0
    else
      var n := |events| - 1;
      Openings(events[..n]) + if Opens(events[..n], events[n]) then 1 else 0
  }

  // The text since the last event that opened an activity.
  function Unclaimed(events: seq<TurnEvent>): string {
    if events == [] then ""
    else
      var n := |events| - 1;
      if Opens(events[..n], events[n]) then ""
      else Unclaimed(events[..n]) + if events[n].Text? then events[n].text else ""
  }

  function LastPlan(events: seq<TurnEvent>): Option<string> {
    if events == [] then None
    else if events[|events| - 1].Plan? then Some(events[|events| - 1].plan)
    else LastPlan(events[..|events| - 1])
  }

  // The activity that the event at i opened: all but what it came to.
  ghost predicate OpenedBy(tool: Tool, events: seq<TurnEvent>, i: nat)
    requires i < |events| && Opens(events[..i], events[i])
  {
    && tool.preamble == Unclaimed(events[..i])
    && tool.call == events[i].call && tool.name == events[i].name
    && tool.arguments == if events[i].ToolStart? then events[i].arguments else ""
  }

  lemma {:induction false} KnownHasActivity(events: seq<TurnEvent>, call: string)
    ensures Latest(AbsorbAll(FRESH, events).tools, call).Some? <==> Known(events, call)
  {
    if events != [] {
      var n := |events| - 1;
      KnownHasActivity(events[..n], call);
      assert events == events[..n] + [events[n]];
      AbsorbKnows(AbsorbAll(FRESH, events[..n]), events[n], call);
    }
  }

  lemma AbsorbKnows(t: Turn, e: TurnEvent, call: string)
    ensures Latest(Absorb(t, e).tools, call).Some? <==> Latest(t.tools, call).Some? || Concerns(e, call)
  {
    var after := Absorb(t, e).tools;
    if k :| 0 <= k < |t.tools| && t.tools[k].call == call {
      assert after[k].call == call;
    }
    if e.ToolStart? || (e.ToolEnd? && Latest(t.tools, e.call).None?) {
      assert after[|t.tools|].call == e.call;
    }
  }

  // The reply is the text since the last activity opened, there is one activity
  // for every opening, and the plan is the last one given.
  lemma {:induction false} TurnIsItsOpenings(events: seq<TurnEvent>)
    ensures var t := AbsorbAll(FRESH, events);
            t.reply == Unclaimed(events) && |t.tools| == Openings(events) && t.plan == LastPlan(events)
  {
    if events != [] {
      var n := |events| - 1;
      TurnIsItsOpenings(events[..n]);
      if events[n].ToolEnd? {
        KnownHasActivity(events[..n], events[n].call);
      }
    }
  }

  lemma {:induction false} OpeningsGrow(events: seq<TurnEvent>, i: nat)
    requires i <= |events|
    ensures Openings(events[..i]) <= Openings(events)
    ensures i < |events| && Opens(events[..i], events[i]) ==> Openings(events[..i]) < Openings(events)
  {
    if i < |events| {
      var n := |events| - 1;
      if i < n {
        OpeningsGrow(events[..n], i);
        assert events[..n][..i] == events[..i];
      }
    } else {
      assert events[..i] == events;
    }
  }

  // And each opening made its own activity, in order, with the text spoken since
  // the one before it.
  lemma {:induction false} ActivitiesAreTheOpenings(events: seq<TurnEvent>, i: nat)
    requires i < |events| && Opens(events[..i], events[i])
    ensures var tools := AbsorbAll(FRESH, events).tools;
            Openings(events[..i]) < |tools| && OpenedBy(tools[Openings(events[..i])], events, i)
  {
    var n := |events| - 1;
    var was := AbsorbAll(FRESH, events[..n]);
    TurnIsItsOpenings(events[..n]);
    TurnIsItsOpenings(events);
    OpeningsGrow(events, i);
    if i == n {
      if events[n].ToolEnd? {
        KnownHasActivity(events[..n], events[n].call);
      }
    } else {
      assert events[..n][..i] == events[..i] && events[..n][i] == events[i];
      ActivitiesAreTheOpenings(events[..n], i);
      ActivityKeepsItsStart(was, events[n], Openings(events[..i]));
    }
  }

  lemma ActivityKeepsItsStart(t: Turn, e: TurnEvent, j: nat)
    requires j < |t.tools|
    ensures j < |Absorb(t, e).tools| && Absorb(t, e).tools[j] == t.tools[j].(result := Absorb(t, e).tools[j].result)
  {
  }
}
