// The streamed transcript of the session on screen: a list of messages edited
// in place by every agent update, and the three streams it is made of.
module Transcript {
  import opened Outcomes

  datatype Role = User | Assistant | System | Failure
  datatype Category = Working | Completed | Errored

  datatype Activity = Activity(id: string, category: Category, title: string, arguments: string, detail: string)

  datatype Message = Message(
    id: string, role: Role, content: string, activities: seq<Activity>, streaming: bool, reasoning: Option<string>)

  datatype Update =
    | TurnStart
    | Text(delta: string)
    | Reasoning(delta: string)
    | Both(text: string, reasoning: string)
    | ToolStarted(call: string, name: string, arguments: string)
    | ToolUpdated(call: string, partial: string)
    | ToolFinished(call: string, content: string, isError: bool)
    | Asked(question: string, summary: string)
    | Failed(error: string)
    | Finished
    | Ignored

  function Digit(d: nat): char
    requires d < 10
  {
    "0123456789"[d]
  }

  function Decimal(n: nat): string {
    if n < 10 then [Digit(n)] else Decimal(n / 10) + [Digit(n % 10)]
  }

  function StreamPrefix(session: string): string {
    "streaming-" + session + "-"
  }

  // ------------------------------------------------------- One update's meaning

  predicate TakesText(session: string, m: Message) {
    m.role.Assistant? && StreamPrefix(session) <= m.id && m.activities == []
  }

  predicate TakesReasoning(m: Message) {
    m.role.Assistant? && m.streaming
  }

  predicate TakesTool(m: Message) {
    m.role.Assistant? && m.content == ""
  }

  function Segment(session: string, n: nat): Message {
    Message(StreamPrefix(session) + Decimal(n), Assistant, "", [], true, None)
  }

  function Words(reasoning: Option<string>): string {
    match reasoning case Some(content) => content case None => ""
  }

  function Grown(reasoning: Option<string>, delta: string): Option<string> {
    Some(Words(reasoning) + delta)
  }

  function Started(u: Update): Activity
    requires u.ToolStarted?
  {
    Activity(u.call, Working, u.name, u.arguments, u.arguments)
  }

  predicate Reports(u: Update) {
    u.ToolUpdated? || u.ToolFinished?
  }

  function Touched(a: Activity, u: Update): Activity
    requires Reports(u)
  {
    if u.ToolUpdated? then a.(detail := u.partial)
    else a.(category := if u.isError then Errored else Completed, detail := u.content)
  }

  function LastCall(activities: seq<Activity>, call: string): (r: Option<nat>)
    ensures r.Some? ==> r.value < |activities| && activities[r.value].id == call
  {
    if activities == [] then None
    else if activities[|activities| - 1].id == call then Some(|activities| - 1)
    else LastCall(activities[..|activities| - 1], call)
  }

  function TouchLast(activities: seq<Activity>, u: Update): seq<Activity>
    requires Reports(u)
  {
    match LastCall(activities, u.call)
    case Some(k) => activities[k := Touched(activities[k], u)]
    case None => activities
  }

  // The newest message that holds the call is the one that changes.
  function Reported(messages: seq<Message>, u: Update): seq<Message>
    requires Reports(u)
  {
    if messages == [] then []
    else
      var n := |messages| - 1;
      if LastCall(messages[n].activities, u.call).Some?
      then messages[n := messages[n].(activities := TouchLast(messages[n].activities, u))]
      else Reported(messages[..n], u) + [messages[n]]
  }

  function Settled(messages: seq<Message>): seq<Message> {
    seq(|messages|, i requires 0 <= i < |messages| => messages[i].(streaming := false))
  }

  function AddText(session: string, messages: seq<Message>, delta: string): seq<Message> {
    var n := |messages|;
    if n > 0 && TakesText(session, messages[n - 1])
    then messages[n - 1 := messages[n - 1].(content := messages[n - 1].content + delta)]
    else messages + [Segment(session, n).(content := delta)]
  }

  function AddReasoning(session: string, messages: seq<Message>, delta: string): seq<Message> {
    var n := |messages|;
    if n > 0 && TakesReasoning(messages[n - 1])
    then messages[n - 1 := messages[n - 1].(reasoning := Grown(messages[n - 1].reasoning, delta))]
    else messages + [Segment(session, n).(reasoning := Some(delta))]
  }

  function AddTool(session: string, messages: seq<Message>, a: Activity): seq<Message> {
    var n := |messages|;
    if n > 0 && TakesTool(messages[n - 1])
    then messages[n - 1 := messages[n - 1].(activities := messages[n - 1].activities + [a])]
    else messages + [Segment(session, n).(activities := [a])]
  }

  function Step(session: string, messages: seq<Message>, u: Update): seq<Message> {
    var n := |messages|;
    match u
    case TurnStart =>
      if n > 0 && messages[n - 1].role.Assistant?
      then messages[n - 1 := messages[n - 1].(streaming := false)] else messages
    case Text(delta) => AddText(session, messages, delta)
    case Reasoning(delta) => AddReasoning(session, messages, delta)
    case Both(text, reasoning) => AddReasoning(session, AddText(session, messages, text), reasoning)
    case ToolStarted(_, _, _) => AddTool(session, messages, Started(u))
    case ToolUpdated(_, _) => Reported(messages, u)
    case ToolFinished(_, _, _) => Reported(messages, u)
    case Asked(question, summary) =>
      messages + [Message("question-notice-" + question, System, summary, [], false, None)]
    case Failed(error) => messages + [Message("stream-error-" + session, Failure, error, [], false, None)]
    case Finished => Settled(messages)
    case Ignored => messages
  }

  function Run(session: string, messages: seq<Message>, updates: seq<Update>): seq<Message>
    decreases updates
  {
    if updates == [] then messages else Run(session, Step(session, messages, updates[0]), updates[1..])
  }

  // A report changes the newest message holding the call,
  lemma {:induction false} ReportedHits(messages: seq<Message>, i: nat, u: Update)
    requires Reports(u) && i < |messages| && LastCall(messages[i].activities, u.call).Some?
    requires forall k | i < k < |messages| :: LastCall(messages[k].activities, u.call).None?
    ensures Reported(messages, u)
            == messages[i := messages[i].(activities := TouchLast(messages[i].activities, u))]
  {
    if i < |messages| - 1 {
      ReportedHits(messages[..|messages| - 1], i, u);
    }
  }

  // and nothing when no message holds it.
  lemma {:induction false} ReportedMisses(messages: seq<Message>, u: Update)
    requires Reports(u) && forall k | 0 <= k < |messages| :: LastCall(messages[k].activities, u.call).None?
    ensures Reported(messages, u) == messages
  {
    if messages != [] {
      ReportedMisses(messages[..|messages| - 1], u);
    }
  }

  // ------------------------------------------------------ The class under edit

  class View {
    var messages: seq<Message>

    constructor ()
      ensures messages == []
    {
      messages := [];
    }

    method Push(id: string, role: Role, content: string, streaming: bool)
      modifies this
      ensures messages == old(messages) + [Message(id, role, content, [], streaming, None)]
    {
      messages := messages + [Message(id, role, content, [], streaming, None)];
    }

    method Apply(session: string, u: Update) returns (changed: bool)
      modifies this
      ensures messages == Step(session, old(messages), u)
      ensures changed <==> !u.Ignored?
    {
      var n := |messages|;
      changed := true;
      match u {
        case TurnStart =>
          if n > 0 && messages[n - 1].role == Assistant {
            messages := messages[n - 1 := messages[n - 1].(streaming := false)];
          }
        case Text(delta) => Append(session, delta);
        case Reasoning(delta) => Reason(session, delta);
        case Both(text, reasoning) =>
          Append(session, text);
          Reason(session, reasoning);
        case ToolStarted(call, name, arguments) => Begin(session, Activity(call, Working, name, arguments, arguments));
        case ToolUpdated(_, _) => Report(u);
        case ToolFinished(_, _, _) => Report(u);
        case Asked(question, summary) => Push("question-notice-" + question, System, summary, false);
        case Failed(error) => Push("stream-error-" + session, Failure, error, false);
        case Finished => Settle();
        case Ignored => changed := false;
      }
    }

    method Append(session: string, delta: string)
      modifies this
      ensures messages == AddText(session, old(messages), delta)
    {
      var n := |messages|;
      if n > 0 {
        var m := messages[n - 1];
        if m.role == Assistant && StreamPrefix(session) <= m.id && |m.activities| == 0 {
          messages := messages[n - 1 := m.(content := m.content + delta)];
          return;
        }
      }
      Push(StreamPrefix(session) + Decimal(n), Assistant, delta, true);
    }

    method Reason(session: string, delta: string)
      modifies this
      ensures messages == AddReasoning(session, old(messages), delta)
    {
      var n := |messages|;
      if n > 0 && messages[n - 1].role == Assistant && messages[n - 1].streaming {
        var m := messages[n - 1];
        match m.reasoning {
          case Some(content) => m := m.(reasoning := Some(content + delta));
          case None =>
            assert "" + delta == delta;
            m := m.(reasoning := Some(delta));
        }
        messages := messages[n - 1 := m];
      } else {
        Push(StreamPrefix(session) + Decimal(n), Assistant, "", true);
        messages := messages[n := messages[n].(reasoning := Some(delta))];
      }
    }

    method Begin(session: string, a: Activity)
      modifies this
      ensures messages == AddTool(session, old(messages), a)
    {
      var n := |messages|;
      if n > 0 && messages[n - 1].role == Assistant && messages[n - 1].content == "" {
        messages := messages[n - 1 := messages[n - 1].(activities := messages[n - 1].activities + [a])];
      } else {
        Push(StreamPrefix(session) + Decimal(n), Assistant, "", true);
        messages := messages[n := messages[n].(activities := [a])];
      }
    }

    // Search messages and their activities from the newest backwards.
    method Report(u: Update)
      requires Reports(u)
      modifies this
      ensures messages == Reported(old(messages), u)
    {
      var i := |messages|;
      while i > 0
        invariant 0 <= i <= |messages| && messages == old(messages)
        invariant forall k | i <= k < |messages| :: LastCall(messages[k].activities, u.call).None?
      {
        i := i - 1;
        var activities := messages[i].activities;
        var j := FindCall(activities, u.call);
        if j.Some? {
          ReportedHits(messages, i, u);
          var a := activities[j.value];
          match u {
            case ToolUpdated(_, partial) => a := a.(detail := partial);
            case ToolFinished(_, content, isError) =>
              a := a.(category := if isError then Errored else Completed, detail := content);
          }
          messages := messages[i := messages[i].(activities := activities[j.value := a])];
          return;
        }
      }
      ReportedMisses(messages, u);
    }

    method Settle()
      modifies this
      ensures messages == Settled(old(messages))
    {
      for i := 0 to |messages|
        invariant |messages| == |old(messages)|
        invariant forall k | 0 <= k < i :: messages[k] == old(messages)[k].(streaming := false)
        invariant forall k | i <= k < |messages| :: messages[k] == old(messages)[k]
      {
        messages := messages[i := messages[i].(streaming := false)];
      }
    }
  }

  method FindCall(activities: seq<Activity>, call: string) returns (r: Option<nat>)
    ensures r == LastCall(activities, call)
  {
    var j := |activities|;
    assert activities[..j] == activities;
    while j > 0
      invariant 0 <= j <= |activities|
      invariant LastCall(activities, call) == LastCall(activities[..j], call)
    {
      j := j - 1;
      assert activities[..j + 1][..j] == activities[..j];
      if activities[j].id == call {
        return Some(j);
      }
    }
    r := None;
  }

  // ----------------------------------------------------------- Three streams

  function Prose(messages: seq<Message>): string {
    if messages == [] then ""
    else
      var m := messages[|messages| - 1];
      Prose(messages[..|messages| - 1]) + if m.role.Assistant? then m.content else ""
  }

  function Thoughts(messages: seq<Message>): string {
    if messages == [] then ""
    else
      var m := messages[|messages| - 1];
      Thoughts(messages[..|messages| - 1]) + if m.role.Assistant? then Words(m.reasoning) else ""
  }

  function Calls(messages: seq<Message>): seq<Activity> {
    if messages == [] then [] else Calls(messages[..|messages| - 1]) + messages[|messages| - 1].activities
  }

  function Spoken(u: Update): string {
    match u case Text(delta) => delta case Both(text, _) => text case _ => ""
  }

  function Reasoned(u: Update): string {
    match u case Reasoning(delta) => delta case Both(_, reasoning) => reasoning case _ => ""
  }

  // The tool stream alone: a start adds at the end, a report changes the latest
  // activity of its call.
  function Called(calls: seq<Activity>, u: Update): seq<Activity> {
    if u.ToolStarted? then calls + [Started(u)] else if Reports(u) then TouchLast(calls, u) else calls
  }

  function AllSpoken(updates: seq<Update>): string {
    if updates == [] then "" else Spoken(updates[0]) + AllSpoken(updates[1..])
  }

  function AllReasoned(updates: seq<Update>): string {
    if updates == [] then "" else Reasoned(updates[0]) + AllReasoned(updates[1..])
  }

  function AllCalled(calls: seq<Activity>, updates: seq<Update>): seq<Activity>
    decreases updates
  {
    if updates == [] then calls else AllCalled(Called(calls, updates[0]), updates[1..])
  }

  // What the reader sees in order: characters said, calls made, notes posted.
  datatype Mark = Said(c: char) | Did(call: string) | Note(id: string, text: string)

  function Chars(text: string): seq<Mark> {
    seq(|text|, i requires 0 <= i < |text| => Said(text[i]))
  }

  function Ids(activities: seq<Activity>): seq<Mark> {
    seq(|activities|, i requires 0 <= i < |activities| => Did(activities[i].id))
  }

  function Marks(m: Message): seq<Mark> {
    (if m.role.Assistant? then Chars(m.content) else [Note(m.id, m.content)]) + Ids(m.activities)
  }

  function Timeline(messages: seq<Message>): seq<Mark> {
    if messages == [] then [] else Timeline(messages[..|messages| - 1]) + Marks(messages[|messages| - 1])
  }

  function Marked(session: string, u: Update): seq<Mark> {
    match u
    case Text(delta) => Chars(delta)
    case Both(text, _) => Chars(text)
    case ToolStarted(call, _, _) => [Did(call)]
    case Asked(question, summary) => [Note("question-notice-" + question, summary)]
    case Failed(error) => [Note("stream-error-" + session, error)]
    case _ => []
  }

  function AllMarked(session: string, updates: seq<Update>): seq<Mark> {
    if updates == [] then [] else Marked(session, updates[0]) + AllMarked(session, updates[1..])
  }

  // The four readings of a transcript.
  datatype Reading = Reading(prose: string, thoughts: string, calls: seq<Activity>, timeline: seq<Mark>)

  function Read(messages: seq<Message>): Reading {
    Reading(Prose(messages), Thoughts(messages), Calls(messages), Timeline(messages))
  }

  function ReadMore(session: string, r: Reading, u: Update): Reading {
    Reading(r.prose + Spoken(u), r.thoughts + Reasoned(u), Called(r.calls, u), r.timeline + Marked(session, u))
  }

  function ReadOne(r: Reading, m: Message): Reading {
    Reading(r.prose + (if m.role.Assistant? then m.content else ""),
            r.thoughts + (if m.role.Assistant? then Words(m.reasoning) else ""),
            r.calls + m.activities, r.timeline + Marks(m))
  }

  lemma ReadLast(messages: seq<Message>, m: Message)
    ensures Read(messages + [m]) == ReadOne(Read(messages), m)
    ensures messages != [] ==>
              Read(messages[|messages| - 1 := m]) == ReadOne(Read(messages[..|messages| - 1]), m)
  {
    assert (messages + [m])[..|messages|] == messages;
    if messages != [] {
      assert messages[|messages| - 1 := m][..|messages| - 1] == messages[..|messages| - 1];
    }
  }

  lemma {:induction false} LastCallBehind(front: seq<Activity>, back: seq<Activity>, call: string)
    ensures LastCall(front + back, call)
            == if LastCall(back, call).Some? then Some(|front| + LastCall(back, call).value) else LastCall(front, call)
  {
    if back == [] {
      assert front + back == front;
    } else {
      var n := |back| - 1;
      assert (front + back)[..|front| + n] == front + back[..n];
      LastCallBehind(front, back[..n], call);
    }
  }

  lemma TouchBehind(front: seq<Activity>, back: seq<Activity>, u: Update)
    requires Reports(u)
    ensures TouchLast(front + back, u)
            == if LastCall(back, u.call).Some? then front + TouchLast(back, u) else TouchLast(front, u) + back
  {
    LastCallBehind(front, back, u.call);
    if LastCall(front + back, u.call).Some? {
      TouchedAt(front + back, u);
    }
    if LastCall(back, u.call).Some? {
      TouchedAt(back, u);
      UpdateInParts(front, back, LastCall(front + back, u.call).value, Touched(back[LastCall(back, u.call).value], u));
    } else if LastCall(front, u.call).Some? {
      TouchedAt(front, u);
      UpdateInParts(front, back, LastCall(front, u.call).value, Touched(front[LastCall(front, u.call).value], u));
    }
  }

  lemma TouchedAt(calls: seq<Activity>, u: Update)
    requires Reports(u) && LastCall(calls, u.call).Some?
    ensures var k := LastCall(calls, u.call).value; TouchLast(calls, u) == calls[k := Touched(calls[k], u)]
  {
  }

  lemma UpdateInParts<T>(front: seq<T>, back: seq<T>, k: nat, x: T)
    requires k < |front| + |back|
    ensures k < |front| ==> (front + back)[k := x] == front[k := x] + back
    ensures k >= |front| ==> (front + back)[k := x] == front + back[k - |front| := x]
  {
  }

  lemma TouchKeepsIds(calls: seq<Activity>, u: Update)
    requires Reports(u)
    ensures Ids(TouchLast(calls, u)) == Ids(calls)
  {
  }

  // A report over all messages is a report over the flat list of calls.
  lemma {:induction false} ReadReported(messages: seq<Message>, u: Update)
    requires Reports(u)
    ensures Read(Reported(messages, u)) == Read(messages).(calls := TouchLast(Calls(messages), u))
  {
    if messages != [] {
      var n := |messages| - 1;
      var m := messages[n];
      TouchBehind(Calls(messages[..n]), m.activities, u);
      if LastCall(m.activities, u.call).Some? {
        TouchKeepsIds(m.activities, u);
        ReadLast(messages, m.(activities := TouchLast(m.activities, u)));
      } else {
        ReadReported(messages[..n], u);
        ReadLast(Reported(messages[..n], u), m);
      }
    }
  }

  lemma {:induction false} ReadSettled(messages: seq<Message>)
    ensures Read(Settled(messages)) == Read(messages)
  {
    if messages != [] {
      var n := |messages| - 1;
      ReadSettled(messages[..n]);
      ReadLast(Settled(messages[..n]), messages[n].(streaming := false));
      assert Settled(messages) == Settled(messages[..n]) + [messages[n].(streaming := false)];
    }
  }

  lemma MarksText(m: Message, delta: string)
    requires m.role.Assistant? && m.activities == []
    ensures Marks(m.(content := m.content + delta)) == Marks(m) + Chars(delta)
  {
  }

  lemma Associates<T>(a: seq<T>, b: seq<T>, c: seq<T>)
    ensures a + b + c == a + (b + c)
  {
  }

  lemma ReadText(session: string, messages: seq<Message>, delta: string)
    ensures Read(AddText(session, messages, delta)) == ReadMore(session, Read(messages), Text(delta))
  {
    var n := |messages|;
    if n > 0 && TakesText(session, messages[n - 1]) {
      var m := messages[n - 1];
      ReadLast(messages, m.(content := m.content + delta));
      MarksText(m, delta);
      assert Read(messages) == ReadOne(Read(messages[..n - 1]), m);
      Associates(Prose(messages[..n - 1]), m.content, delta);
      Associates(Timeline(messages[..n - 1]), Marks(m), Chars(delta));
      assert Thoughts(messages) + "" == Thoughts(messages);
    } else {
      var m := Segment(session, n);
      ReadLast(messages, m.(content := delta));
      MarksText(m, delta);
      assert Marks(m) == [] && Marks(m.(content := delta)) == Chars(delta);
      assert m.content + delta == delta;
    }
  }

  lemma ReadReasoning(session: string, messages: seq<Message>, delta: string)
    ensures Read(AddReasoning(session, messages, delta)) == ReadMore(session, Read(messages), Reasoning(delta))
  {
    var n := |messages|;
    if n > 0 && TakesReasoning(messages[n - 1]) {
      var m := messages[n - 1];
      ReadLast(messages, m.(reasoning := Grown(m.reasoning, delta)));
      assert Read(messages) == ReadOne(Read(messages[..n - 1]), m);
      Associates(Thoughts(messages[..n - 1]), Words(m.reasoning), delta);
    } else {
      var m := Segment(session, n);
      ReadLast(messages, m.(reasoning := Some(delta)));
      assert Marks(m.(reasoning := Some(delta))) == [];
    }
    assert Prose(messages) + "" == Prose(messages) && Timeline(messages) + [] == Timeline(messages);
  }

  lemma ReadTool(session: string, messages: seq<Message>, u: Update)
    requires u.ToolStarted?
    ensures Read(AddTool(session, messages, Started(u))) == ReadMore(session, Read(messages), u)
  {
    var n := |messages|;
    if n > 0 && TakesTool(messages[n - 1]) {
      var m := messages[n - 1];
      ReadLast(messages, m.(activities := m.activities + [Started(u)]));
      assert Read(messages) == ReadOne(Read(messages[..n - 1]), m);
      MarksTool(m, Started(u));
      Associates(Calls(messages[..n - 1]), m.activities, [Started(u)]);
      Associates(Timeline(messages[..n - 1]), Marks(m), [Did(u.call)]);
    } else {
      var m := Segment(session, n);
      ReadLast(messages, m.(activities := [Started(u)]));
      MarksTool(m, Started(u));
      assert Marks(m) == [] && m.activities + [Started(u)] == [Started(u)];
    }
    assert Prose(messages) + "" == Prose(messages) && Thoughts(messages) + "" == Thoughts(messages);
  }

  lemma MarksTool(m: Message, a: Activity)
    ensures Marks(m.(activities := m.activities + [a])) == Marks(m) + [Did(a.id)]
  {
    assert Ids(m.activities + [a]) == Ids(m.activities) + [Did(a.id)];
  }

  // One update adds exactly its own share to every reading.
  lemma StepReadsMore(session: string, messages: seq<Message>, u: Update)
    ensures Read(Step(session, messages, u)) == ReadMore(session, Read(messages), u)
  {
    match u {
      case TurnStart =>
        ReadQuietly(session, Read(messages), u);
        if |messages| > 0 { ReadLast(messages, messages[|messages| - 1].(streaming := false)); }
      case Text(delta) => ReadText(session, messages, delta);
      case Reasoning(delta) => ReadReasoning(session, messages, delta);
      case Both(text, reasoning) =>
        ReadText(session, messages, text);
        ReadReasoning(session, AddText(session, messages, text), reasoning);
        ReadBoth(session, Read(messages), text, reasoning);
      case ToolStarted(_, _, _) => ReadTool(session, messages, u);
      case ToolUpdated(_, _) =>
        ReadReported(messages, u);
        ReadQuietly(session, Read(messages), u);
      case ToolFinished(_, _, _) =>
        ReadReported(messages, u);
        ReadQuietly(session, Read(messages), u);
      case Asked(question, summary) => ReadNote(session, messages, u, "question-notice-" + question, System, summary);
      case Failed(error) => ReadNote(session, messages, u, "stream-error-" + session, Failure, error);
      case Finished =>
        ReadSettled(messages);
        ReadQuietly(session, Read(messages), u);
      case Ignored => ReadQuietly(session, Read(messages), u);
    }
  }

  lemma ReadQuietly(session: string, r: Reading, u: Update)
    requires u.TurnStart? || u.Finished? || u.Ignored? || Reports(u)
    ensures ReadMore(session, r, u) == if Reports(u) then r.(calls := TouchLast(r.calls, u)) else r
  {
  }

  lemma ReadBoth(session: string, r: Reading, text: string, reasoning: string)
    ensures ReadMore(session, ReadMore(session, r, Text(text)), Reasoning(reasoning))
            == ReadMore(session, r, Both(text, reasoning))
  {
  }

  lemma ReadNote(session: string, messages: seq<Message>, u: Update, id: string, role: Role, text: string)
    requires (u.Asked? || u.Failed?) && !role.Assistant? && Marked(session, u) == [Note(id, text)]
    ensures Read(messages + [Message(id, role, text, [], false, None)]) == ReadMore(session, Read(messages), u)
  {
  }

  // Over any run, prose and reasoning grow by exactly their deltas, each report
  // reaches the latest call of its id and no other, and text, calls and notes
  // stand in the order they arrived.
  lemma {:induction false} TranscriptIsItsStreams(session: string, messages: seq<Message>, updates: seq<Update>)
    ensures var r := Run(session, messages, updates);
            && Prose(r) == Prose(messages) + AllSpoken(updates)
            && Thoughts(r) == Thoughts(messages) + AllReasoned(updates)
            && Calls(r) == AllCalled(Calls(messages), updates)
            && Timeline(r) == Timeline(messages) + AllMarked(session, updates)
    decreases updates
  {
    if updates != [] {
      StepReadsMore(session, messages, updates[0]);
      TranscriptIsItsStreams(session, Step(session, messages, updates[0]), updates[1..]);
      Associates(Prose(messages), Spoken(updates[0]), AllSpoken(updates[1..]));
      Associates(Thoughts(messages), Reasoned(updates[0]), AllReasoned(updates[1..]));
      Associates(Timeline(messages), Marked(session, updates[0]), AllMarked(session, updates[1..]));
    }
  }

  // -------------------------------------------------------------- Chunking

  // Put an update in front of a run, merging it with an equal-kind delta.
  function Joined(u: Update, rest: seq<Update>): seq<Update> {
    if u.Text? && rest != [] && rest[0].Text? then [Text(u.delta + rest[0].delta)] + rest[1..]
    else if u.Reasoning? && rest != [] && rest[0].Reasoning? then [Reasoning(u.delta + rest[0].delta)] + rest[1..]
    else [u] + rest
  }

  // The run with every stretch of deltas merged into one.
  function Coalesced(updates: seq<Update>): seq<Update> {
    if updates == [] then []
    else
      var rest := Coalesced(updates[1..]);
      match updates[0]
      case Both(text, reasoning) => Joined(Text(text), Joined(Reasoning(reasoning), rest))
      case u => Joined(u, rest)
  }

  lemma TwoTexts(session: string, messages: seq<Message>, x: string, y: string)
    ensures AddText(session, AddText(session, messages, x), y) == AddText(session, messages, x + y)
  {
    var n := |messages|;
    var once := AddText(session, messages, x);
    if n > 0 && TakesText(session, messages[n - 1]) {
      assert messages[n - 1].content + x + y == messages[n - 1].content + (x + y);
    } else {
      assert StreamPrefix(session) <= once[n].id;
    }
  }

  lemma TwoReasonings(session: string, messages: seq<Message>, x: string, y: string)
    ensures AddReasoning(session, AddReasoning(session, messages, x), y) == AddReasoning(session, messages, x + y)
  {
    var n := |messages|;
    if n > 0 && TakesReasoning(messages[n - 1]) {
      var words := Words(messages[n - 1].reasoning);
      assert words + x + y == words + (x + y);
    }
  }

  lemma JoinedRunsAlike(session: string, messages: seq<Message>, u: Update, rest: seq<Update>)
    requires !u.Both?
    ensures Run(session, messages, Joined(u, rest)) == Run(session, Step(session, messages, u), rest)
  {
    if u.Text? && rest != [] && rest[0].Text? {
      TwoTexts(session, messages, u.delta, rest[0].delta);
    } else if u.Reasoning? && rest != [] && rest[0].Reasoning? {
      TwoReasonings(session, messages, u.delta, rest[0].delta);
    } else {
      assert ([u] + rest)[1..] == rest;
    }
  }

  lemma {:induction false} CoalescedRunsAlike(session: string, messages: seq<Message>, updates: seq<Update>)
    ensures Run(session, messages, Coalesced(updates)) == Run(session, messages, updates)
    decreases updates
  {
    if updates != [] {
      var u, rest := updates[0], Coalesced(updates[1..]);
      CoalescedRunsAlike(session, Step(session, messages, u), updates[1..]);
      match u {
        case Both(text, reasoning) =>
          JoinedRunsAlike(session, messages, Text(text), Joined(Reasoning(reasoning), rest));
          JoinedRunsAlike(session, AddText(session, messages, text), Reasoning(reasoning), rest);
        case _ => JoinedRunsAlike(session, messages, u, rest);
      }
    }
  }

  // Two runs that carry the same text and reasoning between the same other
  // updates give the same transcript, wherever their deltas were cut.
  lemma ChunkingIsInvisible(session: string, messages: seq<Message>, a: seq<Update>, b: seq<Update>)
    requires Coalesced(a) == Coalesced(b)
    ensures Run(session, messages, a) == Run(session, messages, b)
  {
    CoalescedRunsAlike(session, messages, a);
    CoalescedRunsAlike(session, messages, b);
  }

  function Texts(chunks: seq<string>): seq<Update> {
    seq(|chunks|, i requires 0 <= i < |chunks| => Text(chunks[i]))
  }

  function Reasonings(chunks: seq<string>): seq<Update> {
    seq(|chunks|, i requires 0 <= i < |chunks| => Reasoning(chunks[i]))
  }

  function Whole(chunks: seq<string>): string {
    if chunks == [] then "" else chunks[0] + Whole(chunks[1..])
  }

  // In particular one delta may be cut anywhere, into empty pieces too.
  lemma {:induction false} CutsCoalesce(chunks: seq<string>)
    requires chunks != []
    ensures Coalesced(Texts(chunks)) == Coalesced([Text(Whole(chunks))])
    ensures Coalesced(Reasonings(chunks)) == Coalesced([Reasoning(Whole(chunks))])
  {
    assert Texts(chunks)[1..] == Texts(chunks[1..]) && Reasonings(chunks)[1..] == Reasonings(chunks[1..]);
    assert Coalesced([Text(Whole(chunks))]) == [Text(Whole(chunks))];
    assert Coalesced([Reasoning(Whole(chunks))]) == [Reasoning(Whole(chunks))];
    if |chunks| == 1 {
      assert Whole(chunks[1..]) == "" && Texts(chunks[1..]) == [] && Reasonings(chunks[1..]) == [];
      assert chunks[0] + "" == chunks[0];
    } else {
      CutsCoalesce(chunks[1..]);
      assert Coalesced([Text(Whole(chunks[1..]))]) == [Text(Whole(chunks[1..]))];
      assert Coalesced([Reasoning(Whole(chunks[1..]))]) == [Reasoning(Whole(chunks[1..]))];
    }
  }

  // A text and a reasoning delta may trade places exactly when the newest
  // message would take both or neither, or when the text would be empty and
  // fall on a message closed to reasoning.
  lemma OrderMattersExactly(session: string, messages: seq<Message>, text: string, reasoning: string)
    ensures Run(session, messages, [Text(text), Reasoning(reasoning)])
            == Run(session, messages, [Reasoning(reasoning), Text(text)])
            <==> (var n := |messages|;
                  var takesText := n > 0 && TakesText(session, messages[n - 1]);
                  var takesReasoning := n > 0 && TakesReasoning(messages[n - 1]);
                  takesText == takesReasoning || (takesText && text == ""))
  {
    TwoSteps(session, messages, Text(text), Reasoning(reasoning));
    TwoSteps(session, messages, Reasoning(reasoning), Text(text));
    var n := |messages|;
    var left := AddReasoning(session, AddText(session, messages, text), reasoning);
    var right := AddText(session, AddReasoning(session, messages, reasoning), text);
    var takesText := n > 0 && TakesText(session, messages[n - 1]);
    var takesReasoning := n > 0 && TakesReasoning(messages[n - 1]);
    assert "" + text == text && "" + reasoning == reasoning;
    if takesText && !takesReasoning {
      assert left[n].content == "" && right[n].content == "" + text;
      assert messages[n - 1].content + "" == messages[n - 1].content;
    } else if takesReasoning && !takesText {
      assert left[n].reasoning == Some("" + reasoning) && right[n].reasoning == None;
    }
  }

  lemma TwoSteps(session: string, messages: seq<Message>, u: Update, w: Update)
    ensures Run(session, messages, [u, w]) == Step(session, Step(session, messages, u), w)
  {
    assert [u, w][1..] == [w] && [w][1..] == [];
    assert Run(session, Step(session, messages, u), [w]) == Step(session, Step(session, messages, u), w);
  }

  // -------------------------------------------------------------- History

  predicate SameCalls(a: seq<Activity>, b: seq<Activity>) {
    |a| <= |b| && forall i | 0 <= i < |a| ::
                    a[i].id == b[i].id && a[i].title == b[i].title && a[i].arguments == b[i].arguments
  }

  predicate Grows(a: Message, b: Message) {
    && a.id == b.id && a.role == b.role
    && a.content <= b.content && Words(a.reasoning) <= Words(b.reasoning)
    && SameCalls(a.activities, b.activities)
  }

  predicate Closed(a: Message, b: Message) {
    a.content == b.content && a.reasoning == b.reasoning && |a.activities| == |b.activities|
  }

  // Later transcripts keep every message in its place; only the newest one may
  // still take text, reasoning or calls.
  ghost predicate Extends(a: seq<Message>, b: seq<Message>) {
    && |a| <= |b|
    && (forall i | 0 <= i < |a| :: Grows(a[i], b[i]))
    && (forall i | 0 <= i < |a| - 1 :: Closed(a[i], b[i]))
  }

  lemma {:induction false} ReportedExtends(messages: seq<Message>, u: Update)
    requires Reports(u)
    ensures |Reported(messages, u)| == |messages|
    ensures forall i | 0 <= i < |messages| ::
              Grows(messages[i], Reported(messages, u)[i]) && Closed(messages[i], Reported(messages, u)[i])
  {
    if messages != [] {
      ReportedExtends(messages[..|messages| - 1], u);
    }
  }

  lemma StepExtends(session: string, messages: seq<Message>, u: Update)
    ensures Extends(messages, Step(session, messages, u))
  {
    match u {
      case ToolUpdated(_, _) => ReportedExtends(messages, u);
      case ToolFinished(_, _, _) => ReportedExtends(messages, u);
      case Text(delta) => TextExtends(session, messages, delta);
      case Reasoning(delta) => ReasoningExtends(session, messages, delta);
      case Both(text, reasoning) =>
        TextExtends(session, messages, text);
        ReasoningExtends(session, AddText(session, messages, text), reasoning);
        ExtendsTransits(messages, AddText(session, messages, u.text), Step(session, messages, u));
      case ToolStarted(_, _, _) => ToolExtends(session, messages, Started(u));
      case _ =>
    }
  }

  lemma TextExtends(session: string, messages: seq<Message>, delta: string)
    ensures Extends(messages, AddText(session, messages, delta))
  {
  }

  lemma ReasoningExtends(session: string, messages: seq<Message>, delta: string)
    ensures Extends(messages, AddReasoning(session, messages, delta))
  {
  }

  lemma ToolExtends(session: string, messages: seq<Message>, a: Activity)
    ensures Extends(messages, AddTool(session, messages, a))
  {
  }

  lemma ExtendsTransits(a: seq<Message>, b: seq<Message>, c: seq<Message>)
    requires Extends(a, b) && Extends(b, c)
    ensures Extends(a, c)
  {
  }

  // No update ever rewrites what was already said.
  lemma {:induction false} HistoryIsKept(session: string, messages: seq<Message>, updates: seq<Update>)
    ensures Extends(messages, Run(session, messages, updates))
    decreases updates
  {
    if updates != [] {
      var next := Step(session, messages, updates[0]);
      StepExtends(session, messages, updates[0]);
      HistoryIsKept(session, next, updates[1..]);
      ExtendsTransits(messages, next, Run(session, next, updates[1..]));
    }
  }

  // ------------------------------------------------ What one update looks like

  // The activity at k is the newest of its call.
  ghost predicate NewestOf(calls: seq<Activity>, call: string, k: int) {
    0 <= k < |calls| && calls[k].id == call && forall j | k < j < |calls| :: calls[j].id != call
  }

  lemma {:induction false} NewestIsLast(calls: seq<Activity>, call: string, k: nat)
    requires NewestOf(calls, call, k)
    ensures LastCall(calls, call) == Some(k)
  {
    var n := |calls| - 1;
    if k < n {
      assert calls[n].id != call;
      assert NewestOf(calls[..n], call, k);
      NewestIsLast(calls[..n], call, k);
    }
  }

  lemma {:induction false} NoneIsLast(calls: seq<Activity>, call: string)
    requires forall j | 0 <= j < |calls| :: calls[j].id != call
    ensures LastCall(calls, call) == None
  {
    if calls != [] {
      NoneIsLast(calls[..|calls| - 1], call);
    }
  }

  // A report shows on the newest activity of its call: a partial one replaces the
  // detail, a final one also says whether the call failed. Nothing else of it
  // changes and no other activity does.
  lemma ReportShowsOnTheNewest(session: string, messages: seq<Message>, u: Update, k: nat)
    requires (u.ToolUpdated? || u.ToolFinished?) && NewestOf(Calls(messages), u.call, k)
    ensures var was, now := Calls(messages), Calls(Step(session, messages, u));
            && |now| == |was| && (forall j | 0 <= j < |was| && j != k :: now[j] == was[j])
            && now[k].id == was[k].id && now[k].title == was[k].title && now[k].arguments == was[k].arguments
            && (u.ToolUpdated? ==> now[k].detail == u.partial && now[k].category == was[k].category)
            && (u.ToolFinished? ==> now[k].detail == u.content && (now[k].category == Errored <==> u.isError)
                                    && (now[k].category == Completed <==> !u.isError))
  {
    StepReadsMore(session, messages, u);
    NewestIsLast(Calls(messages), u.call, k);
  }

  // A report of a call nobody started shows nowhere.
  lemma StrayReportsShowNothing(session: string, messages: seq<Message>, u: Update)
    requires (u.ToolUpdated? || u.ToolFinished?) && forall j | 0 <= j < |Calls(messages)| :: Calls(messages)[j].id != u.call
    ensures Step(session, messages, u) == messages
  {
    forall i | 0 <= i < |messages| ensures LastCall(messages[i].activities, u.call).None? {
      CallsHoldAll(messages, i, u.call);
      NoneIsLast(messages[i].activities, u.call);
    }
    ReportedMisses(messages, u);
  }

  lemma {:induction false} CallsHoldAll(messages: seq<Message>, i: nat, call: string)
    requires i < |messages| && forall j | 0 <= j < |Calls(messages)| :: Calls(messages)[j].id != call
    ensures forall j | 0 <= j < |messages[i].activities| :: messages[i].activities[j].id != call
  {
    var n := |messages| - 1;
    var front := Calls(messages[..n]);
    assert Calls(messages) == front + messages[n].activities;
    if i < n {
      assert forall j | 0 <= j < |front| :: front[j] == Calls(messages)[j];
      CallsHoldAll(messages[..n], i, call);
    } else {
      assert forall j | 0 <= j < |messages[n].activities| :: messages[n].activities[j] == Calls(messages)[|front| + j];
    }
  }

  // A started call is shown as working, under its name, with its arguments.
  lemma StartsAreShown(session: string, messages: seq<Message>, call: string, name: string, arguments: string)
    ensures Calls(Step(session, messages, ToolStarted(call, name, arguments)))
            == Calls(messages) + [Activity(call, Working, name, arguments, arguments)]
  {
    StepReadsMore(session, messages, ToolStarted(call, name, arguments));
  }

  // A delta joins the newest message or opens one, and when: text joins a segment
  // of this very session that has no calls yet; reasoning joins a message still
  // streaming; a call joins a message that has said nothing.
  lemma DeltasJoinExactly(session: string, messages: seq<Message>, text: string, call: string)
    requires messages != []
    ensures var last := messages[|messages| - 1];
            && (|Step(session, messages, Text(text))| == |messages|
                <==> last.role == Assistant && "streaming-" + session + "-" <= last.id && last.activities == [])
            && (|Step(session, messages, Reasoning(text))| == |messages| <==> last.role == Assistant && last.streaming)
            && (|Step(session, messages, ToolStarted(call, text, ""))| == |messages|
                <==> last.role == Assistant && last.content == "")
  {
  }

  // A question shows as a system note and a failure as a failure, after all else.
  lemma NotesAreShown(session: string, messages: seq<Message>, question: string, text: string)
    ensures Step(session, messages, Asked(question, text))
            == messages + [Message("question-notice-" + question, System, text, [], false, None)]
    ensures Step(session, messages, Failed(text))
            == messages + [Message("stream-error-" + session, Failure, text, [], false, None)]
  {
  }

  // A new turn closes the newest message to reasoning, and the end closes all.
  lemma TurnsAreApart(session: string, messages: seq<Message>, delta: string)
    ensures |Step(session, Step(session, messages, TurnStart), Reasoning(delta))| == |messages| + 1
    ensures forall m | m in Step(session, messages, Finished) :: !m.streaming
    ensures |Step(session, messages, Finished)| == |messages|
  {
  }
}
