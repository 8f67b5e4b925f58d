// The unread output of a managed process: a reader appends to a capped buffer,
// receives take frames off its front.
module FramedStream {
  import opened Outcomes
  import opened Framing

  const CAP: nat := 16 * 1024 * 1024
  const CHUNK: nat := 8192

  datatype Reply = Message(text: seq<Byte>) | Oversize | Eof | TimedOut(eof: bool) | Waiting

  // The newest bytes, up to the cap.
  function Arrived(unread: seq<Byte>, chunk: seq<Byte>): seq<Byte> {
    var all := unread + chunk;
    if |all| > CAP then all[|all| - CAP..] else all
  }

  // One look at the buffer by a content-length receive.
  function Answer(unread: seq<Byte>, alive: bool, expired: bool): (Reply, seq<Byte>) {
    match Extract(unread)
    case Ready(message, consumed) => (Message(message), unread[consumed..])
    case TooLarge(total) => (Oversize, unread[total..])
    case NeedMore =>
      var left := if expired && OversizePending(unread) then [] else unread;
      (if !alive && left == [] then Eof else if expired then TimedOut(!alive) else Waiting, left)
  }

  class Pipe {
    var unread: seq<Byte>

    ghost predicate Valid()
      reads this
    {
      |unread| <= CAP
    }

    constructor ()
      ensures Valid() && unread == []
    {
      unread := [];
    }

    method Read(chunk: seq<Byte>)
      requires Valid() && |chunk| <= CHUNK
      modifies this
      ensures Valid() && unread == Arrived(old(unread), chunk)
    {
      if |unread| + |chunk| > CAP {
        var overflow := |unread| + |chunk| - CAP;
        unread := unread[overflow..];
      }
      unread := unread + chunk;
    }

    method Poll(alive: bool, expired: bool) returns (reply: Reply)
      requires Valid()
      modifies this
      ensures Valid() && (reply, unread) == Answer(old(unread), alive, expired)
      ensures reply != Oversize
    {
      match Extract(unread) {
        case Ready(message, consumed) =>
          unread := unread[consumed..];
          return Message(message);
        case TooLarge(_) =>
          assert false;
        case NeedMore =>
      }
      if expired && OversizePending(unread) {
        unread := [];
      }
      if !alive && unread == [] {
        return Eof;
      }
      reply := if expired then TimedOut(!alive) else Waiting;
    }
  }

  // ------------------------------------------------------------- Whole runs

  datatype Action = Arrive(chunk: seq<Byte>) | Receive(alive: bool, expired: bool)

  datatype Trace = Trace(unread: seq<Byte>, fed: seq<Byte>, delivered: seq<seq<Byte>>)

  function Next(t: Trace, a: Action): Trace {
    match a
    case Arrive(chunk) => t.(unread := Arrived(t.unread, chunk), fed := t.fed + chunk)
    case Receive(alive, expired) =>
      var (reply, left) := Answer(t.unread, alive, expired);
      if reply.Message? then t.(unread := left, delivered := t.delivered + [reply.text]) else t.(unread := left)
  }

  function Play(actions: seq<Action>): Trace {
    if actions == [] then Trace([], [], []) else Next(Play(actions[..|actions| - 1]), actions[|actions| - 1])
  }

  // No byte is dropped: the backlog never passes the cap.
  ghost predicate Fits(actions: seq<Action>) {
    actions != [] ==>
      && Fits(actions[..|actions| - 1])
      && var last := actions[|actions| - 1];
         last.Arrive? ==> |Play(actions[..|actions| - 1]).unread| + |last.chunk| <= CAP
  }

  function Stream(frames: seq<Frame>): seq<Byte> {
    if frames == [] then [] else frames[0].Bytes() + Stream(frames[1..])
  }

  function Bodies(frames: seq<Frame>): seq<seq<Byte>> {
    seq(|frames|, i requires 0 <= i < |frames| => frames[i].body)
  }

  lemma {:induction false} StreamAppends(frames: seq<Frame>, f: Frame)
    ensures Stream(frames + [f]) == Stream(frames) + f.Bytes()
  {
    if frames == [] {
      assert [f][1..] == [];
    } else {
      assert (frames + [f])[1..] == frames[1..] + [f];
      StreamAppends(frames[1..], f);
    }
  }

  lemma {:induction false} StreamSplits(frames: seq<Frame>, k: nat)
    requires k <= |frames|
    ensures Stream(frames) == Stream(frames[..k]) + Stream(frames[k..])
  {
    if k == 0 {
      assert frames[k..] == frames && frames[..k] == [];
    } else {
      StreamSplits(frames[1..], k - 1);
      assert frames[..k][1..] == frames[1..][..k - 1] && frames[1..][k - 1..] == frames[k..];
    }
  }

  // The buffer starts at a frame boundary, with a part of what is still to come.
  ghost predicate AtBoundary(frames: seq<Frame>, t: Trace) {
    var k := |t.delivered|;
    && k <= |frames| && t.delivered == Bodies(frames[..k])
    && t.fed == Stream(frames[..k]) + t.unread
  }

  // What a receive finds: the next frame if all of it has arrived, else nothing.
  lemma ReceiveAtBoundary(frames: seq<Frame>, unread: seq<Byte>, alive: bool, expired: bool)
    requires (forall f | f in frames :: f.WellFormed()) && unread <= Stream(frames)
    ensures var (reply, left) := Answer(unread, alive, expired);
            if frames != [] && |unread| >= |frames[0].Bytes()|
            then reply == Message(frames[0].body) && unread == frames[0].Bytes() + left
            else !reply.Message? && left == unread
  {
    if frames == [] {
      NothingWaits();
      AnswerWaits(unread, alive, expired);
    } else {
      var f := frames[0];
      if |unread| >= |f.Bytes()| {
        var more := unread[|f.Bytes()|..];
        assert unread == f.Bytes() + more;
        FrameIsRead(f, more);
        AnswerReads(unread, f.body, |f.Bytes()|, alive, expired);
      } else {
        BytesWait(f, unread);
        AnswerWaits(unread, alive, expired);
      }
    }
  }

  lemma NothingWaits()
    ensures Extract([]) == NeedMore && !OversizePending([])
  {
  }

  lemma BytesWait(f: Frame, part: seq<Byte>)
    requires f.WellFormed() && part < f.Bytes()
    ensures Extract(part) == NeedMore && !OversizePending(part)
  {
    if |part| < |f.header| {
      assert part == f.Bytes()[..|part|] == f.header[..|part|];
    } else {
      assert f.header == f.Bytes()[..|f.header|] == part[..|f.header|];
    }
    PartWaits(f.header, |f.body|, part);
  }

  lemma AnswerReads(unread: seq<Byte>, message: seq<Byte>, consumed: nat, alive: bool, expired: bool)
    requires consumed <= |unread| && Extract(unread) == Ready(message, consumed)
    ensures Answer(unread, alive, expired) == (Message(message), unread[consumed..])
  {
  }

  lemma AnswerWaits(unread: seq<Byte>, alive: bool, expired: bool)
    requires Extract(unread) == NeedMore && !OversizePending(unread)
    ensures !Answer(unread, alive, expired).0.Message? && Answer(unread, alive, expired).1 == unread
  {
  }

  // What one receive does to a run at a boundary.
  lemma ReceiveStep(frames: seq<Frame>, t: Trace, alive: bool, expired: bool)
    requires (forall f | f in frames :: f.WellFormed()) && AtBoundary(frames, t) && t.fed <= Stream(frames)
    ensures var k, next := |t.delivered|, Next(t, Receive(alive, expired));
            if k < |frames| && |t.unread| >= |frames[k].Bytes()|
            then t.unread == frames[k].Bytes() + next.unread
                 && next == t.(unread := next.unread, delivered := t.delivered + [frames[k].body])
            else next == t
  {
    var k := |t.delivered|;
    StreamSplits(frames, k);
    UnreadIsNext(Stream(frames[..k]), t.unread, Stream(frames[k..]));
    ReceiveAtBoundary(frames[k..], t.unread, alive, expired);
    NextOfAnswer(t, alive, expired);
  }

  lemma NextOfAnswer(t: Trace, alive: bool, expired: bool)
    ensures var (reply, left) := Answer(t.unread, alive, expired);
            Next(t, Receive(alive, expired))
            == if reply.Message? then Trace(left, t.fed, t.delivered + [reply.text]) else t.(unread := left)
  {
  }

  lemma BoundaryMoves(frames: seq<Frame>, t: Trace, next: Trace)
    requires AtBoundary(frames, t) && |t.delivered| < |frames|
    requires var f := frames[|t.delivered|];
             t.unread == f.Bytes() + next.unread
             && next == t.(unread := next.unread, delivered := t.delivered + [f.body])
    ensures AtBoundary(frames, next)
  {
    var k := |t.delivered|;
    StreamAppends(frames[..k], frames[k]);
    assert frames[..k] + [frames[k]] == frames[..k + 1];
    assert Bodies(frames[..k + 1]) == Bodies(frames[..k]) + [frames[k].body];
    assert Stream(frames[..k]) + (frames[k].Bytes() + next.unread)
           == Stream(frames[..k]) + frames[k].Bytes() + next.unread;
  }

  lemma BoundaryGrows(frames: seq<Frame>, t: Trace, chunk: seq<Byte>)
    requires AtBoundary(frames, t)
    ensures AtBoundary(frames, Trace(t.unread + chunk, t.fed + chunk, t.delivered))
  {
  }

  lemma StepKeepsBoundary(frames: seq<Frame>, t: Trace, a: Action)
    requires (forall f | f in frames :: f.WellFormed()) && AtBoundary(frames, t)
    requires Next(t, a).fed <= Stream(frames)
    requires a.Arrive? ==> |t.unread| + |a.chunk| <= CAP
    ensures AtBoundary(frames, Next(t, a))
  {
    match a {
      case Arrive(chunk) => BoundaryGrows(frames, t, chunk);
      case Receive(alive, expired) =>
        NextOfAnswer(t, alive, expired);
        ReceiveStep(frames, t, alive, expired);
        if Next(t, a) != t {
          BoundaryMoves(frames, t, Next(t, a));
        }
    }
  }

  lemma UnreadIsNext(front: seq<Byte>, unread: seq<Byte>, rest: seq<Byte>)
    requires front + unread <= front + rest
    ensures unread <= rest
  {
    assert forall i | 0 <= i < |unread| :: unread[i] == (front + unread)[|front| + i] == rest[i];
  }

  // However the stream of frames is cut into chunks, and whenever receives and
  // timeouts fall between them, the bodies delivered are the first frames'
  // bodies in order, and no byte is lost.
  lemma {:induction false} FramesAreDeliveredInOrder(frames: seq<Frame>, actions: seq<Action>)
    requires forall f | f in frames :: f.WellFormed()
    requires Fits(actions) && Play(actions).fed <= Stream(frames)
    ensures AtBoundary(frames, Play(actions))
  {
    if actions != [] {
      var before := actions[..|actions| - 1];
      assert Play(before).fed <= Play(actions).fed;
      FramesAreDeliveredInOrder(frames, before);
      StepKeepsBoundary(frames, Play(before), actions[|actions| - 1]);
    } else {
      assert frames[..0] == [];
    }
  }

  ghost predicate OnlyReceives(actions: seq<Action>) {
    forall a | a in actions :: a.Receive?
  }

  // A receive after the whole of the next frame has come always delivers it.
  lemma {:induction false} EnoughReceivesDeliverAll(frames: seq<Frame>, actions: seq<Action>, receives: seq<Action>)
    requires forall f | f in frames :: f.WellFormed()
    requires Fits(actions) && Play(actions).fed == Stream(frames) && OnlyReceives(receives)
    ensures Play(actions + receives).fed == Stream(frames) && Fits(actions + receives)
    ensures |Play(actions + receives).delivered| >= |receives| || Play(actions + receives).delivered == Bodies(frames)
    ensures AtBoundary(frames, Play(actions + receives))
  {
    if receives == [] {
      assert actions + receives == actions;
      FramesAreDeliveredInOrder(frames, actions);
    } else {
      var fewer, last := receives[..|receives| - 1], receives[|receives| - 1];
      assert (actions + receives)[..|actions + receives| - 1] == actions + fewer;
      assert last in receives && OnlyReceives(fewer);
      EnoughReceivesDeliverAll(frames, actions, fewer);
      var t := Play(actions + fewer);
      StepKeepsBoundary(frames, t, last);
      LastReceive(frames, t, last);
    }
  }

  lemma LastReceive(frames: seq<Frame>, t: Trace, a: Action)
    requires (forall f | f in frames :: f.WellFormed()) && AtBoundary(frames, t)
    requires t.fed == Stream(frames) && a.Receive?
    ensures if |t.delivered| < |frames| then |Next(t, a).delivered| == |t.delivered| + 1
            else t.delivered == Bodies(frames) && Next(t, a).delivered == t.delivered
  {
    ReceiveStep(frames, t, a.alive, a.expired);
    NextIsWhole(frames, t);
  }

  lemma NextIsWhole(frames: seq<Frame>, t: Trace)
    requires AtBoundary(frames, t) && t.fed == Stream(frames)
    ensures if |t.delivered| < |frames| then |t.unread| >= |frames[|t.delivered|].Bytes()|
            else t.delivered == Bodies(frames)
  {
    var k := |t.delivered|;
    StreamSplits(frames, k);
    if k == |frames| {
      assert frames[..k] == frames;
    } else {
      assert frames[k..][0] == frames[k];
    }
  }

  // ---------------------------------------------------- The limit of the cap

  // The backlog keeps the newest bytes within the cap, so a receive never meets
  // a complete oversize frame.
  lemma {:induction false} BacklogStaysCapped(actions: seq<Action>, alive: bool, expired: bool)
    ensures |Play(actions).unread| <= CAP && |Play(actions).unread| <= |Play(actions).fed|
    ensures Answer(Play(actions).unread, alive, expired).0 != Oversize
  {
    if actions != [] {
      var before, last := actions[..|actions| - 1], actions[|actions| - 1];
      BacklogStaysCapped(before, alive, expired);
      if last.Receive? {
        AnswerShrinks(Play(before).unread, last.alive, last.expired);
      }
    }
    AnswerIsNotOversize(Play(actions).unread, alive, expired);
  }

  lemma AnswerShrinks(unread: seq<Byte>, alive: bool, expired: bool)
    ensures |Answer(unread, alive, expired).1| <= |unread|
  {
  }

  lemma AnswerIsNotOversize(unread: seq<Byte>, alive: bool, expired: bool)
    requires |unread| <= CAP
    ensures Answer(unread, alive, expired).0 != Oversize
  {
  }

  // The header a plain sender writes: one length in decimal.
  function LengthField(n: nat): Field {
    Field(LengthName(), Digits(n))
  }

  function LengthHeader(n: nat): seq<Byte> {
    Line(LengthField(n)) + [CR, LF] + [CR, LF]
  }

  lemma LengthHeaderDeclares(n: nat)
    requires n <= MAX_CONTENT_LENGTH
    ensures HeaderEnd(LengthHeader(n)) == Some(|LengthHeader(n)|) && Utf8(LengthHeader(n))
    ensures Declared(LengthHeader(n)) == Some(n)
  {
    var fields := [LengthField(n)];
    OwnName(0);
    assert fields[1..] == [] && Block(fields) == LengthHeader(n);
    BlockEnds(fields);
    BlockIsUtf8(fields);
    BlockDeclares(fields);
    LengthIsFirst([], LengthField(n), [], n);
    assert [] + fields + [] == fields;
  }

  // A header whose front was dropped names no length,
  lemma BrokenLineDeclaresNothing(n: nat, d: nat)
    requires 0 < d <= |Line(LengthField(n))|
    ensures LengthOf(Line(LengthField(n))[d..]).None?
    ensures LF !in Line(LengthField(n))[d..] && CR !in Line(LengthField(n))[d..]
  {
  }

  // so what follows it is never read and never cleared.
  lemma BrokenHeaderSticks(n: nat, d: nat, rest: seq<Byte>, unread: seq<Byte>)
    requires 0 < d <= |Line(LengthField(n))| && unread == LengthHeader(n)[d..] + rest
    ensures Extract(unread) == NeedMore && !OversizePending(unread)
  {
    var cut := Line(LengthField(n))[d..];
    var header := cut + [CR, LF] + [CR, LF];
    assert LengthHeader(n)[d..] == header;
    BrokenLineDeclaresNothing(n, d);
    LineEnds(cut, [CR, LF]);
    LineRead(cut, [CR, LF]);
    EmptyLineDeclaresNothing();
    HeaderEndExtends(header, rest);
    assert unread == header + rest && unread[..|header|] == header;
    NothingDeclaredWaits(unread, |header|);
  }

  lemma EmptyLineDeclaresNothing()
    ensures Declared([CR, LF]) == None
  {
  }

  lemma NothingDeclaredWaits(buffer: seq<Byte>, end: nat)
    requires HeaderEnd(buffer) == Some(end) && Declared(buffer[..end]) == None
    ensures Extract(buffer) == NeedMore && !OversizePending(buffer)
  {
  }

  function Newest(s: seq<Byte>): seq<Byte> {
    if |s| > CAP then s[|s| - CAP..] else s
  }

  // A frame whose header and body together pass the cap, though its body does
  // not: nothing at all is delivered and nothing is cleared until the whole
  // header has been pushed out.
  ghost predicate Stuck(n: nat, bytes: seq<Byte>) {
    var header := LengthHeader(n);
    && n <= MAX_CONTENT_LENGTH && |header| + n > CAP
    && (bytes <= header || header <= bytes) && |bytes| <= CAP + |header| - 4
  }

  lemma StuckWaits(n: nat, bytes: seq<Byte>, unread: seq<Byte>)
    requires Stuck(n, bytes) && unread == Newest(bytes)
    ensures Extract(unread) == NeedMore && !OversizePending(unread)
  {
    if |bytes| > CAP {
      NewestIsBroken(n, bytes);
      BrokenHeaderSticks(n, |bytes| - CAP, bytes[|LengthHeader(n)|..], unread);
    } else {
      LengthHeaderDeclares(n);
      StuckIsPart(n, bytes);
      PartWaits(LengthHeader(n), n, unread);
    }
  }

  lemma StuckIsPart(n: nat, bytes: seq<Byte>)
    requires Stuck(n, bytes) && |bytes| <= CAP
    ensures bytes < LengthHeader(n) || (LengthHeader(n) <= bytes && |bytes| < |LengthHeader(n)| + n)
    ensures Newest(bytes) == bytes
  {
  }

  lemma NewestIsBroken(n: nat, bytes: seq<Byte>)
    requires Stuck(n, bytes) && |bytes| > CAP
    ensures 0 < |bytes| - CAP <= |Line(LengthField(n))| && LengthHeader(n) <= bytes
    ensures Newest(bytes) == LengthHeader(n)[|bytes| - CAP..] + bytes[|LengthHeader(n)|..]
  {
    DigitsAreFew(n, 8);
  }

  function Power(e: nat): nat {
    if e == 0 then 1 else 10 * Power(e - 1)
  }

  lemma {:induction false} DigitsAreFew(n: nat, e: nat)
    requires e > 0 && n < Power(e)
    ensures |Digits(n)| <= e
  {
    if n >= 10 {
      assert e > 1 && n / 10 < Power(e - 1);
      DigitsAreFew(n / 10, e - 1);
    }
  }

  lemma {:induction false} OverlongFrameSticks(n: nat, actions: seq<Action>)
    requires Stuck(n, Play(actions).fed)
    ensures Play(actions).delivered == [] && Play(actions).unread == Newest(Play(actions).fed)
  {
    if actions != [] {
      var before, last := actions[..|actions| - 1], actions[|actions| - 1];
      var t := Play(before);
      EarlierIsStuck(n, t.fed, Play(actions).fed);
      OverlongFrameSticks(n, before);
      match last {
        case Arrive(chunk) => NewestArrives(t.fed, chunk);
        case Receive(alive, expired) =>
          StuckWaits(n, t.fed, t.unread);
          WaitingKeeps(t, alive, expired);
      }
    }
  }

  lemma NewestArrives(fed: seq<Byte>, chunk: seq<Byte>)
    ensures Arrived(Newest(fed), chunk) == Newest(fed + chunk)
  {
  }

  lemma EarlierIsStuck(n: nat, early: seq<Byte>, late: seq<Byte>)
    requires Stuck(n, late) && early <= late
    ensures Stuck(n, early)
  {
  }

  lemma WaitingKeeps(t: Trace, alive: bool, expired: bool)
    requires Extract(t.unread) == NeedMore && !OversizePending(t.unread)
    ensures Next(t, Receive(alive, expired)) == t
  {
  }

  lemma {:induction false} ShortRunsFit(actions: seq<Action>)
    requires |Play(actions).fed| <= CAP
    ensures Fits(actions)
  {
    if actions != [] {
      var before := actions[..|actions| - 1];
      BacklogStaysCapped(before, true, false);
      ShortRunsFit(before);
    }
  }

  // What is delivered left the buffer together with a header.
  lemma {:induction false} DeliveredLeavesRoom(actions: seq<Action>)
    ensures forall m | m in Play(actions).delivered :: |m| + 4 <= CAP
  {
    if actions != [] {
      var before, last := actions[..|actions| - 1], actions[|actions| - 1];
      DeliveredLeavesRoom(before);
      BacklogStaysCapped(before, true, false);
      if last.Receive? {
        MessageLeavesRoom(Play(before).unread);
        NextOfAnswer(Play(before), last.alive, last.expired);
      }
    }
  }

  lemma MessageLeavesRoom(unread: seq<Byte>)
    ensures Extract(unread).Ready? ==> |Extract(unread).message| + 4 <= |unread|
  {
  }

  // A frame of a plain sender is delivered exactly when header and body fit the
  // cap together; a body within the limit alone is not enough.
  lemma FrameIsDeliveredExactlyWhenItFits(body: seq<Byte>, actions: seq<Action>, alive: bool, expired: bool)
    requires Utf8(body) && |body| <= MAX_CONTENT_LENGTH
    requires Play(actions).fed == LengthHeader(|body|) + body
    ensures var delivered := Play(actions + [Receive(alive, expired)]).delivered;
            var fits := |LengthHeader(|body|)| + |body| <= CAP;
            && (body in delivered <==> fits)
            && (fits ==> delivered == [body])
            && (!fits && |body| + 4 <= MAX_CONTENT_LENGTH ==> delivered == [])
  {
    var frame := Frame(LengthHeader(|body|), body);
    var last := Receive(alive, expired);
    LengthHeaderDeclares(|body|);
    if |frame.Bytes()| <= CAP {
      FittingFrameIsDelivered(frame, actions, last);
    } else if |body| + 4 <= MAX_CONTENT_LENGTH {
      OverlongIsNotDelivered(body, actions, last);
    } else {
      DeliveredLeavesRoom(actions + [last]);
    }
  }

  lemma FittingFrameIsDelivered(frame: Frame, actions: seq<Action>, last: Action)
    requires frame.WellFormed() && |frame.Bytes()| <= CAP && Play(actions).fed == frame.Bytes() && last.Receive?
    ensures Play(actions + [last]).delivered == [frame.body]
  {
    ShortRunsFit(actions);
    assert Stream([frame]) == frame.Bytes() + Stream([]) == frame.Bytes();
    EnoughReceivesDeliverAll([frame], actions, [last]);
    assert Bodies([frame]) == [frame.body];
    OneBody(frame, Play(actions + [last]));
  }

  lemma OverlongIsNotDelivered(body: seq<Byte>, actions: seq<Action>, last: Action)
    requires |body| + 4 <= MAX_CONTENT_LENGTH && |LengthHeader(|body|)| + |body| > CAP && last.Receive?
    requires Play(actions).fed == LengthHeader(|body|) + body
    ensures Play(actions + [last]).delivered == []
  {
    assert (actions + [last])[..|actions|] == actions;
    assert Play(actions + [last]).fed == Play(actions).fed;
    OverlongFrameSticks(|body|, actions + [last]);
  }

  lemma OneBody(frame: Frame, t: Trace)
    requires AtBoundary([frame], t) && (|t.delivered| >= 1 || t.delivered == Bodies([frame]))
    ensures t.delivered == [frame.body]
  {
  }

  // ------------------------------------------ A body that cannot be decoded

  // A header and the body it declares, within the cap, at the front of the stream.
  ghost predicate Fronts(header: seq<Byte>, body: seq<Byte>, fed: seq<Byte>) {
    && HeaderEnd(header) == Some(|header|) && Utf8(header) && Declared(header) == Some(|body|)
    && |header| + |body| <= CAP && |fed| <= CAP
    && (fed <= header + body || header + body <= fed)
  }

  lemma EarlierFronts(header: seq<Byte>, body: seq<Byte>, early: seq<Byte>, late: seq<Byte>)
    requires Fronts(header, body, late) && early <= late
    ensures Fronts(header, body, early)
  {
  }

  lemma FrontAnswer(header: seq<Byte>, body: seq<Byte>, fed: seq<Byte>)
    requires Fronts(header, body, fed)
    ensures if header + body <= fed && Utf8(body) then Extract(fed) == Ready(body, |header| + |body|)
            else Extract(fed) == NeedMore && !OversizePending(fed)
  {
    if header + body <= fed {
      var more := fed[|header| + |body|..];
      assert fed == header + body + more;
      WholeFrameIsReadExactly(header, body, more);
    } else {
      PartOfFrame(header, body, fed);
      PartWaits(header, |body|, fed);
    }
  }

  lemma PartOfFrame(header: seq<Byte>, body: seq<Byte>, fed: seq<Byte>)
    requires fed < header + body
    ensures fed < header || (header <= fed && |fed| < |header| + |body|)
  {
    if |fed| < |header| {
      assert fed == (header + body)[..|fed|] == header[..|fed|];
    } else {
      assert header == (header + body)[..|header|] == fed[..|header|];
    }
  }

  // Within the cap the first delivery is the first frame's body, if that is
  // UTF-8; until then every byte fed is still there.
  lemma {:induction false} FirstDelivery(header: seq<Byte>, body: seq<Byte>, actions: seq<Action>)
    requires Fronts(header, body, Play(actions).fed)
    ensures var t := Play(actions);
            if t.delivered == [] then t.unread == t.fed else Utf8(body) && t.delivered[0] == body
  {
    if actions != [] {
      var before, last := actions[..|actions| - 1], actions[|actions| - 1];
      EarlierFronts(header, body, Play(before).fed, Play(actions).fed);
      FirstDelivery(header, body, before);
      FirstStep(header, body, Play(before), last);
    }
  }

  lemma FirstStep(header: seq<Byte>, body: seq<Byte>, t: Trace, a: Action)
    requires Fronts(header, body, t.fed) && Fronts(header, body, Next(t, a).fed)
    requires if t.delivered == [] then t.unread == t.fed else Utf8(body) && t.delivered[0] == body
    ensures var next := Next(t, a);
            if next.delivered == [] then next.unread == next.fed else Utf8(body) && next.delivered[0] == body
    ensures a.Receive? && header + body <= t.fed && Utf8(body) ==> Next(t, a).delivered != []
  {
    if a.Receive? {
      NextOfAnswer(t, a.alive, a.expired);
      FrontAnswer(header, body, t.fed);
    }
  }

  // A first frame that has come whole, whatever follows it, is delivered by the
  // next receive exactly when its body is UTF-8. Otherwise, as long as no more
  // than the cap has been fed, nothing is delivered and nothing is cleared.
  lemma FirstFrameIsDeliveredExactly(header: seq<Byte>, body: seq<Byte>, actions: seq<Action>, alive: bool, expired: bool)
    requires Fronts(header, body, Play(actions).fed) && header + body <= Play(actions).fed
    ensures var t := Play(actions + [Receive(alive, expired)]);
            if Utf8(body) then t.delivered != [] && t.delivered[0] == body
            else t.delivered == [] && t.unread == t.fed == Play(actions).fed
  {
    var last := Receive(alive, expired);
    assert (actions + [last])[..|actions|] == actions;
    FirstDelivery(header, body, actions);
    FirstStep(header, body, Play(actions), last);
  }

  // --------------------------------------------------- What a receive answers

  // A header that declares too large a body is thrown away with all that came
  // after it, at the deadline and not before; a receive delivers nothing of it.
  lemma OversizeIsClearedAtTheDeadline(header: seq<Byte>, n: nat, unread: seq<Byte>, alive: bool, expired: bool)
    requires HeaderEnd(header) == Some(|header|) && Utf8(header) && Declared(header) == Some(n)
    requires n > MAX_CONTENT_LENGTH && header <= unread && |unread| <= CAP
    ensures var (reply, left) := Answer(unread, alive, expired);
            && left == (if expired then [] else unread) && !reply.Message?
            && (!expired ==> reply == Waiting) && (expired ==> reply == if alive then TimedOut(false) else Eof)
  {
    assert unread == header + unread[|header|..];
    HeaderEndExtends(header, unread[|header|..]);
    assert unread[..|header|] == header;
  }

  // Without a frame to deliver, a receive says the stream is over exactly when the
  // process is gone and nothing is left, else whether its time is up.
  lemma EmptyHandedAnswers(unread: seq<Byte>, alive: bool, expired: bool)
    requires Extract(unread) == NeedMore && !OversizePending(unread)
    ensures var (reply, left) := Answer(unread, alive, expired);
            && left == unread
            && (reply == Eof <==> !alive && unread == [])
            && (reply == Waiting <==> !expired && (alive || unread != []))
            && (reply == TimedOut(!alive) <==> expired && (alive || unread != []))
  {
  }

  // ---------------------------------------------- Inputs the two limits fail

  // The reader's way of feeding a stream: chunks of its own size.
  function Chunked(bytes: seq<Byte>): seq<Action>
    decreases |bytes|
  {
    if |bytes| <= CHUNK then [Arrive(bytes)]
    else Chunked(bytes[..|bytes| - CHUNK]) + [Arrive(bytes[|bytes| - CHUNK..])]
  }

  lemma {:induction false} ChunkedFeeds(bytes: seq<Byte>)
    ensures Play(Chunked(bytes)).fed == bytes
    ensures forall a | a in Chunked(bytes) :: a.Arrive? && |a.chunk| <= CHUNK
    decreases |bytes|
  {
    var actions := Chunked(bytes);
    if |bytes| <= CHUNK {
      assert actions[..0] == [];
    } else {
      var front := bytes[..|bytes| - CHUNK];
      ChunkedFeeds(front);
      assert actions[..|actions| - 1] == Chunked(front);
    }
  }

  // A legal body of plain letters, read in the reader's own chunks, that no
  // receive delivers.
  lemma LegalBodyIsNeverDelivered(alive: bool, expired: bool) returns (body: seq<Byte>, actions: seq<Action>)
    ensures Utf8(body) && |body| + 4 == MAX_CONTENT_LENGTH && Play(actions).fed == LengthHeader(|body|) + body
    ensures forall a | a in actions :: a.Arrive? && |a.chunk| <= CHUNK
    ensures Play(actions + [Receive(alive, expired)]).delivered == []
  {
    body := seq(MAX_CONTENT_LENGTH - 4, _ => 97);
    AsciiIsUtf8(body, 0);
    actions := Chunked(LengthHeader(|body|) + body);
    ChunkedFeeds(LengthHeader(|body|) + body);
    FrameIsDeliveredExactlyWhenItFits(body, actions, alive, expired);
  }

  // A one-byte body that is not UTF-8.
  lemma UndecodableBodyStays(alive: bool, expired: bool) returns (actions: seq<Action>)
    ensures Play(actions).fed == LengthHeader(1) + [0xFF] && forall a | a in actions :: a.Arrive? && |a.chunk| <= CHUNK
    ensures var t := Play(actions + [Receive(alive, expired)]);
            t.delivered == [] && t.unread == LengthHeader(1) + [0xFF]
  {
    var bytes := LengthHeader(1) + [0xFF];
    actions := Chunked(bytes);
    ChunkedFeeds(bytes);
    LengthHeaderDeclares(1);
    FirstFrameIsDeliveredExactly(LengthHeader(1), [0xFF], actions, alive, expired);
  }
}
