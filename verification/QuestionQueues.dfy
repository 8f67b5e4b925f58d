// Pending questions of the client projection: two maps that together hold one
// duplicate-free first-in-first-out sequence per session.
module QuestionQueues {
  import opened Outcomes

  type Session = nat

  datatype Question = Question(id: nat, text: nat)

  type Queue = seq<Question>

  // An automation snapshot: the latest question per session, the complete
  // queues when the daemon sends them, and the running session.
  datatype Projection = Projection(
    questions: map<Session, Question>, queues: Option<map<Session, Queue>>, active: Option<Session>)

  const NOTHING: Projection := Projection(map[], None, None)

  // ------------------------------------------------------- One queue's meaning

  predicate Has(queue: Queue, id: nat) {
    exists q | q in queue :: q.id == id
  }

  ghost predicate Distinct(queue: Queue) {
    forall i, j | 0 <= i < j < |queue| :: queue[i].id != queue[j].id
  }

  function Asked(queue: Queue, q: Question): Queue {
    if Has(queue, q.id) then queue else queue + [q]
  }

  function Dedup(queue: Queue): Queue {
    if queue == [] then [] else Asked(Dedup(queue[..|queue| - 1]), queue[|queue| - 1])
  }

  function Without(queue: Queue, id: nat): Queue {
    if queue == [] then []
    else if queue[0].id == id then Without(queue[1..], id)
    else [queue[0]] + Without(queue[1..], id)
  }

  // Replace the first question of that identity, or append.
  function Upsert(queue: Queue, q: Question): Queue {
    if queue == [] then [q]
    else if queue[0].id == q.id then [q] + queue[1..]
    else [queue[0]] + Upsert(queue[1..], q)
  }

  // A latest-only snapshot: a contributed question no longer listed was
  // resolved elsewhere; a listed one joins or refreshes the queue.
  function Merged(queue: Queue, contributed: Option<Question>, current: Option<Question>): Queue {
    match current
    case Some(q) => Upsert(queue, q)
    case None => if contributed.Some? then Without(queue, contributed.value.id) else queue
  }

  lemma {:induction false} DedupIsDistinct(queue: Queue)
    ensures Distinct(Dedup(queue))
    ensures forall id :: Has(Dedup(queue), id) <==> Has(queue, id)
    ensures forall q | q in Dedup(queue) :: q in queue
  {
    if queue != [] {
      var before, last := queue[..|queue| - 1], queue[|queue| - 1];
      DedupIsDistinct(before);
      assert queue == before + [last];
      HasAppended(before, last);
      HasAppended(Dedup(before), last);
    }
  }

  lemma HasAppended(queue: Queue, q: Question)
    ensures forall id :: Has(queue + [q], id) <==> Has(queue, id) || q.id == id
  {
  }

  lemma {:induction false} DedupOfDistinct(queue: Queue)
    requires Distinct(queue)
    ensures Dedup(queue) == queue
  {
    if queue != [] {
      DedupOfDistinct(queue[..|queue| - 1]);
      assert queue == queue[..|queue| - 1] + [queue[|queue| - 1]];
    }
  }

  lemma {:induction false} WithoutMembers(queue: Queue, id: nat)
    ensures forall q :: q in Without(queue, id) <==> q in queue && q.id != id
    ensures Distinct(queue) ==> Distinct(Without(queue, id))
    ensures !Has(queue, id) ==> Without(queue, id) == queue
  {
    if queue != [] {
      WithoutMembers(queue[1..], id);
      assert queue == [queue[0]] + queue[1..];
      if Distinct(queue) {
        assert Distinct(queue[1..]);
        forall q | q in Without(queue[1..], id) ensures q.id != queue[0].id {
          assert q in queue[1..];
        }
      }
    }
  }

  // An upsert puts the question in the old one's place, or at the end.
  lemma {:induction false} UpsertIsInPlace(queue: Queue, q: Question)
    requires Distinct(queue)
    ensures !Has(queue, q.id) ==> Upsert(queue, q) == queue + [q]
    ensures Has(queue, q.id) ==> |Upsert(queue, q)| == |queue|
    ensures forall i | 0 <= i < |queue| :: i < |Upsert(queue, q)| &&
              Upsert(queue, q)[i] == if queue[i].id == q.id then q else queue[i]
  {
    if queue == [] {
    } else if queue[0].id == q.id {
      assert queue[0] in queue;
    } else {
      UpsertIsInPlace(queue[1..], q);
      assert queue == [queue[0]] + queue[1..];
      assert Has(queue, q.id) <==> Has(queue[1..], q.id);
      var rest := Upsert(queue[1..], q);
      forall i | 0 < i < |queue|
        ensures i < |Upsert(queue, q)| && Upsert(queue, q)[i] == if queue[i].id == q.id then q else queue[i]
      {
        assert queue[1..][i - 1] == queue[i] && Upsert(queue, q)[i] == rest[i - 1];
      }
    }
  }

  lemma UpsertIsDistinct(queue: Queue, q: Question)
    requires Distinct(queue)
    ensures Distinct(Upsert(queue, q)) && Has(Upsert(queue, q), q.id)
    ensures Upsert(Upsert(queue, q), q) == Upsert(queue, q)
  {
    UpsertHas(queue, q);
    UpsertIsInPlace(queue, q);
    var once := Upsert(queue, q);
    UpsertIsInPlace(once, q);
    assert |Upsert(once, q)| == |once|;
  }

  lemma {:induction false} UpsertHas(queue: Queue, q: Question)
    requires Distinct(queue)
    ensures Distinct(Upsert(queue, q)) && q in Upsert(queue, q) && Has(Upsert(queue, q), q.id)
    ensures forall i | 0 <= i < |Upsert(queue, q)| && Upsert(queue, q)[i].id == q.id :: Upsert(queue, q)[i] == q
  {
    UpsertIsInPlace(queue, q);
    var once := Upsert(queue, q);
    if Has(queue, q.id) {
      var x :| x in queue && x.id == q.id;
      var i :| 0 <= i < |queue| && queue[i] == x;
      assert once[i] == q;
    } else {
      assert forall i | 0 <= i < |queue| :: queue[i] in queue;
      assert once[|queue|] == q;
    }
  }

  // It touches no other question and none of the order between them.
  lemma {:induction false} UpsertKeepsOthers(queue: Queue, q: Question)
    ensures Without(Upsert(queue, q), q.id) == Without(queue, q.id)
  {
    if queue == [] {
    } else if queue[0].id == q.id {
      assert ([q] + queue[1..])[1..] == queue[1..];
    } else {
      UpsertKeepsOthers(queue[1..], q);
      assert ([queue[0]] + Upsert(queue[1..], q))[1..] == Upsert(queue[1..], q);
    }
  }

  // ------------------------------------------------------------ Abstract state

  // What the two maps mean, and what the last snapshot left behind.
  datatype View = View(queues: map<Session, Queue>, last: Projection)

  function QueueOf(queues: map<Session, Queue>, s: Session): Queue {
    if s in queues then queues[s] else []
  }

  function Put(queues: map<Session, Queue>, s: Session, queue: Queue): map<Session, Queue> {
    if queue == [] then queues - {s} else queues[s := queue]
  }

  function Ask(v: View, s: Session, q: Question): View {
    v.(queues := Put(v.queues, s, Asked(QueueOf(v.queues, s), q)))
  }

  function Pop(v: View, s: Session): View {
    var queue := QueueOf(v.queues, s);
    v.(queues := Put(v.queues, s, if queue == [] then [] else queue[1..]))
  }

  function Clear(v: View, s: Session): View {
    v.(queues := v.queues - {s})
  }

  function Lookup<T>(m: map<Session, T>, s: Session): Option<T> {
    if s in m then Some(m[s]) else None
  }

  function QueueKeys(p: Projection): set<Session> {
    if p.queues.Some? then p.queues.value.Keys else {}
  }

  function ActiveKeys(p: Projection): set<Session> {
    if p.active.Some? then {p.active.value} else {}
  }

  // The sessions a snapshot speaks about, given the one before it.
  function Listed(last: Projection, p: Projection): set<Session> {
    last.questions.Keys + p.questions.Keys + QueueKeys(last) + QueueKeys(p) + ActiveKeys(last) + ActiveKeys(p)
  }

  function ReconciledQueue(v: View, p: Projection, s: Session): Queue {
    match p.queues
    case Some(queues) => Dedup(QueueOf(queues, s))
    case None => Dedup(Merged(QueueOf(v.queues, s), Lookup(v.last.questions, s), Lookup(p.questions, s)))
  }

  // Sessions of `listed` take their reconciled queue; the others keep theirs.
  function Replaced(v: View, p: Projection, listed: set<Session>): map<Session, Queue> {
    map s | s in v.queues.Keys + listed
            && (if s in listed then ReconciledQueue(v, p, s) else QueueOf(v.queues, s)) != [] ::
      if s in listed then ReconciledQueue(v, p, s) else QueueOf(v.queues, s)
  }

  function Reconcile(v: View, p: Projection): View {
    View(Replaced(v, p, Listed(v.last, p)), p)
  }

  ghost predicate QueuesOk(queues: map<Session, Queue>) {
    forall s | s in queues :: queues[s] != [] && Distinct(queues[s])
  }

  datatype Event =
    | Posed(session: Session, question: Question)
    | Answered(session: Session)
    | Finished(session: Session)
    | Removed(session: Session)
    | Selected(session: Session)
    | Automation(projection: Projection)

  // The meaning of an event. Which session is on screen does not enter it.
  function Apply(v: View, e: Event): View {
    match e
    case Posed(s, q) => Ask(v, s, q)
    case Answered(s) => Pop(v, s)
    case Finished(s) => Clear(v, s)
    case Removed(s) => Clear(v, s)
    case Selected(_) => v
    case Automation(p) => Reconcile(v, p)
  }

  function Play(v: View, events: seq<Event>): View {
    if events == [] then v else Apply(Play(v, events[..|events| - 1]), events[|events| - 1])
  }

  lemma MergedIsDistinct(queue: Queue, contributed: Option<Question>, current: Option<Question>)
    requires Distinct(queue)
    ensures Distinct(Merged(queue, contributed, current))
  {
    match current {
      case Some(q) => UpsertIsDistinct(queue, q);
      case None => if contributed.Some? { WithoutMembers(queue, contributed.value.id); }
    }
  }

  lemma ReconciledIsDistinct(v: View, p: Projection, s: Session)
    requires QueuesOk(v.queues)
    ensures Distinct(ReconciledQueue(v, p, s))
    ensures p.queues.None? ==>
              ReconciledQueue(v, p, s) == Merged(QueueOf(v.queues, s), Lookup(v.last.questions, s), Lookup(p.questions, s))
  {
    match p.queues {
      case Some(queues) => DedupIsDistinct(QueueOf(queues, s));
      case None =>
        MergedIsDistinct(QueueOf(v.queues, s), Lookup(v.last.questions, s), Lookup(p.questions, s));
        DedupOfDistinct(Merged(QueueOf(v.queues, s), Lookup(v.last.questions, s), Lookup(p.questions, s)));
    }
  }

  lemma ApplyKeepsOk(v: View, e: Event)
    requires QueuesOk(v.queues)
    ensures QueuesOk(Apply(v, e).queues)
  {
    match e {
      case Automation(p) =>
        forall s | s in Reconcile(v, p).queues ensures Distinct(Reconcile(v, p).queues[s]) {
          ReconciledIsDistinct(v, p, s);
        }
      case _ =>
    }
  }

  // Through any events, every session holds one duplicate-free queue.
  lemma {:induction false} QueuesStayDistinct(events: seq<Event>)
    ensures QueuesOk(Play(View(map[], NOTHING), events).queues)
  {
    if events != [] {
      QueuesStayDistinct(events[..|events| - 1]);
      ApplyKeepsOk(Play(View(map[], NOTHING), events[..|events| - 1]), events[|events| - 1]);
    }
  }

  // A snapshot speaks about a session: it asks in it, lists its queue or runs it.
  ghost predicate Mentions(p: Projection, s: Session) {
    s in p.questions || (p.queues.Some? && s in p.queues.value) || p.active == Some(s)
  }

  // Reconciliation leaves sessions no snapshot mentions alone; a complete
  // snapshot sets exactly its queue, and clears a listed session it omits.
  lemma ReconcileIsLocalAndExact(v: View, p: Projection, s: Session)
    requires QueuesOk(v.queues)
    ensures !Mentions(v.last, s) && !Mentions(p, s) ==> QueueOf(Reconcile(v, p).queues, s) == QueueOf(v.queues, s)
    ensures (Mentions(v.last, s) || Mentions(p, s)) && p.queues.Some? ==>
              QueueOf(Reconcile(v, p).queues, s) == Dedup(QueueOf(p.queues.value, s))
    ensures (Mentions(v.last, s) || Mentions(p, s)) && p.queues.None? ==>
              QueueOf(Reconcile(v, p).queues, s)
              == Merged(QueueOf(v.queues, s), Lookup(v.last.questions, s), Lookup(p.questions, s))
  {
    ReconciledIsDistinct(v, p, s);
  }

  // A latest-only snapshot keeps the order of every question but the listed
  // one, retires only the one contributed before, and loses nothing else.
  lemma LegacySnapshotKeepsOrder(v: View, p: Projection, s: Session)
    requires QueuesOk(v.queues) && p.queues.None?
    ensures var before, after := QueueOf(v.queues, s), QueueOf(Reconcile(v, p).queues, s);
            && (s in p.questions ==>
                  && p.questions[s] in after && Has(after, p.questions[s].id)
                  && Without(after, p.questions[s].id) == Without(before, p.questions[s].id)
                  && (Has(before, p.questions[s].id) ==> |after| == |before|)
                  && (!Has(before, p.questions[s].id) ==> after == before + [p.questions[s]]))
            && (s !in p.questions && s in v.last.questions ==> after == Without(before, v.last.questions[s].id))
            && (s !in p.questions && s !in v.last.questions ==> after == before)
  {
    ReconcileIsLocalAndExact(v, p, s);
    if s in p.questions {
      UpsertIsInPlace(QueueOf(v.queues, s), p.questions[s]);
      UpsertHas(QueueOf(v.queues, s), p.questions[s]);
      UpsertKeepsOthers(QueueOf(v.queues, s), p.questions[s]);
    }
  }

  lemma ReconcileTwiceAt(v: View, p: Projection, s: Session)
    requires QueuesOk(v.queues) && QueuesOk(Reconcile(v, p).queues)
    ensures QueueOf(Reconcile(Reconcile(v, p), p).queues, s) == QueueOf(Reconcile(v, p).queues, s)
  {
    ReconcileIsLocalAndExact(v, p, s);
    ReconcileIsLocalAndExact(Reconcile(v, p), p, s);
    if p.queues.None? && s in p.questions {
      UpsertIsDistinct(QueueOf(v.queues, s), p.questions[s]);
    }
  }

  // Applying the same snapshot twice is applying it once.
  lemma ReconcileIsIdempotent(v: View, p: Projection)
    requires QueuesOk(v.queues)
    ensures Reconcile(Reconcile(v, p), p) == Reconcile(v, p)
  {
    var once := Reconcile(v, p);
    ApplyKeepsOk(v, Automation(p));
    ApplyKeepsOk(once, Automation(p));
    forall s ensures QueueOf(Reconcile(once, p).queues, s) == QueueOf(once.queues, s) {
      ReconcileTwiceAt(v, p, s);
    }
    SameQueues(Reconcile(once, p).queues, once.queues);
  }

  lemma SameQueues(a: map<Session, Queue>, b: map<Session, Queue>)
    requires QueuesOk(a) && QueuesOk(b)
    requires forall s :: QueueOf(a, s) == QueueOf(b, s)
    ensures a == b
  {
    forall s ensures s in a <==> s in b {
      assert QueueOf(a, s) == QueueOf(b, s);
    }
    forall s | s in a ensures a[s] == b[s] {
      assert QueueOf(a, s) == QueueOf(b, s);
    }
  }

  // Of two snapshots in a row, a complete one erases whatever came before it.
  lemma CompleteSnapshotForgets(v: View, w: View, p: Projection, s: Session)
    requires QueuesOk(v.queues) && QueuesOk(w.queues) && p.queues.Some?
    requires Mentions(p, s) || (Mentions(v.last, s) && Mentions(w.last, s))
    ensures QueueOf(Reconcile(v, p).queues, s) == QueueOf(Reconcile(w, p).queues, s)
  {
    ReconcileIsLocalAndExact(v, p, s);
    ReconcileIsLocalAndExact(w, p, s);
  }

  // ------------------------------------------- First asked is first answered

  // The questions a session's reader answered, one at each answer while there
  // was one to see, and those that joined the queue, each when it was posed.
  function Seen(v: View, events: seq<Event>, s: Session): seq<Question> {
    if events == [] then []
    else
      var n := |events| - 1;
      var queue := QueueOf(Play(v, events[..n]).queues, s);
      Seen(v, events[..n], s) + if events[n] == Answered(s) && queue != [] then [queue[0]] else []
  }

  function Joined(v: View, events: seq<Event>, s: Session): seq<Question> {
    if events == [] then []
    else
      var n := |events| - 1;
      var e, queue := events[n], QueueOf(Play(v, events[..n]).queues, s);
      Joined(v, events[..n], s)
      + if e.Posed? && e.session == s && (forall q | q in queue :: q.id != e.question.id) then [e.question] else []
  }

  ghost predicate OnlyAsked(events: seq<Event>, s: Session) {
    forall e | e in events :: !e.Automation? && e != Finished(s) && e != Removed(s)
  }

  lemma ApplyMovesHead(v: View, e: Event, s: Session)
    requires !e.Automation? && e != Finished(s) && e != Removed(s)
    ensures var before, after := QueueOf(v.queues, s), QueueOf(Apply(v, e).queues, s);
            before + (if e.Posed? && e.session == s && (forall q | q in before :: q.id != e.question.id) then [e.question] else [])
            == (if e == Answered(s) && before != [] then [before[0]] else []) + after
  {
  }

  // Questions are answered in the order they were asked, one an answer, and none
  // is lost: what was waiting and what joined is what was answered and what waits.
  lemma {:induction false} QuestionsAreAnsweredInOrder(v: View, events: seq<Event>, s: Session)
    requires OnlyAsked(events, s)
    ensures QueueOf(v.queues, s) + Joined(v, events, s) == Seen(v, events, s) + QueueOf(Play(v, events).queues, s)
  {
    if events != [] {
      var n := |events| - 1;
      assert forall e | e in events[..n] :: e in events;
      QuestionsAreAnsweredInOrder(v, events[..n], s);
      assert events[n] in events;
      ApplyMovesHead(Play(v, events[..n]), events[n], s);
      JoinEnds(QueueOf(v.queues, s), Joined(v, events[..n], s), Seen(v, events[..n], s),
               QueueOf(Play(v, events[..n]).queues, s), Joined(v, events, s), Seen(v, events, s),
               QueueOf(Play(v, events).queues, s));
    }
  }

  lemma JoinEnds<T>(first: seq<T>, joined: seq<T>, seen: seq<T>, queue: seq<T>, joined': seq<T>, seen': seq<T>, queue': seq<T>)
    requires first + joined == seen + queue && joined <= joined' && seen <= seen'
    requires queue + joined'[|joined|..] == seen'[|seen|..] + queue'
    ensures first + joined' == seen' + queue'
  {
    var more, taken := joined'[|joined|..], seen'[|seen|..];
    assert joined' == joined + more && seen' == seen + taken;
    assert first + (joined + more) == first + joined + more == seen + queue + more == seen + (queue + more);
    assert seen + (taken + queue') == seen + taken + queue';
  }

  // Finishing or removing a session empties its queue; no event but a snapshot
  // touches the queue of another session.
  lemma EventsAreLocal(v: View, e: Event, s: Session)
    requires !e.Automation?
    ensures (e == Finished(s) || e == Removed(s)) ==> QueueOf(Apply(v, e).queues, s) == []
    ensures (e.Selected? || e.session != s) ==> QueueOf(Apply(v, e).queues, s) == QueueOf(v.queues, s)
    ensures Apply(v, e).last == v.last
  {
  }
}
