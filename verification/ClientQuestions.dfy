// The client state's question maps, mutated from six places and proved to be
// the queues of `QuestionQueues`.
module ClientQuestions {
  import opened Outcomes
  import opened QuestionQueues

  // The sequence the two maps hold for one session.
  function Fifo(pending: map<Session, Question>, queued: map<Session, Queue>, s: Session): Queue {
    (if s in pending then [pending[s]] else []) + (if s in queued then queued[s] else [])
  }

  // A queue exists only behind a visible head, is never empty, and repeats
  // nothing.
  ghost predicate MapsOk(pending: map<Session, Question>, queued: map<Session, Queue>) {
    && (forall s | s in queued :: s in pending && queued[s] != [])
    && (forall s | s in pending :: Distinct(Fifo(pending, queued, s)))
  }

  function Queues(pending: map<Session, Question>, queued: map<Session, Queue>): map<Session, Queue> {
    map s | s in pending :: Fifo(pending, queued, s)
  }

  ghost predicate SameElsewhere<T>(a: map<Session, T>, b: map<Session, T>, s: Session) {
    forall x | x != s :: (x in a <==> x in b) && (x in a ==> a[x] == b[x])
  }

  lemma RemovalElsewhere<T>(a: map<Session, T>, b: map<Session, T>, s: Session)
    requires a - {s} == b - {s}
    ensures SameElsewhere(a, b, s)
  {
    forall x | x != s ensures (x in a <==> x in b) && (x in a ==> a[x] == b[x]) {
      assert x in a <==> x in a - {s};
      assert x in b <==> x in b - {s};
      assert x in a ==> a[x] == (a - {s})[x] == (b - {s})[x];
    }
  }

  lemma OneSessionOk(pending: map<Session, Question>, queued: map<Session, Queue>,
                     pending': map<Session, Question>, queued': map<Session, Queue>, s: Session)
    requires MapsOk(pending, queued)
    requires SameElsewhere(pending, pending', s) && SameElsewhere(queued, queued', s)
    requires s in queued' ==> s in pending' && queued'[s] != []
    requires Distinct(Fifo(pending', queued', s))
    ensures MapsOk(pending', queued')
    ensures forall x | x != s :: Fifo(pending, queued, x) == Fifo(pending', queued', x)
  {
  }

  lemma QueuesAt(pending: map<Session, Question>, queued: map<Session, Queue>,
                 pending': map<Session, Question>, queued': map<Session, Queue>, s: Session)
    requires SameElsewhere(pending, pending', s)
    requires s in queued' ==> s in pending'
    requires forall x | x != s :: Fifo(pending, queued, x) == Fifo(pending', queued', x)
    ensures Queues(pending', queued') == Put(Queues(pending, queued), s, Fifo(pending', queued', s))
  {
  }

  // Changing the maps at one session changes that session's queue alone.
  lemma OneSession(pending: map<Session, Question>, queued: map<Session, Queue>,
                   pending': map<Session, Question>, queued': map<Session, Queue>, s: Session)
    requires MapsOk(pending, queued)
    requires pending - {s} == pending' - {s} && queued - {s} == queued' - {s}
    requires s in queued' ==> s in pending' && queued'[s] != []
    requires Distinct(Fifo(pending', queued', s))
    ensures MapsOk(pending', queued')
    ensures Queues(pending', queued') == Put(Queues(pending, queued), s, Fifo(pending', queued', s))
    ensures Fifo(pending, queued, s) == QueueOf(Queues(pending, queued), s)
  {
    RemovalElsewhere(pending, pending', s);
    RemovalElsewhere(queued, queued', s);
    OneSessionOk(pending, queued, pending', queued', s);
    QueuesAt(pending, queued, pending', queued', s);
  }

  class Client {
    var pending: map<Session, Question>
    var queued: map<Session, Queue>
    var automationQuestions: map<Session, Question>
    var automation: Projection
    var activeSession: Option<Session>
    // Questions announced in the visible transcript.
    var notices: seq<Question>

    ghost function QueueAt(s: Session): Queue
      reads this
    {
      Fifo(pending, queued, s)
    }

    ghost predicate Valid()
      reads this
    {
      MapsOk(pending, queued) && automationQuestions == automation.questions
    }

    ghost function Abstract(): View
      reads this
    {
      View(Queues(pending, queued), automation)
    }

    constructor ()
      ensures Valid() && Abstract() == View(map[], NOTHING) && notices == []
    {
      pending, queued, automationQuestions := map[], map[], map[];
      automation, activeSession, notices := NOTHING, None, [];
    }

    // A question for the session on screen.
    method AskActive(s: Session, q: Question) returns (changed: bool)
      requires Valid()
      modifies this`pending, this`queued, this`notices
      ensures Valid() && Abstract() == Ask(old(Abstract()), s, q)
      ensures changed <==> !Has(old(QueueAt(s)), q.id)
      ensures notices == old(notices) + if old(QueueAt(s)) == [] then [q] else []
    {
      HeadOrRest(QueueAt(s), q.id);
      if (s in pending && pending[s].id == q.id) || (s in queued && Has(queued[s], q.id)) {
        assert QueueAt(s) == Asked(old(QueueAt(s)), q);
        OneSession(pending, queued, pending, queued, s);
        return false;
      }
      changed := true;
      assert s !in pending ==> s !in queued;
      assert !Has(old(QueueAt(s)), q.id);
      if s in pending {
        queued := queued[s := (if s in queued then queued[s] else []) + [q]];
      } else {
        notices := notices + [q];
        pending := pending[s := q];
      }
      assert QueueAt(s) == old(QueueAt(s)) + [q];
      OneSession(old(pending), old(queued), pending, queued, s);
    }

    // A question for any other session.
    method AskBackground(s: Session, q: Question)
      requires Valid()
      modifies this`pending, this`queued
      ensures Valid() && Abstract() == Ask(old(Abstract()), s, q)
    {
      ghost var earlier := QueueAt(s);
      AskedKeepsDistinct(earlier, q);
      if !(s in pending && pending[s].id == q.id) {
        if s in pending {
          var queue := if s in queued then queued[s] else [];
          AskedBehind(pending[s], queue, q);
          if !Has(queue, q.id) {
            queue := queue + [q];
          }
          queued := queued[s := queue];
        } else {
          assert earlier == [];
          pending := pending[s := q];
        }
      } else {
        AskedBehind(pending[s], if s in queued then queued[s] else [], q);
      }
      assert QueueAt(s) == Asked(earlier, q);
      OneSession(old(pending), old(queued), pending, queued, s);
    }

    method PopQuestion(s: Session)
      requires Valid()
      modifies this`pending, this`queued
      ensures Valid() && Abstract() == Pop(old(Abstract()), s)
    {
      pending := pending - {s};
      if s in queued {
        var queue := queued[s];
        if queue != [] {
          pending := pending[s := queue[0]];
          queue := queue[1..];
          queued := queued[s := queue];
        }
        if queue == [] {
          queued := queued - {s};
        }
      }
      assert QueueAt(s) == if old(QueueAt(s)) == [] then [] else old(QueueAt(s))[1..];
      OneSession(old(pending), old(queued), pending, queued, s);
    }

    method ClearSession(s: Session)
      requires Valid()
      modifies this`pending, this`queued
      ensures Valid() && Abstract() == Clear(old(Abstract()), s)
    {
      pending := pending - {s};
      queued := queued - {s};
      OneSession(old(pending), old(queued), pending, queued, s);
    }

    // One session's surfaces, emptied and filled from its new queue.
    method Install(s: Session, requests: Queue)
      requires Valid() && Distinct(requests)
      modifies this`pending, this`queued
      ensures Valid() && Queues(pending, queued) == Put(old(Queues(pending, queued)), s, requests)
    {
      pending := pending - {s};
      queued := queued - {s};
      if requests != [] {
        pending := pending[s := requests[0]];
      }
      if |requests| > 1 {
        queued := queued[s := requests[1..]];
      }
      assert QueueAt(s) == requests;
      OneSession(old(pending), old(queued), pending, queued, s);
    }

    // Bring every listed session in line with an automation snapshot.
    method ReconcileQuestions(p: Projection)
      requires Valid()
      modifies this
      ensures Valid() && Abstract() == Reconcile(old(Abstract()), p)
      ensures notices == old(notices) && activeSession == old(activeSession)
    {
      var sessions := Mentioned(p);
      ghost var v := Abstract();
      ghost var done: set<Session> := {};
      NothingReplaced(v, p);
      while sessions != {}
        invariant done !! sessions && done + sessions == Listed(v.last, p)
        invariant automation == v.last && Valid()
        invariant Queues(pending, queued) == Replaced(v, p, done)
        invariant notices == old(notices) && activeSession == old(activeSession)
        decreases sessions
      {
        var s :| s in sessions;
        sessions := sessions - {s};
        ReconcileSession(s, p, v, done);
        done := done + {s};
      }
      assert done == Listed(v.last, p);
      automationQuestions := p.questions;
      automation := p;
    }

    method Mentioned(p: Projection) returns (sessions: set<Session>)
      requires Valid()
      ensures sessions == Listed(automation, p)
    {
      sessions := automationQuestions.Keys + p.questions.Keys;
      if automation.queues.Some? { sessions := sessions + automation.queues.value.Keys; }
      if p.queues.Some? { sessions := sessions + p.queues.value.Keys; }
      if automation.active.Some? { sessions := sessions + {automation.active.value}; }
      if p.active.Some? { sessions := sessions + {p.active.value}; }
    }

    method ReconcileSession(s: Session, p: Projection, ghost v: View, ghost done: set<Session>)
      requires Valid() && s !in done && v.last == automation && QueuesOk(v.queues)
      requires Queues(pending, queued) == Replaced(v, p, done)
      modifies this`pending, this`queued
      ensures Valid() && Queues(pending, queued) == Replaced(v, p, done + {s})
    {
      ReplaceOne(v, p, done, s);
      ReconciledIsDistinct(v, p, s);
      OneSession(pending, queued, pending, queued, s);
      var requests := Requests(s, p);
      assert requests == ReconciledQueue(v, p, s);
      Install(s, requests);
    }

    // What one session's queue becomes.
    method Requests(s: Session, p: Projection) returns (requests: Queue)
      requires Valid()
      ensures requests == match p.queues
              case Some(queues) => Dedup(QueueOf(queues, s))
              case None => Dedup(Merged(QueueAt(s), Lookup(automation.questions, s), Lookup(p.questions, s)))
    {
      if p.queues.Some? {
        requests := if s in p.queues.value then p.queues.value[s] else [];
      } else {
        requests := MergeLatest(s, p);
      }
      requests := DedupById(requests);
    }

    // The latest-only branch: drop what was resolved elsewhere, then refresh
    // or append the listed question.
    method MergeLatest(s: Session, p: Projection) returns (requests: Queue)
      requires Valid() && p.queues.None?
      ensures requests == Merged(QueueAt(s), Lookup(automation.questions, s), Lookup(p.questions, s))
    {
      var all := (if s in pending then [pending[s]] else []) + (if s in queued then queued[s] else []);
      requests := [];
      var resolved := s in automationQuestions && s !in p.questions;
      for i := 0 to |all|
        invariant !resolved ==> requests == all[..i]
        invariant resolved ==> Without(all, automationQuestions[s].id) == requests + Without(all[i..], automationQuestions[s].id)
      {
        assert all[i..][1..] == all[i + 1..];
        if !resolved || all[i].id != automationQuestions[s].id {
          assert resolved ==> requests + ([all[i]] + Without(all[i + 1..], automationQuestions[s].id))
                              == requests + [all[i]] + Without(all[i + 1..], automationQuestions[s].id);
          requests := requests + [all[i]];
        }
      }
      if s in p.questions {
        assert requests == all;
        requests := Refresh(requests, p.questions[s]);
      }
    }

    // Where an event leads: the screen decides the path, not the queues.
    method ApplyEvent(e: Event)
      requires Valid()
      modifies this
      ensures Valid() && Abstract() == Apply(old(Abstract()), e)
    {
      match e {
        case Posed(s, q) =>
          if activeSession == Some(s) {
            var _ := AskActive(s, q);
          } else {
            AskBackground(s, q);
          }
        case Answered(s) => PopQuestion(s);
        case Finished(s) => ClearSession(s);
        case Removed(s) =>
          ClearSession(s);
          if activeSession == Some(s) {
            activeSession := None;
          }
        case Selected(s) => activeSession := Some(s);
        case Automation(p) => ReconcileQuestions(p);
      }
    }
  }

  method Refresh(queue: Queue, q: Question) returns (r: Queue)
    ensures r == Upsert(queue, q)
  {
    for i := 0 to |queue|
      invariant Upsert(queue, q) == queue[..i] + Upsert(queue[i..], q)
    {
      assert queue[i..][1..] == queue[i + 1..];
      if queue[i].id == q.id {
        assert queue[..i] + ([q] + queue[i + 1..]) == queue[i := q];
        return queue[i := q];
      }
      assert queue[..i] + ([queue[i]] + Upsert(queue[i + 1..], q)) == queue[..i + 1] + Upsert(queue[i + 1..], q);
    }
    assert queue[..|queue|] == queue;
    r := queue + [q];
  }

  // Keep the first question of every identity.
  method DedupById(queue: Queue) returns (r: Queue)
    ensures r == Dedup(queue)
  {
    var seen: set<nat> := {};
    r := [];
    for i := 0 to |queue|
      invariant r == Dedup(queue[..i])
      invariant forall id :: id in seen <==> Has(r, id)
    {
      assert queue[..i + 1][..i] == queue[..i];
      HasAppended(r, queue[i]);
      if queue[i].id !in seen {
        r := r + [queue[i]];
      }
      seen := seen + {queue[i].id};
    }
    assert queue[..|queue|] == queue;
  }

  lemma AskedKeepsDistinct(queue: Queue, q: Question)
    requires Distinct(queue)
    ensures Distinct(Asked(queue, q))
  {
  }

  lemma AskedBehind(head: Question, rest: Queue, q: Question)
    ensures Asked([head] + rest, q)
            == if head.id == q.id || Has(rest, q.id) then [head] + rest else [head] + (rest + [q])
  {
  }

  lemma HeadOrRest(queue: Queue, id: nat)
    ensures Has(queue, id) <==> queue != [] && (queue[0].id == id || Has(queue[1..], id))
    ensures forall q: Question | q.id == id :: !Has(queue, id) && Distinct(queue) ==> Distinct(queue + [q])
  {
  }

  lemma NothingReplaced(v: View, p: Projection)
    ensures QueuesOk(v.queues) ==> Replaced(v, p, {}) == v.queues
  {
  }

  lemma ReplaceOne(v: View, p: Projection, done: set<Session>, s: Session)
    requires s !in done
    ensures Replaced(v, p, done + {s}) == Put(Replaced(v, p, done), s, ReconciledQueue(v, p, s))
    ensures QueueOf(Replaced(v, p, done), s) == QueueOf(v.queues, s)
  {
  }
}
