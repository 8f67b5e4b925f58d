# Threadlane, modelled and proved in Dafny

This project models the parts of Threadlane whose guarantees span several
functions, and proves those guarantees: the automation scheduler and its durable
store, the remote client's reconnect protocol, the client's question queues and
streamed transcript, content-length framing over a capped buffer, an ACP turn fed
by a concurrent read loop, the account store's refresh commit, and the reading of
an automation run's result from its journal.

Check everything with `dafny verify dfyconfig.toml`.

## How it is organised

| file | what it holds |
|---|---|
| `Outcomes.dfy` | `Option` and `Result` |
| `Schedules.dfy` | 64-bit interval arithmetic, the calendar search, coalescing |
| `AutomationStore.dfy` | definitions, runs, each change of the store, the store invariant |
| `AutomationRetention.dfy` | the reverse, retain, reverse pass against its declarative filter |
| `AutomationHistory.dfy` | claims, failure counts and run history over whole runs |
| `AutomationEdits.dfy` | edits against each other: what the revision check protects, and exactly when not |
| `AutomationCreation.dfy` | what a retried creation answers at any later time |
| `DurableStore.dfy` | the commit, its fault points, crashes and reopening; the class `Store` |
| `AutomationOutcomes.dfy` | what each operation of the store leaves, said apart from how it is computed, and every claim of a run |
| `AutomationCrashes.dfy` | claims across crashes: acknowledged ones never repeat |
| `RemoteSession.dfy` | the client half of the reconnect protocol; the class `Client` |
| `RemoteProtocol.dfy` | the client against a daemon that may fall behind and a socket that repeats and drops |
| `RemoteRestart.dfy` | the client against a daemon whose numbering began again |
| `QuestionQueues.dfy` | one question queue per session: what every event means |
| `ClientQuestions.dfy` | the two maps that hold those queues; the class `Client` |
| `Transcript.dfy` | the streamed transcript; the class `View` |
| `Framing.dfy` | the content-length parser over bytes |
| `FramedStream.dfy` | the capped buffer, reads and receives; the class `Pipe` |
| `AcpTurn.dfy` | what session updates add up to; the class `Collector` |
| `AcpConnection.dfy` | the read loop, the request table and the turn phases; the class `Connection` |
| `Accounts.dfy` | the account file and its operations; the class `Credentials` |
| `AccountHistory.dfy` | what any interleaving of sign-ins, removals and refreshes keeps |
| `AccountOutcomes.dfy` | what each account operation leaves, field by field |
| `TaskResults.dfy` | the journal scan for a run's result; the class `Journal` |

Where the source updates fields in place, a class does the same step by step and
its `ensures` ties the new state to a function of the old one; the lemmas are about
those functions. What the functions themselves come to is then stated without
them, in the words of the state alone. Concurrent parties are the actions of a state machine, and a
behaviour is any sequence of states that follow from one another by an action.

## What is assumed

- A time zone is a function from a local day and time to no instant, one or two.
  Its laws are hypotheses: later days fire later and days before an instant's own
  have fired (`Ordered`); days after an instant's own lie ahead of it, so no clock
  change repeats a midnight, and clock changes within two weeks add up to at most a
  day (`Steady`); of any fifteen days of the calendar at most one is a gap at the
  rule's time (`SparseGaps`). `GapZoneIsOrderly` shows a zone with a gap that obeys
  all of them.
- New definitions arrive with no failures, times are not negative, run ids are never
  reused and callers' clocks do not run backwards.
- The remote protocol is stated within one daemon lifetime, and from a restart on.
  The daemon replays what is newer than the cursor it was given and then forwards
  live events, skipping some when it falls behind; its journal still holds what the
  cursor asks for. Checking the connection, inserting a waiter and queueing the
  request are one step.
- An ACP agent's lines are read in the order it wrote them. A failed write and a
  timeout are not raced by the answer they give up on.
- A token issuer never issues the same access token twice.
- Counters and revisions are unbounded; schedule instants are 64-bit.

## Findings

Places where the code does less than one would expect. Each is stated as a lemma
that says exactly when, with another that shows an input.

- Stale edits (`crates/threadlane-automation/src/lib.rs:391-427`): the revision check
  compares numbers alone, and a recreated definition starts again at 1.
  `AutomationEdits.CheckIsEscapedExactlyWhenExposed`: an edit can still be accepted
  over content it was not made from exactly when the definition is absent, stands
  below the revision read, or stands at it with other content; by
  `AutomationEdits.OnlyAbsenceExposes` it must have been absent since it was read.
  While it lives, `AutomationEdits.AcceptedEditOverwritesNothing` holds.
  `AutomationEdits.AnEditEscapes` is a run where it happens.
- Retried creations (`crates/threadlane-automation/src/lib.rs:436-453`): a retry
  is answered exactly while details, schedule and switch are as requested
  (`AutomationCreation.RetryAnswersExactly`). The store itself changes the switch
  after three failures (`crates/threadlane-automation/src/lib.rs:586-592`), and then
  refuses the request that created the definition
  (`AutomationCreation.AutomaticPauseRefusesTheRetry`).
- Claims and crashes (`crates/threadlane-automation/src/lib.rs:373-385`): a claim
  whose directory sync failed is in memory but may be lost in a crash, and the
  occurrence claimed again (`AutomationCrashes.UnacknowledgedClaimsMayRepeat`).
  Acknowledged claims never repeat (`AutomationCrashes.AcknowledgedClaimsIncrease`).
- Negative anchors (`crates/threadlane-automation/src/lib.rs:84-91`): an interval is
  refused although its next point fits 64 bits, when the distance from the anchor
  does not (`Schedules.IntervalNextIsExact`, `Schedules.NegativeAnchorIsRefused`).
  The store never gets there: its anchors are times of the past, never negative.
- Daemon restarts (`crates/threadlane-daemon/src/core.rs:120-145` and `340-346`,
  `crates/threadlane-client/src/remote.rs:651-657`): the journal's numbering begins
  again while the client keeps its cursor, so entries numbered up to it that are
  logged before the client is back are never heard, although the daemon holds them
  (`RemoteRestart.RestartLosesExactly`, `RemoteRestart.RestartLosesAnEntry`).
- Frames near the limit (`crates/threadlane-coding-agent/src/broker.rs:533-659`): the
  buffer's cap equals the limit on a body, so a legal body is never delivered when
  header and body together pass the cap, and no timeout clears what is left of it
  (`FramedStream.FrameIsDeliveredExactlyWhenItFits`,
  `FramedStream.LegalBodyIsNeverDelivered`).
- Undecodable bodies (`crates/threadlane-coding-agent/src/broker.rs:1039-1102`): a
  complete frame whose body is not UTF-8 is neither delivered nor cleared, and holds
  up everything behind it, until so much has come that its header is pushed out
  (`FramedStream.FirstFrameIsDeliveredExactly`, `FramedStream.UndecodableBodyStays`).
- Sign-ins (`crates/threadlane-auth/src/openai_auth.rs:304-321`): one that first
  matches another program's login, or an account stored under another id, leaves no
  account of our own under the id it reports (`AccountHistory.SignInIsUsableExactly`,
  `AccountHistory.BorrowedSignInIsNotUsable`).
- Removals (`crates/threadlane-auth/src/openai_auth.rs:695-711`): one can succeed and
  its id still be shown, when the other program's login bears that id and nothing
  else was stored (`AccountHistory.RemovalFallsBack`,
  `AccountHistory.RemovedIdIsStillShown`).
- Deltas (`crates/threadlane-client/src/state.rs:102-154`): text and reasoning may
  trade places only when the newest message takes both or neither, or the text is
  empty and the message closed to reasoning (`Transcript.OrderMattersExactly`).

## Model

| member | source | states |
|---|---|---|
| Schedules.IntervalNextIsExact | crates/threadlane-automation/src/lib.rs:84-91 | for all 64-bit `after` and `anchor`, despite the saturating subtraction, the answer is the least grid point past both, and it is refused exactly when that point or its distance from the anchor does not fit; for an anchor of at least 0, exactly when the point does not fit |
| Schedules.NegativeAnchorIsRefused | crates/threadlane-automation/src/lib.rs:84-91 | an anchor before the epoch and a time near the end of 64 bits, whose next point fits and is refused |
| Schedules.FindNextCalendar | crates/threadlane-automation/src/lib.rs:92-121 | the bounded search loop answers what the calendar function does |
| Schedules.CalendarNextIsLeast | crates/threadlane-automation/src/lib.rs:92-121 | the answer is the least instant after `after` that any local day whose weekday is in the rule names at its time: its only one, or the earlier of two; gaps name none |
| Schedules.CalendarNextExists | crates/threadlane-automation/src/lib.rs:92-121 | with at most one gap among the candidate days of the window, the fifteen-day search always finds an occurrence |
| Schedules.CalendarRefusesExactly | crates/threadlane-automation/src/lib.rs:92-121 | the search is refused exactly when the instant has no local day, or none of the fifteen days the calendar has names a later instant |
| Schedules.WeekdaysFollow | crates/threadlane-automation/src/lib.rs:104-106 | weekdays count from Monday and follow one another; 1 January 1970 was a Thursday and 1 January 2024 a Monday |
| Schedules.GapZoneIsOrderly | crates/threadlane-automation/src/lib.rs:98-118 | the laws assumed of a zone hold together of one that skips a day-time |
| Schedules.NextIsLater | crates/threadlane-automation/src/lib.rs:80-123 | a next time is strictly later than `after` and is a firing of the schedule, for every kind |
| Schedules.FindNext | crates/threadlane-automation/src/lib.rs:80-123 | the method answers what the schedule's next-time function does |
| Schedules.NextIsLeastFiring | crates/threadlane-automation/src/lib.rs:80-123 | the next time is the least firing after `after` |
| Schedules.FindLatestDue | crates/threadlane-automation/src/lib.rs:145-160 | the coalescing loop ends and answers what the recursive function does |
| Schedules.LatestDueBounds | crates/threadlane-automation/src/lib.rs:145-160 | the claimed occurrence lies between the one due and the time of asking |
| Schedules.LatestDueSucceeds | crates/threadlane-automation/src/lib.rs:145-160 | coalescing is never refused while the calendar covers the stretch it looks at |
| Schedules.IntervalDueIsGreatest | crates/threadlane-automation/src/lib.rs:145-149 | interval coalescing never fails and lands on the last grid point not after `at` |
| Schedules.CalendarDueIsGreatest | crates/threadlane-automation/src/lib.rs:150-160 | calendar coalescing lands on the greatest occurrence not after `at`, however long the scheduler slept, although the loop starts fifteen days back |
| Schedules.LatestDueIsGreatestFiring | crates/threadlane-automation/src/lib.rs:145-160 | the claimed occurrence is the greatest firing not after `at` |
| AutomationStore.SaveKeepsInv | crates/threadlane-automation/src/lib.rs:388-429 | saving keeps unique ids, the schedule and failure laws of every definition, and every active run's definition |
| AutomationStore.SetEnabledKeepsInv | crates/threadlane-automation/src/lib.rs:467-497 | enabling or pausing keeps the store invariant; cancelled queued runs get their finishing time |
| AutomationStore.EnqueueKeepsInv | crates/threadlane-automation/src/lib.rs:511-550 | queueing keeps at most one active run per definition and unique run ids |
| AutomationStore.UpdateRunKeepsInv | crates/threadlane-automation/src/lib.rs:551-597 | a run's progress keeps the invariant: finished exactly when terminal, enabled only below three failures |
| AutomationStore.MarkReviewedKeepsInv | crates/threadlane-automation/src/lib.rs:614-626 | reviewing keeps the invariant |
| AutomationStore.ChangeKeepsInv | crates/threadlane-automation/src/lib.rs:388-626 | every operation, before and after its retention pass, keeps the whole store invariant |
| AutomationRetention.Prune | crates/threadlane-automation/src/lib.rs:361-371 | reversing, retaining with a counter per definition and reversing again computes the oldest-first retention function |
| AutomationRetention.RetainedIsFilter | crates/threadlane-automation/src/lib.rs:361-371 | what is kept is, position by position and in order, each run that is active, unreviewed, or among the newest 200 reviewed finished runs of its definition |
| AutomationRetention.RetainedCount | crates/threadlane-automation/src/lib.rs:361-371 | a pass leaves min(n, 200) of a definition's n reviewed finished runs |
| AutomationRetention.RetainedIsIdempotent | crates/threadlane-automation/src/lib.rs:361-371 | a second pass removes nothing |
| AutomationHistory.StepKeepsWorld | crates/threadlane-automation/src/lib.rs:354-626 | one operation, with its I/O failing anywhere or nowhere, keeps claims increasing, schedules ahead of claims and failure counts right |
| AutomationHistory.OccurrencesAreClaimedOnce | crates/threadlane-automation/src/lib.rs:511-550 | over any run of operations and faults the occurrences claimed for one definition strictly increase, and later runs carry later ones |
| AutomationHistory.EnqueueClaimsTheLatest | crates/threadlane-automation/src/lib.rs:525-531 | an accepted claim is the greatest firing not after `at` and moves the schedule to the least firing after it |
| AutomationHistory.DueClaimSucceeds | crates/threadlane-automation/src/lib.rs:525-531 | a due claim is never refused while the next time fits and the calendar covers the stretch since it was due |
| AutomationHistory.FailuresAreCounted | crates/threadlane-automation/src/lib.rs:573-593 | the stored count always equals the failed or interrupted endings since the last success, switch or creation, and is below three while enabled |
| AutomationHistory.NamesakesNeverCount | crates/threadlane-automation/src/lib.rs:498-510 | once a definition is gone no run that existed then can change anything for a later definition of its id |
| AutomationHistory.RunHistoryIsFixed | crates/threadlane-automation/src/lib.rs:551-626 | between any two moments a run keeps its identity and definition snapshot, and once finished changes only by being reviewed |
| AutomationOutcomes.EnqueueAdds | crates/threadlane-automation/src/lib.rs:511-550 | an accepted enqueue adds one run at the end of the history and moves nothing else of it; by hand it carries no occurrence, by schedule the last firing up to now, and the stored schedule is left at the first one after |
| AutomationOutcomes.EveryClaimIsTheLatest | crates/threadlane-automation/src/lib.rs:511-550 | every claim of any run of operations and faults was, at the step that made it, the last firing due, stands in the history as a run of that occurrence, and left the schedule at the next |
| AutomationOutcomes.EnqueueRefusesExactly | crates/threadlane-automation/src/lib.rs:511-531 | which refusal an enqueue gets and when; by hand nothing but an active run or a missing definition refuses it |
| AutomationOutcomes.SaveStores | crates/threadlane-automation/src/lib.rs:388-429 | what is stored after a save says what was asked for; the schedule starts anew exactly if schedule or switch changed, failures are forgiven exactly if the switch did, and nothing else of the snapshot moves |
| AutomationOutcomes.SetEnabledSwitches | crates/threadlane-automation/src/lib.rs:467-497 | after a switch the definition stands at it, scheduled anew; switching off cancels exactly the queued scheduled runs of that definition |
| AutomationOutcomes.UpdateRunMoves | crates/threadlane-automation/src/lib.rs:551-597 | a run that moved says the status, error, file and end it was told, no other run changes, and its definition bears exactly what the ending means: counted, forgiven, or paused at the third |
| AutomationOutcomes.DeleteRemoves | crates/threadlane-automation/src/lib.rs:498-510 | a deletion is accepted exactly without active runs, and takes out that definition alone |
| AutomationOutcomes.DeleteRunRemoves | crates/threadlane-automation/src/lib.rs:599-612 | removing a finished run cuts exactly its place out of the history |
| AutomationOutcomes.FaultsKeepMemoryAndFileTogether | crates/threadlane-automation/src/lib.rs:354-387 | a fault up to the rename changes neither memory nor file, a later one both, and only a clean end is answered with success |
| AutomationOutcomes.SameRevisionSameSnapshot | crates/threadlane-automation/src/lib.rs:354-387 | over any run the snapshot's revision never falls, and as long as it stays the store holds the very same snapshot |
| AutomationOutcomes.OpenedIsSound | crates/threadlane-automation/src/lib.rs:319-344 | what opens has one valid definition an id, and one run an id, named after it |
| AutomationEdits.UnchangedRevisionMeansUnchangedContent | crates/threadlane-automation/src/lib.rs:388-497 | while a definition lives its revision never falls, and an unchanged revision means unchanged content |
| AutomationEdits.AcceptedEditOverwritesNothing | crates/threadlane-automation/src/lib.rs:391-405 | an edit read at one moment and accepted at a later one overwrites nobody's work, if the definition lived in between |
| AutomationEdits.EditLands | crates/threadlane-automation/src/lib.rs:388-429 | an accepted edit is what is stored next, one revision on, and repeating it is refused |
| AutomationEdits.SaveAcceptsExactly | crates/threadlane-automation/src/lib.rs:388-429 | an edit of a stored definition is accepted exactly when it is valid, bears the stored revision and its next time can be found if it must be |
| AutomationEdits.RemadeAtAnyRevision | crates/threadlane-automation/src/lib.rs:406-427 | from wherever a definition stands, or from nothing, saves can bring it to any later revision with any valid content, never absent on the way |
| AutomationEdits.CheckIsEscapedExactlyWhenExposed | crates/threadlane-automation/src/lib.rs:391-427 | the exact moments from which a stale edit can still be accepted over content it was not made from: the definition is absent, or stands below the revision read, or at it with other content |
| AutomationEdits.OnlyAbsenceExposes | crates/threadlane-automation/src/lib.rs:391-427 | such a moment comes only after the definition was absent since it was read |
| AutomationEdits.AnEditEscapes | crates/threadlane-automation/src/lib.rs:413-427 | a run in which a stale edit is accepted over another's definition |
| AutomationCreation.RetryAnswersExactly | crates/threadlane-automation/src/lib.rs:436-453 | a retried creation is answered with the stored definition exactly while details, schedule and switch are as requested, and refused otherwise |
| AutomationCreation.CreationAnswers | crates/threadlane-automation/src/lib.rs:431-466 | what a creation is answered otherwise: its own fault first, then whether it is new, then the definition that saving it stored |
| AutomationCreation.CreationIsRemembered | crates/threadlane-automation/src/lib.rs:430-466 | at any later moment of any run, while the definition lives, a retry gets that answer, and the definition first created as long as its revision is still 1 |
| AutomationCreation.AutomaticPauseRefusesTheRetry | crates/threadlane-automation/src/lib.rs:580-592 | three failed runs pause a definition, and the request that created it is then refused |
| DurableStore.Open | crates/threadlane-automation/src/lib.rs:302-350 | a missing file opens empty, and a stored snapshot opens exactly when every check passes |
| DurableStore.InvIsReadable | crates/threadlane-automation/src/lib.rs:319-344 | every snapshot that satisfies the store invariant passes all the checks of `open` |
| DurableStore.MoveKeepsHost | crates/threadlane-automation/src/lib.rs:354-387 | a finished, failed or crashed commit keeps memory equal to the file and every possible crash image valid |
| DurableStore.EveryCrashReopens | crates/threadlane-automation/src/lib.rs:302-387 | at every moment of a store's life memory equals the visible file, and whatever a crash may leave passes the checks of `open` |
| DurableStore.CrashKeepsWhatWasAcknowledged | crates/threadlane-automation/src/lib.rs:373-385 | whatever faults came before, a crash brings back a snapshot that was visible at or after the last moment the file was settled, or the one being written: never the new one before the rename, always after the directory sync |
| DurableStore.AcknowledgedIsSettled | crates/threadlane-automation/src/lib.rs:354-387 | an operation that takes effect without a fault settles the file |
| AutomationCrashes.AcknowledgedClaimsIncrease | crates/threadlane-automation/src/lib.rs:354-550 | through any operations, faults and crashes, the acknowledged claims of a definition strictly increase, and every snapshot a crash may bring back is past them |
| AutomationCrashes.UnacknowledgedClaimsMayRepeat | crates/threadlane-automation/src/lib.rs:373-385 | a claim whose directory sync failed can be lost in a crash and the same occurrence claimed again |
| DurableStore.Edit | crates/threadlane-automation/src/lib.rs:388-429 | the change of a save, made in place with each of its refusals |
| DurableStore.Admit | crates/threadlane-automation/src/lib.rs:511-549 | the change of an enqueue, made in place: refusal while active, the claim of the latest due occurrence, the moved schedule and the new run |
| DurableStore.CheckDefinitions | crates/threadlane-automation/src/lib.rs:322-330 | the checking loops pass exactly valid definitions with distinct ids |
| DurableStore.CheckRuns | crates/threadlane-automation/src/lib.rs:331-344 | the checking loop passes exactly well-named, valid runs with distinct ids |
| DurableStore.Toggle | crates/threadlane-automation/src/lib.rs:468-496 | the switch's change, made in place, with the loop that cancels queued scheduled runs |
| DurableStore.Progress | crates/threadlane-automation/src/lib.rs:559-596 | a run's update, made in place: only an active run moves, and only its ending touches its definition |
| DurableStore.CountEnding | crates/threadlane-automation/src/lib.rs:580-592 | how an ending counts: up, back to zero, or a pause at three |
| DurableStore.Store.Commit | crates/threadlane-automation/src/lib.rs:354-387 | at each fault point the file and memory are what the phases of the write give; memory follows the rename even when the directory sync fails |
| DurableStore.Store.SaveDefinition | crates/threadlane-automation/src/lib.rs:388-429 | saving applies the save change or its exact refusal, under any fault |
| DurableStore.Store.Create | crates/threadlane-automation/src/lib.rs:431-466 | creation saves once, answers what is already there, or refuses a key in use |
| DurableStore.Store.Enable | crates/threadlane-automation/src/lib.rs:467-497 | switching applies its change or its refusal, under any fault |
| DurableStore.Store.Remove | crates/threadlane-automation/src/lib.rs:498-510 | deletion applies its change, or is refused while a run is active |
| DurableStore.Store.Queue | crates/threadlane-automation/src/lib.rs:511-550 | queueing moves the schedule, claims an occurrence and adds the run in one commit |
| DurableStore.Store.Report | crates/threadlane-automation/src/lib.rs:551-597 | a run's update is committed or refused, under any fault |
| DurableStore.Store.RemoveRun | crates/threadlane-automation/src/lib.rs:599-612 | only a finished run leaves the history |
| DurableStore.Store.Review | crates/threadlane-automation/src/lib.rs:614-626 | only a finished run is marked reviewed |
| RemoteSession.Client.OnConnect | crates/threadlane-client/src/remote.rs:570-589 | a new socket takes the peer's version and starts its own cursor at zero |
| RemoteSession.Client.DrainWaiters | crates/threadlane-client/src/remote.rs:450-463 | taking out and putting back leaves exactly the replayable waiters that had not yet outlived a drop, marked, and fails all others |
| RemoteSession.Client.OnDrop | crates/threadlane-client/src/remote.rs:422-470 | a drop empties the queue, settles the waiters and tells subscribers what was lost |
| RemoteSession.Client.OnIssue | crates/threadlane-client/src/remote.rs:743-810 | a call is refused, or replaces and fails the waiter of a reused id and is queued |
| RemoteSession.Client.OnSend | crates/threadlane-client/src/remote.rs:292-306 | a command is queued only on a live connection that understands it |
| RemoteSession.Client.OnWrite | crates/threadlane-client/src/remote.rs:613-636 | the queue is written in order |
| RemoteSession.Client.OnFrame | crates/threadlane-client/src/remote.rs:638-703 | a frame answers a waiter, or is skipped as already seen on this socket, or moves the cursor and is delivered |
| RemoteSession.Client.OnTimeout | crates/threadlane-client/src/remote.rs:818-827 | a timeout takes out whichever waiter holds its request id |
| RemoteProtocol.TimeoutSettlesItsOwn | crates/threadlane-client/src/remote.rs:787-827 | over any behaviour the waiter under the id of a call that times out is its own, so no other is taken out |
| RemoteProtocol.IssueDecides | crates/threadlane-client/src/remote.rs:743-810 | over any behaviour a call is told it is offline, or that the daemon is too old for its kind, or waits under its id at the end of the queue; the call it displaces is told its id was reused, and no other waiter is touched |
| RemoteProtocol.ReplyResolves | crates/threadlane-client/src/remote.rs:640-650 | a reply answers the call that waits under its id and leaves every other call waiting |
| RemoteProtocol.AttachStartsAfresh | crates/threadlane-client/src/remote.rs:570-589 | a new connection has its own epoch, an empty queue and a zero socket cursor, and keeps the resume cursor and all waiters |
| RemoteProtocol.CommandsLeaveInOrder | crates/threadlane-client/src/remote.rs:613-636 | as long as nothing drops, what was queued is written first and in order |
| RemoteProtocol.BreakSettlesExactly | crates/threadlane-client/src/remote.rs:450-463 | what a drop does to each call: a cancellation of a queued message not dropped on before goes on waiting under its id, every other waiting call is told the connection was lost, and resolved ones keep their outcome |
| RemoteProtocol.CancellationResolves | crates/threadlane-client/src/remote.rs:658-685 | a cancellation that arrives, on this socket or after a drop the caller outlived, resolves the call waiting under its id with the cancelled message |
| RemoteProtocol.FramesAreTold | crates/threadlane-client/src/remote.rs:638-703 | subscribers hear of every frame that is no reply and no repeat, in its turn |
| RemoteProtocol.JournalIsDeliveredOnce | crates/threadlane-client/src/remote.rs:370-395 | over any connects, drops and repeated frames the journaled events delivered are the journal up to the cursor, in order, each once, but for those a lagging forwarder skipped |
| RemoteProtocol.RequestsResolveOnce | crates/threadlane-client/src/remote.rs:642-685 | every call is waiting or resolved, never both, and an outcome once given never changes, even when ids are reused |
| RemoteProtocol.DropsSettleCalls | crates/threadlane-client/src/remote.rs:450-463 | after two drops nothing issued before the first is pending; after one, only marked replayable waiters are |
| RemoteProtocol.JournaledOutcomesAreHeard | crates/threadlane-client/src/remote.rs:658-685 | a waiter still parked was issued after every journaled cancellation of its id that the cursor has passed and no forwarder skipped |
| RemoteProtocol.NoStaleCommandIsWritten | crates/threadlane-client/src/remote.rs:426-442 | what is written to a socket was queued on that socket's own connection |
| RemoteRestart.RestartLosesExactly | crates/threadlane-daemon/src/core.rs:336-346 | from a restart on, the journaled events heard are the new journal in order, each once, less exactly the entries up to the stale cursor that were there before the first socket heard from, and those skipped |
| RemoteRestart.RestartLosesAnEntry | crates/threadlane-daemon/src/core.rs:120-145 | a run in which a restarted daemon's first entry is never heard |
| QuestionQueues.QueuesStayDistinct | crates/threadlane-client/src/state.rs:244-294 | through any events every session holds one non-empty, duplicate-free queue or none |
| QuestionQueues.ReconcileIsLocalAndExact | crates/threadlane-client/src/state.rs:341-405 | a snapshot leaves unlisted sessions alone; a complete one sets exactly its de-duplicated queue; a latest-only one merges |
| QuestionQueues.LegacySnapshotKeepsOrder | crates/threadlane-client/src/state.rs:378-395 | a latest-only snapshot keeps the order of all other questions, retires only the one it contributed, and refreshes in place or appends the current one |
| QuestionQueues.ReconcileIsIdempotent | crates/threadlane-client/src/state.rs:341-405 | applying a snapshot twice is applying it once |
| QuestionQueues.CompleteSnapshotForgets | crates/threadlane-client/src/state.rs:371-376 | after a complete snapshot a listed session's queue does not depend on what was there |
| QuestionQueues.UpsertIsInPlace | crates/threadlane-client/src/state.rs:388-393 | refreshing replaces the question of that id where it stands, or appends |
| QuestionQueues.DedupIsDistinct | crates/threadlane-client/src/state.rs:397-398 | de-duplication leaves one question of each id there was, and invents none |
| QuestionQueues.QuestionsAreAnsweredInOrder | crates/threadlane-client/src/state.rs:244-336 | over any events without a snapshot or an end, what waited and what was asked is what was answered and what waits, in the same order: first asked is first answered |
| QuestionQueues.EventsAreLocal | crates/threadlane-client/src/state.rs:494-497 | finishing or removing a session empties its queue, and no event but a snapshot touches another session's |
| ClientQuestions.OneSession | crates/threadlane-client/src/state.rs:28-30 | two maps that change at one session change that session's queue alone, and a queue stays behind a visible head |
| ClientQuestions.Client.AskActive | crates/threadlane-client/src/state.rs:244-294 | the visible session's path asks exactly as the background path does, and announces a question exactly when the queue was empty |
| ClientQuestions.Client.AskBackground | crates/threadlane-client/src/state.rs:473-489 | the background path appends an unseen question to the same queue |
| ClientQuestions.Client.PopQuestion | crates/threadlane-client/src/state.rs:325-336 | popping takes the head and promotes the next |
| ClientQuestions.Client.ClearSession | crates/threadlane-client/src/state.rs:494-497 | finishing or removing a session empties its queue alone |
| ClientQuestions.Client.MergeLatest | crates/threadlane-client/src/state.rs:378-395 | the latest-only branch, loop by loop, is the merge of the queue with the two snapshots |
| ClientQuestions.Client.ReconcileQuestions | crates/threadlane-client/src/state.rs:341-405 | visiting the listed sessions in any order gives the reconciled queues |
| ClientQuestions.Client.ApplyEvent | crates/threadlane-client/src/state.rs:408-550 | every event means the same for the queues whichever session is on screen |
| ClientQuestions.DedupById | crates/threadlane-client/src/state.rs:397-398 | retaining first sightings computes the de-duplicated queue |
| Transcript.View.Apply | crates/threadlane-client/src/state.rs:66-313 | each update edits the message list as its meaning says |
| Transcript.View.Append | crates/threadlane-client/src/state.rs:102-129 | text joins the newest message when it is a segment of this session without tools, else opens a segment |
| Transcript.View.Reason | crates/threadlane-client/src/state.rs:130-154 | reasoning joins the newest streaming message, else opens a segment |
| Transcript.View.Begin | crates/threadlane-client/src/state.rs:155-189 | a tool start joins the newest message without text, else opens a segment |
| Transcript.View.Report | crates/threadlane-client/src/state.rs:190-225 | the search from the newest backwards changes the latest activity of the call and nothing else |
| Transcript.StepReadsMore | crates/threadlane-client/src/state.rs:66-313 | one update adds exactly its own share to the prose, the reasoning, the calls and the order of what is shown |
| Transcript.ReportShowsOnTheNewest | crates/threadlane-client/src/state.rs:190-225 | a report changes only the newest activity of its call: its detail, and at the end whether it failed |
| Transcript.StrayReportsShowNothing | crates/threadlane-client/src/state.rs:190-225 | a report of a call that no message holds changes nothing |
| Transcript.StartsAreShown | crates/threadlane-client/src/state.rs:155-189 | a started call is the newest activity, working, under its name with its arguments |
| Transcript.DeltasJoinExactly | crates/threadlane-client/src/state.rs:102-189 | when text, reasoning and a call join the newest message, each as an equivalence on that message |
| Transcript.TurnsAreApart | crates/threadlane-client/src/state.rs:66-76 | after a turn starts reasoning opens a message of its own, and after the end nothing is streaming |
| Transcript.TranscriptIsItsStreams | crates/threadlane-client/src/state.rs:66-313 | over any run prose and reasoning grow by exactly their deltas, a report reaches the latest call of its id, and text, calls and notes stand in the order they came |
| Transcript.ChunkingIsInvisible | crates/threadlane-client/src/state.rs:77-154 | runs that carry the same deltas between the same other updates give the same transcript, wherever the deltas were cut |
| Transcript.CutsCoalesce | crates/threadlane-client/src/state.rs:77-154 | one delta may be cut into any pieces, empty ones too |
| Transcript.OrderMattersExactly | crates/threadlane-client/src/state.rs:102-154 | a text and a reasoning delta commute exactly when the newest message takes both or neither, or the text is empty and falls on a message closed to reasoning |
| Transcript.HistoryIsKept | crates/threadlane-client/src/state.rs:66-313 | no update removes or rewrites what was said; only the newest message may still take text, reasoning or calls |
| Framing.AnswersAreStable | crates/threadlane-coding-agent/src/broker.rs:1039-1077 | a frame that is ready or too large stays so when more bytes follow |
| Framing.WholeFrameIsReadExactly | crates/threadlane-coding-agent/src/broker.rs:1039-1102 | a frame that has come whole is read exactly when its body is UTF-8 within the limit, refused exactly when over it, and otherwise waits and is not cleared by a timeout |
| Framing.Utf8Exactly | crates/threadlane-coding-agent/src/broker.rs:1047-1049 | bytes are accepted as text exactly when they encode some sequence of code points, each in its one form as in section 3 of RFC 3629 |
| Framing.UndecodableHeaderWaits | crates/threadlane-coding-agent/src/broker.rs:1047-1049 | a header that is not UTF-8 is never read and never cleared |
| Framing.PartWaits | crates/threadlane-coding-agent/src/broker.rs:1039-1102 | a frame cut short asks for more and is not taken for an oversize one |
| Framing.BlockDeclares | crates/threadlane-coding-agent/src/broker.rs:1050-1059 | reading a header block of the protocol finds the first length its fields declare |
| Framing.BlockEnds | crates/threadlane-coding-agent/src/broker.rs:1040-1046 | a header block of the protocol ends at its one empty line |
| Framing.DigitsRoundTrip | crates/threadlane-coding-agent/src/broker.rs:1053-1055 | a length written in decimal reads back as itself |
| Framing.SignedLengths | crates/threadlane-coding-agent/src/broker.rs:1053-1055 | a length may carry a plus and no other sign |
| Framing.PaddedLengths | crates/threadlane-coding-agent/src/broker.rs:1053-1055 | white space on either side of a length does not matter |
| Framing.NamesInAnyCase | crates/threadlane-coding-agent/src/broker.rs:1052-1053 | the field's name is recognised in any mixture of capitals and small letters |
| Framing.ProtocolFramesAreWellFormed | crates/threadlane-coding-agent/src/broker.rs:1039-1077 | any sender following the protocol, with other fields and the name in any case, sends frames the parser reads |
| FramedStream.Pipe.Read | crates/threadlane-coding-agent/src/broker.rs:526-544 | the reader keeps the newest bytes within the cap |
| FramedStream.Pipe.Poll | crates/threadlane-coding-agent/src/broker.rs:629-697 | one look at the buffer delivers a frame, clears an oversize one at the deadline, or reports end or timeout, and never reports oversize |
| FramedStream.FramesAreDeliveredInOrder | crates/threadlane-coding-agent/src/broker.rs:526-662 | however a stream of frames is cut into chunks, and whenever receives and timeouts fall, with no overflow the bodies delivered are the first frames' in order and no byte is lost |
| FramedStream.EnoughReceivesDeliverAll | crates/threadlane-coding-agent/src/broker.rs:629-662 | once the whole stream has come, as many receives as frames deliver every body |
| FramedStream.BacklogStaysCapped | crates/threadlane-coding-agent/src/broker.rs:533-539 | over any run the backlog keeps within the cap, so an oversize answer is unreachable |
| FramedStream.OversizeIsClearedAtTheDeadline | crates/threadlane-coding-agent/src/broker.rs:649-659 | a header that declares too large a body is thrown away with what followed it at the deadline, not before, and nothing of it is delivered |
| FramedStream.OverlongFrameSticks | crates/threadlane-coding-agent/src/broker.rs:533-659 | a frame that passes the cap as a whole but not by its body is never delivered or cleared until its header is pushed out |
| FramedStream.FrameIsDeliveredExactlyWhenItFits | crates/threadlane-coding-agent/src/broker.rs:526-662 | a plain sender's frame with any legal body is delivered exactly when header and body fit the cap together |
| FramedStream.LegalBodyIsNeverDelivered | crates/threadlane-coding-agent/src/broker.rs:526-659 | a legal body, read in the reader's own chunks, that no receive delivers |
| FramedStream.FirstFrameIsDeliveredExactly | crates/threadlane-coding-agent/src/broker.rs:526-662 | within the cap the first whole frame is delivered exactly when its body is UTF-8; otherwise nothing is delivered and nothing cleared, whatever receives and timeouts come |
| FramedStream.UndecodableBodyStays | crates/threadlane-coding-agent/src/broker.rs:1039-1102 | one byte that is not UTF-8 stays in the buffer, undelivered |
| AcpTurn.Collector.ForwardUpdate | crates/threadlane-acp-engine/src/runtime.rs:818-875 | forwarding one notification folds its events in, or drops another session's |
| AcpTurn.Collector.Finish | crates/threadlane-acp-engine/src/runtime.rs:849-870 | a tool end reaches the newest activity of its call, or makes one |
| AcpTurn.Collector.Drain | crates/threadlane-acp-engine/src/runtime.rs:330-339 | draining the queue is the fold of what it holds |
| AcpTurn.TextIsConserved | crates/threadlane-acp-engine/src/runtime.rs:818-875 | the tool preambles and the reply, joined, are exactly the text streamed |
| AcpTurn.OwnTextIsCollected | crates/threadlane-acp-engine/src/runtime.rs:818-875 | the preambles and reply of a turn are the text of exactly the notes that name its session, in order |
| AcpTurn.OthersChangeNothing | crates/threadlane-acp-engine/src/runtime.rs:826-828 | a notification of another session, wherever it stands, changes nothing of the turn |
| AcpTurn.TurnIsItsOpenings | crates/threadlane-acp-engine/src/runtime.rs:830-870 | there is one activity for every event that opens one, the reply is the text since the last of them, and the plan is the last one given |
| AcpTurn.ActivitiesAreTheOpenings | crates/threadlane-acp-engine/src/runtime.rs:830-870 | each opening made its own activity, in order, under its call, name and arguments, with the text spoken since the one before |
| AcpTurn.EveryEndIsRecorded | crates/threadlane-acp-engine/src/runtime.rs:849-870 | every end is recorded on the latest activity of its call or on a synthetic one, for good unless the call ends again without starting again |
| AcpTurn.ResultsComeFromEnds | crates/threadlane-acp-engine/src/runtime.rs:849-870 | every recorded result came from an end of that call |
| AcpConnection.Connection.Request | crates/threadlane-acp/src/lib.rs:1130-1153 | a request takes the next number and waits, or is settled when it cannot be sent |
| AcpConnection.Connection.OnLine | crates/threadlane-acp/src/lib.rs:1322-1364 | updates are queued in order; an answer settles the waiter of its own id, if there is one |
| AcpConnection.Connection.OnEnd | crates/threadlane-acp/src/lib.rs:1366-1369 | the end of the stream fails every waiter and no one else |
| AcpConnection.RequestsResolveOnce | crates/threadlane-acp/src/lib.rs:1130-1168 | each number is unanswered and waiting or has one outcome; a reply is that of the first line answering it, and never changes |
| AcpConnection.EveryWaiterIsTold | crates/threadlane-acp/src/lib.rs:1322-1369 | what a waiting request hears from an answer to it, a timeout and the end of the stream, and that an answer to another leaves it waiting |
| AcpConnection.EveryUpdateGoesToOnePlace | crates/threadlane-acp-engine/src/runtime.rs:308-418 | every update read is kept by one turn, dropped, or still queued, in the order read |
| AcpConnection.TurnIsTheSequentialFold | crates/threadlane-acp-engine/src/runtime.rs:308-339 | however the read loop and the turn interleave, a finishing turn is the fold of the updates read since it began: those before its answer and any read after it |
| AcpConnection.TurnSaysItsOwnText | crates/threadlane-acp-engine/src/runtime.rs:308-339 | a finishing turn is collected from everything read since it began, and says the text of exactly the notes of its session among them |
| AcpConnection.FinishedTurnsAreHandedOver | crates/threadlane-acp-engine/src/runtime.rs:341-378 | a finishing turn is handed over as it is, and the session takes another prompt exactly if the agent answered with a result |
| AcpConnection.InterleavingIsInvisible | crates/threadlane-acp-engine/src/runtime.rs:308-339 | two interleavings over the same lines collect the same turn when the agent sends its session nothing after the answer |
| AcpConnection.EarlierUpdatesNeverEnterALaterTurn | crates/threadlane-acp-engine/src/runtime.rs:383-418 | nothing read before a prompt's answer is kept by a later turn, whether that prompt's turn finished or was cancelled |
| Accounts.Credentials.Load | crates/threadlane-auth/src/openai_auth.rs:494-586 | loading reads the current file, migrates an old one, or falls back to the other program's login |
| Accounts.Credentials.Add | crates/threadlane-auth/src/openai_auth.rs:256-329 | a sign-in renews the first account it matches or adds one of our own |
| Accounts.Credentials.Delete | crates/threadlane-auth/src/openai_auth.rs:695-711 | a removal drops the account, moves the active mark and deletes an empty file |
| Accounts.Credentials.Select | crates/threadlane-auth/src/openai_auth.rs:679-688 | only an account that is shown may be chosen |
| Accounts.Credentials.CommitRefresh | crates/threadlane-auth/src/openai_auth.rs:887-910 | a refresh replaces credentials only over the exact ones it started from |
| AccountHistory.ActiveAndBackupsPartition | crates/threadlane-auth/src/openai_auth.rs:609-671 | the accounts shown are the active one and the backups, each once and in order |
| AccountHistory.ActiveFollowsTheMark | crates/threadlane-auth/src/openai_auth.rs:173-189 | the active mark is followed exactly when it names one of our own or there is none |
| AccountHistory.ChosenIsActive | crates/threadlane-auth/src/openai_auth.rs:679-688 | choosing an account that is shown makes it the active one |
| AccountHistory.SignInTouchesOneAccount | crates/threadlane-auth/src/openai_auth.rs:294-321 | a sign-in renews the first account it matches, keeping its id, source and whatever the tokens do not say, and no other; without a match it adds one of our own |
| AccountHistory.SignInIsUsableExactly | crates/threadlane-auth/src/openai_auth.rs:304-321 | when a sign-in's token is there under the id it reports: exactly when its first match is none or our own under that id, or it was there before |
| AccountHistory.BorrowedSignInIsNotUsable | crates/threadlane-auth/src/openai_auth.rs:304-321 | a successful sign-in that leaves no account under the id it reports |
| AccountHistory.RemovalFallsBack | crates/threadlane-auth/src/openai_auth.rs:695-711 | a removal takes our own account away, and its id is still shown exactly when only the other program's login is left and bears it |
| AccountHistory.RemovedIdIsStillShown | crates/threadlane-auth/src/openai_auth.rs:695-711 | a successful removal after which the id is still shown |
| AccountHistory.CommitLoads | crates/threadlane-auth/src/openai_auth.rs:887-910 | a commit changes one account's credentials or nothing, never an id, a source, an order or the active mark |
| AccountHistory.StoresStayOk | crates/threadlane-auth/src/openai_auth.rs:256-329 | over any interleaving ids stay unique and the active mark names a stored account |
| AccountHistory.RefreshLandsExactlyWhenCurrent | crates/threadlane-auth/src/openai_auth.rs:887-910 | a refresh lands exactly when its account is still our own and nothing has written its credentials since; otherwise the newer ones are returned untouched |
| AccountHistory.GoneStaysGone | crates/threadlane-auth/src/openai_auth.rs:887-910 | an account of our own that is gone stays gone until someone signs in under its id, whatever refreshes land |
| AccountOutcomes.SignInStores | crates/threadlane-auth/src/openai_auth.rs:256-329 | a sign-in renews its first match by id or upstream account in place, or adds an account of our own at the end, and sets the mark only if there was none |
| AccountOutcomes.RemoveStores | crates/threadlane-auth/src/openai_auth.rs:695-711 | a removal cuts out exactly the account of that id, moves a mark on it to the first that is left, and leaves no file for an empty store |
| AccountOutcomes.ChoiceMovesTheMark | crates/threadlane-auth/src/openai_auth.rs:679-688 | a choice moves the mark and nothing else, and is refused exactly for an id that is not shown |
| AccountOutcomes.OurMarkedOneIsUsed | crates/threadlane-auth/src/openai_auth.rs:173-189 | the first marked account of our own is the one used |
| AccountOutcomes.OurFirstOneIsUsed | crates/threadlane-auth/src/openai_auth.rs:173-189 | without a mark on our own the first of our own is used |
| AccountOutcomes.MarkedOneIsUsed | crates/threadlane-auth/src/openai_auth.rs:173-189 | without any of our own the first marked account is used, or without a mark the first |
| AccountOutcomes.RefreshStores | crates/threadlane-auth/src/openai_auth.rs:887-910 | a refresh that finds the credentials it took off with puts access, refresh token and expiry on that account, which stays itself, and touches no other; else it answers what is there and writes nothing |
| AccountOutcomes.LoadingPrefersOurOwn | crates/threadlane-auth/src/openai_auth.rs:494-586 | what a load shows: our own file, else the one account of an older file, else the other program's login |
| AccountOutcomes.LoadingMigrates | crates/threadlane-auth/src/openai_auth.rs:507-531 | loading an older file rewrites it to one that shows the same, and touches no other file |
| TaskResults.LastEnding | crates/threadlane-coding-agent/src/automation.rs:169-170 | the reverse scan finds the operation's last ending, or there is none |
| TaskResults.LastReport | crates/threadlane-coding-agent/src/automation.rs:181-186 | the reverse scan finds the last result reported before the ending, or there is none |
| TaskResults.Journal.Report | crates/threadlane-coding-agent/src/automation.rs:258-298 | a report is added exactly when it is readable, acceptable and made during the original operation, and otherwise the journal is untouched |
| TaskResults.AcceptedExactly | crates/threadlane-coding-agent/src/automation.rs:258-288 | when a report is accepted: readable, saying something within the limit, from the first main operation while that has not finished, under the contract |
| TaskResults.FirstMainIs | crates/threadlane-coding-agent/src/automation.rs:166-169 | the operation judged is the one named by the first record that starts a main operation |
| TaskResults.NoVerdictExactlyWhileOpen | crates/threadlane-coding-agent/src/automation.rs:160-199 | there is a verdict exactly when a main operation has started and the first one to start has ended |
| TaskResults.VerdictFollowsTheLastEnding | crates/threadlane-coding-agent/src/automation.rs:169-198 | the last ending of the first main operation decides the status, and its own error is passed on unless the contract asks for a result |
| TaskResults.VerdictIsStable | crates/threadlane-coding-agent/src/automation.rs:160-199 | once there is a verdict, no further record changes it except an ending of the same operation or a change of the contract |
| TaskResults.SuccessIsReported | crates/threadlane-coding-agent/src/automation.rs:175-194 | under the contract a completed run succeeded exactly when the last result it reported before finishing is an acceptable success |
| TaskResults.LastReportDecides | crates/threadlane-coding-agent/src/automation.rs:160-298 | from report to verdict: the last report before completion is what the run came to |
| TaskResults.EveryRecordedReportCounts | crates/threadlane-coding-agent/src/automation.rs:160-298 | over any history of tool uses and other records, a completed run's recorded reports all came before its end and are readable, the last of them is the verdict, nothing can be reported any more, and it counts as unreported exactly when it recorded none |

## Left out

- AcpConnection.TurnIsTheSequentialFold: the fifteen-second timeout of a cancelled turn, which ends the session, and the shutdown that follows a failed turn are not modelled beyond ending the world.
- FramedStream.FramesAreDeliveredInOrder: the line and raw modes of a receive are not modelled; their lossy decoding needs a model of replacement characters and would only add easier members.
- Transcript.TranscriptIsItsStreams: display summaries, the plan, token usage and permission requests of the same function are not modelled; they do not touch the messages' text, reasoning or activities.
- RemoteProtocol.JournalIsDeliveredOnce: a daemon that has evicted journal entries the cursor asks for is outside the statement; unjournaled events carry numbers too and may be lost across a drop.
- RemoteRestart.RestartLosesExactly: only deliveries are followed across a restart; what becomes of a parked call whose daemon is gone is not stated.
- Accounts.Credentials.Load: hand-edited files with repeated ids or a mark that names nothing are read as the code reads them but lie outside the invariant.
- Real time-zone data, clocks, sockets, TLS, HTTP, process spawning, file locks and JSON decoding appear only as parameters or environment actions.
- The race in `send` and in issuing a request between the connected check and the queueing.
- Token claim parsing, expiry checks, OAuth flows and the refresh request itself: a refresh is its start and its commit.
- Translating agent updates into events, the harness reducers and the daemon core: their outputs are inputs here.
- Session selection, snapshots and project lists of the client projection, which replace state as a whole.
- Snapshot paging, broker continuations, preset tables, tool schemas and slash commands would only add easier members.
