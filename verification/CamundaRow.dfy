/** One row of the Camunda worker and the engine task it stands for.

    A row is an ExternalTask record together with the place where its delivery
    (task_execute_and_complete, src/bptl/camunda/tasks.py) currently is.  Every atomic
    action of a delivery is one `Action`; between two actions of one row any other part
    of the system may move. */
module CamundaRow {
  import opened Wrappers
  import opened Statuses
  import Retry

  type WorkerId = string

  /** Lock duration and pause between attempts, in seconds. */
  const LOCK_DURATION := 600.0
  const PAUSE := 1.0
  const ATTEMPTS: nat := 4

  /** The two constants of the retry wrapper used here are what the decorator computes. */
  lemma PausesOfTheDecorator(k: nat)
    requires k > 0
    ensures ATTEMPTS == Retry.CAMUNDA.Attempts() && Retry.CAMUNDA.Backoff(k) == PAUSE
  {
    Retry.CamundaPauses(k);
  }

  // ----- the engine -----

  datatype EngineTask = Free | Locked(worker: WorkerId, until: real) | Closed(worker: WorkerId) | Incident
  {
    predicate HeldBy(w: WorkerId)
    {
      Locked? && worker == w
    }

    /** fetchAndLock hands out tasks nobody holds and tasks whose lock has run out. */
    predicate Lockable(now: real)
    {
      Free? || (Locked? && until <= now)
    }
  }

  /** How a request to the engine ends: applied and answered, answered with 500 (not applied),
      any other error (not applied), or applied while the response is lost. */
  datatype Answer = Accept | Http500 | Refuse | Lost

  /** The engine obeys only the holder of the lock; a closed task answers 404. */
  function Comply(e: EngineTask, w: WorkerId, wish: Answer): Answer
  {
    if e.HeldBy(w) then wish
    else if e.Closed? || wish.Accept? || wish.Lost? then Refuse
    else wish
  }

  // ----- the row -----

  /** The engine's response is on its way, the record exists, or it is logged and queued. */
  datatype Stage = InFlight | Stored | Enqueued

  /** Where a delivery is.  `tries` holds tries_left of every active retry wrapper around
      _execute, innermost last. */
  datatype Pc =
    | Idle
    | Starting(tries: seq<nat>, since: real)    // about to call execute
    | Working(tries: seq<nat>, since: real)     // inside the work unit
    | Extending(tries: seq<nat>)                // TaskExpired caught
    | Rechecking(tries: seq<nat>, since: real)  // lock extended, `expired` not read yet
    | Sleeping(tries: seq<nat>, until: real)
    | Reporting                                 // _execute raised, fail_task not called yet
    | Posting(left: nat)                        // complete_task, about to post
    | Notifying(left: nat)                      // engine accepted, callback outstanding
    | Pausing(left: nat, until: real)
    | Surrendering                              // complete_task gave up, on_failure outstanding
    | Resigning                                 // on_failure has posted, status failed not saved yet

  /** How one attempt at complete_task ended; CutOff: the process died after the engine's accept. */
  datatype Attempt = Post500 | PostError | PostLost | Callback500 | CallbackError | CutOff | Done

  datatype Tally = Tally(claims: nat, executes: nat, works: nat, extensions: nat)

  /** `attempts`, `tally`, `sent`, `reported` and `crashed` are history: what was tried, how often,
      whether a failure report was posted, whether the engine took it, whether the process died. */
  datatype Row = Row(stage: Stage, status: Status, log: seq<Status>, lockExpiresAt: Option<real>, pc: Pc,
                     tally: Tally, attempts: seq<Attempt>, sent: bool, reported: bool, crashed: bool)
  {
    predicate Expired(now: real)
    {
      lockExpiresAt.Some? && lockExpiresAt.value <= now
    }

    /** The engine accepted a complete request of this row. */
    predicate Accepted()
    {
      || pc.Notifying? || PostLost in attempts || Callback500 in attempts || CallbackError in attempts
      || CutOff in attempts || Done in attempts
    }

    /** save_and_log: a new status together with its log entry. */
    function Logged(s: Status): Row
    {
      this.(status := s, log := log + [s])
    }
  }

  function Fetched(until: real): Row
  {
    Row(InFlight, Initial, [], Some(until), Idle, Tally(0, 0, 0, 0), [], false, false, false)
  }

  datatype WorkResult = WorkDone | Work500 | WorkError

  datatype Callback = NoUrl | CallbackOk | CallbackFails500 | CallbackFails

  datatype Action =
    | Store
    | Enqueue
    | Deliver
    | Guard(known: bool)          // `known`: topic mapped and callback registered
    | Finish(result: WorkResult)
    | Extend(wish: Answer)
    | Recheck
    | Wake
    | Report(wish: Answer)
    | Post(wish: Answer)
    | Notify(callback: Callback)
    | Surrender(wish: Answer)
    | Resign
    | Crash

  predicate Enabled(row: Row, now: real, a: Action)
  {
    match a
    case Store => row.stage.InFlight?
    case Enqueue => row.stage.Stored?
    case Deliver => row.stage.Enqueued? && row.pc.Idle?
    case Guard(_) => row.pc.Starting? && |row.pc.tries| > 0
    case Finish(_) => row.pc.Working? && |row.pc.tries| > 0
    case Extend(_) => row.pc.Extending? && |row.pc.tries| > 0
    case Recheck => row.pc.Rechecking?
    case Wake => (row.pc.Sleeping? || row.pc.Pausing?) && row.pc.until <= now
    case Report(_) => row.pc.Reporting?
    case Post(_) => row.pc.Posting?
    case Notify(_) => row.pc.Notifying?
    case Surrender(_) => row.pc.Surrendering?
    case Resign => row.pc.Resigning?
    case Crash => !row.pc.Idle?
  }

  /** An expected error reaches the innermost wrapper around _execute.  When its tries are spent,
      its on_failure hook is handed the exception in place of the task and raises AttributeError,
      which no outer wrapper retries. */
  function Retried(tries: seq<nat>, now: real): Pc
    requires |tries| > 0
  {
    var last := |tries| - 1;
    if tries[last] <= 1 then Reporting else Sleeping(tries[..last] + [tries[last] - 1], now + PAUSE)
  }

  /** The same for the wrapper around complete_task, whose hook does post a failure. */
  function RetriedPost(left: nat, now: real): Pc
  {
    if left <= 1 then Surrendering else Pausing(left - 1, now + PAUSE)
  }

  /** task_execute_and_complete up to the first call: only a row in status initial is claimed. */
  function Claimed(row: Row, now: real): Row
  {
    if row.status != Initial then row
    else
      row.(status := InProgress, pc := Starting([ATTEMPTS], now), tally := row.tally.(claims := row.tally.claims + 1))
  }

  /** The guards of execute, in their order. */
  function Guarded(row: Row, tries: seq<nat>, now: real, known: bool): Row
  {
    var called := row.(tally := row.tally.(executes := row.tally.executes + 1));
    if !known || row.status == Completed || row.status == Performed then
      called.Logged(Failed).(pc := Reporting)
    else if row.Expired(now) then
      called.Logged(Failed).(pc := Extending(tries))
    else
      called.(pc := Working(tries, now), tally := called.tally.(works := row.tally.works + 1))
  }

  function Finished(row: Row, tries: seq<nat>, now: real, result: WorkResult): Row
    requires |tries| > 0
  {
    match result
    case WorkDone => row.Logged(Performed).(pc := Posting(ATTEMPTS))
    case Work500 => row.Logged(Failed).(pc := Retried(tries, now))
    case WorkError => row.Logged(Failed).(pc := Reporting)
  }

  /** The process is killed.  An accept that was on record as the position stays on record as an attempt. */
  function CutShort(row: Row): Row
  {
    row.(pc := Idle, crashed := true, attempts := row.attempts + if row.pc.Notifying? then [CutOff] else [])
  }

  /** fail_task, with zero retries: accepted reports turn the task into an incident. */
  function Reported(row: Row, e: EngineTask, w: WorkerId, wish: Answer, next: Pc): (Row, EngineTask)
  {
    var taken := Comply(e, w, wish).Accept? || Comply(e, w, wish).Lost?;
    (row.(pc := next, sent := true, reported := row.reported || taken), if taken then Incident else e)
  }

  function Acted(row: Row, e: EngineTask, w: WorkerId, now: real, a: Action): (Row, EngineTask)
    requires Enabled(row, now, a)
  {
    match a
    case Store => (row.(stage := Stored), e)
    case Enqueue => (row.Logged(row.status).(stage := Enqueued), e)
    case Deliver => (Claimed(row, now), e)
    case Guard(known) => (Guarded(row, row.pc.tries, now, known), e)
    case Finish(result) => (Finished(row, row.pc.tries, now, result), e)
    case Extend(wish) =>
      match Comply(e, w, wish) {
        case Accept =>
          (row.(pc := Rechecking(row.pc.tries, now), lockExpiresAt := Some(now + LOCK_DURATION),
                tally := row.tally.(extensions := row.tally.extensions + 1)),
           Locked(w, now + LOCK_DURATION))
        case Http500 => (row.(pc := Retried(row.pc.tries, now)), e)
        case Refuse => (row.(pc := Reporting), e)
        case Lost => (row.(pc := Reporting), Locked(w, now + LOCK_DURATION))
      }
    case Recheck =>
      (row.(pc := if row.Expired(now) then Reporting else Starting(row.pc.tries + [ATTEMPTS], now)), e)
    case Wake =>
      (row.(pc := if row.pc.Sleeping? then Starting(row.pc.tries, now) else Posting(row.pc.left)), e)
    case Report(wish) => Reported(row, e, w, wish, Idle)
    case Post(wish) =>
      match Comply(e, w, wish) {
        case Accept => (row.(pc := Notifying(row.pc.left)), Closed(w))
        case Http500 => (row.(pc := RetriedPost(row.pc.left, now), attempts := row.attempts + [Post500]), e)
        case Refuse => (row.Logged(Failed).(pc := Idle, attempts := row.attempts + [PostError]), e)
        case Lost => (row.Logged(Failed).(pc := Idle, attempts := row.attempts + [PostLost]), Closed(w))
      }
    case Notify(callback) =>
      (match callback {
         case NoUrl | CallbackOk => row.Logged(Completed).(pc := Idle, attempts := row.attempts + [Done])
         case CallbackFails500 => row.(pc := RetriedPost(row.pc.left, now), attempts := row.attempts + [Callback500])
         case CallbackFails => row.Logged(Failed).(pc := Idle, attempts := row.attempts + [CallbackError])
       }, e)
    case Surrender(wish) => Reported(row, e, w, wish, Resigning)
    case Resign => (row.Logged(Failed).(pc := Idle), e)
    case Crash => (CutShort(row), e)
  }

  // ----- what every action keeps -----

  predicate OnlyEngineErrors(attempts: seq<Attempt>)
  {
    forall i | 0 <= i < |attempts| :: attempts[i] == Post500
  }

  /** The attempts of a complete_task that was still allowed to go on after the last of them. */
  predicate AllRetried(attempts: seq<Attempt>)
  {
    forall i | 0 <= i < |attempts| :: attempts[i] == Post500 || (i == |attempts| - 1 && attempts[i] == Callback500)
  }

  predicate LogAgrees(row: Row)
  {
    && |row.log| > 0
    && row.log[|row.log| - 1] == if row.status == InProgress then Initial else row.status
  }

  predicate Unposted(row: Row)
  {
    row.tally.claims == 1 && !row.sent && !row.reported && row.attempts == []
  }

  predicate Submitting(row: Row, left: nat)
  {
    && row.tally.claims == 1 && !row.sent && !row.reported
    && left + |row.attempts| == ATTEMPTS && AllRetried(row.attempts)
  }

  /** What the position of a delivery says about its row. */
  predicate PcInv(row: Row)
  {
    match row.pc
    case Idle =>
      && (row.tally.claims > 0 && !row.crashed ==> row.status == Completed || row.status == Failed)
      && (AllRetried(row.attempts) && |row.attempts| == ATTEMPTS ==> row.sent || row.crashed)
    case Starting(tries, _) => |tries| > 0 && (row.status == InProgress || row.status == Failed) && Unposted(row)
    case Working(tries, _) => |tries| > 0 && (row.status == InProgress || row.status == Failed) && Unposted(row)
    case Extending(tries) => |tries| > 0 && row.status == Failed && Unposted(row)
    case Rechecking(tries, _) => row.status == Failed && Unposted(row)
    case Sleeping(tries, _) => |tries| > 0 && row.status == Failed && Unposted(row)
    case Reporting => row.status == Failed && Unposted(row)
    case Posting(left) => row.status == Performed && left > 0 && Submitting(row, left)
    case Notifying(left) =>
      row.status == Performed && left > 0 && Submitting(row, left) && OnlyEngineErrors(row.attempts)
    case Pausing(left, _) => row.status == Performed && left > 0 && Submitting(row, left)
    case Surrendering => row.status == Performed && Submitting(row, 0)
    case Resigning =>
      && row.status == Performed && row.tally.claims == 1 && row.sent
      && AllRetried(row.attempts) && |row.attempts| == ATTEMPTS
  }

  predicate RowInv(row: Row)
  {
    && row.lockExpiresAt.Some?
    && (!row.stage.Enqueued? ==> row == Fetched(row.lockExpiresAt.value).(stage := row.stage))
    && (row.stage.Enqueued? ==> LogAgrees(row))
    && row.tally.claims <= 1
    && (row.status == Initial <==> row.tally.claims == 0)
    && (row.tally.claims == 0 ==>
          row.pc.Idle? && row.tally == Tally(0, 0, 0, 0) && row.attempts == [] && !row.sent && !row.crashed)
    && PcInv(row)
    && (row.status == Completed ==> row.pc.Idle? && |row.attempts| > 0 && row.attempts[|row.attempts| - 1] == Done)
    && (row.reported ==> row.sent)
    && (row.sent ==> row.attempts == [] || (AllRetried(row.attempts) && |row.attempts| == ATTEMPTS))
  }

  /** How a row and its engine task fit together at time `now`. */
  predicate Holds(row: Row, e: EngineTask, w: WorkerId, now: real)
  {
    // no lock reaches further ahead than one duration
    && row.lockExpiresAt.Some? && row.lockExpiresAt.value <= now + LOCK_DURATION
    // a task is closed for this worker exactly when one of its completes was accepted
    && (row.Accepted() <==> e == Closed(w))
    // a failure that was accepted ended this worker's say over the task
    && (row.reported ==> !e.HeldBy(w) && e != Closed(w))
    // a lock that still looks alive is alive, unless this row itself ended it
    && (row.reported || e == Closed(w) || row.Expired(now)
        || (e.HeldBy(w) && row.lockExpiresAt.value <= e.until))
  }

  /** All an action can do to the engine task: nothing, or something only the holder may do. */
  predicate Guarantee(e: EngineTask, e': EngineTask, w: WorkerId, now: real)
  {
    e' == e || (e.HeldBy(w) && (e' == Locked(w, now + LOCK_DURATION) || e' == Closed(w) || e' == Incident))
  }

  /** Until complete_task has been accepted, every attempt so far was a 500 from the engine. */
  lemma OnlyEngineErrorsSoFar(row: Row, e: EngineTask, w: WorkerId, now: real)
    requires RowInv(row) && Holds(row, e, w, now)
    requires row.pc.Posting? && e != Closed(w)
    ensures OnlyEngineErrors(row.attempts)
  {
    if |row.attempts| > 0 {
      assert row.attempts[|row.attempts| - 1] in row.attempts;
    }
  }

  lemma AppendAttempt(attempts: seq<Attempt>, last: Attempt)
    ensures AllRetried(attempts + [last]) <==> OnlyEngineErrors(attempts) && (last == Post500 || last == Callback500)
  {
    var longer := attempts + [last];
    assert longer[|attempts|] == last;
    assert forall i | 0 <= i < |attempts| :: longer[i] == attempts[i];
  }

  lemma Post500KeepsRow(row: Row, e: EngineTask, w: WorkerId, now: real, a: Action)
    requires RowInv(row) && OnlyEngineErrors(row.attempts)
    requires Enabled(row, now, a) && a.Post? && Comply(e, w, a.wish).Http500?
    ensures RowInv(Acted(row, e, w, now, a).0)
  {
    AppendAttempt(row.attempts, Post500);
  }

  lemma PostEndKeepsRow(row: Row, e: EngineTask, w: WorkerId, now: real, a: Action)
    requires RowInv(row) && Holds(row, e, w, now)
    requires Enabled(row, now, a) && a.Post? && !Comply(e, w, a.wish).Http500?
    ensures RowInv(Acted(row, e, w, now, a).0)
  {
    if Comply(e, w, a.wish).Accept? {
      OnlyEngineErrorsSoFar(row, e, w, now);
    }
    AppendAttempt(row.attempts, PostError);
    AppendAttempt(row.attempts, PostLost);
  }

  lemma PostKeepsRow(row: Row, e: EngineTask, w: WorkerId, now: real, a: Action)
    requires RowInv(row) && Holds(row, e, w, now)
    requires Enabled(row, now, a) && a.Post?
    ensures RowInv(Acted(row, e, w, now, a).0)
  {
    if Comply(e, w, a.wish).Http500? {
      OnlyEngineErrorsSoFar(row, e, w, now);
      Post500KeepsRow(row, e, w, now, a);
    } else {
      PostEndKeepsRow(row, e, w, now, a);
    }
  }

  lemma NotifyKeepsRow(row: Row, e: EngineTask, w: WorkerId, now: real, a: Action)
    requires RowInv(row) && Holds(row, e, w, now)
    requires Enabled(row, now, a) && a.Notify?
    ensures RowInv(Acted(row, e, w, now, a).0)
  {
    match a.callback
    case NoUrl | CallbackOk => AppendAttempt(row.attempts, Done);
    case CallbackFails500 => AppendAttempt(row.attempts, Callback500);
    case CallbackFails => AppendAttempt(row.attempts, CallbackError);
  }

  lemma QueueKeepsRow(row: Row, e: EngineTask, w: WorkerId, now: real, a: Action)
    requires RowInv(row)
    requires Enabled(row, now, a) && (a.Store? || a.Enqueue? || a.Deliver?)
    ensures RowInv(Acted(row, e, w, now, a).0)
  {
  }

  lemma CrashKeepsRow(row: Row)
    requires RowInv(row) && !row.pc.Idle?
    ensures RowInv(CutShort(row))
  {
    AppendAttempt(row.attempts, CutOff);
    assert row.attempts + [] == row.attempts;
  }

  lemma GuardKeepsRow(row: Row, e: EngineTask, w: WorkerId, now: real, a: Action)
    requires RowInv(row)
    requires Enabled(row, now, a) && a.Guard?
    ensures RowInv(Acted(row, e, w, now, a).0)
  {
  }

  lemma FinishKeepsRow(row: Row, e: EngineTask, w: WorkerId, now: real, a: Action)
    requires RowInv(row)
    requires Enabled(row, now, a) && a.Finish?
    ensures RowInv(Acted(row, e, w, now, a).0)
  {
  }

  lemma WaitKeepsRow(row: Row, e: EngineTask, w: WorkerId, now: real, a: Action)
    requires RowInv(row)
    requires Enabled(row, now, a) && (a.Extend? || a.Recheck? || a.Wake?)
    ensures RowInv(Acted(row, e, w, now, a).0)
  {
  }

  lemma ReportKeepsRow(row: Row, e: EngineTask, w: WorkerId, now: real, a: Action)
    requires RowInv(row)
    requires Enabled(row, now, a) && (a.Report? || a.Surrender? || a.Resign?)
    ensures RowInv(Acted(row, e, w, now, a).0)
  {
  }

  lemma ActedKeepsRow(row: Row, e: EngineTask, w: WorkerId, now: real, a: Action)
    requires RowInv(row) && Holds(row, e, w, now)
    requires Enabled(row, now, a)
    ensures RowInv(Acted(row, e, w, now, a).0)
  {
    match a
    case Post(_) => PostKeepsRow(row, e, w, now, a);
    case Notify(_) => NotifyKeepsRow(row, e, w, now, a);
    case Store | Enqueue | Deliver => QueueKeepsRow(row, e, w, now, a);
    case Crash => CrashKeepsRow(row);
    case Guard(_) => GuardKeepsRow(row, e, w, now, a);
    case Finish(_) => FinishKeepsRow(row, e, w, now, a);
    case Extend(_) | Recheck | Wake => WaitKeepsRow(row, e, w, now, a);
    case Report(_) | Surrender(_) | Resign => ReportKeepsRow(row, e, w, now, a);
  }

  lemma SubmitKeepsHold(row: Row, e: EngineTask, w: WorkerId, now: real, a: Action)
    requires RowInv(row) && Holds(row, e, w, now)
    requires Enabled(row, now, a) && (a.Post? || a.Notify? || a.Surrender?)
    ensures Holds(Acted(row, e, w, now, a).0, Acted(row, e, w, now, a).1, w, now)
    ensures Guarantee(e, Acted(row, e, w, now, a).1, w, now)
  {
  }

  lemma RequestKeepsHold(row: Row, e: EngineTask, w: WorkerId, now: real, a: Action)
    requires RowInv(row) && Holds(row, e, w, now)
    requires Enabled(row, now, a) && (a.Extend? || a.Report?)
    ensures Holds(Acted(row, e, w, now, a).0, Acted(row, e, w, now, a).1, w, now)
    ensures Guarantee(e, Acted(row, e, w, now, a).1, w, now)
  {
  }

  lemma LocalKeepsHold(row: Row, e: EngineTask, w: WorkerId, now: real, a: Action)
    requires RowInv(row) && Holds(row, e, w, now)
    requires Enabled(row, now, a)
    requires !a.Post? && !a.Notify? && !a.Surrender? && !a.Extend? && !a.Report?
    ensures Holds(Acted(row, e, w, now, a).0, e, w, now)
    ensures Acted(row, e, w, now, a).1 == e
  {
  }

  lemma ActedKeepsHold(row: Row, e: EngineTask, w: WorkerId, now: real, a: Action)
    requires RowInv(row) && Holds(row, e, w, now)
    requires Enabled(row, now, a)
    ensures Holds(Acted(row, e, w, now, a).0, Acted(row, e, w, now, a).1, w, now)
    ensures Guarantee(e, Acted(row, e, w, now, a).1, w, now)
  {
    match a
    case Post(_) | Notify(_) | Surrender(_) => SubmitKeepsHold(row, e, w, now, a);
    case Extend(_) | Report(_) => RequestKeepsHold(row, e, w, now, a);
    case _ => LocalKeepsHold(row, e, w, now, a);
  }
}
