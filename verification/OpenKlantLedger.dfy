/** Deliveries, failed-task records and the daily retry pass of the OpenKlant worker
    (src/bptl/openklant/tasks.py, src/bptl/openklant/utils.py).

    `script` answers every action that can fail: a work unit or a remote call succeeds when the
    next answer is true, a save merely uses an answer up.  When the script runs dry the process
    has been killed at that point; everything saved before stays saved. */
module OpenKlantLedger {
  import opened Filters
  import opened Wrappers
  import opened Statuses
  import Retry

  type TaskId = nat

  datatype RecordStatus = Queued | Succeeded | FailedAgain

  /** A task row with its failed-task record.  History: successful runs of the work unit, passes
      that tried the record, and those of them that were killed before settling it. */
  datatype Task = Task(status: Status, record: Option<RecordStatus>, successes: nat, retries: nat, interrupted: nat)
  {
    predicate Settled()
    {
      record.Some? && record.value != Queued
    }
  }

  const ATTEMPTS: nat := 6

  lemma AttemptsOfTheDecorator()
    ensures ATTEMPTS == Retry.OPENKLANT.Attempts()
  {
    Retry.OpenKlantPauses();
  }

  datatype Ending = Done | GaveUp | Killed

  /** Where a piece of work left the task, and the answers it did not use. */
  datatype Progress = Progress(task: Task, rest: seq<bool>, end: Ending)

  // ----- specification -----

  predicate AlreadyDone(t: Task)
  {
    t.status == Completed || t.status == Performed
  }

  /** One call of execute: the guard on performed tasks, then the work unit. */
  function Executed(t: Task, ok: bool): Task
  {
    if AlreadyDone(t) then t.(status := Failed)
    else if ok then t.(status := Performed, successes := t.successes + 1)
    else t.(status := Failed)
  }

  predicate Succeeds(t: Task, ok: bool)
  {
    !AlreadyDone(t) && ok
  }

  /** _execute with `left` attempts to go; save_failed_task when they are spent. */
  function Retried(t: Task, left: nat, script: seq<bool>): Progress
    decreases left
  {
    if script == [] then Progress(t, [], Killed)
    else if left == 0 then
      Progress(t.(record := if t.record.None? then Some(Queued) else t.record), script[1..], GaveUp)
    else if Succeeds(t, script[0]) then Progress(Executed(t, true), script[1..], Done)
    else Retried(Executed(t, script[0]), left - 1, script[1..])
  }

  /** task_execute. */
  function Delivered(t: Task, script: seq<bool>): Progress
  {
    if t.status != Initial then Progress(t, script, Done)
    else if script == [] then Progress(t, [], Killed)
    else Retried(t.(status := InProgress), ATTEMPTS, script[1..])
  }

  function Settle(t: Task, status: RecordStatus): Task
  {
    t.(record := Some(status), retries := t.retries + 1)
  }

  function Interrupted(t: Task): Task
  {
    t.(retries := t.retries + 1, interrupted := t.interrupted + 1)
  }

  /** One turn of the loop in retry_failed_tasks; GaveUp means appended to failed_again. */
  function RetriedRecord(t: Task, script: seq<bool>): Progress
  {
    var p := Retried(t, ATTEMPTS, script);
    if p.end == Killed || p.rest == [] then
      Progress(Interrupted(p.task), [], Killed)
    else if p.end == GaveUp then
      Progress(Settle(p.task, FailedAgain), p.rest[1..], GaveUp)
    else
      // the record is saved as succeeded before the remote update that may still fail
      var saved := Settle(p.task, Succeeded);
      if |p.rest| == 1 then Progress(saved, [], Killed)
      else if p.rest[1] then Progress(saved, p.rest[2..], Done)
      else if |p.rest| == 2 then Progress(saved, [], Killed)
      else Progress(saved.(record := Some(FailedAgain)), p.rest[3..], GaveUp)
  }

  /** A whole pass: the records one after the other, until the process is killed. */
  datatype Pass = Pass(tasks: map<TaskId, Task>, rest: seq<bool>, failedAgain: seq<TaskId>, killed: bool)

  function OneTurn(before: Pass, id: TaskId, p: Progress): Pass
  {
    var failedAgain := before.failedAgain + if p.end == GaveUp then [id] else [];
    Pass(before.tasks[id := p.task], p.rest, failedAgain, p.end == Killed)
  }

  function PassOver(tasks: map<TaskId, Task>, ids: seq<TaskId>, script: seq<bool>): (pass: Pass)
    ensures pass.tasks.Keys == tasks.Keys
    decreases |ids|
  {
    if ids == [] then Pass(tasks, script, [], false)
    else
      var last := ids[|ids| - 1];
      var before := PassOver(tasks, ids[..|ids| - 1], script);
      if before.killed || last !in before.tasks then before
      else OneTurn(before, last, RetriedRecord(before.tasks[last], before.rest))
  }

  // ----- one task -----

  /** What holds of every task between two events. */
  predicate TaskInv(t: Task)
  {
    && (t.status == Initial ==> t == Task(Initial, None, 0, 0, 0))
    && (t.record.Some? ==> t.status == Performed || t.status == Failed)
    && (t.record == Some(Succeeded) ==> t.status == Performed)
    // every pass that tried the record either settled it or was killed before it could
    && t.retries == t.interrupted + (if t.Settled() then 1 else 0)
    && t.successes <= (if t.record.None? then 1 else t.retries)
    && (t.status == Performed ==> t.successes > 0)
    && (t.successes > 0 && t.status != Performed ==> t.interrupted > 0)
  }

  /** An _execute that starts with a task that is being worked on. */
  lemma {:induction false} RetriedOutcome(t: Task, left: nat, script: seq<bool>)
    ensures var p := Retried(t, left, script);
            && p.task.retries == t.retries && p.task.interrupted == t.interrupted
            && t.successes <= p.task.successes <= t.successes + 1
            && (p.task.successes > t.successes <==> p.end == Done)
            && (p.end == Done ==> p.task.status == Performed && p.task.record == t.record)
            && (p.end == GaveUp ==> p.task.record == (if t.record.None? then Some(Queued) else t.record))
            && (p.end == Killed ==> p.task.record == t.record)
            && (p.end != Done && left > 0 && script != [] ==> p.task.status == Failed)
            && (left == 0 || script == [] ==> p.task.status == t.status)
    decreases left
  {
    if script == [] || left == 0 || Succeeds(t, script[0]) {
    } else {
      RetriedOutcome(Executed(t, script[0]), left - 1, script[1..]);
    }
  }

  /** Giving up takes at least one attempt. */
  lemma RetriedHasStarted(t: Task, left: nat, script: seq<bool>)
    requires left > 0
    ensures Retried(t, left, script).end == GaveUp ==> script != []
  {
  }

  /** A delivery of an initial task that is not killed ends performed without a record, or failed
      with one that is queued.  Any other delivery changes nothing. */
  lemma DeliveryOutcome(t: Task, script: seq<bool>)
    requires TaskInv(t)
    ensures TaskInv(Delivered(t, script).task)
    ensures t.status != Initial ==> Delivered(t, script).task == t
    ensures t.status == Initial && Delivered(t, script).end == Done ==>
              Delivered(t, script).task.status == Performed && Delivered(t, script).task.record.None?
    ensures t.status == Initial && Delivered(t, script).end == GaveUp ==>
              Delivered(t, script).task.status == Failed && Delivered(t, script).task.record == Some(Queued)
    // the first thing that is saved is the claim
    ensures t.status == Initial ==> (Delivered(t, script).task.status == Initial <==> script == [])
    ensures t.status == Initial && |script| == 1 ==> Delivered(t, script).task == t.(status := InProgress)
    ensures t.status == Initial && Delivered(t, script).end != Killed ==>
              (Delivered(t, script).end == Done <==> Delivered(t, script).task.successes == 1)
  {
    if t.status == Initial && script != [] {
      RetriedOutcome(t.(status := InProgress), ATTEMPTS, script[1..]);
      RetriedHasStarted(t.(status := InProgress), ATTEMPTS, script[1..]);
    }
  }

  lemma RecordOutcome(t: Task, script: seq<bool>)
    requires t.record == Some(Queued)
    ensures var p := RetriedRecord(t, script);
            && (p.end == Done ==> p.task.record == Some(Succeeded))
            && (p.end == GaveUp ==> p.task.record == Some(FailedAgain))
            && (p.task.record == Some(Succeeded) ==> p.task.status == Performed)
  {
    RetriedOutcome(t, ATTEMPTS, script);
  }

  lemma RetryKeepsTask(t: Task, script: seq<bool>)
    requires TaskInv(t) && t.record == Some(Queued)
    ensures TaskInv(RetriedRecord(t, script).task)
    ensures RetriedRecord(t, script).end != Killed ==> RetriedRecord(t, script).task.Settled()
  {
    RetriedOutcome(t, ATTEMPTS, script);
  }

  /** The guard against running a performed task again does not survive the retry wrapper: a pass that
      finds its record still queued fails the guard once, which marks the task failed, and then runs the
      work unit again. */
  lemma PerformedTaskRunsAgain(t: Task, script: seq<bool>, any: bool)
    requires t.status == Completed || t.status == Performed
    ensures var p := Retried(t, ATTEMPTS, [any, true] + script);
            p.end == Done && p.task.successes == t.successes + 1 && p.rest == script
  {
    var answers := [any, true] + script;
    assert answers[1..] == [true] + script;
    assert Retried(t, ATTEMPTS, answers) == Retried(Executed(t, any), ATTEMPTS - 1, [true] + script);
  }

  // ----- in terms of the answers -----

  /** The first n answers are failures. */
  predicate AllFail(script: seq<bool>, n: nat)
  {
    n <= |script| && forall i | 0 <= i < n :: !script[i]
  }

  /** _execute of a task that is not performed yet, on the answers of its work unit: it succeeds with the
      first success among the permitted attempts; when all of them fail the failure is saved; with fewer
      answers the process has been killed. */
  lemma {:induction false} RetriedByAnswers(t: Task, left: nat, script: seq<bool>, n: nat)
    requires !AlreadyDone(t) && n <= left && AllFail(script, n)
    ensures n < left && n < |script| && script[n] ==>
              var done := t.(status := Performed, successes := t.successes + 1);
              Retried(t, left, script) == Progress(done, script[n + 1..], Done)
    ensures n == left && n < |script| ==>
              && Retried(t, left, script).end == GaveUp && Retried(t, left, script).rest == script[n + 1..]
              && Retried(t, left, script).task.successes == t.successes
              && Retried(t, left, script).task.record == if t.record.None? then Some(Queued) else t.record
    ensures n == |script| ==>
              && Retried(t, left, script).end == Killed && Retried(t, left, script).task.record == t.record
              && Retried(t, left, script).task.successes == t.successes
    decreases n
  {
    if n == 0 {
    } else {
      var failed := t.(status := Failed);
      assert script[0] == false && AllFail(script[1..], n - 1);
      assert Retried(t, left, script) == Retried(failed, left - 1, script[1..]);
      RetriedByAnswers(failed, left - 1, script[1..], n - 1);
    }
  }

  /** One turn of the pass, on what _execute did and how the remote update that follows was answered.  The
      record ends as succeeded if and only if _execute succeeded and the update did too; in all other cases
      a turn that ends leaves it failed and reports it. */
  lemma TurnByAnswers(t: Task, script: seq<bool>)
    requires t.record == Some(Queued)
    ensures var executed, turn := Retried(t, ATTEMPTS, script), RetriedRecord(t, script);
            && (turn.end != Killed ==>
                  (turn.task.record == Some(Succeeded) <==>
                     executed.end == Done && |executed.rest| > 1 && executed.rest[1]))
            && (turn.end != Killed ==> (turn.end == GaveUp <==> turn.task.record == Some(FailedAgain)))
            && (executed.end == Done && |executed.rest| > 2 && !executed.rest[1] ==>
                  turn.end == GaveUp && turn.task.record == Some(FailedAgain) && turn.task.status == Performed)
            && (executed.end == GaveUp && |executed.rest| > 0 ==>
                  turn.end == GaveUp && turn.task.record == Some(FailedAgain) && turn.task.status == Failed)
  {
    RetriedOutcome(t, ATTEMPTS, script);
    if Retried(t, ATTEMPTS, script).end == GaveUp {
      RetriedHasStarted(t, ATTEMPTS, script);
    }
  }

  /** A kill during the turn: before the record is saved it stays queued, between that and the failed remote
      update it stays succeeded. */
  lemma TurnCutShort(t: Task, script: seq<bool>)
    requires t.record == Some(Queued) && RetriedRecord(t, script).end == Killed
    ensures var executed := Retried(t, ATTEMPTS, script);
            RetriedRecord(t, script).task.record ==
              if executed.end == Done && executed.rest != [] then Some(Succeeded) else Some(Queued)
  {
    RetriedOutcome(t, ATTEMPTS, script);
  }

  /** So a task whose work unit succeeds at once while OpenKlant refuses the update is performed, and its
      record is reported as failed all the same. */
  lemma RefusedUpdateIsReported(t: Task, rest: seq<bool>)
    requires t.record == Some(Queued) && !AlreadyDone(t)
    ensures var turn := RetriedRecord(t, [true, true, false, true] + rest);
            turn.end == GaveUp && turn.task.record == Some(FailedAgain) && turn.task.status == Performed
  {
    var script := [true, true, false, true] + rest;
    RetriedByAnswers(t, ATTEMPTS, script, 0);
    assert script[1..] == [true, false, true] + rest;
    TurnByAnswers(t, script);
  }

  // ----- a whole pass -----

  lemma {:induction false} StaysKilled(tasks: map<TaskId, Task>, ids: seq<TaskId>, script: seq<bool>, n: nat)
    requires n <= |ids| && PassOver(tasks, ids[..n], script).killed
    ensures PassOver(tasks, ids, script) == PassOver(tasks, ids[..n], script)
    decreases |ids|
  {
    if n == |ids| {
      assert ids[..n] == ids;
    } else {
      assert ids[..|ids| - 1][..n] == ids[..n];
      StaysKilled(tasks, ids[..|ids| - 1], script, n);
    }
  }

  /** A pass ends with its last record, or when it is killed. */
  lemma PassEnds(tasks: map<TaskId, Task>, ids: seq<TaskId>, script: seq<bool>, n: nat, pass: Pass)
    requires n <= |ids| && PassOver(tasks, ids[..n], script) == pass && (n < |ids| ==> pass.killed)
    ensures PassOver(tasks, ids, script) == pass
  {
    if n < |ids| {
      StaysKilled(tasks, ids, script, n);
    } else {
      assert ids[..n] == ids;
    }
  }

  /** What the query for failed tasks returns: different records, all of them queued. */
  ghost predicate Pending(tasks: map<TaskId, Task>, ids: seq<TaskId>)
  {
    && (forall i, j | 0 <= i < j < |ids| :: ids[i] != ids[j])
    && (forall id | id in ids :: id in tasks && tasks[id].record == Some(Queued))
  }

  function IsFailed(tasks: map<TaskId, Task>): TaskId -> bool
  {
    (id: TaskId) => id in tasks && tasks[id].record == Some(FailedAgain)
  }

  /** What a pass has done to the tasks when it ends, or when it is killed. */
  ghost predicate PassedOver(tasks: map<TaskId, Task>, ids: seq<TaskId>, p: Pass)
  {
    && p.tasks.Keys == tasks.Keys
    && (forall id | id in tasks && id !in ids :: p.tasks[id] == tasks[id])
    && (!p.killed ==> forall id | id in ids :: id in p.tasks && p.tasks[id].Settled())
    && (forall id | id in ids && id in p.tasks && p.tasks[id].record == Some(Succeeded) ::
          p.tasks[id].status == Performed)
  }

  lemma OneMoreFailed(ids: seq<TaskId>, before: Pass, id: TaskId, p: Progress)
    requires id !in ids && forall i | i in ids :: i in before.tasks
    requires before.failedAgain == Filter(ids, IsFailed(before.tasks))
    requires p.end == GaveUp <==> p.task.record == Some(FailedAgain)
    ensures OneTurn(before, id, p).failedAgain == Filter(ids + [id], IsFailed(OneTurn(before, id, p).tasks))
  {
    var after := OneTurn(before, id, p).tasks;
    FilterSame(ids, IsFailed(before.tasks), IsFailed(after));
    FilterAppend(ids, IsFailed(after), id);
  }

  lemma TurnOutcome(tasks: map<TaskId, Task>, ids: seq<TaskId>, before: Pass, id: TaskId, p: Progress)
    requires PassedOver(tasks, ids, before) && !before.killed && id in tasks && id !in ids
    requires p.end == Done ==> p.task.record == Some(Succeeded)
    requires p.end == GaveUp ==> p.task.record == Some(FailedAgain)
    requires p.task.record == Some(Succeeded) ==> p.task.status == Performed
    ensures PassedOver(tasks, ids + [id], OneTurn(before, id, p))
  {
  }

  lemma {:induction false} PassOutcome(tasks: map<TaskId, Task>, ids: seq<TaskId>, script: seq<bool>)
    requires Pending(tasks, ids)
    ensures var pass := PassOver(tasks, ids, script);
            PassedOver(tasks, ids, pass) && (!pass.killed ==> pass.failedAgain == Filter(ids, IsFailed(pass.tasks)))
    decreases |ids|
  {
    if ids == [] {
    } else {
      var rest, last := ids[..|ids| - 1], ids[|ids| - 1];
      assert ids == rest + [last];
      PassOutcome(tasks, rest, script);
      var before := PassOver(tasks, rest, script);
      if !before.killed {
        RecordOutcome(before.tasks[last], before.rest);
        var turn := RetriedRecord(before.tasks[last], before.rest);
        TurnOutcome(tasks, rest, before, last, turn);
        if turn.end != Killed {
          OneMoreFailed(rest, before, last, turn);
        }
      }
    }
  }

  // ----- the code -----

  class Ledger {
    var tasks: map<TaskId, Task>
    var script: seq<bool>

    constructor (tasks: map<TaskId, Task>, script: seq<bool>)
      ensures this.tasks == tasks && this.script == script
    {
      this.tasks := tasks;
      this.script := script;
    }

    /** _execute under its retry wrapper. */
    method ExecuteRetried(id: TaskId) returns (end: Ending)
      requires id in tasks
      modifies this
      ensures id in tasks && tasks == old(tasks)[id := tasks[id]]
      ensures Progress(tasks[id], script, end) == Retried(old(tasks[id]), ATTEMPTS, old(script))
    {
      AttemptsOfTheDecorator();
      var triesLeft: nat := Retry.OPENKLANT.Attempts();
      while triesLeft > 0
        invariant 0 <= triesLeft <= ATTEMPTS && id in tasks && tasks == old(tasks)[id := tasks[id]]
        invariant Retried(tasks[id], triesLeft, script) == Retried(old(tasks[id]), ATTEMPTS, old(script))
      {
        if script == [] {
          return Killed;
        }
        var ok := Succeeds(tasks[id], script[0]);
        tasks := tasks[id := Executed(tasks[id], script[0])];
        script := script[1..];
        if ok {
          return Done;
        }
        triesLeft := triesLeft - 1;
      }
      if script == [] {
        return Killed;
      }
      if tasks[id].record.None? {
        tasks := tasks[id := tasks[id].(record := Some(Queued))];
      }
      script := script[1..];
      return GaveUp;
    }

    method TaskExecute(id: TaskId) returns (end: Ending)
      requires id in tasks
      modifies this
      ensures id in tasks && tasks == old(tasks)[id := tasks[id]]
      ensures Progress(tasks[id], script, end) == Delivered(old(tasks[id]), old(script))
    {
      if tasks[id].status != Initial {
        return Done;
      }
      if script == [] {
        return Killed;
      }
      script := script[1..];
      tasks := tasks[id := tasks[id].(status := InProgress)];
      end := ExecuteRetried(id);
    }

    /** The body of the loop over failed tasks. */
    method RetryRecord(id: TaskId) returns (end: Ending)
      requires id in tasks
      modifies this
      ensures id in tasks && tasks == old(tasks)[id := tasks[id]]
      ensures Progress(tasks[id], script, end) == RetriedRecord(old(tasks[id]), old(script))
    {
      end := ExecuteRetried(id);
      if end == Killed || script == [] {
        script := [];
        tasks := tasks[id := Interrupted(tasks[id])];
        return Killed;
      }
      // update_task_status
      script := script[1..];
      tasks := tasks[id := Settle(tasks[id], if end == Done then Succeeded else FailedAgain)];
      if end == GaveUp {
        return GaveUp;
      }
      if script == [] {
        return Killed;
      }
      var updated := script[0];
      script := script[1..];
      if updated {
        return Done;
      }
      if script == [] {
        return Killed;
      }
      script := script[1..];
      tasks := tasks[id := tasks[id].(record := Some(FailedAgain))];
      return GaveUp;
    }

    /** One more turn of the loop, after those for `ids`. */
    method RetryNext(id: TaskId, failedAgain: seq<TaskId>, ghost start: map<TaskId, Task>, ghost ids: seq<TaskId>,
                     ghost given: seq<bool>)
      returns (more: seq<TaskId>, killed: bool)
      requires id in start
      requires PassOver(start, ids, given) == Pass(tasks, script, failedAgain, false)
      modifies this
      ensures PassOver(start, ids + [id], given) == Pass(tasks, script, more, killed)
    {
      ghost var before := Pass(tasks, script, failedAgain, false);
      var end := RetryRecord(id);
      assert (ids + [id])[..|ids|] == ids;
      assert PassOver(start, ids + [id], given) == OneTurn(before, id, Progress(tasks[id], script, end));
      more, killed := failedAgain + if end == GaveUp then [id] else [], end == Killed;
    }

    method RetryAll(snapshot: seq<TaskId>) returns (failedAgain: seq<TaskId>, killed: bool)
      requires forall id | id in snapshot :: id in tasks
      modifies this
      ensures Pass(tasks, script, failedAgain, killed) == PassOver(old(tasks), snapshot, old(script))
    {
      failedAgain, killed := [], false;
      var i := 0;
      while i < |snapshot| && !killed
        invariant 0 <= i <= |snapshot|
        invariant PassOver(old(tasks), snapshot[..i], old(script)) == Pass(tasks, script, failedAgain, killed)
        decreases |snapshot| - i
      {
        ghost var seen := snapshot[..i];
        failedAgain, killed := RetryNext(snapshot[i], failedAgain, old(tasks), seen, old(script));
        i := i + 1;
        assert snapshot[..i] == seen + [snapshot[i - 1]];
      }
      PassEnds(old(tasks), snapshot, old(script), i, Pass(tasks, script, failedAgain, killed));
    }

    /** retry_failed_tasks over the records its query returned.  A pass that is not killed settles
        every one of them, and what it hands to notify_failed_tasks is exactly the records that are
        now failed, in the order of the query. */
    method RetryFailedTasks(snapshot: seq<TaskId>) returns (failedAgain: seq<TaskId>, killed: bool)
      requires Pending(tasks, snapshot)
      modifies this
      ensures Pass(tasks, script, failedAgain, killed) == PassOver(old(tasks), snapshot, old(script))
      ensures tasks.Keys == old(tasks.Keys)
      ensures forall id | id in tasks && id !in snapshot :: tasks[id] == old(tasks[id])
      ensures !killed ==> forall id | id in snapshot :: tasks[id].Settled()
      ensures !killed ==> failedAgain == Filter(snapshot, IsFailed(tasks))
      ensures !killed ==> forall id :: id in failedAgain <==> id in snapshot && tasks[id].record == Some(FailedAgain)
      ensures forall id | id in snapshot && tasks[id].record == Some(Succeeded) :: tasks[id].status == Performed
    {
      PassOutcome(tasks, snapshot, script);
      failedAgain, killed := RetryAll(snapshot);
    }
  }

  // ----- whole runs -----

  /** All tasks, and what the running pass still has to visit. */
  datatype State = State(tasks: map<TaskId, Task>, pass: Option<seq<TaskId>>)

  datatype Event =
    | Arrive(id: TaskId)
    | Deliver(id: TaskId, script: seq<bool>)
    | StartPass(order: seq<TaskId>)      // the records found queued, in the order of the query
    | RetryNext(script: seq<bool>)
    | EndPass
    | KillPass

  ghost predicate Possible(s: State, e: Event)
  {
    match e
    case Arrive(id) => id !in s.tasks
    case Deliver(id, _) => id in s.tasks
    case StartPass(order) =>
      && s.pass.None?   // celery_once
      && (forall i, j | 0 <= i < j < |order| :: order[i] != order[j])
      && (forall id :: id in order <==> id in s.tasks && s.tasks[id].record == Some(Queued))
    case RetryNext(_) => s.pass.Some? && |s.pass.value| > 0 && s.pass.value[0] in s.tasks
    case EndPass => s.pass == Some([])
    case KillPass => s.pass.Some?
  }

  ghost function Next(s: State, e: Event): State
    requires Possible(s, e)
  {
    match e
    case Arrive(id) => s.(tasks := s.tasks[id := Task(Initial, None, 0, 0, 0)])
    case Deliver(id, script) => s.(tasks := s.tasks[id := Delivered(s.tasks[id], script).task])
    case StartPass(order) => s.(pass := Some(order))
    case RetryNext(script) =>
      var id := s.pass.value[0];
      var p := RetriedRecord(s.tasks[id], script);
      State(s.tasks[id := p.task], if p.end == Killed then None else Some(s.pass.value[1..]))
    case EndPass => s.(pass := None)
    case KillPass => s.(pass := None)
  }

  ghost predicate Inv(s: State)
  {
    && (forall id | id in s.tasks :: TaskInv(s.tasks[id]))
    && (s.pass.Some? ==>
          && (forall i, j | 0 <= i < j < |s.pass.value| :: s.pass.value[i] != s.pass.value[j])
          && (forall id | id in s.pass.value :: id in s.tasks && s.tasks[id].record == Some(Queued)))
  }

  lemma EventKeepsInv(s: State, e: Event)
    requires Inv(s) && Possible(s, e)
    ensures Inv(Next(s, e))
  {
    match e
    case Deliver(id, script) =>
      DeliveryOutcome(s.tasks[id], script);
    case RetryNext(script) =>
      var queue := s.pass.value;
      assert queue[0] in queue && queue == [queue[0]] + queue[1..];
      RetryKeepsTask(s.tasks[queue[0]], script);
    case _ =>
  }

  ghost predicate Legal(s: State, events: seq<Event>)
    decreases |events|
  {
    events == [] || (Possible(s, events[0]) && Legal(Next(s, events[0]), events[1..]))
  }

  ghost function After(s: State, events: seq<Event>): State
    requires Legal(s, events)
    decreases |events|
  {
    if events == [] then s else After(Next(s, events[0]), events[1..])
  }

  lemma {:induction false} RunKeepsInv(s: State, events: seq<Event>)
    requires Inv(s) && Legal(s, events)
    ensures Inv(After(s, events))
    decreases |events|
  {
    if events == [] {
    } else {
      EventKeepsInv(s, events[0]);
      RunKeepsInv(Next(s, events[0]), events[1..]);
    }
  }

  /** Over any run from an empty ledger, with kills anywhere: a record is tried by one pass more than
      were killed over it, the mail of a task goes out at most once more than that, and a record
      marked succeeded belongs to a performed task. */
  lemma LedgerOverRuns(events: seq<Event>, id: TaskId)
    requires Legal(State(map[], None), events)
    requires id in After(State(map[], None), events).tasks
    ensures var t := After(State(map[], None), events).tasks[id];
            && t.retries == t.interrupted + (if t.Settled() then 1 else 0)
            && t.successes <= t.interrupted + 1
            && (t.record == Some(Succeeded) ==> t.status == Performed)
            && (t.record == Some(Queued) && t.status == Performed ==> t.interrupted > 0)
  {
    RunKeepsInv(State(map[], None), events);
  }

  /** Nothing that happens later touches a task that has been delivered and has no queued record: neither a
      performed one, nor a settled one, nor one whose delivery was killed. */
  lemma {:induction false} UnqueuedStays(s: State, events: seq<Event>, id: TaskId)
    requires Inv(s) && Legal(s, events)
    requires id in s.tasks && s.tasks[id].status != Initial && s.tasks[id].record != Some(Queued)
    ensures id in After(s, events).tasks && After(s, events).tasks[id] == s.tasks[id]
    decreases |events|
  {
    if events == [] {
    } else {
      if events[0].RetryNext? {
        assert s.pass.value[0] in s.pass.value;
      }
      assert Next(s, events[0]).tasks[id] == s.tasks[id];
      EventKeepsInv(s, events[0]);
      UnqueuedStays(Next(s, events[0]), events[1..], id);
    }
  }

  /** So succeeded and failed are absorbing. */
  lemma SettledStays(s: State, events: seq<Event>, id: TaskId)
    requires Inv(s) && Legal(s, events)
    requires id in s.tasks && s.tasks[id].Settled()
    ensures id in After(s, events).tasks && After(s, events).tasks[id] == s.tasks[id]
  {
    assert TaskInv(s.tasks[id]);
    UnqueuedStays(s, events, id);
  }

  lemma Stepped(s: State, e: Event, rest: seq<Event>)
    requires Possible(s, e) && Legal(Next(s, e), rest)
    ensures Legal(s, [e] + rest) && After(s, [e] + rest) == After(Next(s, e), rest)
  {
    assert ([e] + rest)[1..] == rest;
  }

  /** In some continuation the work unit of the task succeeds once more than it has so far. */
  ghost predicate CanSucceed(s: State, id: TaskId)
  {
    exists events :: Legal(s, events) && id in After(s, events).tasks
                     && After(s, events).tasks[id].successes > (if id in s.tasks then s.tasks[id].successes else 0)
  }

  lemma FirstSuccess(s: State, id: TaskId) returns (events: seq<Event>)
    requires Inv(s) && id in s.tasks && s.tasks[id].status == Initial
    ensures Legal(s, events) && id in After(s, events).tasks
    ensures After(s, events).tasks[id].successes > s.tasks[id].successes
  {
    var deliver := Deliver(id, [true, true]);
    assert [true, true][1..] == [true];
    assert Legal(Next(s, deliver), []);
    Stepped(s, deliver, []);
    events := [deliver] + [];
  }

  lemma SucceedsWithin(t: Task, script: seq<bool>)
    requires script == [true, true, true, true]
    ensures RetriedRecord(t, script).task.successes == t.successes + 1
  {
    if AlreadyDone(t) {
      PerformedTaskRunsAgain(t, [true, true], true);
      assert script == [true, true] + [true, true];
    } else {
      assert Retried(t, ATTEMPTS, script).task == Executed(t, true);
    }
  }

  /** The pass that runs the work unit: the guard fails at most once. */
  lemma AnotherSuccess(s: State, id: TaskId) returns (events: seq<Event>)
    requires Inv(s) && id in s.tasks && s.tasks[id].record == Some(Queued)
    ensures Legal(s, events) && id in After(s, events).tasks
    ensures After(s, events).tasks[id].successes > s.tasks[id].successes
  {
    var s0 := if s.pass.Some? then Next(s, KillPass) else s;
    var others := Enumerated((set x | x in s.tasks && s.tasks[x].record == Some(Queued)) - {id});
    var order := [id] + others;
    forall i, j | 0 <= i < j < |order|
      ensures order[i] != order[j]
    {
      assert order[j] in others;
    }
    var script := [true, true, true, true];
    var s1 := Next(s0, StartPass(order));
    SucceedsWithin(s.tasks[id], script);
    assert Legal(Next(s1, RetryNext(script)), []);
    Stepped(s1, RetryNext(script), []);
    Stepped(s0, StartPass(order), [RetryNext(script)] + []);
    events := [StartPass(order)] + ([RetryNext(script)] + []);
    if s.pass.Some? {
      Stepped(s, KillPass, events);
      events := [KillPass] + events;
    }
  }

  /** In every state that satisfies the invariant, be a pass in progress or not, the work unit of a task can
      still succeed if and only if the task has not been delivered yet or its record is queued. */
  lemma CanSucceedIff(s: State, id: TaskId)
    requires Inv(s) && id in s.tasks
    ensures CanSucceed(s, id) <==> s.tasks[id].status == Initial || s.tasks[id].record == Some(Queued)
  {
    if s.tasks[id].status == Initial {
      var events := FirstSuccess(s, id);
    } else if s.tasks[id].record == Some(Queued) {
      var events := AnotherSuccess(s, id);
    } else {
      forall events | Legal(s, events)
        ensures id in After(s, events).tasks && After(s, events).tasks[id].successes == s.tasks[id].successes
      {
        UnqueuedStays(s, events, id);
      }
    }
  }

  /** So a performed task runs again exactly when its record is queued, which takes a pass that was killed
      over it.  A task performed by its first delivery has no record and is never touched again. */
  lemma PerformedRunsAgainIff(s: State, id: TaskId)
    requires Inv(s) && id in s.tasks && s.tasks[id].status == Performed
    ensures CanSucceed(s, id) <==> s.tasks[id].record == Some(Queued)
    ensures CanSucceed(s, id) ==> s.tasks[id].interrupted > 0
  {
    CanSucceedIff(s, id);
    assert TaskInv(s.tasks[id]);
  }

  // ----- a run in which the work unit runs twice -----

  /** n failed attempts. */
  function Failures(n: nat): seq<bool>
  {
    if n == 0 then [] else [false] + Failures(n - 1)
  }

  lemma {:induction false} FailsThrough(t: Task, left: nat)
    requires left > 0 && t.record.None? && !AlreadyDone(t)
    ensures Retried(t, left, Failures(left) + [true])
              == Progress(t.(status := Failed, record := Some(Queued)), [], GaveUp)
    decreases left
  {
    var script := Failures(left) + [true];
    assert script[0] == false && script[1..] == Failures(left - 1) + [true];
    if left == 1 {
    } else {
      FailsThrough(t.(status := Failed), left - 1);
    }
  }

  lemma PassCutShort(s: State, id: TaskId) returns (events: seq<Event>)
    requires s == State(map[id := Task(Failed, Some(Queued), 0, 0, 0)], None)
    ensures Legal(s, events)
    ensures After(s, events) == State(map[id := Task(Performed, Some(Queued), 1, 1, 1)], None)
  {
    assert [id][0] in [id];
    var s1 := Next(s, StartPass([id]));
    var s2 := Next(s1, RetryNext([true]));
    assert s2.tasks == map[id := Task(Performed, Some(Queued), 1, 1, 1)];
    assert Legal(s2, []);
    Stepped(s1, RetryNext([true]), []);
    Stepped(s, StartPass([id]), [RetryNext([true])] + []);
    events := [StartPass([id])] + ([RetryNext([true])] + []);
  }

  lemma PassAgain(s: State, id: TaskId) returns (events: seq<Event>)
    requires s == State(map[id := Task(Performed, Some(Queued), 1, 1, 1)], None)
    ensures Legal(s, events) && id in After(s, events).tasks && After(s, events).tasks[id].successes == 2
  {
    assert [id][0] in [id];
    var s1 := Next(s, StartPass([id]));
    var script := [true, true] + [];
    PerformedTaskRunsAgain(s.tasks[id], [], true);
    RetriedOutcome(s.tasks[id], ATTEMPTS, script);
    assert Legal(Next(s1, RetryNext(script)), []);
    Stepped(s1, RetryNext(script), []);
    Stepped(s, StartPass([id]), [RetryNext(script)] + []);
    events := [StartPass([id])] + ([RetryNext(script)] + []);
  }

  /** All attempts of a delivery fail; the next pass is killed right after the work unit succeeded; the
      pass after that runs the work unit again.  Halfway the task is performed while its record is
      still queued. */
  lemma WorkRunsTwice(id: TaskId) returns (first: seq<Event>, second: seq<Event>)
    ensures Legal(State(map[], None), first) && id in After(State(map[], None), first).tasks
    ensures var t := After(State(map[], None), first).tasks[id];
            t.status == Performed && t.record == Some(Queued) && t.successes == 1
    ensures Legal(After(State(map[], None), first), second)
              && id in After(After(State(map[], None), first), second).tasks
    ensures After(After(State(map[], None), first), second).tasks[id].successes == 2
  {
    var s0 := State(map[], None);
    var script := [true] + (Failures(ATTEMPTS) + [true]);
    var s1 := Next(s0, Arrive(id));
    assert script[1..] == Failures(ATTEMPTS) + [true];
    FailsThrough(Task(InProgress, None, 0, 0, 0), ATTEMPTS);
    var s2 := Next(s1, Deliver(id, script));
    assert s2.tasks == map[id := Task(Failed, Some(Queued), 0, 0, 0)];
    var rest := PassCutShort(s2, id);
    Stepped(s1, Deliver(id, script), rest);
    Stepped(s0, Arrive(id), [Deliver(id, script)] + rest);
    first := [Arrive(id)] + ([Deliver(id, script)] + rest);
    second := PassAgain(After(s2, rest), id);
  }
}
