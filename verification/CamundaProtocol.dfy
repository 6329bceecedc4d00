/** Any number of workers, rows and engine tasks: the steps of the whole system, and what
    holds in every state that any run of them can reach.

    A row is identified by the worker id that fetched it and the task it stands for: every
    fetch draws a new worker id, and one response lists a task at most once. */
module CamundaProtocol {
  import opened Statuses
  import opened Wrappers
  import opened CamundaRow

  type TaskId = string

  datatype Key = Key(worker: WorkerId, task: TaskId)

  /** Tasks the engine has not locked yet are simply absent from `engine`. */
  datatype World = World(clock: real, engine: map<TaskId, EngineTask>, rows: map<Key, Row>, workers: set<WorkerId>)
  {
    function At(t: TaskId): EngineTask
    {
      if t in engine then engine[t] else Free
    }
  }

  datatype Step =
    | Tick(dt: real)
    | Fetch(worker: WorkerId, tasks: set<TaskId>)  // the engine locks, its response is on its way
    | Resolve(task: TaskId)                        // an operator gives an incident new retries
    | Move(key: Key, action: Action)

  predicate Possible(w: World, s: Step)
  {
    match s
    case Tick(dt) => dt >= 0.0
    case Fetch(worker, tasks) => worker !in w.workers && forall t | t in tasks :: w.At(t).Lockable(w.clock)
    case Resolve(t) => w.At(t).Incident?
    case Move(key, action) => key in w.rows && Enabled(w.rows[key], w.clock, action)
  }

  function Next(w: World, s: Step): World
    requires Possible(w, s)
  {
    match s
    case Tick(dt) => w.(clock := w.clock + dt)
    case Fetch(worker, tasks) =>
      var until := w.clock + LOCK_DURATION;
      w.(workers := w.workers + {worker},
         engine := w.engine + (map t | t in tasks :: Locked(worker, until)),
         rows := w.rows + (map t | t in tasks :: Key(worker, t) := Fetched(until)))
    case Resolve(t) => w.(engine := w.engine[t := Free])
    case Move(key, action) =>
      var (row, task) := Acted(w.rows[key], w.At(key.task), key.worker, w.clock, action);
      w.(rows := w.rows[key := row], engine := w.engine[key.task := task])
  }

  predicate Legal(w: World, steps: seq<Step>)
    decreases |steps|
  {
    steps == [] || (Possible(w, steps[0]) && Legal(Next(w, steps[0]), steps[1..]))
  }

  function After(w: World, steps: seq<Step>): World
    requires Legal(w, steps)
    decreases |steps|
  {
    if steps == [] then w else After(Next(w, steps[0]), steps[1..])
  }

  /** Nothing fetched yet, at any time of day. */
  function Begin(clock: real): World
  {
    World(clock, map[], map[], {})
  }

  // ----- the invariant -----

  ghost predicate RowAgrees(w: World, key: Key)
    requires key in w.rows
  {
    && key.worker in w.workers
    && RowInv(w.rows[key])
    && Holds(w.rows[key], w.At(key.task), key.worker, w.clock)
  }

  ghost predicate EngineKnown(w: World, t: TaskId)
    requires t in w.engine
  {
    w.engine[t].Locked? || w.engine[t].Closed? ==> w.engine[t].worker in w.workers
  }

  ghost predicate Inv(w: World)
  {
    && (forall key | key in w.rows :: RowAgrees(w, key))
    && (forall t | t in w.engine :: EngineKnown(w, t))
  }

  /** An action of another row leaves this row's agreement with the engine intact. */
  lemma OthersKeepHold(row: Row, e: EngineTask, e': EngineTask, w: WorkerId, other: WorkerId, now: real)
    requires RowInv(row) && Holds(row, e, w, now)
    requires w != other && Guarantee(e, e', other, now)
    ensures Holds(row, e', w, now)
  {
  }

  lemma MovedRowAgrees(w: World, key: Key, a: Action)
    requires Inv(w) && Possible(w, Move(key, a))
    ensures RowAgrees(Next(w, Move(key, a)), key)
  {
    assert RowAgrees(w, key);
    ActedKeepsRow(w.rows[key], w.At(key.task), key.worker, w.clock, a);
    ActedKeepsHold(w.rows[key], w.At(key.task), key.worker, w.clock, a);
  }

  lemma OtherRowAgrees(w: World, key: Key, a: Action, k: Key)
    requires Inv(w) && Possible(w, Move(key, a)) && k in w.rows && k != key
    ensures RowAgrees(Next(w, Move(key, a)), k)
  {
    var w' := Next(w, Move(key, a));
    assert RowAgrees(w, key) && RowAgrees(w, k);
    if k.task == key.task {
      ActedKeepsHold(w.rows[key], w.At(key.task), key.worker, w.clock, a);
      OthersKeepHold(w.rows[k], w.At(k.task), w'.At(k.task), k.worker, key.worker, w.clock);
    } else {
      assert w'.At(k.task) == w.At(k.task);
    }
  }

  lemma MovedTaskKnown(w: World, key: Key, a: Action, t: TaskId)
    requires Inv(w) && Possible(w, Move(key, a)) && (t in w.engine || t == key.task)
    ensures EngineKnown(Next(w, Move(key, a)), t)
  {
    assert RowAgrees(w, key);
    ActedKeepsHold(w.rows[key], w.At(key.task), key.worker, w.clock, a);
    if t in w.engine {
      assert EngineKnown(w, t);
    }
  }

  lemma MoveKeepsInv(w: World, key: Key, a: Action)
    requires Inv(w) && Possible(w, Move(key, a))
    ensures Inv(Next(w, Move(key, a)))
  {
    var w' := Next(w, Move(key, a));
    forall k | k in w'.rows
      ensures RowAgrees(w', k)
    {
      if k == key {
        MovedRowAgrees(w, key, a);
      } else {
        OtherRowAgrees(w, key, a, k);
      }
    }
    forall t | t in w'.engine
      ensures EngineKnown(w', t)
    {
      MovedTaskKnown(w, key, a, t);
    }
  }

  /** The engine only hands out tasks on which no other lock is alive. */
  lemma FetchLeavesRow(w: World, worker: WorkerId, tasks: set<TaskId>, k: Key)
    requires Inv(w) && Possible(w, Fetch(worker, tasks)) && k in w.rows
    ensures k in Next(w, Fetch(worker, tasks)).rows && RowAgrees(Next(w, Fetch(worker, tasks)), k)
  {
    assert RowAgrees(w, k);
    assert k.worker != worker;
    if k.task !in tasks {
      assert Next(w, Fetch(worker, tasks)).At(k.task) == w.At(k.task);
    }
  }

  lemma FetchKeepsInv(w: World, worker: WorkerId, tasks: set<TaskId>)
    requires Inv(w) && Possible(w, Fetch(worker, tasks))
    ensures Inv(Next(w, Fetch(worker, tasks)))
  {
    var w' := Next(w, Fetch(worker, tasks));
    forall k | k in w'.rows
      ensures RowAgrees(w', k)
    {
      if k in w.rows {
        FetchLeavesRow(w, worker, tasks, k);
      }
    }
    forall t | t in w'.engine
      ensures EngineKnown(w', t)
    {
      if t !in tasks {
        assert EngineKnown(w, t);
      }
    }
  }

  lemma StepKeepsInv(w: World, s: Step)
    requires Inv(w) && Possible(w, s)
    ensures Inv(Next(w, s))
  {
    match s
    case Move(key, a) => MoveKeepsInv(w, key, a);
    case Fetch(worker, tasks) => FetchKeepsInv(w, worker, tasks);
    case Tick(dt) =>
      forall k | k in w.rows ensures RowAgrees(Next(w, s), k) { assert RowAgrees(w, k); }
      forall t | t in w.engine ensures EngineKnown(Next(w, s), t) { assert EngineKnown(w, t); }
    case Resolve(task) =>
      forall k | k in w.rows ensures RowAgrees(Next(w, s), k) { assert RowAgrees(w, k); }
      forall t | t in w.engine ensures t != task ==> EngineKnown(Next(w, s), t) { assert EngineKnown(w, t); }
  }

  lemma {:induction false} RunKeepsInv(w: World, steps: seq<Step>)
    requires Inv(w) && Legal(w, steps)
    ensures Inv(After(w, steps))
    decreases |steps|
  {
    if steps == [] {
    } else {
      StepKeepsInv(w, steps[0]);
      RunKeepsInv(Next(w, steps[0]), steps[1..]);
    }
  }

  /** A state some run of the system reaches. */
  ghost predicate Reachable(w: World)
  {
    exists clock, steps :: Legal(Begin(clock), steps) && After(Begin(clock), steps) == w
  }

  lemma ReachableInv(w: World)
    requires Reachable(w)
    ensures Inv(w)
  {
    var clock, steps :| Legal(Begin(clock), steps) && After(Begin(clock), steps) == w;
    RunKeepsInv(Begin(clock), steps);
  }

  /** Every task of a response gets a row. */
  lemma FetchedRow(w: World, worker: WorkerId, tasks: set<TaskId>, t: TaskId)
    requires Possible(w, Fetch(worker, tasks)) && t in tasks
    ensures worker in Next(w, Fetch(worker, tasks)).workers
    ensures Key(worker, t) in Next(w, Fetch(worker, tasks)).rows
    ensures Next(w, Fetch(worker, tasks)).rows[Key(worker, t)] == Fetched(w.clock + LOCK_DURATION)
  {
  }

  // ----- lock mutual exclusion -----

  /** Rows of one engine task: while neither has had a failure accepted, their locks are never
      alive at the same instant, not even after one of them completed the task. */
  lemma LiveLocksExclude(w: World, k1: Key, k2: Key)
    requires Reachable(w)
    requires k1 in w.rows && k2 in w.rows && k1 != k2 && k1.task == k2.task
    requires !w.rows[k1].reported && !w.rows[k2].reported
    ensures w.rows[k1].Expired(w.clock) || w.rows[k2].Expired(w.clock)
  {
    ReachableInv(w);
    assert RowAgrees(w, k1) && RowAgrees(w, k2);
  }

  /** A row whose lock looks alive holds the engine's lock, at least as long as it believes,
      unless it closed the task itself or its failure report was accepted. */
  lemma LiveLockIsHeld(w: World, k: Key)
    requires Reachable(w) && k in w.rows
    requires !w.rows[k].Expired(w.clock) && !w.rows[k].reported && w.At(k.task) != Closed(k.worker)
    ensures w.At(k.task).HeldBy(k.worker)
    ensures w.rows[k].lockExpiresAt.Some? && w.rows[k].lockExpiresAt.value <= w.At(k.task).until
    ensures !w.At(k.task).Lockable(w.clock)
  {
    ReachableInv(w);
    assert RowAgrees(w, k);
  }

  /** The guard of execute lets a delivery into the work unit. */
  ghost predicate PassesGuard(w: World, k: Key)
  {
    && Possible(w, Move(k, Guard(true)))
    && Next(w, Move(k, Guard(true))).rows[k].pc.Working?
  }

  /** Two rows of one task can never both pass the expiry guard at the same instant, and while
      one is in its work unit with a live lock no other row of the task can pass. */
  lemma GuardExcludes(w: World, k1: Key, k2: Key)
    requires Reachable(w)
    requires k1 in w.rows && k2 in w.rows && k1 != k2 && k1.task == k2.task
    requires PassesGuard(w, k1)
    ensures !PassesGuard(w, k2)
    ensures w.rows[k2].pc.Working? ==> w.rows[k2].Expired(w.clock)
  {
    ReachableInv(w);
    assert RowAgrees(w, k1) && RowAgrees(w, k2);
  }

  lemma FetchOne(w: World, worker: WorkerId, t: TaskId)
    requires worker !in w.workers && w.At(t).Lockable(w.clock) && Key(worker, t) !in w.rows
    ensures Possible(w, Fetch(worker, {t}))
    ensures var w' := Next(w, Fetch(worker, {t}));
            && w'.clock == w.clock && w'.workers == w.workers + {worker}
            && w'.At(t) == Locked(worker, w.clock + LOCK_DURATION)
            && w'.rows == w.rows[Key(worker, t) := Fetched(w.clock + LOCK_DURATION)]
  {
  }

  lemma Prefixed(w: World, s: Step, rest: seq<Step>)
    requires Possible(w, s) && Legal(Next(w, s), rest)
    ensures Legal(w, [s] + rest) && After(w, [s] + rest) == After(Next(w, s), rest)
  {
    assert ([s] + rest)[1..] == rest;
  }

  lemma FreshRowWorks(w: World, k: Key) returns (w': World, steps: seq<Step>)
    requires k in w.rows && w.rows[k] == Fetched(w.clock + LOCK_DURATION)
    ensures Legal(w, steps) && After(w, steps) == w'
    ensures w'.clock == w.clock && w'.workers == w.workers && w'.At(k.task) == w.At(k.task)
    ensures w'.rows.Keys == w.rows.Keys
    ensures w'.rows[k].pc.Working? && |w'.rows[k].pc.tries| > 0 && w'.rows[k].attempts == [] && !w'.rows[k].crashed
    ensures forall other | other in w.rows && other != k :: w'.rows[other] == w.rows[other]
  {
    var w1 := Next(w, Move(k, Store));
    var w2 := Next(w1, Move(k, Enqueue));
    var w3 := Next(w2, Move(k, Deliver));
    w' := Next(w3, Move(k, Guard(true)));
    assert Legal(w', []) && After(w', []) == w';
    Prefixed(w3, Move(k, Guard(true)), []);
    var s3 := [Move(k, Guard(true))] + [];
    Prefixed(w2, Move(k, Deliver), s3);
    var s2 := [Move(k, Deliver)] + s3;
    Prefixed(w1, Move(k, Enqueue), s2);
    var s1 := [Move(k, Enqueue)] + s2;
    Prefixed(w, Move(k, Store), s1);
    steps := [Move(k, Store)] + s1;
  }

  /** One row goes from the fetch into its work unit without a moment lost. */
  lemma FetchedAndWorking(w: World, worker: WorkerId, t: TaskId) returns (w': World, steps: seq<Step>)
    requires worker !in w.workers && w.At(t).Lockable(w.clock) && Key(worker, t) !in w.rows
    ensures Legal(w, steps) && After(w, steps) == w'
    ensures w'.clock == w.clock && w'.workers == w.workers + {worker}
    ensures w'.At(t) == Locked(worker, w.clock + LOCK_DURATION)
    ensures w'.rows.Keys == w.rows.Keys + {Key(worker, t)}
    ensures w'.rows[Key(worker, t)].pc.Working? && |w'.rows[Key(worker, t)].pc.tries| > 0
              && w'.rows[Key(worker, t)].attempts == [] && !w'.rows[Key(worker, t)].crashed
    ensures forall k | k in w.rows :: w'.rows[k] == w.rows[k]
  {
    var w1 := Next(w, Fetch(worker, {t}));
    FetchOne(w, worker, t);
    var rest;
    w', rest := FreshRowWorks(w1, Key(worker, t));
    steps := [Fetch(worker, {t})] + rest;
    Prefixed(w, Fetch(worker, {t}), rest);
  }

  lemma {:induction false} Chained(w: World, first: seq<Step>, second: seq<Step>)
    requires Legal(w, first) && Legal(After(w, first), second)
    ensures Legal(w, first + second) && After(w, first + second) == After(After(w, first), second)
    decreases |first|
  {
    if first == [] {
      assert first + second == second;
    } else {
      Chained(Next(w, first[0]), first[1..], second);
      assert (first + second)[1..] == first[1..] + second;
    }
  }

  /** The work units themselves may overlap: a work unit that outlives its lock shares the task
      with the worker that fetched it next.  The lock only keeps one of them current. */
  lemma WorkUnitsMayOverlap() returns (w: World, k1: Key, k2: Key)
    ensures Reachable(w) && k1 in w.rows && k2 in w.rows && k1 != k2 && k1.task == k2.task
    ensures w.rows[k1].pc.Working? && w.rows[k2].pc.Working?
  {
    var t := "t";
    k1, k2 := Key("first", t), Key("second", t);
    var w0 := Begin(0.0);
    var w6, steps1 := FetchedAndWorking(w0, "first", t);
    var w7 := Next(w6, Tick(LOCK_DURATION));
    var w13, steps2 := FetchedAndWorking(w7, "second", t);
    Chained(w0, steps1, [Tick(LOCK_DURATION)]);
    Chained(w0, steps1 + [Tick(LOCK_DURATION)], steps2);
    w := w13;
  }

  // ----- how a delivery goes on -----

  /** One more step at the end of a run. */
  lemma Onward(start: World, steps: seq<Step>, s: Step) returns (w: World, steps': seq<Step>)
    requires Legal(start, steps) && Possible(After(start, steps), s)
    ensures Legal(start, steps') && After(start, steps') == w == Next(After(start, steps), s)
  {
    var before := After(start, steps);
    w, steps' := Next(before, s), steps + ([s] + []);
    assert Legal(w, []);
    Prefixed(before, s, []);
    Chained(start, steps, [s] + []);
  }

  /** All that the delivery can do next, at any time and apart from dying, is an action of this kind. */
  ghost predicate Only(row: Row, kind: Action -> bool)
  {
    forall now, a :: Enabled(row, now, a) <==> kind(a) || a.Crash?
  }

  ghost predicate OnlyWaitsUntil(row: Row, until: real)
  {
    forall now, a :: Enabled(row, now, a) <==> a.Crash? || (a.Wake? && now >= until)
  }

  /** Nothing: the delivery is over. */
  ghost predicate IsOver(row: Row)
  {
    row.status != Initial && forall now, a :: Enabled(row, now, a) ==> a.Deliver?
  }

  /** What a queued row can do next is decided by its position. */
  lemma NextActions(row: Row)
    requires row.stage.Enqueued?
    ensures row.pc.Starting? && |row.pc.tries| > 0 ==> Only(row, (a: Action) => a.Guard?)
    ensures row.pc.Working? && |row.pc.tries| > 0 ==> Only(row, (a: Action) => a.Finish?)
    ensures row.pc.Extending? && |row.pc.tries| > 0 ==> Only(row, (a: Action) => a.Extend?)
    ensures row.pc.Rechecking? ==> Only(row, (a: Action) => a.Recheck?)
    ensures row.pc.Reporting? ==> Only(row, (a: Action) => a.Report?)
    ensures row.pc.Posting? ==> Only(row, (a: Action) => a.Post?)
    ensures row.pc.Notifying? ==> Only(row, (a: Action) => a.Notify?)
    ensures row.pc.Surrendering? ==> Only(row, (a: Action) => a.Surrender?)
    ensures row.pc.Resigning? ==> Only(row, (a: Action) => a.Resign?)
    ensures row.pc.Sleeping? || row.pc.Pausing? ==> OnlyWaitsUntil(row, row.pc.until)
    ensures row.pc.Idle? && row.status != Initial ==> IsOver(row)
  {
  }

  /** A delivery claims a row in status initial and goes on to call execute with four tries; any other row it
      leaves alone. */
  lemma DeliveryClaimsInitial(w: World, k: Key)
    requires Inv(w) && Possible(w, Move(k, Deliver))
    ensures var before, row := w.rows[k], Next(w, Move(k, Deliver)).rows[k];
            if before.status != Initial then row == before
            else row.status == InProgress && Only(row, (a: Action) => a.Guard?) && row.pc.tries == [4]
  {
    assert RowAgrees(w, k);
    NextActions(Next(w, Move(k, Deliver)).rows[k]);
  }

  /** execute refuses a task it knows no work for, asks for more time when the lock looks expired, and only
      otherwise works. */
  lemma GuardDecides(w: World, k: Key, known: bool)
    requires Inv(w) && Possible(w, Move(k, Guard(known)))
    ensures var before, row := w.rows[k], Next(w, Move(k, Guard(known))).rows[k];
            && before.lockExpiresAt.Some?
            && (if !known then row.status == Failed && Only(row, (a: Action) => a.Report?)
                else if before.lockExpiresAt.value <= w.clock then
                  row.status == Failed && Only(row, (a: Action) => a.Extend?)
                else row.status == before.status && Only(row, (a: Action) => a.Finish?))
  {
    assert RowAgrees(w, k);
    NextActions(Next(w, Move(k, Guard(known))).rows[k]);
  }

  /** More time, once granted by the engine, is ten minutes from now, and the expiry is then looked at again;
      a 500 is retried after a second; every other answer leads to the failure report. */
  lemma ExtensionDecides(w: World, k: Key, wish: Answer)
    requires Inv(w) && Possible(w, Move(k, Extend(wish)))
    ensures var before, row := w.rows[k], Next(w, Move(k, Extend(wish))).rows[k];
            var tries, last := before.pc.tries, |before.pc.tries| - 1;
            if wish.Accept? && w.At(k.task).HeldBy(k.worker) then
              row.lockExpiresAt == Some(w.clock + 600.0) && Only(row, (a: Action) => a.Recheck?)
            else if wish.Http500? && !w.At(k.task).Closed? && tries[last] > 1 then
              row.lockExpiresAt == before.lockExpiresAt && OnlyWaitsUntil(row, w.clock + 1.0)
              && row.pc.tries == tries[..last] + [tries[last] - 1]
            else
              row.lockExpiresAt == before.lockExpiresAt && Only(row, (a: Action) => a.Report?)
  {
    assert RowAgrees(w, k);
    NextActions(Next(w, Move(k, Extend(wish))).rows[k]);
  }

  /** Still within the new lock execute is called again, with four tries of its own; otherwise the failure is
      reported. */
  lemma RecheckDecides(w: World, k: Key)
    requires Inv(w) && Possible(w, Move(k, Recheck))
    ensures var before, row := w.rows[k], Next(w, Move(k, Recheck)).rows[k];
            && before.lockExpiresAt.Some?
            && (if before.lockExpiresAt.value <= w.clock then Only(row, (a: Action) => a.Report?)
                else Only(row, (a: Action) => a.Guard?) && row.pc.tries == before.pc.tries + [4])
  {
    assert RowAgrees(w, k);
    NextActions(Next(w, Move(k, Recheck)).rows[k]);
  }

  /** A failure report ends the delivery, whatever the engine answers. */
  lemma ReportEnds(w: World, k: Key, wish: Answer)
    requires Inv(w) && Possible(w, Move(k, Report(wish)))
    ensures var row := Next(w, Move(k, Report(wish))).rows[k];
            IsOver(row) && row.status == Failed
  {
    assert RowAgrees(w, k);
    NextActions(Next(w, Move(k, Report(wish))).rows[k]);
  }

  /** So does the one complete_task sends, after the status has been saved. */
  lemma SurrenderEnds(w: World, k: Key, wish: Answer)
    requires Inv(w) && Possible(w, Move(k, Surrender(wish)))
    ensures Only(Next(w, Move(k, Surrender(wish))).rows[k], (a: Action) => a.Resign?)
  {
    assert RowAgrees(w, k);
    NextActions(Next(w, Move(k, Surrender(wish))).rows[k]);
  }

  lemma ResignEnds(w: World, k: Key)
    requires Inv(w) && Possible(w, Move(k, Resign))
    ensures var row := Next(w, Move(k, Resign)).rows[k];
            IsOver(row) && row.status == Failed
  {
    assert RowAgrees(w, k);
    NextActions(Next(w, Move(k, Resign)).rows[k]);
  }

  lemma PostRefused(row: Row, e: EngineTask, w: WorkerId, now: real, wish: Answer)
    requires RowInv(row) && Enabled(row, now, Post(wish))
    requires wish.Refuse? || wish.Lost? || (wish.Accept? && !e.HeldBy(w))
    ensures var after := Acted(row, e, w, now, Post(wish)).0;
            after.pc.Idle? && after.status == Failed && !after.sent && after.stage == row.stage
  {
  }

  /** An answer to complete that is neither an accept nor a 500 ends the delivery as failed, without a report
      and without another try, even when the engine has closed the task and only the response was lost. */
  lemma PostErrorEnds(w: World, k: Key, wish: Answer)
    requires Inv(w) && Possible(w, Move(k, Post(wish)))
    requires wish.Refuse? || wish.Lost? || (wish.Accept? && !w.At(k.task).HeldBy(k.worker))
    ensures var row := Next(w, Move(k, Post(wish))).rows[k];
            IsOver(row) && row.status == Failed && !row.sent
  {
    var row := Next(w, Move(k, Post(wish))).rows[k];
    assert RowAgrees(w, k);
    PostRefused(w.rows[k], w.At(k.task), k.worker, w.clock, wish);
    NextActions(row);
  }

  /** A work unit that ends in a 500 while tries are left is followed, after exactly one second, by another
      attempt with one try fewer. */
  lemma WorkIsRetriedOn500(w: World, k: Key) returns (w': World, steps: seq<Step>)
    requires Inv(w) && Possible(w, Move(k, Finish(Work500)))
    requires var tries := w.rows[k].pc.tries; tries[|tries| - 1] > 1
    ensures OnlyWaitsUntil(Next(w, Move(k, Finish(Work500))).rows[k], w.clock + 1.0)
    ensures Legal(Next(w, Move(k, Finish(Work500))), steps) && After(Next(w, Move(k, Finish(Work500))), steps) == w'
    ensures k in w'.rows && w'.rows[k].pc.Starting? && w'.clock == w.clock + 1.0
    ensures var tries, last := w.rows[k].pc.tries, |w.rows[k].pc.tries| - 1;
            w'.rows[k].pc.tries == tries[..last] + [tries[last] - 1]
  {
    var w1 := Next(w, Move(k, Finish(Work500)));
    assert RowAgrees(w, k);
    NextActions(w1.rows[k]);
    assert Legal(w1, []);
    w', steps := Onward(w1, [], Tick(1.0));
    w', steps := Onward(w1, steps, Move(k, Wake));
  }

  /** Any other error of a work unit leads to the failure report at once, whatever tries are left, and so
      does a 500 on the last try. */
  lemma WorkIsReportedOnError(w: World, k: Key, result: WorkResult)
    requires Inv(w) && Possible(w, Move(k, Finish(result)))
    requires var tries := w.rows[k].pc.tries;
             result == WorkError || (result == Work500 && tries[|tries| - 1] <= 1)
    ensures Only(Next(w, Move(k, Finish(result))).rows[k], (a: Action) => a.Report?)
    ensures Next(w, Move(k, Finish(result))).rows[k].status == Failed
  {
    assert RowAgrees(w, k);
    NextActions(Next(w, Move(k, Finish(result))).rows[k]);
  }

  /** A work unit that succeeds leads to complete_task and to nothing else. */
  lemma WorkIsSubmittedOnSuccess(w: World, k: Key)
    requires Inv(w) && Possible(w, Move(k, Finish(WorkDone)))
    ensures var row := Next(w, Move(k, Finish(WorkDone))).rows[k];
            row.status == Performed && Only(row, (a: Action) => a.Post?)
  {
    assert RowAgrees(w, k);
    NextActions(Next(w, Move(k, Finish(WorkDone))).rows[k]);
  }

  /** The engine does what the holder of the lock asks, also when the response is lost, and nothing when it
      answers with an error or when anybody else asks. */
  lemma EngineObeysHolder(w: World, k: Key, a: Action)
    requires Possible(w, Move(k, a)) && (a.Extend? || a.Post? || a.Report? || a.Surrender?)
    ensures var e, taken := w.At(k.task), a.wish.Accept? || a.wish.Lost?;
            Next(w, Move(k, a)).At(k.task) ==
              if e == Free || e == Incident || e.worker != k.worker || e.Closed? || !taken then e
              else if a.Extend? then Locked(k.worker, w.clock + 600.0)
              else if a.Post? then Closed(k.worker)
              else Incident
  {
  }

  lemma PostCompletesNothing(row: Row, e: EngineTask, w: WorkerId, now: real, a: Action)
    requires Enabled(row, now, a) && a.Post? && row.status != Completed
    ensures Acted(row, e, w, now, a).0.status != Completed
  {
  }

  lemma ExtendCompletesNothing(row: Row, e: EngineTask, w: WorkerId, now: real, a: Action)
    requires Enabled(row, now, a) && a.Extend? && row.status != Completed
    ensures Acted(row, e, w, now, a).0.status != Completed
  {
  }

  lemma ActedCompletes(row: Row, e: EngineTask, w: WorkerId, now: real, a: Action)
    requires RowInv(row) && Enabled(row, now, a) && row.status != Completed
    ensures Acted(row, e, w, now, a).0.status == Completed <==> a == Notify(NoUrl) || a == Notify(CallbackOk)
  {
    match a
    case Post(_) => PostCompletesNothing(row, e, w, now, a);
    case Extend(_) => ExtendCompletesNothing(row, e, w, now, a);
    case _ =>
  }

  /** A row becomes completed in exactly one way: the engine has accepted, and the callback is absent or
      answers without error. */
  lemma BecomesCompletedIff(w: World, k: Key, s: Step)
    requires Inv(w) && Possible(w, s) && k in w.rows && w.rows[k].status != Completed
    ensures k in Next(w, s).rows
    ensures Next(w, s).rows[k].status == Completed <==>
              s == Move(k, Notify(NoUrl)) || s == Move(k, Notify(CallbackOk))
  {
    assert RowAgrees(w, k);
    if s.Move? && s.key == k {
      ActedCompletes(w.rows[k], w.At(k.task), k.worker, w.clock, s.action);
    } else if s.Fetch? {
      assert k.worker != s.worker;
    }
  }

  /** A callback that fails otherwise than with a 500 ends the delivery as failed, without another try. */
  lemma CallbackErrorEnds(w: World, k: Key)
    requires Inv(w) && Possible(w, Move(k, Notify(CallbackFails)))
    ensures var row := Next(w, Move(k, Notify(CallbackFails))).rows[k];
            IsOver(row) && row.status == Failed
  {
    assert RowAgrees(w, k);
    NextActions(Next(w, Move(k, Notify(CallbackFails))).rows[k]);
  }

  /** After a 500, from the engine or from the callback, complete_task posts again in exactly one second
      while tries are left. */
  lemma PostIsRepeated(w: World, k: Key, a: Action)
    requires Inv(w) && Possible(w, Move(k, a))
    requires (a.Post? && a.wish.Http500? && w.At(k.task).HeldBy(k.worker)) || a == Notify(CallbackFails500)
    ensures var row := Next(w, Move(k, a)).rows[k];
            if w.rows[k].pc.left > 1 then OnlyWaitsUntil(row, w.clock + 1.0)
            else Only(row, (a: Action) => a.Surrender?)
  {
    assert RowAgrees(w, k);
    NextActions(Next(w, Move(k, a)).rows[k]);
  }

  // ----- incidents -----

  /** A failure that the engine accepts from the holder makes the task an incident. */
  lemma AcceptedReportIsIncident(w: World, k: Key, a: Action)
    requires Possible(w, Move(k, a)) && (a.Report? || a.Surrender?) && a.wish.Accept?
    requires w.At(k.task).HeldBy(k.worker)
    ensures Next(w, Move(k, a)).At(k.task) == Incident && Next(w, Move(k, a)).rows[k].reported
  {
  }

  /** An incident is not handed out to anybody until an operator resolves it: no row is added for the task,
      and no row of it can do anything to it. */
  lemma {:induction false} IncidentStays(w: World, t: TaskId, steps: seq<Step>)
    requires Inv(w) && Legal(w, steps) && w.At(t) == Incident && Resolve(t) !in steps
    ensures After(w, steps).At(t) == Incident
    ensures forall k | k in After(w, steps).rows && k.task == t :: k in w.rows
    decreases |steps|
  {
    if steps == [] {
    } else {
      var s := steps[0];
      StepKeepsInv(w, s);
      assert s in steps && forall x | x in steps[1..] :: x in steps;
      if s.Move? && s.key.task == t {
        assert RowAgrees(w, s.key);
        ActedKeepsHold(w.rows[s.key], w.At(t), s.key.worker, w.clock, s.action);
      }
      IncidentStays(Next(w, s), t, steps[1..]);
    }
  }

  /** And there are incidents: the work unit fails for good and the engine accepts the report. */
  lemma IncidentHappens() returns (w: World, k: Key)
    ensures Reachable(w) && k in w.rows
    ensures w.At(k.task) == Incident && w.rows[k].reported && w.rows[k].status == Failed && w.rows[k].pc.Idle?
  {
    var start, steps := Begin(0.0), [];
    k := Key("worker", "t");
    w, steps := FetchedAndWorking(start, k.worker, k.task);
    w, steps := Onward(start, steps, Move(k, Finish(WorkError)));
    w, steps := Onward(start, steps, Move(k, Report(Accept)));
  }

  // ----- when work units overlap -----

  /** Another row of the task is inside its work unit. */
  ghost predicate Joined(w: World, k: Key)
  {
    exists other :: other in w.rows && other != k && other.task == k.task && w.rows[other].pc.Working?
  }

  /** Some run that leaves row k as it is ends with another row of its task inside its work unit. */
  ghost predicate CanBeJoined(w: World, k: Key)
    requires k in w.rows
  {
    exists steps :: && Legal(w, steps) && k in After(w, steps).rows && After(w, steps).rows[k] == w.rows[k]
                    && Joined(After(w, steps), k)
  }

  lemma GuardNeedsOpenTask(row: Row, e: EngineTask, w: WorkerId, now: real, a: Action)
    requires RowInv(row) && Holds(row, e, w, now) && Enabled(row, now, a) && e.Closed?
    ensures Acted(row, e, w, now, a).0.pc.Working? ==> row.pc.Working?
  {
  }

  /** No delivery passes the guard once the engine has closed the task. */
  lemma StepStaysAlone(w: World, k: Key, s: Step)
    requires Inv(w) && Possible(w, s) && w.At(k.task).Closed? && !Joined(w, k)
    ensures Next(w, s).At(k.task).Closed? && !Joined(Next(w, s), k)
  {
    var w' := Next(w, s);
    if s.Move? {
      assert RowAgrees(w, s.key);
      if s.key.task == k.task {
        ActedKeepsHold(w.rows[s.key], w.At(k.task), s.key.worker, w.clock, s.action);
        GuardNeedsOpenTask(w.rows[s.key], w.At(k.task), s.key.worker, w.clock, s.action);
      }
    }
    forall other | other in w'.rows && other != k && other.task == k.task
      ensures !w'.rows[other].pc.Working?
    {
      if other in w.rows {
        assert RowAgrees(w, other);
        assert !w.rows[other].pc.Working?;
      }
    }
  }

  lemma {:induction false} ClosedStaysAlone(w: World, k: Key, steps: seq<Step>)
    requires Inv(w) && Legal(w, steps) && w.At(k.task).Closed? && !Joined(w, k)
    ensures !Joined(After(w, steps), k)
    decreases |steps|
  {
    if steps == [] {
    } else {
      StepStaysAlone(w, k, steps[0]);
      StepKeepsInv(w, steps[0]);
      ClosedStaysAlone(Next(w, steps[0]), k, steps[1..]);
    }
  }

  /** A worker id nobody has drawn. */
  lemma {:induction false} LongerThanAll(workers: set<WorkerId>) returns (unused: WorkerId)
    ensures forall w | w in workers :: |w| < |unused|
    decreases workers
  {
    if workers == {} {
      unused := "x";
    } else {
      var w :| w in workers;
      var rest := LongerThanAll(workers - {w});
      unused := rest + w + "x";
    }
  }

  /** The engine is made to hand the task out again: an operator resolves it, or its lock runs out. */
  lemma MadeLockable(w: World, k: Key) returns (w': World, steps: seq<Step>)
    requires k in w.rows && !w.At(k.task).Closed?
    ensures Legal(w, steps) && After(w, steps) == w' && w'.At(k.task).Lockable(w'.clock)
    ensures w'.rows == w.rows && w'.workers == w.workers
  {
    assert Legal(w, []);
    if w.At(k.task).Incident? {
      w', steps := Onward(w, [], Resolve(k.task));
    } else if w.At(k.task).Lockable(w.clock) {
      w', steps := w, [];
    } else {
      w', steps := Onward(w, [], Tick(w.At(k.task).until - w.clock));
    }
  }

  lemma JoiningRun(w: World, k: Key) returns (steps: seq<Step>)
    requires Inv(w) && k in w.rows && !w.At(k.task).Closed?
    ensures Legal(w, steps) && k in After(w, steps).rows && After(w, steps).rows[k] == w.rows[k]
    ensures Joined(After(w, steps), k)
  {
    var w1, first := MadeLockable(w, k);
    var unused := LongerThanAll(w.workers);
    forall other | other in w.rows
      ensures other.worker != unused
    {
      assert RowAgrees(w, other);
    }
    var w2, second := FetchedAndWorking(w1, unused, k.task);
    Chained(w, first, second);
    steps := first + second;
    assert Key(unused, k.task) in w2.rows;
  }

  /** A row inside its work unit can be joined there if and only if it has been already or the engine has
      not closed the task.  A closed task admits nobody, so the only protection is to be completed. */
  lemma JoinedIff(w: World, k: Key)
    requires Reachable(w) && k in w.rows && w.rows[k].pc.Working?
    ensures CanBeJoined(w, k) <==> Joined(w, k) || !w.At(k.task).Closed?
  {
    ReachableInv(w);
    if Joined(w, k) {
      assert Legal(w, []);
    } else if w.At(k.task).Closed? {
      forall steps | Legal(w, steps)
        ensures !Joined(After(w, steps), k)
      {
        ClosedStaysAlone(w, k, steps);
      }
    } else {
      var steps := JoiningRun(w, k);
    }
  }

  // ----- completion safety -----

  /** Status completed means: the engine closed the task for this very worker, and the last thing
      that happened was a callback that was absent or answered without error. */
  lemma CompletedMeansAccepted(w: World, k: Key)
    requires Reachable(w) && k in w.rows && w.rows[k].status == Completed
    ensures w.At(k.task) == Closed(k.worker)
    ensures |w.rows[k].attempts| > 0 && w.rows[k].attempts[|w.rows[k].attempts| - 1] == Done
  {
    ReachableInv(w);
    assert RowAgrees(w, k);
    assert w.rows[k].attempts[|w.rows[k].attempts| - 1] in w.rows[k].attempts;
  }

  /** At most one row of a task ever has its complete accepted, so at most one reaches completed. */
  lemma AtMostOneAccepted(w: World, k1: Key, k2: Key)
    requires Reachable(w) && k1 in w.rows && k2 in w.rows && k1.task == k2.task
    requires w.rows[k1].Accepted() || w.rows[k1].status == Completed
    requires w.rows[k2].Accepted() || w.rows[k2].status == Completed
    ensures k1 == k2
  {
    ReachableInv(w);
    assert RowAgrees(w, k1) && RowAgrees(w, k2);
    if w.rows[k1].status == Completed { CompletedMeansAccepted(w, k1); }
    if w.rows[k2].status == Completed { CompletedMeansAccepted(w, k2); }
  }

  /** The engine never accepts both a complete and a failure from one row. */
  lemma NeverBothAccepted(w: World, k: Key)
    requires Reachable(w) && k in w.rows
    ensures !(w.rows[k].Accepted() && w.rows[k].reported)
  {
    ReachableInv(w);
    assert RowAgrees(w, k);
  }

  const LATE_CALLBACK := [Post500, Post500, Post500, Callback500]

  lemma FourAttempts(row: Row)
    requires RowInv(row)
    ensures row.Accepted() && row.sent ==> row.attempts == LATE_CALLBACK
    ensures row.attempts == LATE_CALLBACK ==> row.Accepted() && (row.pc.Idle? && !row.crashed ==> row.sent)
  {
    var attempts := row.attempts;
    if |attempts| == ATTEMPTS {
      assert attempts[3] in attempts;
      assert attempts == [attempts[0], attempts[1], attempts[2], attempts[3]];
    }
  }

  /** A failure report may still be *posted* after an accepted complete, but only when the engine
      answered 500 three times, accepted the fourth request, and the callback then answered 500.  A
      delivery that was not cut short always posts one in that case. */
  lemma ReportAfterAcceptIff(w: World, k: Key)
    requires Reachable(w) && k in w.rows
    ensures w.rows[k].Accepted() && w.rows[k].sent ==> w.rows[k].attempts == LATE_CALLBACK
    ensures w.rows[k].pc.Idle? && !w.rows[k].crashed ==>
              (w.rows[k].Accepted() && w.rows[k].sent <==> w.rows[k].attempts == LATE_CALLBACK)
  {
    ReachableInv(w);
    assert RowAgrees(w, k);
    FourAttempts(w.rows[k]);
  }

  /** An attempt at complete_task that the engine answers with 500, and the pause after it. */
  lemma PostedInVain(start: World, steps: seq<Step>, k: Key) returns (w: World, steps': seq<Step>)
    requires Legal(start, steps) && k in After(start, steps).rows && After(start, steps).rows[k].pc.Posting?
    requires After(start, steps).rows[k].pc.left > 1 && After(start, steps).At(k.task).HeldBy(k.worker)
    ensures Legal(start, steps') && After(start, steps') == w && k in w.rows
    ensures w.rows[k].pc == Posting(After(start, steps).rows[k].pc.left - 1)
    ensures w.rows[k].crashed == After(start, steps).rows[k].crashed
    ensures w.rows[k].attempts == After(start, steps).rows[k].attempts + [Post500]
    ensures w.At(k.task) == After(start, steps).At(k.task)
  {
    w, steps' := Onward(start, steps, Move(k, Post(Http500)));
    w, steps' := Onward(start, steps', Tick(PAUSE));
    w, steps' := Onward(start, steps', Move(k, Wake));
  }

  lemma LastCallFails(start: World, steps: seq<Step>, k: Key) returns (w: World, steps': seq<Step>)
    requires Legal(start, steps) && k in After(start, steps).rows && After(start, steps).rows[k].pc == Posting(1)
    requires After(start, steps).At(k.task).HeldBy(k.worker) && !After(start, steps).rows[k].crashed
    ensures Legal(start, steps') && After(start, steps') == w && k in w.rows
    ensures w.rows[k].attempts == After(start, steps).rows[k].attempts + [Callback500]
    ensures w.rows[k].sent && w.rows[k].pc.Idle? && !w.rows[k].crashed
  {
    w, steps' := Onward(start, steps, Move(k, Post(Accept)));
    w, steps' := Onward(start, steps', Move(k, Notify(CallbackFails500)));
    w, steps' := Onward(start, steps', Move(k, Surrender(Accept)));
    w, steps' := Onward(start, steps', Move(k, Resign));
  }

  /** And this does happen: three attempts end in a 500, the engine accepts the fourth, the callback
      answers 500, and a failure is posted. */
  lemma LateCallbackHappens() returns (w: World, k: Key)
    ensures Reachable(w) && k in w.rows
    ensures w.rows[k].attempts == LATE_CALLBACK && w.rows[k].sent && w.rows[k].pc.Idle? && !w.rows[k].crashed
  {
    var start, steps := Begin(0.0), [];
    k := Key("worker", "t");
    w, steps := FetchedAndWorking(start, k.worker, k.task);
    w, steps := Onward(start, steps, Move(k, Finish(WorkDone)));
    w, steps := PostedInVain(start, steps, k);
    w, steps := PostedInVain(start, steps, k);
    w, steps := PostedInVain(start, steps, k);
    w, steps := LastCallFails(start, steps, k);
    assert w.rows[k].attempts == LATE_CALLBACK;
  }

  // ----- the queue -----

  /** A row that has been logged and queued.  From then on it may be delivered at any time. */
  predicate IsQueued(w: World, k: Key)
  {
    && k in w.rows && k.worker in w.workers && w.rows[k].stage.Enqueued?
    && |w.rows[k].log| > 0 && w.rows[k].log[0] == Initial
  }

  ghost predicate QueueGrows(before: World, after: World)
  {
    forall k | IsQueued(before, k) :: IsQueued(after, k)
  }

  /** A queued row is never unqueued, and its log only grows. */
  predicate StaysQueued(before: Row, after: Row)
  {
    after.stage.Enqueued? && |after.log| >= |before.log| > 0 && after.log[0] == before.log[0]
  }

  lemma PostKeepsQueued(row: Row, e: EngineTask, w: WorkerId, now: real, a: Action)
    requires Enabled(row, now, a) && a.Post? && row.stage.Enqueued? && |row.log| > 0
    ensures StaysQueued(row, Acted(row, e, w, now, a).0)
  {
  }

  lemma NotifyKeepsQueued(row: Row, e: EngineTask, w: WorkerId, now: real, a: Action)
    requires Enabled(row, now, a) && a.Notify? && row.stage.Enqueued? && |row.log| > 0
    ensures StaysQueued(row, Acted(row, e, w, now, a).0)
  {
  }

  lemma ExtendKeepsQueued(row: Row, e: EngineTask, w: WorkerId, now: real, a: Action)
    requires Enabled(row, now, a) && a.Extend? && row.stage.Enqueued? && |row.log| > 0
    ensures StaysQueued(row, Acted(row, e, w, now, a).0)
  {
  }

  lemma ActedKeepsQueued(row: Row, e: EngineTask, w: WorkerId, now: real, a: Action)
    requires Enabled(row, now, a) && row.stage.Enqueued? && |row.log| > 0
    ensures StaysQueued(row, Acted(row, e, w, now, a).0)
  {
    match a
    case Post(_) => PostKeepsQueued(row, e, w, now, a);
    case Notify(_) => NotifyKeepsQueued(row, e, w, now, a);
    case Extend(_) => ExtendKeepsQueued(row, e, w, now, a);
    case _ =>
  }

  /** Whatever happens to a queued row, it stays queued, and its log starts with its first status. */
  lemma StepKeepsQueue(w: World, s: Step)
    requires Possible(w, s)
    ensures QueueGrows(w, Next(w, s))
  {
    forall k | IsQueued(w, k)
      ensures IsQueued(Next(w, s), k)
    {
      if s.Move? && s.key == k {
        ActedKeepsQueued(w.rows[k], w.At(k.task), k.worker, w.clock, s.action);
      } else if s.Fetch? {
        assert k.worker != s.worker;
      }
    }
  }

  // ----- at most once -----

  /** A row is claimed at most once, its work unit runs only under that claim, and a delivery that
      was not cut short leaves the row completed or failed. */
  lemma ClaimedAtMostOnce(w: World, k: Key)
    requires Reachable(w) && k in w.rows
    ensures w.rows[k].tally.claims <= 1
    ensures w.rows[k].status == Initial <==> w.rows[k].tally.claims == 0
    ensures w.rows[k].tally.works > 0 ==> w.rows[k].tally.claims == 1
    ensures w.rows[k].tally.claims == 1 && w.rows[k].pc.Idle? && !w.rows[k].crashed
            ==> w.rows[k].status == Completed || w.rows[k].status == Failed
  {
    ReachableInv(w);
    assert RowAgrees(w, k);
  }

  /** Once a delivery has ended, by its own doing or in a crash, the row never changes again,
      whatever is redelivered and whatever happens elsewhere. */
  lemma {:induction false} FinishedRowsAreFrozen(w: World, k: Key, steps: seq<Step>)
    requires Inv(w) && Legal(w, steps)
    requires k in w.rows && w.rows[k].pc.Idle? && w.rows[k].status != Initial
    ensures k in After(w, steps).rows && After(w, steps).rows[k] == w.rows[k]
    decreases |steps|
  {
    if steps == [] {
    } else {
      var w' := Next(w, steps[0]);
      assert RowAgrees(w, k);
      if steps[0].Fetch? {
        assert k.worker != steps[0].worker;
      }
      assert w'.rows[k] == w.rows[k];
      StepKeepsInv(w, steps[0]);
      FinishedRowsAreFrozen(w', k, steps[1..]);
    }
  }

  // ----- the log -----

  /** The latest logged status of a queued row is its stored status, except that a claimed row
      still shows as initial until its first outcome. */
  lemma LogFollowsStatus(w: World, k: Key)
    requires Reachable(w) && k in w.rows && w.rows[k].stage.Enqueued?
    ensures |w.rows[k].log| > 0
    ensures w.rows[k].log[|w.rows[k].log| - 1] == if w.rows[k].status == InProgress then Initial else w.rows[k].status
  {
    ReachableInv(w);
    assert RowAgrees(w, k);
  }
}
