/** How often one delivery can call execute, run the work unit and extend the lock, although
    _execute calls itself through its own retry wrapper (src/bptl/camunda/tasks.py). */
module CamundaRetryBound {
  import opened Wrappers
  import opened Statuses
  import opened CamundaRow
  import opened CamundaProtocol

  /** One action of the row under study, the engine task it meets and the time it happens. */
  datatype Moment = Moment(action: Action, engine: EngineTask, now: real)

  /** No time is lost between the actions of a delivery, its pauses are exact, and a work unit
      takes at most d seconds. */
  predicate Timely(row: Row, m: Moment, d: real)
  {
    && Enabled(row, m.now, m.action)
    && (m.action.Crash? ||
        match row.pc
        case Starting(_, since) => m.now == since
        case Working(_, since) => since <= m.now <= since + d
        case Rechecking(_, since) => m.now == since
        case Sleeping(_, until) => m.now == until
        case _ => true)
  }

  function Moved(row: Row, w: WorkerId, m: Moment): Row
    requires Enabled(row, m.now, m.action)
  {
    Acted(row, m.engine, w, m.now, m.action).0
  }

  predicate TimelyReplay(row: Row, w: WorkerId, moments: seq<Moment>, d: real)
    decreases |moments|
  {
    moments == [] ||
    (Timely(row, moments[0], d) && TimelyReplay(Moved(row, w, moments[0]), w, moments[1..], d))
  }

  function Replay(row: Row, w: WorkerId, moments: seq<Moment>, d: real): Row
    requires TimelyReplay(row, w, moments, d)
    decreases |moments|
  {
    if moments == [] then row else Replay(Moved(row, w, moments[0]), w, moments[1..], d)
  }

  // ----- the bound -----

  /** At most this long after the extension begins the attempt that leaves `left` tries. */
  function Elapsed(left: nat, d: real): real
    decreases ATTEMPTS - left
  {
    if left >= ATTEMPTS then 0.0 else Elapsed(left + 1, d) + d + PAUSE
  }

  /** The counts when an attempt starts at `since`; before it, `executes` calls and `works` runs. */
  predicate AtAttempt(row: Row, tries: seq<nat>, since: real, executes: int, works: int, d: real)
  {
    && 1 <= |tries| <= 2
    && (forall i | 0 <= i < |tries| :: 1 <= tries[i] <= ATTEMPTS)
    && (|tries| == 1 ==>
          row.tally.extensions == 0 && executes == ATTEMPTS - tries[0] && works <= executes)
    && (|tries| == 2 ==>
          && row.tally.extensions == 1
          && executes == (ATTEMPTS - tries[0]) + 1 + (ATTEMPTS - tries[1]) && works <= executes - 1
          && row.lockExpiresAt.Some? && since <= row.lockExpiresAt.value - LOCK_DURATION + Elapsed(tries[1], d))
  }

  /** In the middle of an outer attempt whose guard found the lock expired. */
  predicate AtExtension(row: Row, tries: seq<nat>)
  {
    && |tries| == 1 && 1 <= tries[0] <= ATTEMPTS
    && row.tally.works < row.tally.executes == ATTEMPTS - tries[0] + 1
  }

  predicate Capped(row: Row)
  {
    row.tally.extensions <= 1 && row.tally.executes <= 8 && row.tally.works <= 7
  }

  predicate Bounded(row: Row, d: real)
  {
    && (row.status == Initial ==> row.pc.Idle? && row.tally == Tally(0, 0, 0, 0))
    && match row.pc
       case Starting(tries, since) => AtAttempt(row, tries, since, row.tally.executes, row.tally.works, d)
       case Sleeping(tries, until) => AtAttempt(row, tries, until, row.tally.executes, row.tally.works, d)
       case Working(tries, since) => AtAttempt(row, tries, since, row.tally.executes - 1, row.tally.works - 1, d)
       case Extending(tries) => AtExtension(row, tries) && row.tally.extensions == 0
       case Rechecking(tries, since) =>
         AtExtension(row, tries) && row.tally.extensions == 1 && row.lockExpiresAt == Some(since + LOCK_DURATION)
       case _ => Capped(row)
  }

  lemma ElapsedValues(d: real)
    requires d >= 0.0
    ensures Elapsed(4, d) == 0.0 && Elapsed(3, d) == d + 1.0
    ensures Elapsed(2, d) == 2.0 * (d + 1.0) && Elapsed(1, d) == 3.0 * (d + 1.0)
  {
  }

  /** After an extension the guard never finds the lock expired again. */
  lemma GuardKeepsBound(row: Row, w: WorkerId, m: Moment, d: real)
    requires d >= 0.0 && 3.0 * (d + 1.0) < LOCK_DURATION
    requires Bounded(row, d) && Timely(row, m, d) && m.action.Guard?
    ensures Bounded(Moved(row, w, m), d)
  {
    ElapsedValues(d);
  }

  lemma FinishKeepsBound(row: Row, w: WorkerId, m: Moment, d: real)
    requires d >= 0.0
    requires Bounded(row, d) && Timely(row, m, d) && m.action.Finish?
    ensures Bounded(Moved(row, w, m), d)
  {
  }

  lemma WaitKeepsBound(row: Row, w: WorkerId, m: Moment, d: real)
    requires d >= 0.0
    requires Bounded(row, d) && Timely(row, m, d) && (m.action.Recheck? || m.action.Wake?)
    ensures Bounded(Moved(row, w, m), d)
  {
  }

  lemma ExtendKeepsBound(row: Row, w: WorkerId, m: Moment, d: real)
    requires d >= 0.0
    requires Bounded(row, d) && Timely(row, m, d) && m.action.Extend?
    ensures Bounded(Moved(row, w, m), d)
  {
  }

  /** The actions outside _execute count nothing and lead to no other attempt. */
  lemma RestKeepsTally(row: Row, w: WorkerId, m: Moment)
    requires Enabled(row, m.now, m.action) && !m.action.Deliver?
    requires !m.action.Guard? && !m.action.Finish? && !m.action.Extend? && !m.action.Recheck? && !m.action.Wake?
    ensures Moved(row, w, m).tally == row.tally
    ensures Moved(row, w, m).status == row.status || Moved(row, w, m).status != Initial
    ensures var pc := Moved(row, w, m).pc;
            pc.Idle? || pc.Posting? || pc.Notifying? || pc.Pausing? || pc.Surrendering? || pc.Resigning?
            || ((m.action.Store? || m.action.Enqueue?) && pc == row.pc)
  {
  }

  lemma BoundedIsCapped(row: Row, d: real)
    requires Bounded(row, d)
    ensures Capped(row)
  {
  }

  lemma RestKeepsBound(row: Row, w: WorkerId, m: Moment, d: real)
    requires d >= 0.0
    requires Bounded(row, d) && Enabled(row, m.now, m.action)
    requires !m.action.Guard? && !m.action.Finish? && !m.action.Extend? && !m.action.Recheck? && !m.action.Wake?
    ensures Bounded(Moved(row, w, m), d)
  {
    if !m.action.Deliver? {
      BoundedIsCapped(row, d);
      RestKeepsTally(row, w, m);
    }
  }

  lemma MovedKeepsBound(row: Row, w: WorkerId, m: Moment, d: real)
    requires d >= 0.0 && 3.0 * (d + 1.0) < LOCK_DURATION
    requires Bounded(row, d) && Timely(row, m, d)
    ensures Bounded(Moved(row, w, m), d)
  {
    match m.action
    case Guard(_) => GuardKeepsBound(row, w, m, d);
    case Finish(_) => FinishKeepsBound(row, w, m, d);
    case Extend(_) => ExtendKeepsBound(row, w, m, d);
    case Recheck | Wake => WaitKeepsBound(row, w, m, d);
    case _ => RestKeepsBound(row, w, m, d);
  }

  lemma {:induction false} ReplayKeepsBound(row: Row, w: WorkerId, moments: seq<Moment>, d: real)
    requires d >= 0.0 && 3.0 * (d + 1.0) < LOCK_DURATION
    requires Bounded(row, d) && TimelyReplay(row, w, moments, d)
    ensures Bounded(Replay(row, w, moments, d), d)
    decreases |moments|
  {
    if moments == [] {
    } else {
      MovedKeepsBound(row, w, moments[0], d);
      ReplayKeepsBound(Moved(row, w, moments[0]), w, moments[1..], d);
    }
  }

  // ----- in whole runs -----

  /** What a run of the whole system looks like from one row. */
  function Seen(w: World, k: Key, steps: seq<Step>): seq<Moment>
    requires Legal(w, steps)
    decreases |steps|
  {
    if steps == [] then [] else
      (if steps[0].Move? && steps[0].key == k then [Moment(steps[0].action, w.At(k.task), w.clock)] else [])
      + Seen(Next(w, steps[0]), k, steps[1..])
  }

  /** The row exists, and its worker id will not be drawn again. */
  predicate Present(w: World, k: Key)
  {
    k in w.rows && k.worker in w.workers
  }

  /** Steps that are not its own leave a row alone. */
  lemma StepPassesBy(w: World, k: Key, s: Step)
    requires Present(w, k) && Possible(w, s)
    ensures Present(Next(w, s), k)
    ensures !(s.Move? && s.key == k) ==> Next(w, s).rows[k] == w.rows[k]
    ensures s.Move? && s.key == k ==>
              Next(w, s).rows[k] == Moved(w.rows[k], k.worker, Moment(s.action, w.At(k.task), w.clock))
  {
    if s.Fetch? {
      assert k.worker != s.worker;
    }
  }

  lemma {:induction false} RunIsReplay(w: World, k: Key, steps: seq<Step>, d: real)
    requires Present(w, k) && Legal(w, steps)
    requires TimelyReplay(w.rows[k], k.worker, Seen(w, k, steps), d)
    ensures k in After(w, steps).rows
    ensures After(w, steps).rows[k] == Replay(w.rows[k], k.worker, Seen(w, k, steps), d)
    decreases |steps|
  {
    if steps == [] {
    } else {
      var w' := Next(w, steps[0]);
      var rest := Seen(w', k, steps[1..]);
      StepPassesBy(w, k, steps[0]);
      if steps[0].Move? && steps[0].key == k {
        assert Seen(w, k, steps)[1..] == rest;
      } else {
        assert Seen(w, k, steps) == rest;
      }
      RunIsReplay(w', k, steps[1..], d);
    }
  }

  /** A run of the whole system, with any number of other workers, whose view from row k is timely for
      work units of at most d seconds. */
  predicate TimelyRun(w: World, k: Key, steps: seq<Step>, d: real)
  {
    Legal(w, steps) && Present(w, k) && TimelyReplay(w.rows[k], k.worker, Seen(w, k, steps), d)
  }

  /** A row of a reachable state that has not been delivered yet. */
  ghost predicate Undelivered(w: World, k: Key)
  {
    Reachable(w) && k in w.rows && w.rows[k].status == Initial
  }

  lemma RunsAreCapped(w: World, k: Key, steps: seq<Step>, d: real)
    requires Undelivered(w, k) && TimelyRun(w, k, steps, d)
    requires d >= 0.0 && 3.0 * (d + 1.0) < LOCK_DURATION
    ensures k in After(w, steps).rows && Capped(After(w, steps).rows[k])
  {
    ReachableInv(w);
    assert RowAgrees(w, k);
    RunIsReplay(w, k, steps, d);
    ReplayKeepsBound(w.rows[k], k.worker, Seen(w, k, steps), d);
    BoundedIsCapped(After(w, steps).rows[k], d);
  }

  // ----- beyond the bound -----

  /** A run is timely if its first step is and the rest of it is. */
  lemma StepSeen(w: World, k: Key, steps: seq<Step>, d: real)
    requires Present(w, k) && steps != [] && Possible(w, steps[0])
    ensures TimelyRun(w, k, steps, d) <==>
              && (steps[0].Move? && steps[0].key == k ==>
                  Timely(w.rows[k], Moment(steps[0].action, w.At(k.task), w.clock), d))
              && TimelyRun(Next(w, steps[0]), k, steps[1..], d)
  {
    var s, w' := steps[0], Next(w, steps[0]);
    StepPassesBy(w, k, s);
    if Legal(w', steps[1..]) {
      if s.Move? && s.key == k {
        assert Seen(w, k, steps)[1..] == Seen(w', k, steps[1..]);
      } else {
        assert Seen(w, k, steps) == Seen(w', k, steps[1..]);
      }
    }
  }

  lemma {:induction false} RunContinued(w: World, k: Key, first: seq<Step>, second: seq<Step>, d: real)
    requires TimelyRun(w, k, first, d) && TimelyRun(After(w, first), k, second, d)
    ensures TimelyRun(w, k, first + second, d) && After(w, first + second) == After(After(w, first), second)
    decreases |first|
  {
    if first == [] {
      assert first + second == second;
    } else {
      assert (first + second)[1..] == first[1..] + second;
      StepSeen(w, k, first, d);
      RunContinued(Next(w, first[0]), k, first[1..], second, d);
      StepSeen(w, k, first + second, d);
    }
  }

  lemma RunBegun(w: World, k: Key, s: Step, rest: seq<Step>, d: real)
    requires Present(w, k) && Possible(w, s) && TimelyRun(Next(w, s), k, rest, d)
    requires s.Move? && s.key == k ==> Timely(w.rows[k], Moment(s.action, w.At(k.task), w.clock), d)
    ensures TimelyRun(w, k, [s] + rest, d) && After(w, [s] + rest) == After(Next(w, s), rest)
  {
    assert ([s] + rest)[1..] == rest;
    StepSeen(w, k, [s] + rest, d);
  }

  /** A delivery about to start an attempt with `left` tries in its innermost wrapper, under a lock of
      its own that ends at `until`. */
  ghost predicate AtStart(w: World, k: Key, left: nat, until: real, extensions: nat)
  {
    && Present(w, k)
    && w.At(k.task) == Locked(k.worker, until) && w.rows[k].lockExpiresAt == Some(until)
    && (w.rows[k].status == InProgress || w.rows[k].status == Failed)
    && w.rows[k].pc.Starting? && w.rows[k].pc.since == w.clock
    && |w.rows[k].pc.tries| > 0 && w.rows[k].pc.tries[|w.rows[k].pc.tries| - 1] == left
    && w.rows[k].tally.extensions == extensions
  }

  const LONGEST := 199.0

  lemma SlowWork(w: World, k: Key, left: nat, until: real, extensions: nat, d: real)
    returns (w': World, steps: seq<Step>)
    requires d >= LONGEST && left > 1 && Present(w, k)
    requires w.At(k.task) == Locked(k.worker, until) && w.rows[k].lockExpiresAt == Some(until)
    requires w.rows[k].pc.Working? && w.rows[k].pc.since == w.clock && w.rows[k].tally.extensions == extensions
    requires |w.rows[k].pc.tries| > 0 && w.rows[k].pc.tries[|w.rows[k].pc.tries| - 1] == left
    ensures TimelyRun(w, k, steps, d) && After(w, steps) == w'
    ensures AtStart(w', k, left - 1, until, extensions) && w'.clock == w.clock + 200.0
  {
    var w1 := Next(w, Tick(LONGEST));
    var w2 := Next(w1, Move(k, Finish(Work500)));
    var w3 := Next(w2, Tick(PAUSE));
    w' := Next(w3, Move(k, Wake));
    RunBegun(w3, k, Move(k, Wake), [], d);
    var s3 := [Move(k, Wake)] + [];
    RunBegun(w2, k, Tick(PAUSE), s3, d);
    var s2 := [Tick(PAUSE)] + s3;
    RunBegun(w1, k, Move(k, Finish(Work500)), s2, d);
    var s1 := [Move(k, Finish(Work500))] + s2;
    RunBegun(w, k, Tick(LONGEST), s1, d);
    steps := [Tick(LONGEST)] + s1;
  }

  /** An attempt of 199 seconds that ends in a 500, and the pause after it. */
  lemma SlowAttempt(w: World, k: Key, left: nat, until: real, extensions: nat, d: real)
    returns (w': World, steps: seq<Step>)
    requires d >= LONGEST && left > 1 && w.clock < until && AtStart(w, k, left, until, extensions)
    ensures TimelyRun(w, k, steps, d) && After(w, steps) == w'
    ensures AtStart(w', k, left - 1, until, extensions) && w'.clock == w.clock + 200.0
  {
    var w1 := Next(w, Move(k, Guard(true)));
    var rest;
    w', rest := SlowWork(w1, k, left, until, extensions, d);
    RunBegun(w, k, Move(k, Guard(true)), rest, d);
    steps := [Move(k, Guard(true))] + rest;
  }

  /** An attempt that finds the lock expired, extends it and starts over in a new wrapper. */
  lemma LateAttempt(w: World, k: Key, left: nat, until: real, extensions: nat, d: real)
    returns (w': World, steps: seq<Step>)
    requires until <= w.clock && AtStart(w, k, left, until, extensions)
    ensures TimelyRun(w, k, steps, d) && After(w, steps) == w'
    ensures AtStart(w', k, ATTEMPTS, w.clock + LOCK_DURATION, extensions + 1) && w'.clock == w.clock
  {
    var w1 := Next(w, Move(k, Guard(true)));
    var w2 := Next(w1, Move(k, Extend(Accept)));
    w' := Next(w2, Move(k, Recheck));
    RunBegun(w2, k, Move(k, Recheck), [], d);
    var s2 := [Move(k, Recheck)] + [];
    RunBegun(w1, k, Move(k, Extend(Accept)), s2, d);
    var s1 := [Move(k, Extend(Accept))] + s2;
    RunBegun(w, k, Move(k, Guard(true)), s1, d);
    steps := [Move(k, Guard(true))] + s1;
  }

  /** Slow attempts until one try is left. */
  lemma {:induction false} SlowAttempts(w: World, k: Key, left: nat, until: real, extensions: nat, d: real)
    returns (w': World, steps: seq<Step>)
    requires d >= LONGEST && left >= 1 && w.clock + 200.0 * (left - 1) as real <= until
    requires AtStart(w, k, left, until, extensions)
    ensures TimelyRun(w, k, steps, d) && After(w, steps) == w'
    ensures AtStart(w', k, 1, until, extensions) && w'.clock == w.clock + 200.0 * (left - 1) as real
    decreases left
  {
    if left == 1 {
      w', steps := w, [];
    } else {
      var w1, first := SlowAttempt(w, k, left, until, extensions, d);
      var rest;
      w', rest := SlowAttempts(w1, k, left - 1, until, extensions, d);
      RunContinued(w, k, first, rest, d);
      steps := first + rest;
    }
  }

  /** Three slow attempts use up the lock, so the fourth one extends it. */
  lemma ExtraRound(w: World, k: Key, extensions: nat, d: real) returns (w': World, steps: seq<Step>)
    requires d >= LONGEST && AtStart(w, k, ATTEMPTS, w.clock + LOCK_DURATION, extensions)
    ensures TimelyRun(w, k, steps, d) && After(w, steps) == w'
    ensures AtStart(w', k, ATTEMPTS, w'.clock + LOCK_DURATION, extensions + 1)
  {
    var until := w.clock + LOCK_DURATION;
    var w1, slow := SlowAttempts(w, k, ATTEMPTS, until, extensions, d);
    var late;
    w', late := LateAttempt(w1, k, 1, until, extensions, d);
    RunContinued(w, k, slow, late, d);
    steps := slow + late;
  }

  lemma {:induction false} ManyRounds(w: World, k: Key, extensions: nat, d: real, n: nat)
    returns (w': World, steps: seq<Step>)
    requires d >= LONGEST && AtStart(w, k, ATTEMPTS, w.clock + LOCK_DURATION, extensions)
    ensures TimelyRun(w, k, steps, d) && After(w, steps) == w'
    ensures k in w'.rows && w'.rows[k].tally.extensions == extensions + n
    decreases n
  {
    if n == 0 {
      w', steps := w, [];
    } else {
      var w1, first := ExtraRound(w, k, extensions, d);
      var rest;
      w', rest := ManyRounds(w1, k, extensions + 1, d, n - 1);
      RunContinued(w, k, first, rest, d);
      steps := first + rest;
    }
  }

  /** A reachable row whose delivery extends its lock n times, without anybody else around. */
  lemma SlowDelivery(d: real, n: nat) returns (w: World, k: Key, steps: seq<Step>)
    requires d >= LONGEST
    ensures Undelivered(w, k) && TimelyRun(w, k, steps, d)
    ensures k in After(w, steps).rows && After(w, steps).rows[k].tally.extensions == n
  {
    var w0 := Begin(0.0);
    k := Key("worker", "t");
    FetchOne(w0, k.worker, k.task);
    assert Legal(w0, []);
    var run: seq<Step> := [];
    w, run := Onward(w0, run, Fetch(k.worker, {k.task}));
    w, run := Onward(w0, run, Move(k, Store));
    w, run := Onward(w0, run, Move(k, Enqueue));
    assert Reachable(w);
    ReachableInv(w);
    var w1, rest := ManyRounds(Next(w, Move(k, Deliver)), k, 0, d, n);
    RunBegun(w, k, Move(k, Deliver), rest, d);
    steps := [Move(k, Deliver)] + rest;
  }

  // ----- the two together -----

  ghost predicate AlwaysCapped(d: real)
  {
    forall w, k, steps | Undelivered(w, k) && TimelyRun(w, k, steps, d) ::
      k in After(w, steps).rows && Capped(After(w, steps).rows[k])
  }

  /** In some run a timely delivery extends its lock n times. */
  ghost predicate CanExtend(d: real, n: nat)
  {
    exists w, k, steps :: Undelivered(w, k) && TimelyRun(w, k, steps, d)
                          && k in After(w, steps).rows && After(w, steps).rows[k].tally.extensions == n
  }

  /** In every run of the whole system a delivery makes at most one extension, 8 calls of execute and 7
      runs of the work unit, if and only if three attempts and their pauses fit within one lock.
      Otherwise there is no bound at all: some run has any number of extensions. */
  lemma RetryBoundIff(d: real)
    requires d >= 0.0
    ensures AlwaysCapped(d) <==> 3.0 * (d + 1.0) < LOCK_DURATION
    ensures 3.0 * (d + 1.0) >= LOCK_DURATION ==>
              forall n: nat :: CanExtend(d, n)
  {
    if 3.0 * (d + 1.0) < LOCK_DURATION {
      forall w, k, steps | Undelivered(w, k) && TimelyRun(w, k, steps, d)
        ensures k in After(w, steps).rows && Capped(After(w, steps).rows[k])
      {
        RunsAreCapped(w, k, steps, d);
      }
    } else {
      forall n: nat
        ensures CanExtend(d, n)
      {
        var w, k, steps := SlowDelivery(d, n);
      }
      var w, k, steps := SlowDelivery(d, 2);
      assert !Capped(After(w, steps).rows[k]);
    }
  }
}
