/** The worker's own code (src/bptl/camunda/tasks.py, utils.py, api.py and
    src/bptl/tasks/api.py), with its loops, its recursion and its exceptions.

    Between any two of its actions the rest of the system may take any steps; `choices` says
    which, and how each remote call ends.  When the choices run dry the process is killed.
    `Valid` states that everything the code does is a run of the system in CamundaProtocol. */
module CamundaWorker {
  import opened Wrappers
  import opened Statuses
  import Retry
  import opened CamundaRow
  import opened CamundaProtocol

  datatype Exc = HttpError(status: int) | TaskExpired | NoCallback | TaskPerformed | AttributeError | OtherError

  datatype Ending = Returned | Raised(exc: Exc) | Killed

  datatype Choice = Choice(others: seq<Step>, answer: Answer, work: WorkResult, callback: Callback, known: bool)

  /** The `exceptions` and `condition` arguments of both retry decorators. */
  predicate Expected(e: Exc)
  {
    e == HttpError(500)
  }

  /** The error a remote call raises when it is not answered with success. */
  function ErrorOf(a: Answer): Exc
  {
    match a
    case Http500 => HttpError(500)
    case Refuse => HttpError(404)
    case _ => OtherError
  }

  /** The next n choices disturb nothing: nobody else moves, and everything answers with success. */
  predicate Calm(choices: seq<Choice>, n: nat)
  {
    n <= |choices| && forall i | 0 <= i < n ::
      && choices[i].others == [] && choices[i].known && choices[i].answer.Accept? && choices[i].work.WorkDone?
      && (choices[i].callback.NoUrl? || choices[i].callback.CallbackOk?)
  }

  class Worker {
    var world: World
    var choices: seq<Choice>
    ghost const start: World
    ghost var trace: seq<Step>

    ghost predicate Valid()
      reads this
    {
      Legal(start, trace) && After(start, trace) == world
    }

    ghost predicate Has(k: Key)
      reads this
    {
      Valid() && k in world.rows && k.worker in world.workers
    }

    constructor (world: World, choices: seq<Choice>)
      ensures Valid() && this.world == world && this.choices == choices && trace == []
    {
      this.world := world;
      this.choices := choices;
      this.start := world;
      this.trace := [];
    }

    /** Whatever holds in every reachable state holds around and after this code. */
    lemma StaysReachable()
      requires Valid() && Reachable(start)
      ensures Reachable(world)
    {
      var clock, steps :| Legal(Begin(clock), steps) && After(Begin(clock), steps) == start;
      Chained(Begin(clock), steps, trace);
      assert After(Begin(clock), steps + trace) == world;
    }

    /** One step of the system. */
    method Do(s: Step)
      requires Valid() && Possible(world, s)
      modifies this`world, this`trace
      ensures Valid() && world == Next(old(world), s) && trace == old(trace) + [s]
    {
      ghost var before := trace;
      assert Legal(Next(world, s), []);
      Prefixed(world, s, []);
      Chained(start, before, [s] + []);
      assert before + ([s] + []) == before + [s];
      world := Next(world, s);
      trace := trace + [s];
    }

    /** One action of a row, seen from that row. */
    method Act(k: Key, a: Action)
      requires Has(k) && Enabled(world.rows[k], world.clock, a)
      modifies this`world, this`trace
      ensures Has(k) && old(trace) <= trace
      ensures world.rows[k] == Acted(old(world.rows[k]), old(world).At(k.task), k.worker, old(world.clock), a).0
      ensures world.At(k.task) == Acted(old(world.rows[k]), old(world).At(k.task), k.worker, old(world.clock), a).1
      ensures world.rows.Keys == old(world.rows.Keys) && world.clock == old(world.clock)
      ensures world.workers == old(world.workers)
      ensures forall other | other in world.rows && other != k :: world.rows[other] == old(world.rows[other])
    {
      Do(Move(k, a));
    }

    /** The rest of the system moves, leaving the protected rows alone. */
    method Elsewhere(protected: set<Key>) returns (choice: Option<Choice>)
      requires Valid() && forall k | k in protected :: Has(k)
      modifies this
      ensures Valid() && old(trace) <= trace
      ensures forall k | k in protected :: k in old(world.rows) && Has(k) && world.rows[k] == old(world.rows[k])
      ensures choice.None? <==> old(choices) == []
      ensures choice.None? ==> choices == [] && world == old(world)
      ensures choice.Some? ==> old(choices) != [] && choice.value == old(choices)[0] && choices == old(choices)[1..]
      ensures choice.Some? && choice.value.others == [] ==> world == old(world)
      ensures QueueGrows(old(world), world)
    {
      if choices == [] {
        return None;
      }
      var others := choices[0].others;
      choice := Some(choices[0]);
      choices := choices[1..];
      var i := 0;
      while i < |others|
        invariant 0 <= i <= |others|
        invariant Valid() && old(trace) <= trace && choices == old(choices)[1..]
        invariant forall k | k in protected :: Has(k) && world.rows[k] == old(world.rows[k])
        invariant i == 0 ==> world == old(world)
        invariant QueueGrows(old(world), world)
      {
        if Possible(world, others[i]) && !(others[i].Move? && others[i].key in protected) {
          StepKeepsQueue(world, others[i]);
          Do(others[i]);
        }
        i := i + 1;
      }
    }

    /** Anything may happen around a running delivery, including its end. */
    method Await(k: Key) returns (choice: Option<Choice>)
      requires Has(k) && !world.rows[k].pc.Idle?
      modifies this
      ensures Has(k) && old(trace) <= trace
      ensures choice.Some? ==> world.rows[k] == old(world.rows[k])
      ensures choice.Some? ==> old(choices) != [] && choice.value == old(choices)[0] && choices == old(choices)[1..]
      ensures choice.Some? && choice.value.others == [] ==> world == old(world)
      ensures choice.None? ==> world.rows[k] == CutShort(old(world.rows[k])) && choices == old(choices) == []
      ensures choice.None? ==> world.At(k.task) == old(world.At(k.task))
    {
      choice := Elsewhere({k});
      if choice.None? {
        Act(k, Crash);
      }
    }

    /** time.sleep: time passes, at least until the pause is over. */
    method Sleep(k: Key) returns (killed: bool)
      requires Has(k) && (world.rows[k].pc.Sleeping? || world.rows[k].pc.Pausing?)
      modifies this
      ensures Has(k) && old(trace) <= trace && |choices| <= |old(choices)|
      ensures killed ==> world.rows[k] == CutShort(old(world.rows[k]))
      ensures !killed ==>
                var pc := old(world.rows[k]).pc;
                && world.rows[k].pc.Starting? == pc.Sleeping? && world.rows[k].pc.Posting? == pc.Pausing?
                && (pc.Sleeping? ==> world.rows[k].pc.tries == pc.tries)
                && (pc.Pausing? ==> world.rows[k].pc.left == pc.left)
                && world.rows[k] == old(world.rows[k]).(pc := world.rows[k].pc)
    {
      var choice := Await(k);
      if choice.None? {
        return true;
      }
      var until := world.rows[k].pc.until;
      if world.clock < until {
        Do(Tick(until - world.clock));
      }
      Act(k, Wake);
      return false;
    }

    /** The retry wrapper around _execute has been told about an expected error. */
    ghost predicate ToldInner(pc: Pc, tries: seq<nat>)
      requires |tries| > 0
    {
      var last := |tries| - 1;
      if tries[last] <= 1 then pc.Reporting?
      else pc.Sleeping? && pc.tries == tries[..last] + [tries[last] - 1]
    }

    /** A killed delivery leaves its claim behind. */
    ghost predicate Died(k: Key)
      requires Has(k)
      reads this
    {
      world.rows[k].pc.Idle? && world.rows[k].crashed && world.rows[k].status != Initial
    }

    /** A claimed row whose delivery is about to start an attempt. */
    ghost predicate AtAttempt(k: Key, tries: seq<nat>)
      requires Has(k)
      reads this
    {
      && |tries| > 0 && world.rows[k].pc.Starting? && world.rows[k].pc.tries == tries
      && (world.rows[k].status == InProgress || world.rows[k].status == Failed) && !world.rows[k].crashed
    }

    /** The lock of a row is in force and does not look expired. */
    ghost predicate Current(k: Key)
      requires Has(k)
      reads this
    {
      world.At(k.task).HeldBy(k.worker) && !world.rows[k].Expired(world.clock)
    }

    /** How execute leaves the row. */
    ghost predicate Executed(k: Key, tries: seq<nat>, end: Ending)
      requires Has(k) && |tries| > 0
      reads this
    {
      match end
      case Returned =>
        world.rows[k].pc == Posting(ATTEMPTS) && world.rows[k].status == Performed && !world.rows[k].crashed
      case Killed => Died(k)
      case Raised(e) =>
        && world.rows[k].status == Failed && !world.rows[k].crashed
        && (e == TaskExpired ==> world.rows[k].pc == Extending(tries))
        && (Expected(e) ==> ToldInner(world.rows[k].pc, tries))
        && (e != TaskExpired && !Expected(e) ==> world.rows[k].pc == Reporting)
    }

    /** An execution that was not disturbed: the work unit has run once more, the engine was not asked. */
    ghost predicate RanOnce(k: Key, engine: EngineTask, tally: Tally)
      requires Has(k)
      reads this
    {
      && world.At(k.task) == engine
      && world.rows[k].tally == tally.(executes := tally.executes + 1, works := tally.works + 1)
    }

    /** The next choice is there, and nobody else moves before it. */
    ghost predicate Undisturbed()
      reads this
    {
      choices != [] && choices[0].others == []
    }

    /** execute under save_and_log: the call of the work unit and the save of its outcome. */
    method RunWorkUnit(k: Key, ghost tries: seq<nat>) returns (end: Ending)
      requires Has(k) && |tries| > 0 && world.rows[k].pc.Working? && world.rows[k].pc.tries == tries
      requires (world.rows[k].status == InProgress || world.rows[k].status == Failed) && !world.rows[k].crashed
      modifies this
      ensures Has(k) && old(trace) <= trace && Executed(k, tries, end) && end != Raised(TaskExpired)
      ensures if end.Killed? then |choices| <= |old(choices)| else |choices| < |old(choices)|
      ensures old(Calm(choices, 1)) ==>
                && end.Returned? && choices == old(choices)[1..]
                && world.At(k.task) == old(world.At(k.task)) && world.rows[k].tally == old(world.rows[k].tally)
      // only a 500 is told to the wrapper; any other error ends the execution, whatever tries are left
      ensures old(choices) == [] ==> end.Killed?
      ensures old(choices) != [] ==>
                match old(choices)[0].work
                case WorkDone => end.Returned?
                case Work500 => end == Raised(HttpError(500)) && ToldInner(world.rows[k].pc, tries)
                case WorkError => end == Raised(OtherError) && world.rows[k].pc == Reporting
    {
      var choice := Await(k);
      if choice.None? {
        return Killed;
      }
      Act(k, Finish(choice.value.work));
      match choice.value.work
      case WorkDone => return Returned;
      case Work500 => return Raised(HttpError(500));
      case WorkError => return Raised(OtherError);
    }

    /** execute under save_and_log: the guards. */
    method Execute(k: Key, ghost tries: seq<nat>) returns (end: Ending)
      requires Has(k) && AtAttempt(k, tries)
      modifies this
      ensures Has(k) && old(trace) <= trace && Executed(k, tries, end)
      ensures if end.Killed? then |choices| <= |old(choices)| else |choices| < |old(choices)|
      ensures old(Calm(choices, 2) && Current(k)) ==>
                && end.Returned? && choices == old(choices)[2..]
                && RanOnce(k, old(world.At(k.task)), old(world.rows[k].tally))
      ensures old(choices) != [] && !old(choices)[0].known ==>
                end == Raised(NoCallback) && world.rows[k].pc == Reporting
      ensures old(Undisturbed()) && old(choices)[0].known && old(world.rows[k].Expired(world.clock)) ==>
                end == Raised(TaskExpired) && world.rows[k].pc == Extending(tries)
    {
      var choice := Await(k);
      if choice.None? {
        return Killed;
      }
      var row, expired := world.rows[k], world.rows[k].Expired(world.clock);
      Act(k, Guard(choice.value.known));
      if !choice.value.known {
        return Raised(NoCallback);
      }
      if row.status == Completed || row.status == Performed {
        return Raised(TaskPerformed);
      }
      if expired {
        return Raised(TaskExpired);
      }
      end := RunWorkUnit(k, tries);
    }

    /** extend_task: the post and the re-read as one action. */
    method ExtendTask(k: Key, ghost tries: seq<nat>) returns (end: Ending)
      requires Has(k) && |tries| > 0 && world.rows[k].pc == Extending(tries)
      requires world.rows[k].status == Failed && !world.rows[k].crashed
      modifies this
      ensures Has(k) && old(trace) <= trace
      ensures end.Killed? || (|choices| < |old(choices)| && !world.rows[k].crashed)
      ensures match end
              case Returned =>
                world.rows[k].pc.Rechecking? && world.rows[k].pc.tries == tries && world.rows[k].status == Failed
              case Killed => Died(k) && |choices| <= |old(choices)|
              case Raised(e) =>
                && world.rows[k].status == Failed && e != TaskExpired
                && (if Expected(e) then ToldInner(world.rows[k].pc, tries) else world.rows[k].pc == Reporting)
      // the holder gets another 600 seconds, a 500 is retried, and any other answer ends the execution
      ensures old(Undisturbed()) && old(world.At(k.task).HeldBy(k.worker)) ==>
                match old(choices)[0].answer
                case Accept =>
                  && end.Returned? && world.At(k.task) == Locked(k.worker, world.clock + 600.0)
                  && world.rows[k].lockExpiresAt == Some(world.clock + 600.0)
                case Http500 => end == Raised(HttpError(500)) && ToldInner(world.rows[k].pc, tries)
                case _ => end.Raised? && world.rows[k].pc == Reporting
      ensures old(Undisturbed()) && !old(world.At(k.task).HeldBy(k.worker)) ==>
                !end.Returned? && world.At(k.task) == old(world.At(k.task))
    {
      var choice := Await(k);
      if choice.None? {
        return Killed;
      }
      var answer := Comply(world.At(k.task), k.worker, choice.value.answer);
      Act(k, Extend(choice.value.answer));
      return if answer.Accept? then Returned else Raised(ErrorOf(answer));
    }

    /** The body of _execute, the function inside the wrapper. */
    method ExecuteBody(k: Key, ghost tries: seq<nat>) returns (end: Ending)
      requires Has(k) && AtAttempt(k, tries)
      modifies this
      ensures Has(k) && old(trace) <= trace
      ensures end.Killed? || (|choices| < |old(choices)| && !world.rows[k].crashed)
      ensures match end
              case Returned => world.rows[k].pc == Posting(ATTEMPTS) && world.rows[k].status == Performed
              case Killed => Died(k) && |choices| <= |old(choices)|
              case Raised(e) =>
                && world.rows[k].status == Failed
                && (if Expected(e) then ToldInner(world.rows[k].pc, tries) else world.rows[k].pc == Reporting)
      ensures old(Calm(choices, 2) && Current(k)) ==>
                && end.Returned? && choices == old(choices)[2..]
                && RanOnce(k, old(world.At(k.task)), old(world.rows[k].tally))
      decreases |choices|, 0
    {
      end := Execute(k, tries);
      if end != Raised(TaskExpired) {
        return end;
      }
      end := ExtendTask(k, tries);
      if !end.Returned? {
        return end;
      }
      var choice := Await(k);
      if choice.None? {
        return Killed;
      }
      var expired := world.rows[k].Expired(world.clock);
      Act(k, Recheck);
      if expired {
        return Raised(TaskExpired);
      }
      end := RetriedExecute(k, tries);
    }

    /** _execute with its wrapper.  An expected error never leaves it: when the tries are spent,
        on_failure receives the exception as its task and fails with an AttributeError. */
    method RetriedExecute(k: Key, ghost outer: seq<nat>) returns (end: Ending)
      requires Has(k) && AtAttempt(k, outer + [ATTEMPTS])
      modifies this
      ensures Has(k) && old(trace) <= trace
      ensures end.Killed? || (|choices| < |old(choices)| && !world.rows[k].crashed)
      ensures match end
              case Returned => world.rows[k].pc == Posting(ATTEMPTS) && world.rows[k].status == Performed
              case Killed => Died(k) && |choices| <= |old(choices)|
              case Raised(e) => !Expected(e) && world.rows[k].status == Failed && world.rows[k].pc == Reporting
      ensures old(Calm(choices, 2) && Current(k)) ==>
                && end.Returned? && choices == old(choices)[2..]
                && RanOnce(k, old(world.At(k.task)), old(world.rows[k].tally))
      decreases |choices|, 1
    {
      var triesLeft: nat := Retry.CAMUNDA.Attempts();
      while true
        invariant 0 < triesLeft <= ATTEMPTS
        invariant Has(k) && AtAttempt(k, outer + [triesLeft]) && old(trace) <= trace
        invariant |choices| <= |old(choices)|
        invariant old(Calm(choices, 2) && Current(k)) ==> world == old(world) && choices == old(choices)
        decreases |choices|
      {
        end := ExecuteBody(k, outer + [triesLeft]);
        if end.Returned? || end.Killed? || !Expected(end.exc) {
          return end;
        }
        assert (outer + [triesLeft])[..|outer|] == outer;
        triesLeft := triesLeft - 1;
        if triesLeft < 1 {
          return Raised(AttributeError);
        }
        var killed := Sleep(k);
        if killed {
          return Killed;
        }
      }
    }

    /** The outcome of a failure report: from the holder, and unless the engine refuses or has a 500, it
        makes an incident, also when the response is lost; otherwise the engine's task is as before. */
    ghost predicate ReportTaken(k: Key, wish: Answer, before: EngineTask)
      requires Has(k)
      reads this
    {
      if before.HeldBy(k.worker) && (wish.Accept? || wish.Lost?) then
        world.At(k.task) == Incident && world.rows[k].reported
      else
        world.At(k.task) == before
    }

    /** fail_task at the end of a failed execution.  Its own error escapes the delivery. */
    method FailTask(k: Key) returns (end: Ending)
      requires Has(k) && world.rows[k].pc == Reporting && world.rows[k].status == Failed && !world.rows[k].crashed
      modifies this
      ensures Has(k) && old(trace) <= trace
      ensures if end.Killed? then Died(k)
              else
                && world.rows[k].pc == Idle && world.rows[k].status == Failed
                && world.rows[k].sent && !world.rows[k].crashed
      ensures old(Undisturbed()) ==> ReportTaken(k, old(choices)[0].answer, old(world.At(k.task)))
      ensures old(Undisturbed()) ==>
                (end.Returned? <==> old(world.At(k.task).HeldBy(k.worker)) && old(choices)[0].answer.Accept?)
    {
      var choice := Await(k);
      if choice.None? {
        return Killed;
      }
      var answer := Comply(world.At(k.task), k.worker, choice.value.answer);
      Act(k, Report(choice.value.answer));
      return if answer.Accept? then Returned else Raised(ErrorOf(answer));
    }

    /** How one call of complete_task leaves the row. */
    ghost predicate Completing(k: Key, left: nat, end: Ending)
      requires Has(k)
      reads this
    {
      match end
      case Returned => world.rows[k].pc == Idle && world.rows[k].status == Completed
      case Killed => Died(k)
      case Raised(e) =>
        if !Expected(e) then world.rows[k].pc == Idle && world.rows[k].status == Failed
        else world.rows[k].status == Performed
             // before the next post there is a pause of one second
             && world.rows[k].pc == if left <= 1 then Surrendering else Pausing(left - 1, world.clock + 1.0)
    }

    /** The request to the engine, and what its answer does to the row. */
    method PostComplete(k: Key, ghost left: nat, wish: Answer) returns (answer: Answer)
      requires Has(k) && world.rows[k].pc == Posting(left)
      requires world.rows[k].status == Performed && !world.rows[k].crashed
      modifies this`world, this`trace
      ensures Has(k) && old(trace) <= trace && !world.rows[k].crashed && world.rows[k].tally == old(world.rows[k].tally)
      ensures answer == Comply(old(world).At(k.task), k.worker, wish)
      ensures if answer.Accept? then
                && world.rows[k].pc == Notifying(left) && world.rows[k].status == Performed
                && world.At(k.task) == Closed(k.worker)
              else Completing(k, left, Raised(ErrorOf(answer)))
      ensures answer.Accept? <==> old(world.At(k.task).HeldBy(k.worker)) && wish.Accept?
      ensures !answer.Accept? ==>
                world.At(k.task) == if old(world.At(k.task).HeldBy(k.worker)) && wish.Lost? then Closed(k.worker)
                                    else old(world.At(k.task))
      ensures old(world.At(k.task).HeldBy(k.worker)) ==>
                (world.rows[k].status == Performed <==> wish.Accept? || wish.Http500?)
    {
      answer := Comply(world.At(k.task), k.worker, wish);
      Act(k, Post(wish));
    }

    /** The engine has closed the task for this row, and nothing more was executed. */
    ghost predicate Settled(k: Key, tally: Tally)
      requires Has(k)
      reads this
    {
      world.At(k.task) == Closed(k.worker) && world.rows[k].tally == tally
    }

    /** The answer of the callbackUrl. */
    method Notified(k: Key, ghost left: nat, callback: Callback) returns (end: Ending)
      requires Has(k) && world.rows[k].pc == Notifying(left)
      requires world.rows[k].status == Performed && !world.rows[k].crashed
      modifies this`world, this`trace
      ensures Has(k) && old(trace) <= trace && !world.rows[k].crashed && Completing(k, left, end)
      ensures world.At(k.task) == old(world.At(k.task)) && world.rows[k].tally == old(world.rows[k].tally)
      ensures match callback
              case CallbackFails500 => end == Raised(HttpError(500)) && world.rows[k].status == Performed
              case CallbackFails => end == Raised(OtherError) && world.rows[k].status == Failed
              case _ => end.Returned? && world.rows[k].status == Completed
    {
      Act(k, Notify(callback));
      match callback
      case NoUrl => return Returned;
      case CallbackOk => return Returned;
      case CallbackFails500 => return Raised(HttpError(500));
      case CallbackFails => return Raised(OtherError);
    }

    /** The callbackUrl, after the engine has accepted. */
    method CallBack(k: Key, ghost left: nat) returns (end: Ending)
      requires Has(k) && world.rows[k].pc == Notifying(left)
      requires world.rows[k].status == Performed && !world.rows[k].crashed
      modifies this
      ensures Has(k) && old(trace) <= trace
      ensures end.Killed? || (|choices| < |old(choices)| && !world.rows[k].crashed)
      ensures Completing(k, left, end) && |choices| <= |old(choices)|
      ensures old(Calm(choices, 1) && world.At(k.task) == Closed(k.worker)) ==>
                end.Returned? && Settled(k, old(world.rows[k].tally))
      // the row is completed only when the callback is absent or answers, and only a 500 is retried
      ensures old(choices) == [] ==> end.Killed? && world.At(k.task) == old(world.At(k.task))
      ensures old(choices) != [] ==>
                match old(choices)[0].callback
                case CallbackFails500 => end == Raised(HttpError(500)) && world.rows[k].status == Performed
                case CallbackFails => end == Raised(OtherError) && world.rows[k].status == Failed
                case _ => end.Returned? && world.rows[k].status == Completed
    {
      var choice := Await(k);
      if choice.None? {
        return Killed;
      }
      end := Notified(k, left, choice.value.callback);
    }

    /** One call of complete_task: the post, then the callback. */
    method CompleteOnce(k: Key, ghost left: nat) returns (end: Ending)
      requires Has(k) && world.rows[k].pc == Posting(left)
      requires world.rows[k].status == Performed && !world.rows[k].crashed
      modifies this
      ensures Has(k) && old(trace) <= trace
      ensures end.Killed? || (|choices| < |old(choices)| && !world.rows[k].crashed)
      ensures Completing(k, left, end) && |choices| <= |old(choices)|
      ensures old(Calm(choices, 2) && world.At(k.task).HeldBy(k.worker)) ==>
                end.Returned? && Settled(k, old(world.rows[k].tally))
      ensures old(Undisturbed()) && old(world.At(k.task).HeldBy(k.worker)) ==>
                match old(choices)[0].answer
                case Accept => |old(choices)| == 1 ==> end.Killed? && world.At(k.task) == Closed(k.worker)
                case Http500 => end == Raised(HttpError(500)) && world.rows[k].status == Performed
                case _ => end.Raised? && world.rows[k].pc == Idle && world.rows[k].status == Failed
      ensures old(Undisturbed()) && !old(world.At(k.task).HeldBy(k.worker)) ==>
                !end.Returned? && world.At(k.task) == old(world.At(k.task))
    {
      var choice := Await(k);
      if choice.None? {
        return Killed;
      }
      var answer := PostComplete(k, left, choice.value.answer);
      if !answer.Accept? {
        return Raised(ErrorOf(answer));
      }
      end := CallBack(k, left);
    }

    /** fail_retried_complete, then the status failed that save_and_log writes in any case. */
    method Surrendered(k: Key) returns (end: Ending)
      requires Has(k) && world.rows[k].pc == Surrendering && world.rows[k].status == Performed && !world.rows[k].crashed
      modifies this
      ensures Has(k) && old(trace) <= trace
      ensures !end.Returned?
      ensures if end.Killed? then Died(k)
              else
                && world.rows[k].pc == Idle && world.rows[k].status == Failed
                && world.rows[k].sent && !world.rows[k].crashed
      ensures old(Undisturbed()) && (|old(choices)| == 1 || old(choices)[1].others == []) ==>
                ReportTaken(k, old(choices)[0].answer, old(world.At(k.task)))
    {
      var choice := Await(k);
      if choice.None? {
        return Killed;
      }
      var answer := Comply(world.At(k.task), k.worker, choice.value.answer);
      Act(k, Surrender(choice.value.answer));
      var last := Await(k);
      if last.None? {
        return Killed;
      }
      Act(k, Resign);
      return Raised(if answer.Accept? then HttpError(500) else ErrorOf(answer));
    }

    /** complete under save_and_log, with the wrapper around complete_task. */
    method Complete(k: Key) returns (end: Ending)
      requires Has(k) && world.rows[k].pc == Posting(ATTEMPTS)
      requires world.rows[k].status == Performed && !world.rows[k].crashed
      modifies this
      ensures Has(k) && old(trace) <= trace
      ensures if end.Killed? then Died(k)
              else world.rows[k].pc == Idle && !world.rows[k].crashed
                   && world.rows[k].status == if end.Returned? then Completed else Failed
      ensures old(Calm(choices, 2) && world.At(k.task).HeldBy(k.worker)) ==>
                end.Returned? && Settled(k, old(world.rows[k].tally))
    {
      var triesLeft: nat := Retry.CAMUNDA.Attempts();
      while true
        invariant 0 < triesLeft <= ATTEMPTS
        invariant Has(k) && old(trace) <= trace && world.rows[k].pc == Posting(triesLeft)
        invariant world.rows[k].status == Performed && !world.rows[k].crashed
        invariant old(Calm(choices, 2) && world.At(k.task).HeldBy(k.worker)) ==>
                  world == old(world) && choices == old(choices)
        decreases |choices|
      {
        end := CompleteOnce(k, triesLeft);
        if end.Returned? || end.Killed? || !Expected(end.exc) {
          return end;
        }
        triesLeft := triesLeft - 1;
        if triesLeft < 1 {
          end := Surrendered(k);
          return end;
        }
        var killed := Sleep(k);
        if killed {
          return Killed;
        }
      }
    }

    /** The check that makes a delivery idempotent, and the save of the claim. */
    method Claim(k: Key) returns (status: Status)
      requires Has(k) && world.rows[k].stage.Enqueued? && world.rows[k].pc.Idle?
      requires world.rows[k].status == Initial ==> !world.rows[k].crashed
      modifies this`world, this`trace
      ensures Has(k) && old(trace) <= trace && status == old(world.rows[k].status)
      ensures status != Initial ==> world.rows[k] == old(world.rows[k])
      ensures status == Initial ==> AtAttempt(k, [] + [ATTEMPTS])
      ensures old(Current(k)) ==> Current(k)
      ensures world.At(k.task) == old(world.At(k.task)) && world.clock == old(world.clock)
      ensures world.rows[k].tally.executes == old(world.rows[k].tally.executes)
      ensures world.rows[k].tally.works == old(world.rows[k].tally.works)
    {
      status := world.rows[k].status;
      Act(k, Deliver);
    }

    /** task_execute_and_complete.  A row that is not initial is left exactly as it is; otherwise
        the delivery ends completed or failed, unless it is killed, and then the claim remains. */
    method TaskExecuteAndComplete(k: Key) returns (end: Ending)
      requires Has(k) && world.rows[k].stage.Enqueued? && world.rows[k].pc.Idle?
      requires world.rows[k].status == Initial ==> !world.rows[k].crashed
      modifies this
      ensures Has(k) && old(trace) <= trace
      ensures old(world.rows[k]).status != Initial ==> end.Returned? && world.rows[k] == old(world.rows[k])
      ensures old(world.rows[k]).status == Initial && !end.Killed? ==>
                world.rows[k].pc == Idle && (world.rows[k].status == Completed || world.rows[k].status == Failed)
      ensures old(world.rows[k]).status == Initial && end.Killed? ==> Died(k)
      // undisturbed and in time, the work unit runs once and the task is completed
      ensures old(world.rows[k].status == Initial && Current(k) && Calm(choices, 4)) ==>
                && end.Returned? && world.rows[k].status == Completed && world.At(k.task) == Closed(k.worker)
                && world.rows[k].tally.executes == old(world.rows[k].tally.executes) + 1
                && world.rows[k].tally.works == old(world.rows[k].tally.works) + 1
    {
      var status := Claim(k);
      if status != Initial {
        return Returned;
      }
      end := RetriedExecute(k, []);
      match end
      case Killed => return Killed;
      case Raised(_) =>
        end := FailTask(k);
        return end;
      case Returned =>
        end := Complete(k);
        return if end.Killed? then Killed else Returned;
    }

    /** The rows this worker id has for the given tasks all look like `row`. */
    ghost predicate Are(worker: WorkerId, tasks: seq<TaskId>, row: Row)
      reads this
    {
      forall t | t in tasks :: Has(Key(worker, t)) && world.rows[Key(worker, t)] == row
    }

    ghost predicate Distinct(tasks: seq<TaskId>)
    {
      forall i, j | 0 <= i < j < |tasks| :: tasks[i] != tasks[j]
    }

    ghost predicate AllQueued(worker: WorkerId, tasks: seq<TaskId>)
      reads this
    {
      Valid() && forall t | t in tasks :: IsQueued(world, Key(worker, t))
    }

    /** The first i tasks have records, for the others the response is still being handled. */
    ghost predicate HalfStored(worker: WorkerId, tasks: seq<TaskId>, i: nat, fetched: Row)
      requires i <= |tasks|
      reads this
    {
      Are(worker, tasks[..i], fetched.(stage := Stored)) && Are(worker, tasks[i..], fetched)
    }

    /** The first i rows are queued, the others only exist. */
    ghost predicate HalfQueued(worker: WorkerId, tasks: seq<TaskId>, i: nat, stored: Row)
      requires i <= |tasks|
      reads this
    {
      AllQueued(worker, tasks[..i]) && Are(worker, tasks[i..], stored)
    }

    /** A record is created for the first of the tasks that are left. */
    method StoreOne(worker: WorkerId, t: TaskId, ghost done: seq<TaskId>, ghost rest: seq<TaskId>, ghost fetched: Row)
      requires fetched.stage.InFlight? && t !in done && t !in rest
      requires Are(worker, done, fetched.(stage := Stored)) && Are(worker, [t] + rest, fetched)
      modifies this`world, this`trace
      ensures Valid() && old(trace) <= trace
      ensures Are(worker, done + [t], fetched.(stage := Stored)) && Are(worker, rest, fetched)
    {
      assert t in [t] + rest && forall other | other in rest :: other in [t] + rest;
      Act(Key(worker, t), Store);
    }

    /** Others move, but not the rows of these tasks. */
    method Pause(worker: WorkerId, tasks: seq<TaskId>, mine: set<Key>, i: nat, ghost done: Row, ghost waiting: Row)
      returns (killed: bool)
      requires mine == (set t | t in tasks :: Key(worker, t)) && i <= |tasks|
      requires Are(worker, tasks[..i], done) && Are(worker, tasks[i..], waiting) && Valid()
      modifies this
      ensures Valid() && old(trace) <= trace
      ensures Are(worker, tasks[..i], done) && Are(worker, tasks[i..], waiting)
      ensures killed <==> old(choices) == []
      ensures !killed ==> choices == old(choices)[1..]
    {
      assert forall t | t in tasks :: t in tasks[..i] || t in tasks[i..];
      var choice := Elsewhere(mine);
      assert forall t | t in tasks :: Key(worker, t) in mine;
      return choice.None?;
    }

    /** fetch_and_lock, after the response: one record per task.  Nobody else knows them yet. */
    method StoreAll(worker: WorkerId, tasks: seq<TaskId>, ghost fetched: Row) returns (killed: bool)
      requires Valid() && Distinct(tasks) && Are(worker, tasks, fetched) && fetched.stage.InFlight?
      modifies this
      ensures Valid() && old(trace) <= trace
      ensures killed <==> |old(choices)| < |tasks|
      ensures !killed ==> Are(worker, tasks, fetched.(stage := Stored)) && |choices| == |old(choices)| - |tasks|
      ensures killed ==> HalfStored(worker, tasks, |old(choices)|, fetched)
    {
      var mine := set t | t in tasks :: Key(worker, t);
      var i := 0;
      while i < |tasks|
        invariant 0 <= i <= |tasks| && Valid() && old(trace) <= trace
        invariant HalfStored(worker, tasks, i, fetched)
        invariant i <= |old(choices)| && |choices| == |old(choices)| - i
      {
        killed := Pause(worker, tasks, mine, i, fetched.(stage := Stored), fetched);
        if killed {
          return true;
        }
        assert tasks[i..] == [tasks[i]] + tasks[i + 1..];
        assert tasks[..i + 1] == tasks[..i] + [tasks[i]];
        StoreOne(worker, tasks[i], tasks[..i], tasks[i + 1..], fetched);
        i := i + 1;
      }
      assert tasks[..i] == tasks;
      return false;
    }

    /** The first of the rows that are left is logged and queued. */
    method QueueOne(worker: WorkerId, t: TaskId, ghost done: seq<TaskId>, ghost rest: seq<TaskId>, ghost stored: Row)
      requires stored.stage.Stored? && stored.log == [] && stored.status == Initial && t !in rest
      requires AllQueued(worker, done) && Are(worker, [t] + rest, stored)
      modifies this`world, this`trace
      ensures Valid() && old(trace) <= trace
      ensures AllQueued(worker, done + [t]) && Are(worker, rest, stored)
    {
      assert t in [t] + rest && forall other | other in rest :: other in [t] + rest;
      StepKeepsQueue(world, Move(Key(worker, t), Enqueue));
      Act(Key(worker, t), Enqueue);
    }

    /** Others move, but not the rows that are not queued yet. */
    method PauseQueueing(worker: WorkerId, tasks: seq<TaskId>, i: nat, ghost stored: Row) returns (killed: bool)
      requires i <= |tasks| && Valid() && HalfQueued(worker, tasks, i, stored)
      modifies this
      ensures Valid() && old(trace) <= trace && HalfQueued(worker, tasks, i, stored)
      ensures killed <==> old(choices) == []
      ensures !killed ==> choices == old(choices)[1..]
    {
      var left := set t | t in tasks[i..] :: Key(worker, t);
      var choice := Elsewhere(left);
      assert forall t | t in tasks[i..] :: Key(worker, t) in left;
      return choice.None?;
    }

    /** The loop of task_fetch_and_lock.  Rows that are queued already may be delivered meanwhile. */
    method QueueAll(worker: WorkerId, tasks: seq<TaskId>, ghost stored: Row) returns (killed: bool)
      requires Valid() && Distinct(tasks) && Are(worker, tasks, stored)
      requires stored.stage.Stored? && stored.log == [] && stored.status == Initial
      modifies this
      ensures Valid() && old(trace) <= trace
      ensures killed <==> |old(choices)| < |tasks|
      ensures !killed ==> AllQueued(worker, tasks)
      ensures killed ==> HalfQueued(worker, tasks, |old(choices)|, stored)
    {
      var i := 0;
      while i < |tasks|
        invariant 0 <= i <= |tasks| && Valid() && old(trace) <= trace
        invariant HalfQueued(worker, tasks, i, stored)
        invariant i <= |old(choices)| && |choices| == |old(choices)| - i
      {
        killed := PauseQueueing(worker, tasks, i, stored);
        if killed {
          return true;
        }
        assert tasks[i..] == [tasks[i]] + tasks[i + 1..];
        assert tasks[..i + 1] == tasks[..i] + [tasks[i]];
        QueueOne(worker, tasks[i], tasks[..i], tasks[i + 1..], stored);
        i := i + 1;
      }
      assert tasks[..i] == tasks;
      return false;
    }

    /** fetch_and_lock, up to the engine's response. */
    method FetchRows(worker: WorkerId, response: seq<TaskId>)
      requires Valid() && worker !in world.workers
      requires forall t | t in response :: world.At(t).Lockable(world.clock)
      modifies this`world, this`trace
      ensures Valid() && old(trace) <= trace
      ensures Are(worker, response, Fetched(old(world).clock + LOCK_DURATION))
    {
      var tasks := set t | t in response;
      ghost var before := world;
      Do(Fetch(worker, tasks));
      forall t | t in response
        ensures Has(Key(worker, t)) && world.rows[Key(worker, t)] == Fetched(before.clock + LOCK_DURATION)
      {
        FetchedRow(before, worker, tasks, t);
      }
    }

    /** task_fetch_and_lock: the engine locks, then every task of its response becomes a row, and
        only after that are the rows logged and queued, one by one; a queued row is the worker's from
        that moment.  A kill leaves the first rows of the batch one stage ahead of the others. */
    method TaskFetchAndLock(worker: WorkerId, response: seq<TaskId>) returns (killed: bool)
      requires Valid() && worker !in world.workers && Distinct(response)
      requires forall t | t in response :: world.At(t).Lockable(world.clock)
      modifies this
      ensures Valid() && old(trace) <= trace
      ensures killed <==> |old(choices)| < 2 * |response|
      ensures !killed ==> AllQueued(worker, response)
      ensures |old(choices)| < |response| ==>
                HalfStored(worker, response, |old(choices)|, Fetched(old(world).clock + LOCK_DURATION))
      ensures |response| <= |old(choices)| < 2 * |response| ==>
                HalfQueued(worker, response, |old(choices)| - |response|,
                           Fetched(old(world).clock + LOCK_DURATION).(stage := Stored))
    {
      ghost var fetched := Fetched(world.clock + LOCK_DURATION);
      FetchRows(worker, response);
      killed := StoreAll(worker, response, fetched);
      if !killed {
        killed := QueueAll(worker, response, fetched.(stage := Stored));
      }
    }
  }
}
