/** How internal tasks of OpenKlant become local rows (src/bptl/openklant/utils.py:
    fetch_and_patch).  Steps of polls, of OpenKlant itself, and crashes in between. */
module OpenKlantIntake {
  import opened Filters
  import opened Wrappers

  type Url = string

  datatype RemoteStatus = TeVerwerken | Verwerkt

  /** `handeling` is gevraagdeHandeling, which a task need not have. */
  datatype RemoteTask = RemoteTask(status: RemoteStatus, handeling: Option<string>)

  /** A poll in progress: the allowed tasks it fetched, how many of them it has marked as
      "verwerkt", and how many rows it has created. */
  datatype Poll = Poll(found: seq<Url>, marked: nat, created: nat)

  /** `rows` lists the local rows by the task they were made for, oldest first. */
  datatype State = State(remote: map<Url, RemoteTask>, rows: seq<Url>, poll: Option<Poll>)

  datatype Step =
    | Publish(url: Url, handeling: Option<string>)       // a new task appears in OpenKlant
    | HandledElsewhere(url: Url)                 // somebody else processes it there
    | Fetch(allowed: set<string>, order: seq<Url>)
    | MarkNext(ok: bool)
    | CreateNext
    | Finish
    | Crash

  predicate Allowed(handeling: Option<string>, allowed: set<string>)
  {
    handeling.Some? && handeling.value in allowed
  }

  /** The allowed tasks that are "te_verwerken", in some order. */
  ghost predicate Found(remote: map<Url, RemoteTask>, allowed: set<string>, order: seq<Url>)
  {
    && (forall i, j | 0 <= i < j < |order| :: order[i] != order[j])
    && (forall url :: url in order <==>
          url in remote && remote[url].status == TeVerwerken && Allowed(remote[url].handeling, allowed))
  }

  ghost predicate Possible(s: State, step: Step)
  {
    match step
    case Publish(url, _) => url !in s.remote
    case HandledElsewhere(url) => url in s.remote
    case Fetch(allowed, order) => s.poll.None? && Found(s.remote, allowed, order)
    case MarkNext(_) => s.poll.Some? && s.poll.value.marked < |s.poll.value.found|
    case CreateNext =>
      s.poll.Some? && s.poll.value.marked == |s.poll.value.found| && s.poll.value.created < |s.poll.value.found|
    case Finish =>
      s.poll.Some? && s.poll.value.marked == s.poll.value.created == |s.poll.value.found|
    case Crash => s.poll.Some?
  }

  function Marked(remote: map<Url, RemoteTask>, url: Url): map<Url, RemoteTask>
  {
    if url in remote then remote[url := remote[url].(status := Verwerkt)] else remote
  }

  ghost function Next(s: State, step: Step): State
    requires Possible(s, step)
  {
    match step
    case Publish(url, handeling) => s.(remote := s.remote[url := RemoteTask(TeVerwerken, handeling)])
    case HandledElsewhere(url) => s.(remote := Marked(s.remote, url))
    case Fetch(_, order) => s.(poll := Some(Poll(order, 0, 0)))
    case MarkNext(ok) =>
      // an error ends the poll; nothing is undone
      if !ok then s.(poll := None)
      else s.(remote := Marked(s.remote, s.poll.value.found[s.poll.value.marked]),
              poll := Some(s.poll.value.(marked := s.poll.value.marked + 1)))
    case CreateNext =>
      s.(rows := s.rows + [s.poll.value.found[s.poll.value.created]],
         poll := Some(s.poll.value.(created := s.poll.value.created + 1)))
    case Finish => s.(poll := None)
    case Crash => s.(poll := None)
  }

  // ----- safety -----

  ghost predicate Distinct(urls: seq<Url>)
  {
    forall i, j | 0 <= i < j < |urls| :: urls[i] != urls[j]
  }

  ghost predicate Processed(s: State, url: Url)
  {
    url in s.remote && s.remote[url].status == Verwerkt
  }

  ghost predicate Inv(s: State)
  {
    && Distinct(s.rows)
    && (forall url | url in s.rows :: Processed(s, url))
    && (s.poll.Some? ==>
          var poll := s.poll.value;
          && poll.created <= poll.marked <= |poll.found|
          && (poll.created > 0 ==> poll.marked == |poll.found|)
          && Distinct(poll.found)
          && (forall i | 0 <= i < |poll.found| :: poll.found[i] in s.remote)
          && (forall i | 0 <= i < poll.marked :: Processed(s, poll.found[i]))
          // what this poll has yet to create has no row so far
          && (forall i | poll.created <= i < |poll.found| :: poll.found[i] !in s.rows))
  }

  lemma CreateKeepsInv(s: State)
    requires Inv(s) && Possible(s, CreateNext)
    ensures Inv(Next(s, CreateNext))
  {
    var poll := s.poll.value;
    var url := poll.found[poll.created];
    assert Processed(s, url);
    assert forall i | 0 <= i < |s.rows| :: s.rows[i] in s.rows;
    assert forall i | poll.created < i < |poll.found| :: poll.found[i] != url;
  }

  lemma StepKeepsInv(s: State, step: Step)
    requires Inv(s) && Possible(s, step)
    ensures Inv(Next(s, step))
  {
    match step
    case Fetch(allowed, order) =>
      forall i | 0 <= i < |order|
        ensures order[i] in s.remote && order[i] !in s.rows
      {
        assert order[i] in order;
        assert order[i] in s.rows ==> Processed(s, order[i]);
      }
    case CreateNext => CreateKeepsInv(s);
    case _ =>
  }

  ghost predicate Legal(s: State, steps: seq<Step>)
    decreases |steps|
  {
    steps == [] || (Possible(s, steps[0]) && Legal(Next(s, steps[0]), steps[1..]))
  }

  ghost function After(s: State, steps: seq<Step>): State
    requires Legal(s, steps)
    decreases |steps|
  {
    if steps == [] then s else After(Next(s, steps[0]), steps[1..])
  }

  lemma {:induction false} RunKeepsInv(s: State, steps: seq<Step>)
    requires Inv(s) && Legal(s, steps)
    ensures Inv(After(s, steps))
    decreases |steps|
  {
    if steps == [] {
    } else {
      StepKeepsInv(s, steps[0]);
      RunKeepsInv(Next(s, steps[0]), steps[1..]);
    }
  }

  const EMPTY := State(map[], [], None)

  /** With crashes and remote errors anywhere: every local row's task is marked "verwerkt" in
      OpenKlant, and no task ever gets a second row. */
  lemma IntakeIsSafe(steps: seq<Step>)
    requires Legal(EMPTY, steps)
    ensures Distinct(After(EMPTY, steps).rows)
    ensures forall url | url in After(EMPTY, steps).rows :: Processed(After(EMPTY, steps), url)
  {
    RunKeepsInv(EMPTY, steps);
  }

  // ----- what is lost -----

  /** No poll will ever find the task: it is no longer "te_verwerken", or no handeling is asked for it. */
  predicate OutOfReach(s: State, url: Url)
  {
    url in s.remote && (s.remote[url].status == Verwerkt || s.remote[url].handeling.None?)
  }

  function Created(poll: Poll): (n: nat)
    ensures n <= |poll.found|
  {
    if poll.created <= |poll.found| then poll.created else |poll.found|
  }

  lemma StaysOutOfReach(s: State, step: Step, url: Url)
    requires Possible(s, step) && OutOfReach(s, url) && url !in s.rows
    requires s.poll.Some? ==> url !in s.poll.value.found[Created(s.poll.value)..]
    ensures var s' := Next(s, step);
            && OutOfReach(s', url) && url !in s'.rows
            && (s'.poll.Some? ==> url !in s'.poll.value.found[Created(s'.poll.value)..])
  {
    if step.CreateNext? {
      var poll := s.poll.value;
      assert poll.found[poll.created] == poll.found[poll.created..][0];
      assert poll.found[poll.created + 1..] == poll.found[poll.created..][1..];
    }
  }

  /** Nothing but a poll that has found it already can create a row for such a task. */
  lemma {:induction false} LostForGood(s: State, steps: seq<Step>, url: Url)
    requires Legal(s, steps) && OutOfReach(s, url) && url !in s.rows
    requires s.poll.Some? ==> url !in s.poll.value.found[Created(s.poll.value)..]
    ensures url !in After(s, steps).rows
    decreases |steps|
  {
    if steps == [] {
    } else {
      StaysOutOfReach(s, steps[0], url);
      LostForGood(Next(s, steps[0]), steps[1..], url);
    }
  }

  /** A poll that ends after marking a task but before creating its row has lost that task for good. */
  lemma EndedPollLoses(s: State, last: Step, steps: seq<Step>, i: nat)
    requires Inv(s) && s.poll.Some? && Possible(s, last) && (last == MarkNext(false) || last == Crash)
    requires s.poll.value.created <= i < s.poll.value.marked
    requires Legal(Next(s, last), steps)
    ensures s.poll.value.found[i] !in After(Next(s, last), steps).rows
  {
    assert Processed(s, s.poll.value.found[i]);
    LostForGood(Next(s, last), steps, s.poll.value.found[i]);
  }

  ghost predicate CanGetRow(s: State, url: Url)
  {
    exists steps :: Legal(s, steps) && url in After(s, steps).rows
  }

  lemma {:induction false} MarkRest(s: State) returns (steps: seq<Step>)
    requires s.poll.Some? && s.poll.value.marked <= |s.poll.value.found| && s.poll.value.created == 0
    ensures Legal(s, steps) && After(s, steps).rows == s.rows
    ensures After(s, steps).poll == Some(Poll(s.poll.value.found, |s.poll.value.found|, 0))
    decreases |s.poll.value.found| - s.poll.value.marked
  {
    if s.poll.value.marked == |s.poll.value.found| {
      steps := [];
    } else {
      var rest := MarkRest(Next(s, MarkNext(true)));
      steps := [MarkNext(true)] + rest;
      assert steps[1..] == rest;
    }
  }

  lemma {:induction false} CreateRest(s: State) returns (steps: seq<Step>)
    requires s.poll.Some? && s.poll.value.marked == |s.poll.value.found| && s.poll.value.created <= |s.poll.value.found|
    ensures Legal(s, steps) && After(s, steps).rows == s.rows + s.poll.value.found[s.poll.value.created..]
    decreases |s.poll.value.found| - s.poll.value.created
  {
    var poll := s.poll.value;
    if poll.created == |poll.found| {
      steps := [];
    } else {
      var rest := CreateRest(Next(s, CreateNext));
      steps := [CreateNext] + rest;
      assert steps[1..] == rest;
      assert poll.found[poll.created..] == [poll.found[poll.created]] + poll.found[poll.created + 1..];
    }
  }

  lemma {:induction false} Chained(s: State, first: seq<Step>, second: seq<Step>)
    requires Legal(s, first) && Legal(After(s, first), second)
    ensures Legal(s, first + second) && After(s, first + second) == After(After(s, first), second)
    decreases |first|
  {
    if first == [] {
      assert first + second == second;
    } else {
      assert (first + second)[1..] == first[1..] + second;
      Chained(Next(s, first[0]), first[1..], second);
    }
  }

  /** The poll that picks the task up. */
  lemma PolledUndisturbed(s: State, url: Url) returns (steps: seq<Step>)
    requires Inv(s) && s.poll.None? && url in s.remote && !OutOfReach(s, url)
    ensures Legal(s, steps) && url in After(s, steps).rows
  {
    var allowed := {s.remote[url].handeling.value};
    var open := set u | u in s.remote && s.remote[u].status == TeVerwerken && Allowed(s.remote[u].handeling, allowed);
    var order := Enumerated(open);
    var fetch := Fetch(allowed, order);
    var s1 := Next(s, fetch);
    StepKeepsInv(s, fetch);
    var marks := MarkRest(s1);
    var s2 := After(s1, marks);
    var creates := CreateRest(s2);
    assert url in order[0..];
    Chained(s1, marks, creates);
    assert ([fetch] + (marks + creates))[1..] == marks + creates;
    steps := [fetch] + (marks + creates);
  }

  /** Between polls, a task without a row can still get one if and only if it is in reach. */
  lemma LostIff(s: State, url: Url)
    requires Inv(s) && s.poll.None? && url in s.remote && url !in s.rows
    ensures CanGetRow(s, url) <==> !OutOfReach(s, url)
  {
    if OutOfReach(s, url) {
      forall steps | Legal(s, steps)
        ensures url !in After(s, steps).rows
      {
        LostForGood(s, steps, url);
      }
    } else {
      var steps := PolledUndisturbed(s, url);
    }
  }

  lemma Stepped(s: State, step: Step, rest: seq<Step>)
    requires Possible(s, step) && Legal(Next(s, step), rest)
    ensures Legal(s, [step] + rest) && After(s, [step] + rest) == After(Next(s, step), rest)
  {
    assert ([step] + rest)[1..] == rest;
  }

  /** A run that loses a task: published, found, marked, and then the process dies. */
  lemma ATaskIsLost(url: Url, handeling: string) returns (steps: seq<Step>)
    ensures Legal(EMPTY, steps) && After(EMPTY, steps).poll.None?
    ensures url in After(EMPTY, steps).remote && url !in After(EMPTY, steps).rows
              && !CanGetRow(After(EMPTY, steps), url)
  {
    var s1 := Next(EMPTY, Publish(url, Some(handeling)));
    assert [url][0] in [url];
    var s2 := Next(s1, Fetch({handeling}, [url]));
    var s3 := Next(s2, MarkNext(true));
    var s4 := Next(s3, Crash);
    assert Legal(s4, []);
    Stepped(s3, Crash, []);
    var t3 := [Crash] + [];
    Stepped(s2, MarkNext(true), t3);
    var t2 := [MarkNext(true)] + t3;
    Stepped(s1, Fetch({handeling}, [url]), t2);
    var t1 := [Fetch({handeling}, [url])] + t2;
    Stepped(EMPTY, Publish(url, Some(handeling)), t1);
    steps := [Publish(url, Some(handeling))] + t1;
    RunKeepsInv(EMPTY, steps);
    LostIff(s4, url);
  }

  // ----- the filter -----

  datatype InterneTask = InterneTask(url: Url, handeling: Option<string>)

  /** What the query for "te_verwerken" returns: every such task once. */
  ghost predicate Queried(remote: map<Url, RemoteTask>, queried: seq<InterneTask>)
  {
    && (forall i, j | 0 <= i < j < |queried| :: queried[i].url != queried[j].url)
    && (forall t :: t in queried <==>
          t.url in remote && remote[t.url].status == TeVerwerken && remote[t.url].handeling == t.handeling)
  }

  function IsAllowed(allowed: set<string>): InterneTask -> bool
  {
    (t: InterneTask) => Allowed(t.handeling, allowed)
  }

  function UrlsOf(tasks: seq<InterneTask>): (urls: seq<Url>)
    ensures |urls| == |tasks| && forall i | 0 <= i < |urls| :: urls[i] == tasks[i].url
  {
    if tasks == [] then [] else [tasks[0].url] + UrlsOf(tasks[1..])
  }

  /** _filter_tasks_by_gevraagde_handelingen. */
  function FoundIn(queried: seq<InterneTask>, allowed: set<string>): seq<Url>
  {
    UrlsOf(Filter(queried, IsAllowed(allowed)))
  }

  lemma {:induction false} FilterKeepsDistinct(queried: seq<InterneTask>, allowed: set<string>)
    requires forall i, j | 0 <= i < j < |queried| :: queried[i].url != queried[j].url
    ensures forall i, j | 0 <= i < j < |Filter(queried, IsAllowed(allowed))| ::
              Filter(queried, IsAllowed(allowed))[i].url != Filter(queried, IsAllowed(allowed))[j].url
  {
    if queried == [] {
    } else {
      FilterKeepsDistinct(queried[1..], allowed);
      var rest := Filter(queried[1..], IsAllowed(allowed));
      forall t | t in rest
        ensures t.url != queried[0].url
      {
        var j :| 0 <= j < |queried[1..]| && queried[1..][j] == t;
        assert queried[j + 1] == t;
      }
    }
  }

  /** The query and the filter together find exactly the allowed tasks that are "te_verwerken". */
  lemma FilterFinds(remote: map<Url, RemoteTask>, queried: seq<InterneTask>, allowed: set<string>)
    requires Queried(remote, queried)
    ensures Found(remote, allowed, FoundIn(queried, allowed))
    ensures forall url :: url in FoundIn(queried, allowed) <==>
              && url in remote && remote[url].status == TeVerwerken
              && remote[url].handeling.Some? && remote[url].handeling.value in allowed
  {
    var left, order := Filter(queried, IsAllowed(allowed)), FoundIn(queried, allowed);
    FilterKeepsDistinct(queried, allowed);
    forall url
      ensures url in order <==>
                url in remote && remote[url].status == TeVerwerken && Allowed(remote[url].handeling, allowed)
    {
      if url in order {
        var i :| 0 <= i < |order| && order[i] == url;
        assert left[i] in left;
      }
      if url in remote && remote[url].status == TeVerwerken && Allowed(remote[url].handeling, allowed) {
        var t := InterneTask(url, remote[url].handeling);
        assert t in left;
        var i :| 0 <= i < |left| && left[i] == t;
        assert order[i] == url;
      }
    }
  }

  // ----- the code -----

  /** Before each action of a poll: what others do to OpenKlant, and how an update is answered. */
  datatype Choice = Choice(others: seq<Step>, ok: bool)

  datatype Ending = Done | Failed | Killed

  predicate External(s: State, step: Step)
  {
    (step.Publish? && step.url !in s.remote) || (step.HandledElsewhere? && step.url in s.remote)
  }

  /** Tasks do not disappear, and what is processed stays processed. */
  predicate RemoteGrows(before: map<Url, RemoteTask>, after: map<Url, RemoteTask>)
  {
    forall url | url in before :: url in after && (before[url].status == Verwerkt ==> after[url].status == Verwerkt)
  }

  ghost predicate AllProcessed(s: State, order: seq<Url>, n: nat)
  {
    n <= |order| && forall j | 0 <= j < n :: Processed(s, order[j])
  }

  /** How many updates in these steps were answered with success. */
  function Marks(steps: seq<Step>): nat
  {
    if steps == [] then 0 else Marks(steps[..|steps| - 1]) + if steps[|steps| - 1] == MarkNext(true) then 1 else 0
  }

  /** None of the first n updates fails. */
  predicate AllOk(choices: seq<Choice>, n: nat)
  {
    n <= |choices| && forall i | 0 <= i < n :: choices[i].ok
  }

  class Poller {
    var state: State
    var choices: seq<Choice>
    ghost const start: State
    ghost var trace: seq<Step>

    /** Everything this code did so far is a run of the steps above. */
    ghost predicate Valid()
      reads this
    {
      Legal(start, trace) && After(start, trace) == state
    }

    constructor (state: State, choices: seq<Choice>)
      ensures Valid() && this.state == state && this.choices == choices
    {
      this.state := state;
      this.choices := choices;
      this.start := state;
      this.trace := [];
    }

    ghost method Record(step: Step, before: State)
      requires Legal(start, trace) && After(start, trace) == before
      requires Possible(before, step) && state == Next(before, step)
      modifies this`trace
      ensures Valid() && trace == old(trace) + [step]
      ensures Marks(trace) == Marks(old(trace)) + if step == MarkNext(true) then 1 else 0
    {
      assert Legal(state, []);
      assert Legal(before, [step]) && After(before, [step]) == state;
      Chained(start, trace, [step]);
      assert (trace + [step])[..|trace|] == trace;
      trace := trace + [step];
    }

    /** The rest of the world moves; without further choices the process is killed. */
    method Elsewhere() returns (choice: Option<Choice>)
      requires Valid() && state.poll.Some?
      modifies this
      ensures Valid() && old(trace) <= trace && state.rows == old(state).rows
      ensures Marks(trace) == Marks(old(trace)) && RemoteGrows(old(state).remote, state.remote)
      ensures choice.Some? ==> state.poll == old(state).poll && old(choices) == [choice.value] + choices
      ensures choice.None? ==> state.poll.None? && choices == old(choices) == []
    {
      if choices == [] {
        ghost var before := state;
        state := state.(poll := None);
        Record(Crash, before);
        return None;
      }
      choice := Some(choices[0]);
      choices := choices[1..];
      var i := 0;
      while i < |choice.value.others|
        invariant Valid() && old(trace) <= trace
        invariant state.rows == old(state).rows && state.poll == old(state).poll
        invariant old(choices) == [choice.value] + choices
        invariant Marks(trace) == Marks(old(trace)) && RemoteGrows(old(state).remote, state.remote)
      {
        var step := choice.value.others[i];
        if External(state, step) {
          ghost var before := state;
          state := state.(remote := if step.Publish?
                                    then state.remote[step.url := RemoteTask(TeVerwerken, step.handeling)]
                                    else Marked(state.remote, step.url));
          Record(step, before);
        }
        i := i + 1;
      }
    }

    /** A poll that has marked the first tasks of its list. */
    ghost predicate Marking(order: seq<Url>, marked: nat)
      reads this
    {
      Valid() && state.poll == Some(Poll(order, marked, 0)) && AllProcessed(state, order, marked)
    }

    /** One update. */
    method MarkOne(order: seq<Url>, marked: nat) returns (end: Ending)
      requires marked < |order| && Marking(order, marked) && order[marked] in state.remote
      modifies this
      ensures Valid() && old(trace) <= trace && state.rows == old(state).rows
      ensures RemoteGrows(old(state).remote, state.remote) && AllProcessed(state, order, marked)
      ensures Marks(trace) == Marks(old(trace)) + if end == Done then 1 else 0
      ensures end == Killed <==> old(choices) == []
      ensures end != Killed ==> choices == old(choices)[1..] && (end == Done <==> old(choices)[0].ok)
      ensures if end == Done then Marking(order, marked + 1) else state.poll.None?
    {
      ghost var given := choices;
      var choice := Elsewhere();
      if choice.None? {
        return Killed;
      }
      assert choice.value == given[0] && choices == given[1..];
      ghost var before := state;
      if !choice.value.ok {
        state := state.(poll := None);
        Record(MarkNext(false), before);
        return Failed;
      }
      state := state.(remote := Marked(state.remote, order[marked]), poll := Some(Poll(order, marked + 1, 0)));
      Record(MarkNext(true), before);
      return Done;
    }

    /** _update_tasks_status: the updates one after the other; the first error ends the poll.  What was
        marked before an error or a kill stays marked, and nothing else was. */
    method UpdateTasksStatus(order: seq<Url>) returns (end: Ending, marked: nat)
      requires Valid() && state.poll == Some(Poll(order, 0, 0)) && forall url | url in order :: url in state.remote
      modifies this
      ensures Valid() && old(trace) <= trace && state.rows == old(state).rows
      ensures RemoteGrows(old(state).remote, state.remote)
      ensures state.poll == if end == Done then Some(Poll(order, |order|, 0)) else None
      ensures marked <= |order| && AllOk(old(choices), marked) && Marks(trace) == Marks(old(trace)) + marked
      ensures AllProcessed(state, order, marked)
      ensures match end
              case Done => marked == |order| && choices == old(choices)[|order|..]
              case Failed => marked < |order| && marked < |old(choices)| && !old(choices)[marked].ok
              case Killed => marked == |old(choices)| < |order|
    {
      marked := 0;
      while marked < |order|
        invariant marked <= |order| && Marking(order, marked) && old(trace) <= trace
        invariant AllOk(old(choices), marked) && choices == old(choices)[marked..]
        invariant state.rows == old(state).rows && RemoteGrows(old(state).remote, state.remote)
        invariant Marks(trace) == Marks(old(trace)) + marked
      {
        assert order[marked] in order;
        end := MarkOne(order, marked);
        if end != Done {
          return end, marked;
        }
        marked := marked + 1;
      }
      return Done, marked;
    }

    /** One row. */
    method CreateOne(order: seq<Url>, created: nat) returns (killed: bool)
      requires created < |order| && Valid() && state.poll == Some(Poll(order, |order|, created))
      modifies this
      ensures Valid() && old(trace) <= trace
      ensures RemoteGrows(old(state).remote, state.remote) && Marks(trace) == Marks(old(trace))
      ensures killed <==> old(choices) == []
      ensures !killed ==> choices == old(choices)[1..]
      ensures state.rows == old(state).rows + if killed then [] else [order[created]]
      ensures state.poll == if killed then None else Some(Poll(order, |order|, created + 1))
    {
      ghost var given := choices;
      var choice := Elsewhere();
      if choice.None? {
        return true;
      }
      assert choices == given[1..];
      ghost var before := state;
      state := state.(rows := state.rows + [order[created]], poll := Some(Poll(order, |order|, created + 1)));
      Record(CreateNext, before);
      return false;
    }

    /** _create_internal_task_models. */
    method CreateModels(order: seq<Url>) returns (fetched: seq<Url>, end: Ending)
      requires Valid() && state.poll == Some(Poll(order, |order|, 0))
      modifies this
      ensures Valid() && old(trace) <= trace && fetched <= order && state.rows == old(state).rows + fetched
      ensures end == Done ==> fetched == order && state.poll == Some(Poll(order, |order|, |order|))
      ensures end != Done ==> end == Killed && state.poll.None? && |fetched| == |old(choices)|
      ensures end == Done <==> |old(choices)| >= |order|
      ensures Marks(trace) == Marks(old(trace)) && RemoteGrows(old(state).remote, state.remote)
    {
      fetched := [];
      while |fetched| < |order|
        invariant |fetched| <= |old(choices)| && choices == old(choices)[|fetched|..]
        invariant Valid() && old(trace) <= trace && fetched <= order
        invariant Marks(trace) == Marks(old(trace)) && RemoteGrows(old(state).remote, state.remote)
        invariant state.rows == old(state).rows + fetched && state.poll == Some(Poll(order, |order|, |fetched|))
      {
        var killed := CreateOne(order, |fetched|);
        if killed {
          return fetched, Killed;
        }
        fetched := fetched + [order[|fetched|]];
      }
      return fetched, Done;
    }

    /** The poll of the tasks that passed the filter. */
    method Patch(ghost allowed: set<string>, order: seq<Url>) returns (fetched: seq<Url>, end: Ending, marked: nat)
      requires Valid() && state.poll.None? && Found(state.remote, allowed, order)
      modifies this
      ensures Valid() && old(trace) <= trace && state.poll.None?
      ensures state.rows == old(state).rows + fetched && fetched <= order
      ensures end == Done <==> |old(choices)| >= 2 * |order| && AllOk(old(choices), |order|)
      ensures end == Done ==> fetched == order
      ensures end == Failed ==> fetched == [] && marked < |order| && marked < |old(choices)| && !old(choices)[marked].ok
      ensures |fetched| <= marked && AllOk(old(choices), marked) && Marks(trace) == Marks(old(trace)) + marked
      ensures AllProcessed(state, order, marked) && (fetched != [] ==> marked == |order|)
    {
      ghost var before := state;
      state := state.(poll := Some(Poll(order, 0, 0)));
      Record(Fetch(allowed, order), before);
      end, marked := UpdateTasksStatus(order);
      if end != Done {
        return [], end, marked;
      }
      fetched, end := CreateModels(order);
      if end == Done {
        before := state;
        state := state.(poll := None);
        Record(Finish, before);
      }
    }

    /** fetch_and_patch, with the answer to the query for tasks that are "te_verwerken": filter, mark every
        task that is left, then create every row.  A poll without errors creates exactly the allowed
        tasks; a failed update creates none; a crash may leave a part of them, in order.  The first
        `marked` tasks are processed from then on, whether they got a row or not. */
    method FetchAndPatch(allowed: set<string>, queried: seq<InterneTask>)
      returns (fetched: seq<Url>, end: Ending, marked: nat)
      requires Valid() && state.poll.None? && Queried(state.remote, queried)
      modifies this
      ensures Valid() && old(trace) <= trace && state.poll.None?
      ensures state.rows == old(state).rows + fetched && fetched <= FoundIn(queried, allowed)
      ensures end == Done <==>
                |old(choices)| >= 2 * |FoundIn(queried, allowed)| && AllOk(old(choices), |FoundIn(queried, allowed)|)
      ensures end == Done ==> Found(old(state).remote, allowed, fetched)
      ensures end == Failed ==>
                fetched == [] && marked < |FoundIn(queried, allowed)| && marked < |old(choices)|
                    && !old(choices)[marked].ok
      ensures |fetched| <= marked && AllOk(old(choices), marked) && Marks(trace) == Marks(old(trace)) + marked
      ensures AllProcessed(state, FoundIn(queried, allowed), marked)
      ensures fetched != [] ==> marked == |FoundIn(queried, allowed)|
    {
      FilterFinds(state.remote, queried, allowed);
      fetched, end, marked := Patch(allowed, FoundIn(queried, allowed));
    }

    /** The tasks that a poll marked and that have no row afterwards never get one. */
    lemma MarkedIsLost(url: Url)
      requires Valid() && Inv(start) && state.poll.None? && Processed(state, url) && url !in state.rows
      ensures !CanGetRow(state, url)
    {
      RunKeepsInv(start, trace);
      LostIff(state, url);
    }

    /** So every row this code leaves behind, with whatever happens around it, is safe. */
    lemma StaysSafe()
      requires Valid() && Inv(start)
      ensures Distinct(state.rows) && forall url | url in state.rows :: Processed(state, url)
    {
      RunKeepsInv(start, trace);
    }
  }
}
