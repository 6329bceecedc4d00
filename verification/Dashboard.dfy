/** The task counts of the dashboard (src/bptl/dashboard/api/views.py: aggregate_data). */
module Dashboard {
  import opened Wrappers
  import opened Statuses

  type ObjectId = nat

  datatype EngineType = Camunda | OpenKlant | CronTask

  /** A log entry of a task; entries without a status log requests and errors. */
  datatype Entry = Entry(task: ObjectId, engine: EngineType, status: Option<Status>, at: int)

  /** One row of the grouped query. */
  datatype Group = Group(status: Status, engine: EngineType, tasks: nat)

  type Counts = map<Status, nat>

  const ALL_STATUSES := {Initial, InProgress, Performed, Failed, Completed}
  const ALL_ENGINES := {Camunda, OpenKlant, CronTask}

  /** A missing key of a defaultdict counts zero. */
  function At(counts: Counts, s: Status): nat
  {
    if s in counts then counts[s] else 0
  }

  function Cell(items: map<EngineType, Counts>, e: EngineType, s: Status): nat
  {
    if e in items then At(items[e], s) else 0
  }

  // ----- the queries -----

  predicate InWindow(entry: Entry, since: int)
  {
    entry.status.Some? && entry.at >= since
  }

  /** Entry i is a latest status entry of its task within the window. */
  predicate IsLatest(log: seq<Entry>, since: int, i: nat)
  {
    && i < |log| && InWindow(log[i], since)
    && forall j | 0 <= j < |log| && InWindow(log[j], since) && log[j].task == log[i].task :: log[j].at <= log[i].at
  }

  ghost function TasksInWindow(log: seq<Entry>, since: int): set<ObjectId>
  {
    set i | 0 <= i < |log| && InWindow(log[i], since) :: log[i].task
  }

  /** DISTINCT ON (object_id) ordered by latest timestamp: one latest entry for every task.  Among
      entries with the same timestamp the database may take any. */
  ghost predicate DistinctOn(log: seq<Entry>, since: int, picked: set<nat>)
  {
    && (forall i | i in picked :: IsLatest(log, since, i))
    && (forall i, j | i in picked && j in picked && log[i].task == log[j].task :: i == j)
    && (forall t | t in TasksInWindow(log, since) :: exists i :: i in picked && log[i].task == t)
  }

  ghost function Matching(log: seq<Entry>, picked: set<nat>, e: EngineType, s: Status): set<nat>
  {
    set i | i in picked && i < |log| && log[i].engine == e && log[i].status == Some(s)
  }

  /** VALUES (status, content type) with COUNT. */
  ghost predicate GroupedBy(log: seq<Entry>, picked: set<nat>, groups: seq<Group>)
  {
    && (forall g, h | 0 <= g < h < |groups| ::
          groups[g].status != groups[h].status || groups[g].engine != groups[h].engine)
    && (forall g | 0 <= g < |groups| ::
          groups[g].tasks > 0 && groups[g].tasks == |Matching(log, picked, groups[g].engine, groups[g].status)|)
    && (forall i | i in picked && i < |log| && log[i].status.Some? ::
          exists g :: 0 <= g < |groups| && groups[g].engine == log[i].engine && groups[g].status == log[i].status.value)
  }

  // ----- the code -----

  /** What the groups seen so far contribute to one cell. */
  function Summed(groups: seq<Group>, e: EngineType, s: Status): nat
  {
    if groups == [] then 0
    else
      var last := groups[|groups| - 1];
      Summed(groups[..|groups| - 1], e, s) + if last.engine == e && last.status == s then last.tasks else 0
  }

  function SummedOverEngines(groups: seq<Group>, s: Status): nat
  {
    Summed(groups, Camunda, s) + Summed(groups, OpenKlant, s) + Summed(groups, CronTask, s)
  }

  /** One round of the loop. */
  function Added(counts: Counts, s: Status, n: nat): Counts
  {
    counts[s := At(counts, s) + n]
  }

  function AddedCell(items: map<EngineType, Counts>, g: Group): map<EngineType, Counts>
  {
    items[g.engine := Added(if g.engine in items then items[g.engine] else map[], g.status, g.tasks)]
  }

  ghost predicate Agrees(items: map<EngineType, Counts>, total: Counts, groups: seq<Group>)
  {
    && (forall e, s :: Cell(items, e, s) == Summed(groups, e, s))
    && (forall s :: At(total, s) == SummedOverEngines(groups, s))
    && (groups == [] <==> total == map[])
  }

  lemma OneMoreInTotal(groups: seq<Group>, g: Group, s: Status)
    ensures SummedOverEngines(groups + [g], s) == SummedOverEngines(groups, s) + if g.status == s then g.tasks else 0
  {
    assert (groups + [g])[..|groups|] == groups;
  }

  lemma OneMoreGroup(items: map<EngineType, Counts>, total: Counts, groups: seq<Group>, g: Group)
    requires Agrees(items, total, groups)
    ensures Agrees(AddedCell(items, g), Added(total, g.status, g.tasks), groups + [g])
  {
    var more := groups + [g];
    assert more[..|groups|] == groups;
    forall e, s
      ensures Cell(AddedCell(items, g), e, s) == Summed(more, e, s)
    {
      assert Cell(items, e, s) == Summed(groups, e, s);
    }
    forall s
      ensures At(Added(total, g.status, g.tasks), s) == SummedOverEngines(more, s)
    {
      OneMoreInTotal(groups, g, s);
      assert At(total, s) == SummedOverEngines(groups, s);
    }
    assert g.status in Added(total, g.status, g.tasks);
  }

  /** What aggregate_data returns for the rows of the grouped query. */
  ghost predicate Aggregated(groups: seq<Group>, items: map<EngineType, Counts>, total: Counts)
  {
    && (forall e, s :: Cell(items, e, s) == Summed(groups, e, s))
    && (forall s :: At(total, s) == SummedOverEngines(groups, s))
    && (groups == [] ==>
          total.Keys == ALL_STATUSES && items.Keys == ALL_ENGINES && forall e | e in items :: items[e] == total)
  }

  method AggregateData(groups: seq<Group>) returns (items: map<EngineType, Counts>, total: Counts)
    ensures Aggregated(groups, items, total)
  {
    total := map[];
    items := map[];
    var i := 0;
    while i < |groups|
      invariant 0 <= i <= |groups|
      invariant Agrees(items, total, groups[..i])
    {
      assert groups[..i + 1] == groups[..i] + [groups[i]];
      OneMoreGroup(items, total, groups[..i], groups[i]);
      items := AddedCell(items, groups[i]);
      total := Added(total, groups[i].status, groups[i].tasks);
      i := i + 1;
    }
    assert groups[..i] == groups;
    if total == map[] {
      total := map s | s in ALL_STATUSES :: 0;
      items := map e | e in ALL_ENGINES :: total;
    }
  }

  // ----- what it means -----

  lemma {:induction false} SummedNone(groups: seq<Group>, e: EngineType, s: Status)
    requires forall g | 0 <= g < |groups| :: groups[g].engine != e || groups[g].status != s
    ensures Summed(groups, e, s) == 0
  {
    if groups == [] {
    } else {
      SummedNone(groups[..|groups| - 1], e, s);
    }
  }

  lemma {:induction false} SummedOnce(groups: seq<Group>, e: EngineType, s: Status, g: nat)
    requires g < |groups| && groups[g].engine == e && groups[g].status == s
    requires forall h | 0 <= h < |groups| && h != g :: groups[h].engine != e || groups[h].status != s
    ensures Summed(groups, e, s) == groups[g].tasks
  {
    if g == |groups| - 1 {
      SummedNone(groups[..g], e, s);
    } else {
      SummedOnce(groups[..|groups| - 1], e, s, g);
    }
  }

  lemma {:induction false} SummedIsCount(log: seq<Entry>, picked: set<nat>, groups: seq<Group>, e: EngineType,
                                         s: Status)
    requires GroupedBy(log, picked, groups)
    ensures Summed(groups, e, s) == |Matching(log, picked, e, s)|
  {
    if g :| 0 <= g < |groups| && groups[g].engine == e && groups[g].status == s {
      SummedOnce(groups, e, s, g);
    } else {
      SummedNone(groups, e, s);
      assert Matching(log, picked, e, s) == {};
    }
  }

  /** The tasks whose latest entry, as the query picked it, shows engine e and status s. */
  ghost function TasksAt(log: seq<Entry>, picked: set<nat>, e: EngineType, s: Status): set<ObjectId>
  {
    set i | i in Matching(log, picked, e, s) :: log[i].task
  }

  lemma {:induction false} OneEntryPerTask(log: seq<Entry>, indices: set<nat>, tasks: set<ObjectId>)
    requires forall i | i in indices :: i < |log|
    requires forall i, j | i in indices && j in indices && log[i].task == log[j].task :: i == j
    requires tasks == set i | i in indices :: log[i].task
    ensures |indices| == |tasks|
    decreases indices
  {
    if indices == {} {
    } else {
      var i :| i in indices;
      var rest := indices - {i};
      OneEntryPerTask(log, rest, set j | j in rest :: log[j].task);
      assert tasks == (set j | j in rest :: log[j].task) + {log[i].task};
    }
  }

  /** Every number on the dashboard is a number of tasks: a cell counts the tasks of that engine whose
      latest status in the window it is, and a total is the sum of its cells. */
  lemma CountsAreTasks(log: seq<Entry>, since: int, picked: set<nat>, groups: seq<Group>, s: Status, e: EngineType)
    requires DistinctOn(log, since, picked) && GroupedBy(log, picked, groups)
    ensures Summed(groups, e, s) == |TasksAt(log, picked, e, s)|
    ensures forall t | t in TasksAt(log, picked, e, s) ::
              exists i: nat :: IsLatest(log, since, i) && log[i].task == t && log[i].engine == e
                  && log[i].status == Some(s)
  {
    SummedIsCount(log, picked, groups, e, s);
    OneEntryPerTask(log, Matching(log, picked, e, s), TasksAt(log, picked, e, s));
  }

  /** Every task with a status entry in the window is counted in exactly one cell. */
  lemma CountedExactlyOnce(log: seq<Entry>, since: int, picked: set<nat>, t: ObjectId)
    requires DistinctOn(log, since, picked)
    requires t in TasksInWindow(log, since)
    ensures exists e, s :: t in TasksAt(log, picked, e, s)
    ensures forall e, s, e', s' | t in TasksAt(log, picked, e, s) && t in TasksAt(log, picked, e', s') ::
              e == e' && s == s'
  {
    var i :| i in picked && log[i].task == t;
    assert IsLatest(log, since, i);
    assert i in Matching(log, picked, log[i].engine, log[i].status.value);
    assert t in TasksAt(log, picked, log[i].engine, log[i].status.value);
  }

  lemma OneEntryForEveryTask(log: seq<Entry>, since: int, picked: set<nat>)
    requires DistinctOn(log, since, picked)
    ensures |picked| == |TasksInWindow(log, since)|
  {
    var tasks := set i | i in picked :: log[i].task;
    assert forall i | i in picked :: IsLatest(log, since, i);
    assert tasks == TasksInWindow(log, since);
    OneEntryPerTask(log, picked, tasks);
  }

  lemma ThreeParts(a: set<nat>, b: set<nat>, c: set<nat>, whole: set<nat>)
    requires a !! b !! c && whole == a + b + c
    ensures |whole| == |a| + |b| + |c|
  {
    assert |a + b| == |a| + |b|;
    assert |(a + b) + c| == |a + b| + |c|;
  }

  lemma FiveParts(a: set<nat>, b: set<nat>, c: set<nat>, d: set<nat>, e: set<nat>, whole: set<nat>)
    requires a !! b !! c !! d !! e
    requires a <= whole && b <= whole && c <= whole && d <= whole && e <= whole
    requires forall i | i in whole :: i in a || i in b || i in c || i in d || i in e
    ensures |whole| == |a| + |b| + |c| + |d| + |e|
  {
    ThreeParts(a, b, c, a + b + c);
    assert whole == (a + b + c) + d + e;
    ThreeParts(a + b + c, d, e, whole);
  }

  ghost function Slice(log: seq<Entry>, picked: set<nat>, s: Status): set<nat>
  {
    set i | i in picked && i < |log| && log[i].status == Some(s)
  }

  lemma InSomeSlice(log: seq<Entry>, since: int, picked: set<nat>, i: nat)
    requires DistinctOn(log, since, picked) && i in picked
    ensures || i in Slice(log, picked, Initial) || i in Slice(log, picked, InProgress)
              || i in Slice(log, picked, Performed)
            || i in Slice(log, picked, Failed) || i in Slice(log, picked, Completed)
  {
    assert IsLatest(log, since, i);
    match log[i].status.value
    case Initial => assert i in Slice(log, picked, Initial);
    case InProgress => assert i in Slice(log, picked, InProgress);
    case Performed => assert i in Slice(log, picked, Performed);
    case Failed => assert i in Slice(log, picked, Failed);
    case Completed => assert i in Slice(log, picked, Completed);
  }

  lemma SlicesCoverAll(log: seq<Entry>, since: int, picked: set<nat>)
    requires DistinctOn(log, since, picked)
    ensures |Slice(log, picked, Initial)| + |Slice(log, picked, InProgress)| + |Slice(log, picked, Performed)|
            + |Slice(log, picked, Failed)| + |Slice(log, picked, Completed)| == |picked|
  {
    forall i | i in picked
      ensures || i in Slice(log, picked, Initial) || i in Slice(log, picked, InProgress)
                || i in Slice(log, picked, Performed)
              || i in Slice(log, picked, Failed) || i in Slice(log, picked, Completed)
    {
      InSomeSlice(log, since, picked, i);
    }
    FiveParts(Slice(log, picked, Initial), Slice(log, picked, InProgress), Slice(log, picked, Performed),
              Slice(log, picked, Failed), Slice(log, picked, Completed), picked);
  }

  lemma SliceByEngine(log: seq<Entry>, picked: set<nat>, s: Status)
    ensures |Slice(log, picked, s)|
            == |Matching(log, picked, Camunda, s)| + |Matching(log, picked, OpenKlant, s)|
                + |Matching(log, picked, CronTask, s)|
  {
    var a, b := Matching(log, picked, Camunda, s), Matching(log, picked, OpenKlant, s);
    var c := Matching(log, picked, CronTask, s);
    forall i | i in Slice(log, picked, s)
      ensures i in a || i in b || i in c
    {
      match log[i].engine
      case Camunda => assert i in a;
      case OpenKlant => assert i in b;
      case CronTask => assert i in c;
    }
    assert Slice(log, picked, s) == a + b + c;
    ThreeParts(a, b, c, Slice(log, picked, s));
  }

  lemma StatusSlice(log: seq<Entry>, since: int, picked: set<nat>, groups: seq<Group>, s: Status)
    requires DistinctOn(log, since, picked) && GroupedBy(log, picked, groups)
    ensures SummedOverEngines(groups, s) == |Slice(log, picked, s)|
  {
    SummedIsCount(log, picked, groups, Camunda, s);
    SummedIsCount(log, picked, groups, OpenKlant, s);
    SummedIsCount(log, picked, groups, CronTask, s);
    SliceByEngine(log, picked, s);
  }

  /** So all totals together are the number of tasks with a status entry in the window. */
  lemma TotalsAddUp(log: seq<Entry>, since: int, picked: set<nat>, groups: seq<Group>)
    requires DistinctOn(log, since, picked) && GroupedBy(log, picked, groups)
    ensures SummedOverEngines(groups, Initial) + SummedOverEngines(groups, InProgress)
              + SummedOverEngines(groups, Performed)
            + SummedOverEngines(groups, Failed) + SummedOverEngines(groups, Completed)
            == |TasksInWindow(log, since)|
  {
    StatusSlice(log, since, picked, groups, Initial);
    StatusSlice(log, since, picked, groups, InProgress);
    StatusSlice(log, since, picked, groups, Performed);
    StatusSlice(log, since, picked, groups, Failed);
    StatusSlice(log, since, picked, groups, Completed);
    SlicesCoverAll(log, since, picked);
    OneEntryForEveryTask(log, since, picked);
  }

  // ----- the whole dashboard -----

  /** The tasks with a latest entry in the window that shows engine e and status s. */
  ghost function LatestTasks(log: seq<Entry>, since: int, e: EngineType, s: Status): set<ObjectId>
  {
    set i | 0 <= i < |log| && IsLatest(log, since, i) && log[i].engine == e && log[i].status == Some(s) :: log[i].task
  }

  /** No two status entries of a task in the window carry the same time. */
  ghost predicate NoTies(log: seq<Entry>, since: int)
  {
    forall i, j | 0 <= i < j < |log| && InWindow(log[i], since) && InWindow(log[j], since)
        && log[i].task == log[j].task ::
      log[i].at != log[j].at
  }

  lemma PickedAreLatest(log: seq<Entry>, since: int, picked: set<nat>, e: EngineType, s: Status)
    requires DistinctOn(log, since, picked)
    ensures TasksAt(log, picked, e, s) <= LatestTasks(log, since, e, s)
    ensures NoTies(log, since) ==> TasksAt(log, picked, e, s) == LatestTasks(log, since, e, s)
  {
    if NoTies(log, since) {
      forall t | t in LatestTasks(log, since, e, s)
        ensures t in TasksAt(log, picked, e, s)
      {
        var i :| 0 <= i < |log| && IsLatest(log, since, i) && log[i].engine == e && log[i].status == Some(s)
            && log[i].task == t;
        assert t in TasksInWindow(log, since);
        var j :| j in picked && log[j].task == t;
        assert IsLatest(log, since, j);
        assert i == j;
        assert j in Matching(log, picked, e, s);
      }
    }
  }

  lemma NoGroupsIff(log: seq<Entry>, since: int, picked: set<nat>, groups: seq<Group>)
    requires DistinctOn(log, since, picked) && GroupedBy(log, picked, groups)
    ensures groups == [] <==> TasksInWindow(log, since) == {}
  {
    if groups != [] {
      assert groups[0].tasks == |Matching(log, picked, groups[0].engine, groups[0].status)|;
      var i :| i in Matching(log, picked, groups[0].engine, groups[0].status);
      assert IsLatest(log, since, i);
      assert log[i].task in TasksInWindow(log, since);
    }
    if t :| t in TasksInWindow(log, since) {
      var i :| i in picked && log[i].task == t;
      assert IsLatest(log, since, i);
    }
  }

  lemma CellsPartition(log: seq<Entry>, since: int, picked: set<nat>)
    requires DistinctOn(log, since, picked)
    ensures forall t | t in TasksInWindow(log, since) :: exists e, s :: t in TasksAt(log, picked, e, s)
    ensures forall e, s, e', s' | (e, s) != (e', s') :: TasksAt(log, picked, e, s) !! TasksAt(log, picked, e', s')
  {
    forall t | t in TasksInWindow(log, since)
      ensures exists e, s :: t in TasksAt(log, picked, e, s)
    {
      CountedExactlyOnce(log, since, picked, t);
    }
  }

  /** From the log to the numbers on the dashboard.  Every task with a status entry in the window belongs to
      one cell, that of a latest entry; a cell holds the number of its tasks, a total the sum of its cells,
      and all totals together the number of all these tasks.  Without such tasks every engine and every
      status is listed with zero. */
  lemma DashboardCountsTheLog(log: seq<Entry>, since: int, picked: set<nat>, groups: seq<Group>,
                              items: map<EngineType, Counts>, total: Counts)
    requires DistinctOn(log, since, picked) && GroupedBy(log, picked, groups) && Aggregated(groups, items, total)
    ensures forall e, s :: Cell(items, e, s) == |TasksAt(log, picked, e, s)|
    ensures forall e, s :: TasksAt(log, picked, e, s) <= LatestTasks(log, since, e, s)
    ensures NoTies(log, since) ==> forall e, s :: Cell(items, e, s) == |LatestTasks(log, since, e, s)|
    ensures forall s :: At(total, s) == Cell(items, Camunda, s) + Cell(items, OpenKlant, s) + Cell(items, CronTask, s)
    ensures At(total, Initial) + At(total, InProgress) + At(total, Performed) + At(total, Failed) + At(total, Completed)
            == |TasksInWindow(log, since)|
    ensures forall t | t in TasksInWindow(log, since) :: exists e, s :: t in TasksAt(log, picked, e, s)
    ensures forall e, s, e', s' | (e, s) != (e', s') :: TasksAt(log, picked, e, s) !! TasksAt(log, picked, e', s')
    ensures TasksInWindow(log, since) == {} ==>
              items.Keys == ALL_ENGINES && forall e | e in items :: items[e].Keys == ALL_STATUSES
  {
    forall e, s
      ensures Summed(groups, e, s) == |TasksAt(log, picked, e, s)|
      ensures TasksAt(log, picked, e, s) <= LatestTasks(log, since, e, s)
      ensures NoTies(log, since) ==> TasksAt(log, picked, e, s) == LatestTasks(log, since, e, s)
    {
      CountsAreTasks(log, since, picked, groups, s, e);
      PickedAreLatest(log, since, picked, e, s);
    }
    TotalsAddUp(log, since, picked, groups);
    CellsPartition(log, since, picked);
    NoGroupsIff(log, since, picked, groups);
  }

  /** The log has a status entry of the task that is no older than the window. */
  ghost predicate IsRecent(log: seq<Entry>, since: int, t: ObjectId)
  {
    exists i :: 0 <= i < |log| && log[i].task == t && log[i].status.Some? && log[i].at >= since
  }

  /** Entry i shows engine e and status s for the task, and the whole log has no younger status of it. */
  ghost predicate ShowsLast(log: seq<Entry>, i: int, t: ObjectId, e: EngineType, s: Status)
  {
    && 0 <= i < |log| && log[i].task == t && log[i].engine == e && log[i].status == Some(s)
    && forall j | 0 <= j < |log| && log[j].task == t && log[j].status.Some? :: log[j].at <= log[i].at
  }

  /** What the window means: the tasks counted are those with a recent status entry, each under the youngest
      status it has in the whole log. */
  lemma CountedAsLastSeen(log: seq<Entry>, since: int, picked: set<nat>, t: ObjectId)
    requires DistinctOn(log, since, picked)
    ensures (exists e, s :: t in TasksAt(log, picked, e, s)) <==> IsRecent(log, since, t)
    ensures forall e, s | t in TasksAt(log, picked, e, s) :: exists i :: ShowsLast(log, i, t, e, s)
  {
    if IsRecent(log, since, t) {
      assert t in TasksInWindow(log, since);
      CountedExactlyOnce(log, since, picked, t);
    }
    forall e, s | t in TasksAt(log, picked, e, s)
      ensures IsRecent(log, since, t) && exists i :: ShowsLast(log, i, t, e, s)
    {
      var i :| i in Matching(log, picked, e, s) && log[i].task == t;
      assert IsLatest(log, since, i);
      assert ShowsLast(log, i, t, e, s);
    }
  }
}
