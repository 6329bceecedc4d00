/** The pivot sheet of user logins (src/bptl/work_units/zgw/zac/utils.py: _daterange and
    add_users_sheet_xlsx).

    Datetimes are naive and already parsed: a day number and a second of that day.  `header`
    formats a day as a column header, `lower` is the library's string function. */
module UserSheet {
  import opened Sequences
  import opened Wrappers
  import opened Sorting
  import opened Worksheets

  datatype Instant = Instant(day: int, second: nat)

  /** One item of loginsPerDay. */
  datatype Login = Login(at: Instant, count: int)

  datatype User = User(naam: string, email: string, gebruikersnaam: string, totaal: int, perDay: seq<Login>)

  predicate Before(a: Instant, b: Instant)
  {
    a.day < b.day || (a.day == b.day && a.second < b.second)
  }

  // ----- the columns -----

  /** The days from the first to the last, both included. */
  function DaysBetween(first: int, last: int): (days: seq<int>)
    ensures |days| == if first <= last then last - first + 1 else 0
    ensures forall i | 0 <= i < |days| :: days[i] == first + i
    decreases last - first + 1
  {
    if first > last then [] else [first] + DaysBetween(first + 1, last)
  }

  /** _daterange. */
  method DateRange(start: Instant, end: Instant) returns (days: seq<int>)
    ensures days == DaysBetween(start.day, end.day)
  {
    days := [];
    var cur := start;
    while cur.day <= end.day
      invariant start.day <= cur.day
      invariant start.day <= end.day ==> cur.day <= end.day + 1
      invariant cur.day > start.day ==> cur.day <= end.day + 1
      invariant |days| == cur.day - start.day
      invariant forall i | 0 <= i < |days| :: days[i] == start.day + i
      decreases end.day - cur.day
    {
      days := days + [cur.day];
      cur := Instant(cur.day + 1, cur.second);
    }
    assert days == DaysBetween(start.day, end.day);
  }

  /** A given period may have its bounds in either order. */
  function Swapped(a: Instant, b: Instant): (Instant, Instant)
  {
    if Before(b, a) then (b, a) else (a, b)
  }

  lemma DayInRange(first: int, last: int, d: int)
    ensures d in DaysBetween(first, last) <==> first <= d <= last
  {
    if first <= d <= last {
      assert DaysBetween(first, last)[d - first] == d;
    }
  }

  /** The columns do not depend on the order of the bounds, and cover every day from one to the other. */
  lemma ColumnsIgnoreOrder(a: Instant, b: Instant)
    ensures DaysBetween(Swapped(a, b).0.day, Swapped(a, b).1.day)
              == DaysBetween(Swapped(b, a).0.day, Swapped(b, a).1.day)
    ensures forall d :: d in DaysBetween(Swapped(a, b).0.day, Swapped(a, b).1.day) <==>
              a.day <= d <= b.day || b.day <= d <= a.day
  {
    forall d
      ensures d in DaysBetween(Swapped(a, b).0.day, Swapped(a, b).1.day) <==> a.day <= d <= b.day || b.day <= d <= a.day
    {
      DayInRange(Swapped(a, b).0.day, Swapped(a, b).1.day, d);
    }
  }

  function AllLogins(users: seq<User>): seq<Login>
  {
    FlatMap(users, (u: User) => u.perDay)
  }

  /** first and last are the bounds of the logins, by full datetime. */
  ghost predicate Spans(logins: seq<Login>, first: Instant, last: Instant)
  {
    && (exists l :: l in logins && l.at == first)
    && (exists l :: l in logins && l.at == last)
    && forall l | l in logins :: !Before(l.at, first) && !Before(last, l.at)
  }

  ghost predicate Bound(logins: seq<Login>, bounds: Option<(Instant, Instant)>)
  {
    && (bounds.None? <==> logins == [])
    && (bounds.Some? ==> Spans(logins, bounds.value.0, bounds.value.1))
  }

  function Widened(bounds: Option<(Instant, Instant)>, d: Instant): (Instant, Instant)
  {
    match bounds
    case None => (d, d)
    case Some((lo, hi)) => (if Before(d, lo) then d else lo, if Before(hi, d) then d else hi)
  }

  lemma WidenedSpans(logins: seq<Login>, bounds: Option<(Instant, Instant)>, l: Login)
    requires Bound(logins, bounds)
    ensures Bound(logins + [l], Some(Widened(bounds, l.at)))
  {
    var more := logins + [l];
    assert l in more && forall x | x in logins :: x in more;
    assert forall x | x in more :: x in logins || x == l;
  }

  /** The inner loop: the logins of one user, after all earlier ones. */
  method WidenByUser(bounds: Option<(Instant, Instant)>, logins: seq<Login>, ghost earlier: seq<Login>)
    returns (wider: Option<(Instant, Instant)>)
    requires Bound(earlier, bounds)
    ensures Bound(earlier + logins, wider)
  {
    wider := bounds;
    var j := 0;
    assert earlier + logins[..0] == earlier;
    while j < |logins|
      invariant 0 <= j <= |logins|
      invariant Bound(earlier + logins[..j], wider)
    {
      assert earlier + logins[..j + 1] == (earlier + logins[..j]) + [logins[j]];
      WidenedSpans(earlier + logins[..j], wider, logins[j]);
      wider := Some(Widened(wider, logins[j].at));
      j := j + 1;
    }
    assert logins[..j] == logins;
  }

  method Bounds(users: seq<User>) returns (bounds: Option<(Instant, Instant)>)
    ensures Bound(AllLogins(users), bounds)
  {
    bounds := None;
    var i := 0;
    while i < |users|
      invariant 0 <= i <= |users|
      invariant Bound(AllLogins(users[..i]), bounds)
    {
      assert users[..i + 1][..i] == users[..i];
      bounds := WidenByUser(bounds, users[i].perDay, AllLogins(users[..i]));
      i := i + 1;
    }
    assert users[..i] == users;
  }

  // ----- the cells -----

  /** normalized_per_day: a later login with the same header replaces an earlier one. */
  function Normalized(perDay: seq<Login>, header: int -> string): map<string, int>
  {
    if perDay == [] then map[]
    else
      var last := perDay[|perDay| - 1];
      Normalized(perDay[..|perDay| - 1], header)[header(last.at.day) := last.count]
  }

  /** The count of the last login on day d, or 0. */
  function CountOn(perDay: seq<Login>, d: int): int
  {
    if perDay == [] then 0
    else if perDay[|perDay| - 1].at.day == d then perDay[|perDay| - 1].count
    else CountOn(perDay[..|perDay| - 1], d)
  }

  ghost predicate Injective(header: int -> string)
  {
    forall a, b :: header(a) == header(b) ==> a == b
  }

  function Lookup(counts: map<string, int>, key: string): int
  {
    if key in counts then counts[key] else 0
  }

  /** Every cell is the user's count for its day, or 0. */
  lemma {:induction false} CellIsCount(perDay: seq<Login>, header: int -> string, d: int)
    requires Injective(header)
    ensures Lookup(Normalized(perDay, header), header(d)) == CountOn(perDay, d)
  {
    if perDay == [] {
    } else {
      CellIsCount(perDay[..|perDay| - 1], header, d);
    }
  }

  function Cells(counts: map<string, int>, days: seq<int>, header: int -> string): (line: Line)
    ensures |line| == |days| && forall i | 0 <= i < |days| :: line[i] == Number(Lookup(counts, header(days[i])))
  {
    if days == [] then [] else [Number(Lookup(counts, header(days[0])))] + Cells(counts, days[1..], header)
  }

  function UserLine(u: User, days: seq<int>, header: int -> string): Line
  {
    [Text(u.naam), Text(u.email), Text(u.gebruikersnaam), Number(u.totaal)]
        + Cells(Normalized(u.perDay, header), days, header)
  }

  function UserLines(users: seq<User>, days: seq<int>, header: int -> string): seq<Line>
  {
    if users == [] then []
    else UserLines(users[..|users| - 1], days, header) + [UserLine(users[|users| - 1], days, header)]
  }

  /** The cell under the column of a day shows the user's count for that day, or 0. */
  lemma RowShowsCounts(u: User, days: seq<int>, header: int -> string, i: nat)
    requires Injective(header) && i < |days|
    ensures UserLine(u, days, header)[4 + i] == Number(CountOn(u.perDay, days[i]))
  {
    CellIsCount(u.perDay, header, days[i]);
  }

  function Labels(days: seq<int>, header: int -> string): (line: Line)
    ensures |line| == |days| && forall i | 0 <= i < |days| :: line[i] == Text(header(days[i]))
  {
    if days == [] then [] else [Text(header(days[0]))] + Labels(days[1..], header)
  }

  const BASE_HEADERS := [Text("Naam"), Text("Email"), Text("Gebruikersnaam"), Text("Totaal")]

  function UsersSorted(users: seq<User>, lower: string -> string): seq<User>
  {
    StableSort(users, (a: User, b: User) => StringLe(lower(a.naam), lower(b.naam)))
  }

  function Sheet(users: seq<User>, days: seq<int>, header: int -> string, lower: string -> string): seq<Line>
  {
    [BASE_HEADERS + Labels(days, header)] + UserLines(UsersSorted(users, lower), days, header)
  }

  // ----- the code -----

  /** The loop over loginsPerDay of one user. */
  method NormalizePerDay(perDay: seq<Login>, header: int -> string) returns (counts: map<string, int>)
    ensures counts == Normalized(perDay, header)
  {
    counts := map[];
    var i := 0;
    while i < |perDay|
      invariant 0 <= i <= |perDay| && counts == Normalized(perDay[..i], header)
    {
      assert perDay[..i + 1][..i] == perDay[..i];
      counts := counts[header(perDay[i].at.day) := perDay[i].count];
      i := i + 1;
    }
    assert perDay[..i] == perDay;
  }

  method WriteUsers(ws: Worksheet, users: seq<User>, days: seq<int>, header: int -> string)
    modifies ws
    ensures ws.lines == old(ws.lines) + UserLines(users, days, header)
  {
    var i := 0;
    while i < |users|
      invariant 0 <= i <= |users|
      invariant ws.lines == old(ws.lines) + UserLines(users[..i], days, header)
    {
      var u := users[i];
      var counts := NormalizePerDay(u.perDay, header);
      ws.Append([Text(u.naam), Text(u.email), Text(u.gebruikersnaam), Number(u.totaal)] + Cells(counts, days, header));
      assert users[..i + 1][..i] == users[..i];
      i := i + 1;
    }
    assert users[..i] == users;
  }

  /** The period the sheet covers. */
  method Period(users: seq<User>, period: Option<(Instant, Instant)>, today: int) returns (start: Instant, end: Instant)
    ensures period.Some? ==> (start, end) == Swapped(period.value.0, period.value.1)
    ensures period.None? && AllLogins(users) == [] ==> start == end == Instant(today, 0)
    ensures period.None? && AllLogins(users) != [] ==> Spans(AllLogins(users), start, end)
  {
    if period.Some? {
      start, end := period.value.0, period.value.1;
      if Before(end, start) {
        start, end := end, start;
      }
    } else {
      var bounds := Bounds(users);
      start, end := Instant(today, 0), Instant(today, 0);
      if bounds.Some? {
        start, end := bounds.value.0, bounds.value.1;
      }
    }
  }

  method AddUsersSheet(users: seq<User>, period: Option<(Instant, Instant)>, today: int, header: int -> string,
                       lower: string -> string)
    returns (ws: Worksheet, start: Instant, end: Instant)
    ensures ws.lines == Sheet(users, DaysBetween(start.day, end.day), header, lower)
    ensures period.Some? ==> (start, end) == Swapped(period.value.0, period.value.1)
    ensures period.None? && AllLogins(users) == [] ==> start == end == Instant(today, 0)
    ensures period.None? && AllLogins(users) != [] ==> Spans(AllLogins(users), start, end)
  {
    start, end := Period(users, period, today);
    var days := DateRange(start, end);
    ws := new Worksheet();
    ws.Append(BASE_HEADERS + Labels(days, header));
    WriteUsers(ws, UsersSorted(users, lower), days, header);
  }

  // ----- nothing is lost -----

  function SumOfCounts(perDay: seq<Login>): int
  {
    if perDay == [] then 0 else SumOfCounts(perDay[..|perDay| - 1]) + perDay[|perDay| - 1].count
  }

  /** The counts that a later login of the same day replaced. */
  function Replaced(perDay: seq<Login>): int
  {
    if perDay == [] then 0
    else Replaced(perDay[..|perDay| - 1]) + CountOn(perDay[..|perDay| - 1], perDay[|perDay| - 1].at.day)
  }

  /** The day cells of a row, added up. */
  function SumOfCells(perDay: seq<Login>, days: seq<int>): int
  {
    if days == [] then 0 else SumOfCells(perDay, days[..|days| - 1]) + CountOn(perDay, days[|days| - 1])
  }

  ghost predicate DistinctDays(days: seq<int>)
  {
    forall i, j | 0 <= i < j < |days| :: days[i] != days[j]
  }

  lemma {:induction false} OneMoreLogin(perDay: seq<Login>, days: seq<int>)
    requires perDay != [] && DistinctDays(days)
    ensures var rest, last := perDay[..|perDay| - 1], perDay[|perDay| - 1];
            SumOfCells(perDay, days) == SumOfCells(rest, days) +
              if last.at.day in days then last.count - CountOn(rest, last.at.day) else 0
    decreases |days|
  {
    if days == [] {
    } else {
      OneMoreLogin(perDay, days[..|days| - 1]);
      assert days == days[..|days| - 1] + [days[|days| - 1]];
    }
  }

  lemma {:induction false} NoLogins(days: seq<int>)
    ensures SumOfCells([], days) == 0
  {
    if days == [] {
    } else {
      NoLogins(days[..|days| - 1]);
    }
  }

  /** When the columns cover all of a user's days, the cells of the row and the replaced counts
      together are exactly the user's counts. */
  lemma {:induction false} CellsConserveCounts(perDay: seq<Login>, days: seq<int>)
    requires DistinctDays(days) && forall l | l in perDay :: l.at.day in days
    ensures SumOfCells(perDay, days) + Replaced(perDay) == SumOfCounts(perDay)
  {
    if perDay == [] {
      NoLogins(days);
    } else {
      assert perDay[|perDay| - 1] in perDay;
      CellsConserveCounts(perDay[..|perDay| - 1], days);
      OneMoreLogin(perDay, days);
    }
  }

  ghost predicate DistinctLogins(perDay: seq<Login>)
  {
    forall i, j | 0 <= i < j < |perDay| :: perDay[i].at.day != perDay[j].at.day
  }

  lemma {:induction false} NotOn(perDay: seq<Login>, d: int)
    requires forall l | l in perDay :: l.at.day != d
    ensures CountOn(perDay, d) == 0
  {
    if perDay == [] {
    } else {
      assert perDay[|perDay| - 1] in perDay;
      NotOn(perDay[..|perDay| - 1], d);
    }
  }

  lemma {:induction false} NothingReplaced(perDay: seq<Login>)
    requires DistinctLogins(perDay)
    ensures Replaced(perDay) == 0
  {
    if perDay == [] {
    } else {
      NothingReplaced(perDay[..|perDay| - 1]);
      NotOn(perDay[..|perDay| - 1], perDay[|perDay| - 1].at.day);
    }
  }

  lemma {:induction false} LoginsOfUser(users: seq<User>, u: User, l: Login)
    requires u in users && l in u.perDay
    ensures l in AllLogins(users)
  {
    if u == users[|users| - 1] {
    } else {
      LoginsOfUser(users[..|users| - 1], u, l);
    }
  }

  lemma NameLeIsPreorder(lower: string -> string)
    ensures TotalPreorder((a: User, b: User) => StringLe(lower(a.naam), lower(b.naam)))
  {
    var le := (a: User, b: User) => StringLe(lower(a.naam), lower(b.naam));
    forall a, b
      ensures le(a, b) || le(b, a)
    {
      StringLeTotal(lower(a.naam), lower(b.naam));
    }
    forall a, b, c | le(a, b) && le(b, c)
      ensures le(a, c)
    {
      StringLeTransitive(lower(a.naam), lower(b.naam), lower(c.naam));
    }
  }

  /** One row per user, ordered by name without regard to case. */
  lemma RowsAreOrderedUsers(users: seq<User>, lower: string -> string)
    ensures multiset(UsersSorted(users, lower)) == multiset(users)
    ensures forall i, j | 0 <= i < j < |users| ::
              StringLe(lower(UsersSorted(users, lower)[i].naam), lower(UsersSorted(users, lower)[j].naam))
  {
    NameLeIsPreorder(lower);
    SortsElements(users, (a: User, b: User) => StringLe(lower(a.naam), lower(b.naam)));
  }

  /** The numbers written into the cells of a line, added up. */
  function SumOfNumbers(line: Line): int
  {
    if line == [] then 0
    else SumOfNumbers(line[..|line| - 1]) + if line[|line| - 1].Number? then line[|line| - 1].number else 0
  }

  lemma {:induction false} CellsSum(perDay: seq<Login>, days: seq<int>, header: int -> string)
    requires Injective(header)
    ensures SumOfNumbers(Cells(Normalized(perDay, header), days, header)) == SumOfCells(perDay, days)
  {
    if days == [] {
    } else {
      var counts, n := Normalized(perDay, header), |days| - 1;
      CellsSum(perDay, days[..n], header);
      CellIsCount(perDay, header, days[n]);
      assert Cells(counts, days, header)[..n] == Cells(counts, days[..n], header);
    }
  }

  lemma {:induction false} SheetRow(users: seq<User>, days: seq<int>, header: int -> string, i: nat)
    requires i < |users|
    ensures |UserLines(users, days, header)| == |users|
    ensures UserLines(users, days, header)[i] == UserLine(users[i], days, header)
  {
    if |users| == 1 {
    } else {
      SheetRow(users[..|users| - 1], days, header, if i == |users| - 1 then i - 1 else i);
    }
  }

  lemma RowSum(u: User, days: seq<int>, header: int -> string)
    requires Injective(header)
    ensures |UserLine(u, days, header)| >= 4
    ensures SumOfNumbers(UserLine(u, days, header)[4..]) == SumOfCells(u.perDay, days)
  {
    assert UserLine(u, days, header)[4..] == Cells(Normalized(u.perDay, header), days, header);
    CellsSum(u.perDay, days, header);
  }

  lemma SortedUser(users: seq<User>, lower: string -> string, i: nat)
    requires i < |users|
    ensures UsersSorted(users, lower)[i] in users
  {
    RowsAreOrderedUsers(users, lower);
    assert UsersSorted(users, lower)[i] in multiset(UsersSorted(users, lower));
  }

  /** When the columns span all logins, no count of the user falls outside them. */
  lemma UserIsLossless(users: seq<User>, u: User, start: Instant, end: Instant)
    requires u in users && Spans(AllLogins(users), start, end)
    ensures SumOfCells(u.perDay, DaysBetween(start.day, end.day)) + Replaced(u.perDay) == SumOfCounts(u.perDay)
  {
    var days := DaysBetween(start.day, end.day);
    forall l | l in u.perDay
      ensures l.at.day in days
    {
      LoginsOfUser(users, u, l);
      DayInRange(start.day, end.day, l.at.day);
    }
    CellsConserveCounts(u.perDay, days);
  }

  /** The day cells of a line and what was replaced within one day account for all of the user's counts. */
  ghost predicate Accounts(line: Line, u: User)
  {
    && |line| >= 4
    && SumOfNumbers(line[4..]) + Replaced(u.perDay) == SumOfCounts(u.perDay)
    && (DistinctLogins(u.perDay) ==> SumOfNumbers(line[4..]) == SumOfCounts(u.perDay))
  }

  lemma LineAccounts(users: seq<User>, u: User, start: Instant, end: Instant, header: int -> string)
    requires u in users && Injective(header) && Spans(AllLogins(users), start, end)
    ensures Accounts(UserLine(u, DaysBetween(start.day, end.day), header), u)
  {
    RowSum(u, DaysBetween(start.day, end.day), header);
    UserIsLossless(users, u, start, end);
    if DistinctLogins(u.perDay) {
      NothingReplaced(u.perDay);
    }
  }

  lemma RowOfSheet(users: seq<User>, days: seq<int>, header: int -> string, lower: string -> string, i: nat)
    requires i < |users|
    ensures |Sheet(users, days, header, lower)| == |users| + 1
    ensures Sheet(users, days, header, lower)[i + 1] == UserLine(UsersSorted(users, lower)[i], days, header)
  {
    SheetRow(UsersSorted(users, lower), days, header, i);
  }

  /** Without a given period every row of the sheet accounts for all of its user's counts: the day cells
      written into it miss exactly what was replaced within one day, so nothing at all if the user's days
      are distinct. */
  lemma RowsAreLossless(users: seq<User>, start: Instant, end: Instant, header: int -> string, lower: string -> string,
                        sheet: seq<Line>, i: nat)
    requires sheet == Sheet(users, DaysBetween(start.day, end.day), header, lower)
    requires i < |users| && Injective(header) && Spans(AllLogins(users), start, end)
    ensures |sheet| == |users| + 1 && Accounts(sheet[i + 1], UsersSorted(users, lower)[i])
  {
    RowOfSheet(users, DaysBetween(start.day, end.day), header, lower, i);
    SortedUser(users, lower, i);
    LineAccounts(users, UsersSorted(users, lower)[i], start, end, header);
  }

  // ----- the cells of the finished sheet -----

  /** The last of several logins on one day is the one that counts. */
  lemma {:induction false} LastLoginCounts(perDay: seq<Login>, k: nat)
    requires k < |perDay| && forall j | k < j < |perDay| :: perDay[j].at.day != perDay[k].at.day
    ensures CountOn(perDay, perDay[k].at.day) == perDay[k].count
  {
    if k == |perDay| - 1 {
    } else {
      LastLoginCounts(perDay[..|perDay| - 1], k);
    }
  }

  /** Under its header every row shows its user's fields, and under a day the count of the user's last login on
      that day, or 0 without one. */
  lemma CellsOfTheSheet(users: seq<User>, days: seq<int>, header: int -> string, lower: string -> string, i: nat,
                        c: nat)
    requires Injective(header) && i < |users| && c < 4 + |days|
    ensures var sheet, u := Sheet(users, days, header, lower), UsersSorted(users, lower)[i];
            && |sheet| == |users| + 1 && |sheet[0]| == |sheet[i + 1]| == 4 + |days|
            && match c
               case 0 => sheet[0][c] == Text("Naam") && sheet[i + 1][c] == Text(u.naam)
               case 1 => sheet[0][c] == Text("Email") && sheet[i + 1][c] == Text(u.email)
               case 2 => sheet[0][c] == Text("Gebruikersnaam") && sheet[i + 1][c] == Text(u.gebruikersnaam)
               case 3 => sheet[0][c] == Text("Totaal") && sheet[i + 1][c] == Number(u.totaal)
               case _ =>
                 && sheet[0][c] == Text(header(days[c - 4]))
                 && sheet[i + 1][c] == Number(CountOn(u.perDay, days[c - 4]))
  {
    RowOfSheet(users, days, header, lower, i);
    if c >= 4 {
      RowShowsCounts(UsersSorted(users, lower)[i], days, header, c - 4);
    }
  }
}
