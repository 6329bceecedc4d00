/** The services of a task mapping: the validation of the form that configures them
    (src/bptl/tasks/forms.py) and the two ways a work unit looks them up
    (src/bptl/work_units/services.py, src/bptl/work_units/zgw/tasks/base.py). */
module ServiceValidation {
  import opened Wrappers
  import opened Filters

  type ApiType = string

  datatype Service = Service(id: nat, apiType: ApiType)

  ghost predicate WellFormed(forms: seq<Form>)
  {
    forall f | f in forms :: f.WellFormed()
  }

  /** One form of the set.  A field that did not validate is absent from its cleaned data. */
  datatype Form = Blank | Filled(alias: Option<string>, service: Option<Service>, delete: bool, error: bool)
  {
    predicate WellFormed()
    {
      Filled? && !error ==> alias.Some? && service.Some?
    }

    /** Forms marked for deletion are neither counted as invalid nor saved. */
    predicate Kept()
    {
      Filled? && !delete
    }

    predicate Valid()
    {
      Kept() && !error
    }

    predicate Has(a: string)
    {
      Filled? && alias == Some(a)
    }

    predicate Offers(t: ApiType)
    {
      Filled? && service.Some? && service.value.apiType == t
    }

    /** The cleaned data of two forms compares equal. */
    predicate SameData(other: Form)
    {
      if Blank? then other.Blank?
      else other.Filled? && alias == other.alias && service == other.service && delete == other.delete
    }
  }

  /** An empty alias means that any service of the type will do. */
  datatype Requirement = Requirement(serviceType: ApiType, alias: string)

  /** How clean ends: normally, with an error for the whole set, or with an error nobody catches. */
  datatype Verdict =
    | Returned
    | NotUnique
    | MissingAlias(alias: string)
    | MissingType(apiType: ApiType)
    | AttributeError
    | KeyError

  predicate IsValid(forms: seq<Form>)
  {
    forall f | f in forms :: f.Kept() ==> !f.error
  }

  /** The uniqueness check of the set: a service or an alias may be used once per mapping.  It skips
      blank aliases, which only the database compares. */
  predicate Unique(forms: seq<Form>)
  {
    forall i, j | 0 <= i < j < |forms| && forms[i].Valid() && forms[j].Valid() ::
      && (forms[i].alias == forms[j].alias ==> forms[i].alias == Some(""))
      && forms[i].service != forms[j].service
  }

  /** Position of the first form with this alias. */
  function FirstWith(forms: seq<Form>, alias: string): (i: nat)
    ensures i <= |forms|
    ensures i < |forms| ==> forms[i].Has(alias)
    ensures forall j | 0 <= j < i :: !forms[j].Has(alias)
  {
    if forms == [] then 0
    else if forms[0].Has(alias) then 0
    else 1 + FirstWith(forms[1..], alias)
  }

  // ----- what the first round does -----

  datatype Round = Round(forms: seq<Form>, pinned: seq<nat>, verdict: Verdict)

  /** One aliased requirement, while nothing has been raised. */
  function Checked(round: Round, r: Requirement): Round
  {
    if r.alias == "" then round
    else if !IsValid(round.forms) then round.(verdict := AttributeError)
    else
      var i := FirstWith(round.forms, r.alias);
      if i == |round.forms| then round.(verdict := MissingAlias(r.alias))
      else
        var pinned := round.pinned + [i];
        match round.forms[i].service
        case None => Round(round.forms, pinned, KeyError)
        case Some(service) =>
          if service.apiType == r.serviceType then Round(round.forms, pinned, Returned)
          else Round(round.forms[i := round.forms[i].(service := None, error := true)], pinned, Returned)
  }

  function FirstRound(forms: seq<Form>, required: seq<Requirement>): Round
    decreases |required|
  {
    if required == [] then Round(forms, [], Returned)
    else
      var round := FirstRound(forms, required[..|required| - 1]);
      if round.verdict.Returned? then Checked(round, required[|required| - 1]) else round
  }

  predicate Candidate(forms: seq<Form>, pinned: seq<nat>, i: nat)
  {
    && i < |forms| && forms[i].Filled? && forms[i].service.Some?
    && forall p | p in pinned && p < |forms| :: !forms[i].SameData(forms[p])
  }

  predicate HasCandidate(forms: seq<Form>, pinned: seq<nat>, t: ApiType)
  {
    exists i :: 0 <= i < |forms| && Candidate(forms, pinned, i) && forms[i].Offers(t)
  }

  predicate Unmet(forms: seq<Form>, pinned: seq<nat>, r: Requirement)
  {
    r.alias == "" && !HasCandidate(forms, pinned, r.serviceType)
  }

  predicate FirstUnmet(forms: seq<Form>, pinned: seq<nat>, required: seq<Requirement>, n: nat)
  {
    n < |required| && Unmet(forms, pinned, required[n]) && forall m | 0 <= m < n :: !Unmet(forms, pinned, required[m])
  }

  /** The set validates: clean raises nothing and leaves no form with an error. */
  ghost predicate Accepts(forms: seq<Form>, required: seq<Requirement>)
  {
    var round := FirstRound(forms, required);
    && Unique(forms) && IsValid(forms)
    && round.verdict.Returned? && IsValid(round.forms)
    && forall r | r in required :: !Unmet(round.forms, round.pinned, r)
  }

  /** Once something is raised, the rest of the requirements is not looked at. */
  lemma {:induction false} StaysStopped(forms: seq<Form>, required: seq<Requirement>, n: nat)
    requires n <= |required| && !FirstRound(forms, required[..n]).verdict.Returned?
    ensures FirstRound(forms, required) == FirstRound(forms, required[..n])
    decreases |required|
  {
    if n == |required| {
      assert required[..n] == required;
    } else {
      assert required[..|required| - 1][..n] == required[..n];
      StaysStopped(forms, required[..|required| - 1], n);
    }
  }

  class DefaultServiceFormset {
    var forms: seq<Form>

    constructor (forms: seq<Form>)
      ensures this.forms == forms
    {
      this.forms := forms;
    }

    /** The first round: explicitly expected aliases. */
    method CheckAliases(required: seq<Requirement>) returns (verdict: Verdict, pinned: seq<nat>)
      modifies this
      ensures forms == FirstRound(old(forms), required).forms && verdict == FirstRound(old(forms), required).verdict
      ensures verdict.Returned? ==> pinned == FirstRound(old(forms), required).pinned
    {
      pinned := [];
      var n := 0;
      while n < |required|
        invariant 0 <= n <= |required|
        invariant FirstRound(old(forms), required[..n]) == Round(forms, pinned, Returned)
      {
        var r := required[n];
        assert required[..n + 1][..n] == required[..n];
        n := n + 1;
        if r.alias == "" {
          continue;
        }
        ghost var round := Checked(Round(forms, pinned, Returned), r);
        assert FirstRound(old(forms), required[..n]) == round;
        if !round.verdict.Returned? {
          StaysStopped(old(forms), required, n);
        }
        if !IsValid(forms) {
          return AttributeError, pinned;
        }
        var i := FirstWith(forms, r.alias);
        if i == |forms| {
          return MissingAlias(r.alias), pinned;
        }
        pinned := pinned + [i];
        if forms[i].service.None? {
          return KeyError, pinned;
        }
        if forms[i].service.value.apiType != r.serviceType {
          forms := forms[i := forms[i].(service := None, error := true)];
        }
      }
      assert required[..n] == required;
      return Returned, pinned;
    }

    /** The second round: free aliases. */
    method CheckTypes(required: seq<Requirement>, pinned: seq<nat>) returns (verdict: Verdict)
      ensures verdict == Returned <==> forall r | r in required :: !Unmet(forms, pinned, r)
      ensures verdict != Returned ==>
                exists n: nat :: FirstUnmet(forms, pinned, required, n)
                    && verdict == MissingType(required[n].serviceType)
    {
      var n: nat := 0;
      while n < |required|
        invariant n <= |required|
        invariant forall m | 0 <= m < n :: !Unmet(forms, pinned, required[m])
      {
        var r := required[n];
        if r.alias == "" && !HasCandidate(forms, pinned, r.serviceType) {
          assert FirstUnmet(forms, pinned, required, n) && r in required;
          return MissingType(r.serviceType);
        }
        n := n + 1;
      }
      return Returned;
    }

    /** `callback` is None when no callback was chosen or it is not registered. */
    method Clean(callback: Option<seq<Requirement>>) returns (verdict: Verdict)
      modifies this
      ensures !Unique(old(forms)) ==> verdict == NotUnique && forms == old(forms)
      ensures Unique(old(forms)) && (callback.None? || !IsValid(old(forms))) ==>
                verdict == Returned && forms == old(forms)
      ensures callback.Some? ==>
                (verdict == Returned && IsValid(forms) <==> Accepts(old(forms), callback.value))
      ensures Unique(old(forms)) && callback.Some? && IsValid(old(forms)) ==>
                var round := FirstRound(old(forms), callback.value);
                && forms == round.forms
                && (!round.verdict.Returned? || !IsValid(forms) ==> verdict == round.verdict)
                && (round.verdict.Returned? && IsValid(forms) && verdict != Returned ==>
                      exists n: nat :: FirstUnmet(forms, round.pinned, callback.value, n)
                                       && verdict == MissingType(callback.value[n].serviceType))
      ensures callback.Some? && Sane(old(forms)) ==> Answer(old(forms), callback.value, verdict, forms)
    {
      if !Unique(forms) {
        return NotUnique;
      }
      if callback.None? || !IsValid(forms) {
        return Returned;
      }
      var pinned;
      verdict, pinned := CheckAliases(callback.value);
      // with a form error the set has no cleaned data any more
      if verdict.Returned? && IsValid(forms) {
        verdict := CheckTypes(callback.value, pinned);
      }
      if Sane(old(forms)) {
        AnswerIsGiven(old(forms), callback.value, verdict);
      }
    }
  }

  // ----- when a set validates -----

  ghost predicate NoDeletes(forms: seq<Form>)
  {
    forall f | f in forms :: f.Filled? ==> !f.delete
  }

  /** What the runtime will look up by alias is there, with the right type. */
  ghost predicate Served(forms: seq<Form>, r: Requirement)
  {
    exists f :: f in forms && f.Has(r.alias) && f.Offers(r.serviceType)
  }

  ghost predicate AliasRequired(required: seq<Requirement>, alias: string)
  {
    exists r :: r in required && r.alias == alias && alias != ""
  }

  /** Some service of the type is there that no required alias claims. */
  ghost predicate FreelyServed(forms: seq<Form>, required: seq<Requirement>, t: ApiType)
  {
    exists f :: f in forms && f.Offers(t) && (f.alias.Some? ==> !AliasRequired(required, f.alias.value))
  }

  ghost predicate Meets(forms: seq<Form>, required: seq<Requirement>, r: Requirement)
  {
    if r.alias != "" then Served(forms, r) else FreelyServed(forms, required, r.serviceType)
  }

  /** Sets that can be saved: every set the validation accepts is one of them. */
  ghost predicate Savable(forms: seq<Form>)
  {
    WellFormed(forms) && Unique(forms) && IsValid(forms)
  }

  ghost predicate Sane(forms: seq<Form>)
  {
    Savable(forms) && NoDeletes(forms)
  }

  /** In a set without deletions an alias leads to one form. */
  lemma AliasIsFirst(forms: seq<Form>, f: Form, alias: string)
    requires Sane(forms) && f in forms && f.Has(alias) && alias != ""
    ensures FirstWith(forms, alias) < |forms| && forms[FirstWith(forms, alias)] == f
  {
    var j :| 0 <= j < |forms| && forms[j] == f;
    var i := FirstWith(forms, alias);
    assert forms[i] in forms;
    assert forms[i].Valid() && forms[j].Valid();
  }

  ghost predicate Pins(forms: seq<Form>, required: seq<Requirement>, pinned: seq<nat>)
  {
    && (forall p | p in pinned ::
          && p < |forms| && forms[p].Filled? && forms[p].alias.Some?
          && AliasRequired(required, forms[p].alias.value))
    && (forall r | r in required && r.alias != "" :: FirstWith(forms, r.alias) in pinned)
  }

  /** What the end of the first round says about the requirements it has checked. */
  ghost predicate Concludes(forms: seq<Form>, required: seq<Requirement>, round: Round)
  {
    && (round.verdict.Returned? && IsValid(round.forms) <==>
          forall r | r in required && r.alias != "" :: Served(forms, r))
    && (round.verdict.Returned? && IsValid(round.forms) ==> round.forms == forms && Pins(forms, required, round.pinned))
  }

  lemma BrokenStaysBroken(round: Round, r: Requirement)
    requires round.verdict.Returned? && !IsValid(round.forms)
    ensures !(Checked(round, r).verdict.Returned? && IsValid(Checked(round, r).forms))
  {
  }

  lemma CheckedIff(forms: seq<Form>, before: seq<Requirement>, round: Round, r: Requirement)
    requires Sane(forms) && round.verdict.Returned? && round.forms == forms && Pins(forms, before, round.pinned)
    ensures var next := Checked(round, r);
            && (next.verdict.Returned? && IsValid(next.forms) <==> r.alias != "" ==> Served(forms, r))
            && (next.verdict.Returned? && IsValid(next.forms) ==>
                next.forms == forms && Pins(forms, before + [r], next.pinned))
  {
    assert forall a | AliasRequired(before, a) :: AliasRequired(before + [r], a);
    if r.alias != "" {
      assert r in before + [r] && AliasRequired(before + [r], r.alias);
      var next, i := Checked(round, r), FirstWith(forms, r.alias);
      if i < |forms| {
        assert forms[i] in forms;
        if Served(forms, r) {
          var f :| f in forms && f.Has(r.alias) && f.Offers(r.serviceType);
          AliasIsFirst(forms, f, r.alias);
        } else {
          assert next.forms[i] in next.forms && next.forms[i].Kept();
        }
      }
    }
  }

  lemma NextConcludes(forms: seq<Form>, before: seq<Requirement>, round: Round, r: Requirement)
    requires Sane(forms) && Concludes(forms, before, round)
    ensures Concludes(forms, before + [r], if round.verdict.Returned? then Checked(round, r) else round)
  {
    if round.verdict.Returned? {
      if IsValid(round.forms) {
        CheckedIff(forms, before, round, r);
      } else {
        BrokenStaysBroken(round, r);
      }
    }
    assert forall x :: x in before + [r] <==> x in before || x == r;
  }

  lemma {:induction false} FirstRoundIff(forms: seq<Form>, required: seq<Requirement>)
    requires Sane(forms)
    ensures Concludes(forms, required, FirstRound(forms, required))
    decreases |required|
  {
    if required == [] {
    } else {
      var last := |required| - 1;
      FirstRoundIff(forms, required[..last]);
      assert required == required[..last] + [required[last]];
      NextConcludes(forms, required[..last], FirstRound(forms, required[..last]), required[last]);
    }
  }

  lemma CandidateIff(forms: seq<Form>, required: seq<Requirement>, pinned: seq<nat>, t: ApiType)
    requires Sane(forms) && Pins(forms, required, pinned)
    ensures HasCandidate(forms, pinned, t) <==> FreelyServed(forms, required, t)
  {
    if HasCandidate(forms, pinned, t) {
      var i :| 0 <= i < |forms| && Candidate(forms, pinned, i) && forms[i].Offers(t);
      assert forms[i] in forms;
      if forms[i].alias.Some? && AliasRequired(required, forms[i].alias.value) {
        AliasIsFirst(forms, forms[i], forms[i].alias.value);
        assert false;
      }
    }
    if FreelyServed(forms, required, t) {
      var f :| f in forms && f.Offers(t) && (f.alias.Some? ==> !AliasRequired(required, f.alias.value));
      var i :| 0 <= i < |forms| && forms[i] == f;
      assert Candidate(forms, pinned, i);
    }
  }

  /** Without forms marked for deletion the set validates if and only if every required alias names a
      service of its type and every other required type is offered by a service no such alias claims. */
  lemma AcceptsIff(forms: seq<Form>, required: seq<Requirement>)
    requires WellFormed(forms) && NoDeletes(forms)
    ensures Accepts(forms, required) <==>
              Unique(forms) && IsValid(forms) && forall r | r in required :: Meets(forms, required, r)
  {
    if Sane(forms) {
      FirstRoundIff(forms, required);
      var round := FirstRound(forms, required);
      if round.verdict.Returned? && IsValid(round.forms) {
        forall r | r in required
          ensures Unmet(forms, round.pinned, r) <==> !Meets(forms, required, r)
        {
          CandidateIff(forms, required, round.pinned, r.serviceType);
        }
      }
    }
  }

  // ----- the lookups at run time -----

  /** A saved DefaultService record of the mapping. */
  datatype Row = Row(alias: string, service: Service)

  function Saved(forms: seq<Form>): seq<Row>
  {
    if forms == [] then []
    else
      var f := forms[0];
      (if f.Kept() && f.alias.Some? && f.service.Some? then [Row(f.alias.value, f.service.value)] else [])
          + Saved(forms[1..])
  }

  datatype Lookup = Found(service: Service) | NoService | MultipleServices | MultipleObjects

  function GetAliasService(rows: seq<Row>, alias: string): Lookup
  {
    var found := Filter(rows, (row: Row) => row.alias == alias);
    if found == [] then NoService else if |found| > 1 then MultipleObjects else Found(found[0].service)
  }

  /** The choice of the service in get_client. */
  function GetClient(rows: seq<Row>, serviceType: ApiType): Lookup
  {
    var found := Filter(rows, (row: Row) => row.service.apiType == serviceType);
    if found == [] then NoService else if |found| > 1 then MultipleServices else Found(found[0].service)
  }

  /** Two rows of one mapping may share nothing but a blank alias. */
  predicate Clash(a: Row, b: Row)
  {
    (a.alias == b.alias && a.alias != "") || a.service == b.service
  }

  ghost predicate UniqueRows(rows: seq<Row>)
  {
    forall i, j | 0 <= i < j < |rows| :: !Clash(rows[i], rows[j])
  }

  /** Every row comes from a form. */
  lemma {:induction false} SavedFrom(forms: seq<Form>, row: Row) returns (f: Form)
    requires row in Saved(forms)
    ensures f in forms && f.Kept() && f.alias == Some(row.alias) && f.service == Some(row.service)
  {
    if row in Saved(forms[1..]) {
      f := SavedFrom(forms[1..], row);
    } else {
      f := forms[0];
    }
  }

  /** No two forms of a set that passed the uniqueness check share a service. */
  lemma FormsDiffer(forms: seq<Form>, f: Form, g: Form)
    requires Unique(forms) && f in forms && g in forms && f.Valid() && g.Valid() && f != g
    ensures f.service != g.service
  {
    var i :| 0 <= i < |forms| && forms[i] == f;
    var j :| 0 <= j < |forms| && forms[j] == g;
    assert i < j || j < i;
  }

  lemma {:induction false} SavedUnique(forms: seq<Form>)
    requires Unique(forms) && IsValid(forms)
    ensures UniqueRows(Saved(forms))
  {
    if forms == [] {
    } else {
      SavedUnique(forms[1..]);
      assert forms[0] in forms;
      forall row | row in Saved(forms[1..]) && forms[0].Kept()
        ensures forms[0].service != Some(row.service) && (forms[0].alias == Some(row.alias) ==> row.alias == "")
      {
        var f := SavedFrom(forms[1..], row);
        var j :| 0 <= j < |forms[1..]| && forms[1..][j] == f;
        assert forms[j + 1] == f && f in forms;
      }
    }
  }

  /** A kept form is saved as it stands. */
  lemma {:induction false} FormIsSaved(forms: seq<Form>, f: Form)
    requires f in forms && f.Kept() && f.alias.Some? && f.service.Some?
    ensures Row(f.alias.value, f.service.value) in Saved(forms)
  {
    if forms[0] == f {
    } else {
      FormIsSaved(forms[1..], f);
    }
  }

  lemma UniqueParts(before: seq<Row>, rows: seq<Row>)
    requires UniqueRows(before + rows)
    ensures UniqueRows(rows) && forall x, y | x in before && y in rows :: !Clash(x, y)
  {
    var all := before + rows;
    forall j | 0 <= j < |rows|
      ensures forall i | 0 <= i < j :: !Clash(rows[i], rows[j])
      ensures forall i | 0 <= i < |before| :: !Clash(before[i], rows[j])
    {
      assert all[|before| + j] == rows[j];
      assert forall i | 0 <= i < j :: rows[i] == all[|before| + i];
      assert forall i | 0 <= i < |before| :: before[i] == all[i];
    }
  }

  /** The uniqueness check is exact: it passes if and only if the rows to be saved differ in their services
      and, blank ones aside, in their aliases. */
  lemma {:induction false} UniqueIff(forms: seq<Form>)
    requires WellFormed(forms) && IsValid(forms)
    ensures Unique(forms) <==> UniqueRows(Saved(forms))
  {
    if Unique(forms) {
      SavedUnique(forms);
    } else if UniqueRows(Saved(forms)) {
      var rest := forms[1..];
      assert forms[..1][1..] == [] && Saved(forms) == Saved(forms[..1]) + Saved(rest);
      UniqueParts(Saved(forms[..1]), Saved(rest));
      UniqueIff(rest);
      var j :| 0 < j < |forms| && forms[0].Valid() && forms[j].Valid()
               && ((forms[0].alias == forms[j].alias && forms[0].alias != Some(""))
                   || forms[0].service == forms[j].service);
      assert forms[0].WellFormed() && forms[j].WellFormed() && rest[j - 1] == forms[j];
      FormIsSaved(rest, forms[j]);
      FormIsSaved(forms[..1], forms[0]);
      assert false;
    }
  }

  /** A form that will be saved offers a service of the type, or does so under the alias. */
  ghost predicate KeptOffers(forms: seq<Form>, t: ApiType)
  {
    exists f :: f in forms && f.Kept() && f.Offers(t)
  }

  ghost predicate KeptServes(forms: seq<Form>, alias: string, t: ApiType)
  {
    exists f :: f in forms && f.Kept() && f.Has(alias) && f.Offers(t)
  }

  predicate LooksUp(found: Lookup, t: ApiType)
  {
    found.Found? && found.service.apiType == t
  }

  lemma AliasFindsForm(forms: seq<Form>, f: Form, alias: string)
    requires Savable(forms) && alias != "" && f in forms && f.Kept() && f.Has(alias)
    ensures f.service.Some? && GetAliasService(Saved(forms), alias) == Found(f.service.value)
  {
    assert f.WellFormed();
    FormIsSaved(forms, f);
    SavedUnique(forms);
    var rows := Saved(forms);
    var k :| 0 <= k < |rows| && rows[k] == Row(alias, f.service.value);
    OnlyOneLeft(rows, (row: Row) => row.alias == alias, k);
  }

  /** For every set that can be saved, deletions or not: the lookup by alias finds exactly one service, of
      the type, if and only if a form that is kept offers it under that alias. */
  lemma AliasLookupIff(forms: seq<Form>, alias: string, t: ApiType)
    requires Savable(forms) && alias != ""
    ensures LooksUp(GetAliasService(Saved(forms), alias), t) <==> KeptServes(forms, alias, t)
    ensures GetAliasService(Saved(forms), alias) == NoService <==> forall f | f in forms && f.Kept() :: !f.Has(alias)
    ensures GetAliasService(Saved(forms), alias) != MultipleObjects
  {
    var rows, p := Saved(forms), (row: Row) => row.alias == alias;
    if f :| f in forms && f.Kept() && f.Has(alias) {
      AliasFindsForm(forms, f, alias);
      forall g | g in forms && g.Kept() && g.Has(alias)
        ensures g.service == f.service
      {
        AliasFindsForm(forms, g, alias);
      }
    } else {
      forall row | row in rows
        ensures !p(row)
      {
        var f := SavedFrom(forms, row);
      }
      NothingLeft(rows, p);
    }
  }

  /** And the query of get_client is not empty if and only if a form that is kept offers the type. */
  lemma ClientLookupIff(forms: seq<Form>, t: ApiType)
    requires Savable(forms)
    ensures GetClient(Saved(forms), t) != NoService <==> KeptOffers(forms, t)
    ensures GetClient(Saved(forms), t) != MultipleObjects
  {
    var rows := Saved(forms);
    var found := Filter(rows, (row: Row) => row.service.apiType == t);
    if f :| f in forms && f.Kept() && f.Offers(t) {
      assert f.WellFormed();
      FormIsSaved(forms, f);
      assert Row(f.alias.value, f.service.value) in found;
    }
    if found != [] {
      assert found[0] in found;
      var f := SavedFrom(forms, found[0]);
      assert f.Kept() && f.Offers(t);
    }
  }

  /** What a work unit asks for at run time is answered. */
  ghost predicate Answered(forms: seq<Form>, r: Requirement)
  {
    if r.alias != "" then LooksUp(GetAliasService(Saved(forms), r.alias), r.serviceType)
    else GetClient(Saved(forms), r.serviceType) != NoService
  }

  /** When the validation keeps its promise: an accepted set answers all requirements if and only if the
      forms that are not marked for deletion do. */
  lemma PromiseKeptIff(forms: seq<Form>, required: seq<Requirement>)
    requires WellFormed(forms) && Accepts(forms, required)
    ensures (forall r | r in required :: Answered(forms, r))
            <==> forall r | r in required ::
                   if r.alias != "" then KeptServes(forms, r.alias, r.serviceType) else KeptOffers(forms, r.serviceType)
  {
    forall r | r in required
      ensures Answered(forms, r)
              <==> if r.alias != "" then KeptServes(forms, r.alias, r.serviceType) else KeptOffers(forms, r.serviceType)
    {
      if r.alias != "" {
        AliasLookupIff(forms, r.alias, r.serviceType);
      } else {
        ClientLookupIff(forms, r.serviceType);
      }
    }
  }

  /** So without deletions the validation is sound.  The lookup by alias finds exactly one service, of the
      required type. */
  lemma AliasLookupSucceeds(forms: seq<Form>, required: seq<Requirement>, r: Requirement)
    requires WellFormed(forms) && NoDeletes(forms) && Accepts(forms, required)
    requires r in required && r.alias != ""
    ensures GetAliasService(Saved(forms), r.alias).Found?
    ensures GetAliasService(Saved(forms), r.alias).service.apiType == r.serviceType
  {
    AcceptsIff(forms, required);
    assert Meets(forms, required, r);
    AliasLookupIff(forms, r.alias, r.serviceType);
  }

  /** For a requirement without alias it only promises that there is a service to choose from. */
  lemma ClientLookupFindsSome(forms: seq<Form>, required: seq<Requirement>, r: Requirement)
    requires WellFormed(forms) && NoDeletes(forms) && Accepts(forms, required)
    requires r in required && r.alias == ""
    ensures GetClient(Saved(forms), r.serviceType).Found? || GetClient(Saved(forms), r.serviceType).MultipleServices?
  {
    AcceptsIff(forms, required);
    assert Meets(forms, required, r);
    ClientLookupIff(forms, r.serviceType);
  }

  lemma TwoMembers<T>(s: seq<T>, x: T, y: T)
    requires x in s && y in s && x != y
    ensures |s| > 1
  {
    var i :| 0 <= i < |s| && s[i] == x;
    var j :| 0 <= j < |s| && s[j] == y;
    assert i != j;
  }

  lemma TwoFormsTwoRows(forms: seq<Form>, f: Form, g: Form, t: ApiType)
    requires Savable(forms) && f in forms && g in forms && f.Kept() && g.Kept() && f.Offers(t) && g.Offers(t) && f != g
    ensures GetClient(Saved(forms), t) == MultipleServices
  {
    assert f.Valid() && g.Valid() && f.WellFormed() && g.WellFormed();
    FormsDiffer(forms, f, g);
    FormIsSaved(forms, f);
    FormIsSaved(forms, g);
    var rows, p := Saved(forms), (row: Row) => row.service.apiType == t;
    TwoMembers(Filter(rows, p), Row(f.alias.value, f.service.value), Row(g.alias.value, g.service.value));
  }

  lemma TwoRowsTwoForms(forms: seq<Form>, t: ApiType) returns (f: Form, g: Form)
    requires Savable(forms) && GetClient(Saved(forms), t) == MultipleServices
    ensures f in forms && g in forms && f.Kept() && g.Kept() && f.Offers(t) && g.Offers(t) && f != g
  {
    var rows := Saved(forms);
    var i, j := TwoPositions(rows, (row: Row) => row.service.apiType == t);
    SavedUnique(forms);
    assert i < j || j < i;
    f := SavedFrom(forms, rows[i]);
    g := SavedFrom(forms, rows[j]);
  }

  /** Whether get_client finds its service depends on how many forms that are kept offer the type. */
  lemma ClientFoundIff(forms: seq<Form>, t: ApiType)
    requires Savable(forms)
    ensures GetClient(Saved(forms), t).Found? <==>
              && KeptOffers(forms, t)
              && forall f, g | f in forms && g in forms && f.Kept() && g.Kept() && f.Offers(t) && g.Offers(t) :: f == g
  {
    ClientLookupIff(forms, t);
    forall f, g | f in forms && g in forms && f.Kept() && g.Kept() && f.Offers(t) && g.Offers(t) && f != g
      ensures GetClient(Saved(forms), t) == MultipleServices
    {
      TwoFormsTwoRows(forms, f, g, t);
    }
    if GetClient(Saved(forms), t) == MultipleServices {
      var f, g := TwoRowsTwoForms(forms, t);
    }
  }

  /** A work unit that requires one type both under an alias and without can never use the second:
      every mapping the validation accepts for it makes get_client refuse. */
  lemma SharedTypeNeverWorks(forms: seq<Form>, required: seq<Requirement>, named: Requirement, free: Requirement)
    requires WellFormed(forms) && NoDeletes(forms) && Accepts(forms, required)
    requires named in required && free in required
    requires named.alias != "" && free.alias == "" && named.serviceType == free.serviceType
    ensures GetClient(Saved(forms), free.serviceType) == MultipleServices
  {
    AcceptsIff(forms, required);
    assert Meets(forms, required, named) && Meets(forms, required, free);
    var f :| f in forms && f.Has(named.alias) && f.Offers(named.serviceType);
    var g :| g in forms && g.Offers(free.serviceType) && (g.alias.Some? ==> !AliasRequired(required, g.alias.value));
    assert AliasRequired(required, named.alias);
    TwoFormsTwoRows(forms, f, g, free.serviceType);
  }

  /** And there are accepted sets that break the promise: the only form with the alias is marked for
      deletion. */
  lemma DeletedFormIsCounted() returns (forms: seq<Form>, required: seq<Requirement>)
    ensures WellFormed(forms) && Accepts(forms, required)
    ensures exists r :: r in required && r.alias != "" && GetAliasService(Saved(forms), r.alias) == NoService
  {
    var r := Requirement("orc", "objects");
    forms, required := [Filled(Some("objects"), Some(Service(1, "orc")), true, false)], [r];
    assert FirstWith(forms, "objects") == 0;
    assert required[..0] == [];
    assert FirstRound(forms, required[..0]) == Round(forms, [], Returned);
    assert FirstRound(forms, required) == Round(forms, [0], Returned);
    assert Saved(forms) == [];
    assert r in required;
  }

  // ----- when clean fails -----

  ghost predicate Mismatched(forms: seq<Form>, r: Requirement)
  {
    r.alias != "" && (exists f :: f in forms && f.Has(r.alias)) && !Served(forms, r)
  }

  predicate AliasedFrom(required: seq<Requirement>, n: nat)
  {
    exists m :: n <= m < |required| && required[m].alias != ""
  }

  /** The form with the alias, and no other, gets the error and loses the service from its cleaned data. */
  ghost predicate MarkedFor(forms: seq<Form>, alias: string, left: seq<Form>)
  {
    && |left| == |forms|
    && forall i | 0 <= i < |forms| ::
         left[i] == if forms[i].Has(alias) then Filled(Some(alias), None, false, true) else forms[i]
  }

  lemma Breaks(round: Round, r: Requirement)
    requires round.verdict.Returned? && Sane(round.forms) && Mismatched(round.forms, r)
    ensures Checked(round, r).verdict.Returned? && !IsValid(Checked(round, r).forms)
    ensures MarkedFor(round.forms, r.alias, Checked(round, r).forms)
  {
    var f :| f in round.forms && f.Has(r.alias);
    AliasIsFirst(round.forms, f, r.alias);
    var i := FirstWith(round.forms, r.alias);
    var after := Checked(round, r).forms;
    assert after[i] in after;
    forall j | 0 <= j < |round.forms|
      ensures round.forms[j].Has(r.alias) ==> j == i
    {
      assert round.forms[j] in round.forms && round.forms[i].Valid();
      assert round.forms[j].Filled? ==> round.forms[j].Valid();
    }
  }

  lemma BreaksAt(forms: seq<Form>, required: seq<Requirement>, n: nat)
    requires Sane(forms) && n < |required| && Mismatched(forms, required[n])
    requires forall m | 0 <= m < n && required[m].alias != "" :: Served(forms, required[m])
    ensures FirstRound(forms, required[..n + 1]).verdict.Returned?
    ensures !IsValid(FirstRound(forms, required[..n + 1]).forms)
    ensures MarkedFor(forms, required[n].alias, FirstRound(forms, required[..n + 1]).forms)
  {
    FirstRoundIff(forms, required[..n]);
    assert required[..n + 1][..n] == required[..n];
    Breaks(FirstRound(forms, required[..n]), required[n]);
  }

  lemma OneMoreAliased(required: seq<Requirement>, n: nat)
    requires n < |required|
    ensures AliasedFrom(required, n) <==>
              AliasedFrom(required[..|required| - 1], n) || required[|required| - 1].alias != ""
  {
    var before := required[..|required| - 1];
    assert forall m | n <= m < |before| :: before[m] == required[m];
  }

  lemma {:induction false} FromBroken(forms: seq<Form>, required: seq<Requirement>, n: nat)
    requires n <= |required| && FirstRound(forms, required[..n]).verdict.Returned?
    requires !IsValid(FirstRound(forms, required[..n]).forms)
    ensures FirstRound(forms, required).verdict ==
              if AliasedFrom(required, n) then AttributeError else Returned
    ensures FirstRound(forms, required).forms == FirstRound(forms, required[..n]).forms
    decreases |required|
  {
    if n == |required| {
      assert required[..n] == required;
    } else {
      var last := |required| - 1;
      assert required[..last][..n] == required[..n];
      FromBroken(forms, required[..last], n);
      OneMoreAliased(required, n);
    }
  }

  /** A wrong type is reported as a form error only when it concerns the last required alias.  With
      another alias after it, clean fails with an AttributeError, because the set has lost its cleaned data. */
  lemma WrongTypeCrashesIff(forms: seq<Form>, required: seq<Requirement>, n: nat)
    requires Sane(forms) && n < |required| && Mismatched(forms, required[n])
    requires forall m | 0 <= m < n && required[m].alias != "" :: Served(forms, required[m])
    ensures FirstRound(forms, required).verdict ==
              if AliasedFrom(required, n + 1) then AttributeError else Returned
    ensures !IsValid(FirstRound(forms, required).forms)
    ensures MarkedFor(forms, required[n].alias, FirstRound(forms, required).forms)
  {
    BreaksAt(forms, required, n);
    FromBroken(forms, required, n + 1);
  }

  // ----- the answer to every set without deletions -----

  /** The first aliased requirement no form serves. */
  ghost predicate FirstFailed(forms: seq<Form>, required: seq<Requirement>, n: nat)
  {
    && n < |required| && required[n].alias != "" && !Served(forms, required[n])
    && forall m | 0 <= m < n && required[m].alias != "" :: Served(forms, required[m])
  }

  /** The first requirement without alias for whose type no free service is left. */
  ghost predicate FirstWanting(forms: seq<Form>, required: seq<Requirement>, n: nat)
  {
    && n < |required| && required[n].alias == "" && !FreelyServed(forms, required, required[n].serviceType)
    && forall m | 0 <= m < n && required[m].alias == "" :: FreelyServed(forms, required, required[m].serviceType)
  }

  /** Which requirement a set without deletions is refused for: the first aliased one that no form serves, as
      missing when no form carries its alias and for its type otherwise; and if there is none, the first one
      without alias that finds no free service. */
  ghost predicate Answer(forms: seq<Form>, required: seq<Requirement>, verdict: Verdict, left: seq<Form>)
  {
    && (forall n: nat | FirstFailed(forms, required, n) ::
          if forall f | f in forms :: !f.Has(required[n].alias)
          then verdict == MissingAlias(required[n].alias) && left == forms
          else verdict == (if AliasedFrom(required, n + 1) then AttributeError else Returned)
               && MarkedFor(forms, required[n].alias, left) && !IsValid(left))
    && ((forall r | r in required && r.alias != "" :: Served(forms, r)) ==>
          && left == forms
          && (forall n: nat | FirstWanting(forms, required, n) :: verdict == MissingType(required[n].serviceType))
          && ((forall r | r in required && r.alias == "" :: FreelyServed(forms, required, r.serviceType)) ==>
                verdict == Returned))
  }

  lemma MissingAt(forms: seq<Form>, required: seq<Requirement>, n: nat)
    requires Sane(forms) && FirstFailed(forms, required, n) && forall f | f in forms :: !f.Has(required[n].alias)
    ensures FirstRound(forms, required).verdict == MissingAlias(required[n].alias)
    ensures FirstRound(forms, required).forms == forms
  {
    FirstRoundIff(forms, required[..n]);
    assert required[..n + 1][..n] == required[..n];
    StaysStopped(forms, required, n + 1);
  }

  lemma OneWants(forms: seq<Form>, required: seq<Requirement>, m: nat, n: nat)
    requires FirstWanting(forms, required, m) && FirstWanting(forms, required, n)
    ensures m == n
  {
  }

  /** While some aliased requirement fails, the first round decides. */
  lemma AnswerOfTheFirstRound(forms: seq<Form>, required: seq<Requirement>, n: nat)
    requires Sane(forms) && FirstFailed(forms, required, n)
    ensures var round := FirstRound(forms, required);
            if forall f | f in forms :: !f.Has(required[n].alias)
            then round.verdict == MissingAlias(required[n].alias) && round.forms == forms
            else round.verdict == (if AliasedFrom(required, n + 1) then AttributeError else Returned)
                 && MarkedFor(forms, required[n].alias, round.forms) && !IsValid(round.forms)
  {
    if forall f | f in forms :: !f.Has(required[n].alias) {
      MissingAt(forms, required, n);
    } else {
      assert Mismatched(forms, required[n]);
      WrongTypeCrashesIff(forms, required, n);
      FirstRoundIff(forms, required);
      assert required[n] in required;
    }
  }

  /** Otherwise the second one. */
  lemma UnmetIsWanting(forms: seq<Form>, required: seq<Requirement>, pinned: seq<nat>, n: nat)
    requires Sane(forms) && Pins(forms, required, pinned) && FirstUnmet(forms, pinned, required, n)
    ensures FirstWanting(forms, required, n)
  {
    forall m | 0 <= m <= n
      ensures HasCandidate(forms, pinned, required[m].serviceType)
              <==> FreelyServed(forms, required, required[m].serviceType)
    {
      CandidateIff(forms, required, pinned, required[m].serviceType);
    }
  }

  lemma SecondAnswer(forms: seq<Form>, required: seq<Requirement>, pinned: seq<nat>, verdict: Verdict)
    requires Sane(forms) && Pins(forms, required, pinned)
    requires verdict == Returned <==> forall r | r in required :: !Unmet(forms, pinned, r)
    requires verdict != Returned ==>
               exists n: nat ::
                 FirstUnmet(forms, pinned, required, n) && verdict == MissingType(required[n].serviceType)
    ensures forall n: nat | FirstWanting(forms, required, n) :: verdict == MissingType(required[n].serviceType)
    ensures (forall r | r in required && r.alias == "" :: FreelyServed(forms, required, r.serviceType)) ==>
              verdict == Returned
  {
    if verdict == Returned {
      forall n: nat | n < |required| && required[n].alias == ""
        ensures FreelyServed(forms, required, required[n].serviceType)
      {
        assert required[n] in required;
        CandidateIff(forms, required, pinned, required[n].serviceType);
      }
    } else {
      var n: nat :| FirstUnmet(forms, pinned, required, n) && verdict == MissingType(required[n].serviceType);
      UnmetIsWanting(forms, required, pinned, n);
      assert required[n] in required;
      forall m: nat | FirstWanting(forms, required, m)
        ensures m == n
      {
        OneWants(forms, required, m, n);
      }
    }
  }

  /** What both rounds together answer. */
  lemma AnswerIsGiven(forms: seq<Form>, required: seq<Requirement>, verdict: Verdict)
    requires Sane(forms)
    requires var round := FirstRound(forms, required);
             if round.verdict.Returned? && IsValid(round.forms)
             then && (verdict == Returned <==> forall r | r in required :: !Unmet(round.forms, round.pinned, r))
                  && (verdict != Returned ==>
                        exists n: nat :: FirstUnmet(round.forms, round.pinned, required, n)
                                         && verdict == MissingType(required[n].serviceType))
             else verdict == round.verdict
    ensures Answer(forms, required, verdict, FirstRound(forms, required).forms)
  {
    FirstRoundIff(forms, required);
    var round := FirstRound(forms, required);
    forall n: nat | FirstFailed(forms, required, n)
      ensures !(round.verdict.Returned? && IsValid(round.forms))
      ensures if forall f | f in forms :: !f.Has(required[n].alias)
              then verdict == MissingAlias(required[n].alias) && round.forms == forms
              else verdict == (if AliasedFrom(required, n + 1) then AttributeError else Returned)
                   && MarkedFor(forms, required[n].alias, round.forms) && !IsValid(round.forms)
    {
      AnswerOfTheFirstRound(forms, required, n);
      assert required[n] in required;
    }
    if round.verdict.Returned? && IsValid(round.forms) {
      SecondAnswer(forms, required, round.pinned, verdict);
    }
  }
}
