/** Choosing the version of a zaaktype (src/bptl/work_units/zgw/tasks/zaak.py:
    CreateZaakTask._get_zaaktype). */
module Zaaktype {
  import opened Wrappers
  import opened Filters

  /** Dates are day numbers; no end date means valid until further notice. */
  datatype Version = Version(url: string, begin: int, end: Option<int>)

  datatype Answer = Url(url: string) | NoCatalogus | NoVersions | NoneValid | NotUnique

  /** _filter_on_geldigheid. */
  predicate Valid(v: Version, today: int)
  {
    if v.end.Some? then v.begin <= today <= v.end.value else v.begin <= today
  }

  function MaxEnd(versions: seq<Version>): (end: int)
    requires versions != [] && forall v | v in versions :: v.end.Some?
    ensures exists v :: v in versions && v.end == Some(end)
    ensures forall v | v in versions :: v.end.value <= end
  {
    assert versions[0] in versions;
    if |versions| == 1 then versions[0].end.value
    else
      assert forall v | v in versions[1..] :: v in versions;
      var rest := MaxEnd(versions[1..]);
      assert forall v | v in versions :: v == versions[0] || v in versions[1..];
      if versions[0].end.value > rest then versions[0].end.value else rest
  }

  function IsValid(today: int): Version -> bool
  {
    (v: Version) => Valid(v, today)
  }

  function IsEndless(): Version -> bool
  {
    (v: Version) => v.end.None?
  }

  function EndsOn(day: int): Version -> bool
  {
    (v: Version) => v.end == Some(day)
  }

  /** The list the code ends up with. */
  function Chosen(versions: seq<Version>, today: int): seq<Version>
  {
    var valid := Filter(versions, IsValid(today));
    if |valid| > 1 then
      var endless := Filter(valid, IsEndless());
      if |endless| == 0 then
        assert forall v | v in valid :: v !in endless;
        var max := MaxEnd(valid);
        Filter(valid, EndsOn(max))
      else endless
    else valid
  }

  function Selected(versions: seq<Version>, today: int): Answer
  {
    if versions == [] then NoVersions
    else
      var chosen := Chosen(versions, today);
      if |chosen| == 1 then Url(chosen[0].url) else if chosen == [] then NoneValid else NotUnique
  }

  /** The work unit keeps what it found. */
  class CreateZaakTask {
    var zaaktype: Option<string>

    constructor ()
      ensures zaaktype.None?
    {
      zaaktype := None;
    }

    /** `given` is the process variable zaaktype; `versions` is absent when there is no catalogus. */
    method GetZaaktype(given: string, versions: Option<seq<Version>>, today: int) returns (answer: Answer)
      modifies this
      ensures old(zaaktype).Some? ==> answer == Url(old(zaaktype).value)
      ensures old(zaaktype).None? ==>
                answer == if given != "" then Url(given)
                          else if versions.None? then NoCatalogus
                          else Selected(versions.value, today)
      ensures zaaktype == if answer.Url? then Some(answer.url) else old(zaaktype)
    {
      if zaaktype.None? {
        var url := given;
        if url == "" {
          if versions.None? {
            return NoCatalogus;
          }
          var found := versions.value;
          if found == [] {
            return NoVersions;
          }
          found := Filter(found, IsValid(today));
          if |found| > 1 {
            var endless := Filter(found, IsEndless());
            if |endless| == 0 {
              assert forall v | v in found :: v !in endless;
              var max := MaxEnd(found);
              found := Filter(found, EndsOn(max));
            } else {
              found := endless;
            }
          }
          if |found| != 1 {
            return if |found| == 0 then NoneValid else NotUnique;
          }
          url := found[0].url;
        }
        zaaktype := Some(url);
      }
      return Url(zaaktype.value);
    }
  }

  // ----- the rule behind the branches -----

  /** No end date is later than any end date. */
  predicate EndsNoLater(a: Version, b: Version)
  {
    b.end.None? || (a.end.Some? && a.end.value <= b.end.value)
  }

  /** Valid today, and no version that is valid today ends later. */
  predicate Best(versions: seq<Version>, today: int, v: Version)
  {
    Valid(v, today) && forall other | other in versions && Valid(other, today) :: EndsNoLater(other, v)
  }

  function TheRule(versions: seq<Version>, today: int): Version -> bool
  {
    (v: Version) => Best(versions, today, v)
  }

  lemma EndlessAreBest(versions: seq<Version>, today: int, v: Version)
    requires v in versions
    requires exists other :: other in versions && Valid(other, today) && other.end.None?
    ensures Best(versions, today, v) <==> Valid(v, today) && v.end.None?
  {
  }

  lemma LatestAreBest(versions: seq<Version>, today: int, v: Version, max: int)
    requires v in versions
    requires forall other | other in versions && Valid(other, today) :: other.end.Some? && other.end.value <= max
    requires exists other :: other in versions && Valid(other, today) && other.end == Some(max)
    ensures Best(versions, today, v) <==> Valid(v, today) && v.end == Some(max)
  {
  }

  lemma FewAreBest(versions: seq<Version>, today: int)
    requires |Filter(versions, IsValid(today))| <= 1
    ensures Filter(versions, IsValid(today)) == Filter(versions, TheRule(versions, today))
  {
    var valid := Filter(versions, IsValid(today));
    assert forall v | v in valid :: v == valid[0];
    FilterSame(versions, IsValid(today), TheRule(versions, today));
  }

  /** Filter by validity, then prefer: that is filtering by the rule. */
  lemma ChosenAreBest(versions: seq<Version>, today: int)
    ensures Chosen(versions, today) == Filter(versions, TheRule(versions, today))
  {
    var valid := Filter(versions, IsValid(today));
    if |valid| <= 1 {
      FewAreBest(versions, today);
    } else {
      var endless := Filter(valid, IsEndless());
      if |endless| == 0 {
        assert forall v | v in valid :: v !in endless;
        var max := MaxEnd(valid);
        forall v | v in versions
          ensures Best(versions, today, v) <==> Valid(v, today) && v.end == Some(max)
        {
          LatestAreBest(versions, today, v, max);
        }
        FilterTwice(versions, IsValid(today), EndsOn(max), TheRule(versions, today));
      } else {
        assert endless[0] in endless;
        forall v | v in versions
          ensures Best(versions, today, v) <==> Valid(v, today) && v.end.None?
        {
          EndlessAreBest(versions, today, v);
        }
        FilterTwice(versions, IsValid(today), IsEndless(), TheRule(versions, today));
      }
    }
  }

  /** Position i holds the one version that is best. */
  ghost predicate OnlyBest(versions: seq<Version>, today: int, i: int)
  {
    OnlyAt(versions, TheRule(versions, today), i)
  }

  /** A url is returned if and only if exactly one version is valid today with the greatest end date,
      and it is the url of that one. */
  lemma SelectedIffUniqueBest(versions: seq<Version>, today: int)
    ensures Selected(versions, today).Url? <==> exists i :: OnlyBest(versions, today, i)
    ensures forall i | OnlyBest(versions, today, i) ::
              Selected(versions, today) == Url(versions[i].url)
  {
    ChosenAreBest(versions, today);
    FilterSingle(versions, TheRule(versions, today));
    assert forall i :: OnlyBest(versions, today, i) <==> OnlyAt(versions, TheRule(versions, today), i);
  }

  lemma {:induction false} LatestValid(versions: seq<Version>, today: int) returns (i: nat)
    requires exists v :: v in versions && Valid(v, today)
    ensures i < |versions| && Best(versions, today, versions[i])
  {
    var init := |versions| - 1;
    if init > 0 && exists v :: v in versions[..init] && Valid(v, today) {
      i := LatestValid(versions[..init], today);
      if Valid(versions[init], today) && EndsNoLater(versions[i], versions[init]) {
        i := init;
      }
      assert versions == versions[..init] + [versions[init]];
    } else {
      i := init;
      assert versions == versions[..init] + [versions[init]];
    }
  }

  /** The version at i is valid on the day, and every other valid version ends before it does. */
  ghost predicate EndsLast(versions: seq<Version>, today: int, i: int)
  {
    && 0 <= i < |versions|
    && versions[i].begin <= today && (versions[i].end.Some? ==> today <= versions[i].end.value)
    && forall j | 0 <= j < |versions| && j != i && versions[j].begin <= today
                  && (versions[j].end.Some? ==> today <= versions[j].end.value) ::
         versions[j].end.Some? && (versions[i].end.Some? ==> versions[j].end.value < versions[i].end.value)
  }

  lemma OutlastsIff(versions: seq<Version>, today: int, i: nat)
    requires i < |versions|
    ensures EndsLast(versions, today, i) <==> OnlyBest(versions, today, i)
  {
    assert forall j | 0 <= j < |versions| :: versions[j] in versions;
    if EndsLast(versions, today, i) {
      forall other | other in versions && Valid(other, today)
        ensures EndsNoLater(other, versions[i])
      {
        var j :| 0 <= j < |versions| && versions[j] == other;
      }
      forall j | 0 <= j < |versions| && j != i
        ensures !Best(versions, today, versions[j])
      {
        assert Valid(versions[i], today) && (Valid(versions[j], today) ==> !EndsNoLater(versions[i], versions[j]));
      }
    }
    if OnlyBest(versions, today, i) {
      forall j | 0 <= j < |versions| && j != i && Valid(versions[j], today)
        ensures versions[j].end.Some? && (versions[i].end.Some? ==> versions[j].end.value < versions[i].end.value)
      {
        assert EndsNoLater(versions[j], versions[i]) && !Best(versions, today, versions[j]);
        var other :| other in versions && Valid(other, today) && !EndsNoLater(other, versions[j]);
        assert EndsNoLater(other, versions[i]);
      }
    }
  }

  /** In terms of the dates: a url is returned if and only if one version that has begun and not ended
      outlasts all others that have begun and not ended, where no end date is the latest of all. */
  lemma SelectedByDates(versions: seq<Version>, today: int)
    ensures Selected(versions, today).Url? <==> exists i :: EndsLast(versions, today, i)
    ensures forall i | EndsLast(versions, today, i) :: Selected(versions, today) == Url(versions[i].url)
  {
    SelectedIffUniqueBest(versions, today);
    forall i | 0 <= i < |versions|
      ensures EndsLast(versions, today, i) <==> OnlyBest(versions, today, i)
    {
      OutlastsIff(versions, today, i);
    }
  }

  /** With pairwise different end dates the choice fails only if no version is valid today. */
  lemma DistinctEndsSuffice(versions: seq<Version>, today: int)
    requires forall i, j | 0 <= i < j < |versions| :: versions[i].end != versions[j].end
    requires exists v :: v in versions && Valid(v, today)
    ensures Selected(versions, today).Url?
  {
    var i := LatestValid(versions, today);
    forall j | 0 <= j < |versions| && j != i
      ensures !Best(versions, today, versions[j])
    {
      assert versions[i].end != versions[j].end;
      assert versions[i] in versions;
    }
    assert OnlyBest(versions, today, i);
    SelectedIffUniqueBest(versions, today);
  }

  /** The two ways to fail: nothing valid, or a tie for the greatest end date. */
  lemma FailureReason(versions: seq<Version>, today: int)
    requires versions != []
    ensures Selected(versions, today) == NoneValid <==> forall v | v in versions :: !Valid(v, today)
  {
    ChosenAreBest(versions, today);
    if Selected(versions, today) == NoneValid {
      assert Chosen(versions, today) == [];
    }
    if exists v :: v in versions && Valid(v, today) {
      var i := LatestValid(versions, today);
      assert versions[i] in Filter(versions, TheRule(versions, today));
    } else {
      NothingLeft(versions, TheRule(versions, today));
    }
  }
}
