/** The e-mail address for an interne taak, from the actors it is assigned to
    (src/bptl/work_units/open_klant/utils.py). */
module ActorEmail {
  import opened Wrappers
  import opened Filters

  /** An actor as the API returns it; a missing value is empty. */
  datatype Actor = Actor(active: bool, kind: string, idKind: string, objectId: string)

  /** The address, or the exception that ends the lookup. */
  datatype Result = Address(email: string) | EmailException | IndexError | ClientError

  type Retrieve = string -> Option<Actor>

  /** The e-mail addresses of the objects found for an identification, empty where there is none. */
  type Objects = string -> seq<string>

  const WORKER := "medewerker"
  const UNIT := "organisatorische_eenheid"

  function NonEmpty(): string -> bool
  {
    (email: string) => email != ""
  }

  /** get_organisatie_eenheid_email: nothing found and more than one address found both give no address,
      but objects without any address between them break it. */
  function UnitEmail(hits: seq<string>): Result
  {
    if hits == [] then Address("")
    else
      var emails := Filter(hits, NonEmpty());
      if |emails| > 1 then Address("") else if emails == [] then IndexError else Address(emails[0])
  }

  /** An address is given exactly when one of the objects has one, and it is that one. */
  lemma UnitEmailIff(hits: seq<string>)
    ensures UnitEmail(hits).Address? && UnitEmail(hits).email != "" <==> exists i :: OnlyAt(hits, NonEmpty(), i)
    ensures forall i | OnlyAt(hits, NonEmpty(), i) :: UnitEmail(hits) == Address(hits[i])
    ensures UnitEmail(hits) == IndexError <==> hits != [] && forall email | email in hits :: email == ""
  {
    var p := NonEmpty();
    FilterSingle(hits, p);
    if |Filter(hits, p)| == 1 {
      assert Filter(hits, p)[0] in Filter(hits, p);
    }
    if email :| email in hits && email != "" {
      assert email in Filter(hits, p);
    } else {
      NothingLeft(hits, p);
    }
  }

  // ----- the simple form -----

  ghost predicate Any(actors: seq<Actor>, p: Actor -> bool)
  {
    exists a :: a in actors && p(a)
  }

  function MailWorker(): Actor -> bool
  {
    (a: Actor) => a.active && a.kind == WORKER && a.idKind == "email"
  }

  predicate Asked(a: Actor)
  {
    a.active && a.objectId != ""
  }

  predicate HasAddress(objects: Objects, a: Actor)
  {
    Asked(a) && UnitEmail(objects(a.objectId)).Address? && UnitEmail(objects(a.objectId)).email != ""
  }

  predicate Breaks(objects: Objects, a: Actor)
  {
    Asked(a) && UnitEmail(objects(a.objectId)) == IndexError
  }

  function Reachable(objects: Objects): Actor -> bool
  {
    (a: Actor) => HasAddress(objects, a)
  }

  function Breaking(objects: Objects): Actor -> bool
  {
    (a: Actor) => Breaks(objects, a)
  }

  function IsActive(): Actor -> bool
  {
    (a: Actor) => a.active
  }

  function OfKind(kind: string): Actor -> bool
  {
    (a: Actor) => a.kind == kind
  }

  function HasMail(): Actor -> bool
  {
    (a: Actor) => a.idKind == "email"
  }

  function ActiveWorker(): Actor -> bool
  {
    (a: Actor) => a.active && a.kind == WORKER
  }

  function ActiveUnit(): Actor -> bool
  {
    (a: Actor) => a.active && a.kind == UNIT
  }

  /** Who may supply the address: as soon as one medewerker is active, only they; otherwise every active
      actor, of any kind, whose identification leads to an address. */
  ghost function Candidate(actors: seq<Actor>, objects: Objects): Actor -> bool
  {
    if Any(actors, ActiveWorker()) then MailWorker() else Reachable(objects)
  }

  /** The addresses of objects are only looked up for a unit, and one broken lookup ends everything. */
  ghost predicate LookupFails(actors: seq<Actor>, objects: Objects)
  {
    !Any(actors, ActiveWorker()) && (!Any(actors, ActiveUnit()) || Any(actors, Breaking(objects)))
  }

  ghost function AddressOf(actors: seq<Actor>, objects: Objects, a: Actor): string
  {
    if Any(actors, ActiveWorker()) then a.objectId
    else if UnitEmail(objects(a.objectId)).Address? then UnitEmail(objects(a.objectId)).email
    else ""
  }

  ghost predicate IsAnswer(actors: seq<Actor>, objects: Objects, r: Result)
  {
    var found := Filter(actors, Candidate(actors, objects));
    if LookupFails(actors, objects) then
      r == if Any(actors, ActiveUnit()) then IndexError else EmailException
    else if |found| == 1 then
      r == Address(AddressOf(actors, objects, found[0]))
    else
      r == EmailException
  }

  // ----- the code -----

  /** All actors are retrieved, in any order; a failing request fails the lookup. */
  function Retrieved(urls: seq<string>, retrieve: Retrieve): Option<seq<Actor>>
  {
    if urls == [] then Some([])
    else
      match (retrieve(urls[0]), Retrieved(urls[1..], retrieve))
      case (Some(a), Some(rest)) => Some([a] + rest)
      case _ => None
  }

  /** The result for the actors an interne taak is assigned to. */
  ghost predicate IsResult(urls: seq<string>, retrieve: Retrieve, objects: Objects, r: Result)
  {
    if urls == [] then r == Address("")
    else
      match Retrieved(urls, retrieve)
      case None => r == ClientError
      case Some(actors) => IsAnswer(actors, objects, r)
  }

  lemma NonEmptyIff(actors: seq<Actor>, p: Actor -> bool)
    ensures Filter(actors, p) != [] <==> Any(actors, p)
  {
    if Filter(actors, p) != [] {
      assert Filter(actors, p)[0] in Filter(actors, p);
    }
  }

  lemma ActiveOfKind(actors: seq<Actor>, kind: string, both: Actor -> bool)
    requires forall a :: both(a) <==> a.active && a.kind == kind
    ensures Filter(Filter(actors, IsActive()), OfKind(kind)) == Filter(actors, both)
    ensures Filter(actors, both) != [] <==> Any(actors, both)
  {
    FilterTwice(actors, IsActive(), OfKind(kind), both);
    NonEmptyIff(actors, both);
  }

  lemma MailWorkers(actors: seq<Actor>)
    ensures Filter(Filter(actors, ActiveWorker()), HasMail()) == Filter(actors, MailWorker())
  {
    FilterTwice(actors, ActiveWorker(), HasMail(), MailWorker());
  }

  /** The loop goes over the active actors, and no other actor has an address to give. */
  lemma OnlyActiveAsked(actors: seq<Actor>, objects: Objects)
    ensures Filter(Filter(actors, IsActive()), Reachable(objects)) == Filter(actors, Reachable(objects))
    ensures Any(Filter(actors, IsActive()), Breaking(objects)) <==> Any(actors, Breaking(objects))
  {
    var p, q := IsActive(), Reachable(objects);
    FilterTwice(actors, p, q, q);
    if a :| a in actors && Breaking(objects)(a) {
      assert Breaks(objects, a) && p(a);
      assert a in Filter(actors, p);
    }
  }

  lemma UnitAnswer(actors: seq<Actor>, objects: Objects)
    requires !Any(actors, ActiveWorker())
    ensures Candidate(actors, objects) == Reachable(objects)
    ensures |Filter(actors, Reachable(objects))| == 1 ==>
              UnitEmail(objects(Filter(actors, Reachable(objects))[0].objectId))
              == Address(AddressOf(actors, objects, Filter(actors, Reachable(objects))[0]))
  {
    var found := Filter(actors, Reachable(objects));
    if |found| == 1 {
      assert found[0] in found;
    }
  }

  lemma OneMoreActor(seen: seq<Actor>, objects: Objects, a: Actor)
    requires a.active
    ensures Any(seen + [a], Breaking(objects)) <==> Any(seen, Breaking(objects)) || Breaks(objects, a)
    ensures Filter(seen + [a], Reachable(objects)) ==
              Filter(seen, Reachable(objects))
              + if HasAddress(objects, a) then [a] else []
  {
    FilterAppend(seen, Reachable(objects), a);
    assert Breaking(objects)(a) <==> a.objectId != "" && UnitEmail(objects(a.objectId)) == IndexError;
    assert a in seen + [a];
    if x :| x in seen && Breaking(objects)(x) {
      assert x in seen + [a];
    }
  }

  /** The loop over the active actors. */
  method CollectAddress(active: seq<Actor>, objects: Objects) returns (r: Result)
    requires forall a | a in active :: a.active
    ensures r == IndexError <==> Any(active, Breaking(objects))
    ensures r != IndexError ==>
              var found := Filter(active, Reachable(objects));
              r == if |found| == 1 then UnitEmail(objects(found[0].objectId)) else EmailException
  {
    var addresses: seq<string> := [];
    var i := 0;
    while i < |active|
      invariant 0 <= i <= |active|
      invariant !Any(active[..i], Breaking(objects))
      invariant var found := Filter(active[..i], Reachable(objects));
                |found| == |addresses|
                && forall k | 0 <= k < |found| :: UnitEmail(objects(found[k].objectId)) == Address(addresses[k])
    {
      var actor := active[i];
      assert actor in active;
      assert active[..i + 1] == active[..i] + [actor];
      OneMoreActor(active[..i], objects, actor);
      i := i + 1;
      if actor.objectId == "" {
        continue;
      }
      var email := UnitEmail(objects(actor.objectId));
      if email.IndexError? {
        return IndexError;
      }
      if email.email == "" {
        continue;
      }
      addresses := addresses + [email.email];
    }
    assert active[..i] == active;
    return if |addresses| == 1 then Address(addresses[0]) else EmailException;
  }

  method FromActors(actors: seq<Actor>, objects: Objects) returns (r: Result)
    ensures IsAnswer(actors, objects, r)
  {
    var active := Filter(actors, IsActive());
    NonEmptyIff(actors, IsActive());
    if active == [] {
      return EmailException;
    }
    var workers := Filter(active, OfKind(WORKER));
    ActiveOfKind(actors, WORKER, ActiveWorker());
    if workers != [] {
      var mailWorkers := Filter(workers, HasMail());
      MailWorkers(actors);
      return if |mailWorkers| == 1 then Address(mailWorkers[0].objectId) else EmailException;
    }
    var units := Filter(active, OfKind(UNIT));
    ActiveOfKind(actors, UNIT, ActiveUnit());
    if units == [] {
      return EmailException;
    }
    r := CollectAddress(active, objects);
    OnlyActiveAsked(actors, objects);
    UnitAnswer(actors, objects);
  }

  method GetActorEmail(urls: seq<string>, retrieve: Retrieve, objects: Objects) returns (r: Result)
    ensures IsResult(urls, retrieve, objects, r)
  {
    if urls == [] {
      return Address("");
    }
    var retrieved := Retrieved(urls, retrieve);
    if retrieved.None? {
      return ClientError;
    }
    r := FromActors(retrieved.value, objects);
  }

  // ----- what it means -----

  /** An address for actors is given if and only if it is the address of the single candidate. */
  lemma AddressIff(actors: seq<Actor>, objects: Objects, r: Result, email: string)
    requires IsAnswer(actors, objects, r)
    ensures r == Address(email) <==>
              && !LookupFails(actors, objects)
              && exists i :: OnlyAt(actors, Candidate(actors, objects), i)
                  && AddressOf(actors, objects, actors[i]) == email
  {
    FilterSingle(actors, Candidate(actors, objects));
  }

  ghost predicate Member(actors: seq<Actor>, kind: string)
  {
    exists a :: a in actors && a.active && a.kind == kind
  }

  /** One of the objects has an e-mail address, and that is the one. */
  ghost predicate SoleEmail(hits: seq<string>, email: string)
  {
    exists k :: OnlyAt(hits, (e: string) => e != "", k) && hits[k] == email
  }

  lemma SoleEmailIff(hits: seq<string>, email: string)
    ensures SoleEmail(hits, email) <==> email != "" && UnitEmail(hits) == Address(email)
  {
    UnitEmailIff(hits);
    if k :| OnlyAt(hits, NonEmpty(), k) {
      assert OnlyAt(hits, (e: string) => e != "", k);
    }
  }

  /** In terms of the actors' fields.  With an active medewerker: the address of the only active medewerker
      identified by an e-mail address. */
  lemma WorkerAddressIff(actors: seq<Actor>, objects: Objects, r: Result, email: string)
    requires IsAnswer(actors, objects, r) && Member(actors, "medewerker")
    ensures r == Address(email) <==>
              exists i :: OnlyAt(actors, (a: Actor) => a.active && a.kind == "medewerker" && a.idKind == "email", i)
                  && actors[i].objectId == email
    ensures r.Address? || r == EmailException
  {
    var w :| w in actors && w.active && w.kind == "medewerker";
    assert ActiveWorker()(w);
    AddressIff(actors, objects, r, email);
    var p := (a: Actor) => a.active && a.kind == "medewerker" && a.idKind == "email";
    forall i
      ensures OnlyAt(actors, MailWorker(), i) <==> OnlyAt(actors, p, i)
    {
    }
  }

  /** Without one, and with an active unit: objects without any address, found for some active actor, break
      the lookup. */
  lemma UnitBreaksIff(actors: seq<Actor>, objects: Objects, r: Result)
    requires IsAnswer(actors, objects, r)
    requires !Member(actors, "medewerker") && Member(actors, "organisatorische_eenheid")
    ensures r == IndexError <==>
              exists a :: a in actors && a.active && a.objectId != "" && objects(a.objectId) != []
                  && forall e | e in objects(a.objectId) :: e == ""
    ensures r.Address? || r == EmailException || r == IndexError
  {
    var u :| u in actors && u.active && u.kind == "organisatorische_eenheid";
    assert ActiveUnit()(u) && !Any(actors, ActiveWorker());
    forall a | a in actors
      ensures Breaking(objects)(a) <==>
                a.active && a.objectId != "" && objects(a.objectId) != []
                && forall e | e in objects(a.objectId) :: e == ""
    {
      UnitEmailIff(objects(a.objectId));
    }
  }

  ghost function AskedFor(objects: Objects): Actor -> bool
  {
    (a: Actor) => a.active && a.objectId != "" && exists e :: SoleEmail(objects(a.objectId), e)
  }

  /** And otherwise the address is the one the objects have for the only active actor they have just one
      address for. */
  lemma UnitAddressIff(actors: seq<Actor>, objects: Objects, r: Result, email: string)
    requires IsAnswer(actors, objects, r) && r != IndexError
    requires !Member(actors, "medewerker") && Member(actors, "organisatorische_eenheid")
    ensures r == Address(email) <==>
              exists i ::
                && OnlyAt(actors, AskedFor(objects), i)
                && SoleEmail(objects(actors[i].objectId), email)
  {
    var u :| u in actors && u.active && u.kind == "organisatorische_eenheid";
    assert ActiveUnit()(u) && !Any(actors, ActiveWorker()) && !LookupFails(actors, objects);
    var p := AskedFor(objects);
    forall a: Actor
      ensures Reachable(objects)(a) <==> p(a)
      ensures Reachable(objects)(a) ==>
                (SoleEmail(objects(a.objectId), email) <==> AddressOf(actors, objects, a) == email)
    {
      var hits := objects(a.objectId);
      SoleEmailIff(hits, email);
      if UnitEmail(hits).Address? {
        SoleEmailIff(hits, UnitEmail(hits).email);
      }
      if e :| SoleEmail(hits, e) {
        SoleEmailIff(hits, e);
      }
    }
    assert forall i :: OnlyAt(actors, Reachable(objects), i) <==> OnlyAt(actors, p, i);
    AddressIff(actors, objects, r, email);
  }

  /** And without either there is no address. */
  lemma NobodyToAsk(actors: seq<Actor>, objects: Objects, r: Result)
    requires IsAnswer(actors, objects, r)
    requires !Member(actors, "medewerker") && !Member(actors, "organisatorische_eenheid")
    ensures r == EmailException
  {
  }

  /** Any active medewerker rules out the address of a unit, or of anything else in the objects. */
  lemma WorkerRulesOutUnits(actors: seq<Actor>, objects: Objects, r: Result, worker: Actor, email: string)
    requires IsAnswer(actors, objects, r) && r == Address(email)
    requires worker in actors && worker.active && worker.kind == WORKER
    ensures exists i :: OnlyAt(actors, MailWorker(), i) && actors[i].objectId == email
    ensures forall other: Objects :: IsAnswer(actors, other, r)
  {
    assert ActiveWorker()(worker);
    AddressIff(actors, objects, r, email);
  }

  // ----- independence of the order -----

  lemma AnyPermuted(actors: seq<Actor>, others: seq<Actor>, p: Actor -> bool)
    requires multiset(actors) == multiset(others)
    ensures Any(actors, p) <==> Any(others, p)
  {
    forall a: Actor
      ensures a in actors <==> a in others
    {
      assert a in actors <==> a in multiset(actors);
      assert a in others <==> a in multiset(others);
    }
  }

  lemma SameSingle(s: seq<Actor>, t: seq<Actor>)
    requires multiset(s) == multiset(t)
    ensures |s| == |t| && (|s| == 1 ==> s == t)
  {
    assert |s| == |multiset(s)| && |t| == |multiset(t)|;
    if |s| == 1 {
      assert s[0] in multiset(t);
    }
  }

  /** Actors in another order give the same answer, be it an address or an exception. */
  lemma AnswerPermuted(actors: seq<Actor>, others: seq<Actor>, objects: Objects, r: Result)
    requires multiset(actors) == multiset(others) && IsAnswer(actors, objects, r)
    ensures IsAnswer(others, objects, r)
  {
    AnyPermuted(actors, others, ActiveWorker());
    AnyPermuted(actors, others, ActiveUnit());
    AnyPermuted(actors, others, Breaking(objects));
    var p := Candidate(actors, objects);
    FilterPermuted(actors, others, p);
    SameSingle(Filter(actors, p), Filter(others, p));
  }

  lemma {:induction false} RetrievedCounts(urls: seq<string>, retrieve: Retrieve, a: Actor)
    requires Retrieved(urls, retrieve).Some?
    ensures multiset(Retrieved(urls, retrieve).value)[a] == |Filter(urls, (url: string) => retrieve(url) == Some(a))|
  {
    if urls == [] {
    } else {
      RetrievedCounts(urls[1..], retrieve, a);
    }
  }

  lemma {:induction false} RetrievedIff(urls: seq<string>, retrieve: Retrieve)
    ensures Retrieved(urls, retrieve).Some? <==> forall url | url in urls :: retrieve(url).Some?
  {
    if urls == [] {
    } else {
      RetrievedIff(urls[1..], retrieve);
      assert urls == [urls[0]] + urls[1..];
    }
  }

  lemma RetrievedPermuted(urls: seq<string>, others: seq<string>, retrieve: Retrieve)
    requires multiset(urls) == multiset(others)
    ensures Retrieved(urls, retrieve).Some? <==> Retrieved(others, retrieve).Some?
    ensures Retrieved(urls, retrieve).Some? ==>
              multiset(Retrieved(urls, retrieve).value) == multiset(Retrieved(others, retrieve).value)
  {
    assert forall url :: url in urls <==> url in multiset(urls);
    assert forall url :: url in others <==> url in multiset(others);
    RetrievedIff(urls, retrieve);
    RetrievedIff(others, retrieve);
    if Retrieved(urls, retrieve).Some? {
      forall a: Actor
        ensures multiset(Retrieved(urls, retrieve).value)[a] == multiset(Retrieved(others, retrieve).value)[a]
      {
        var p := (url: string) => retrieve(url) == Some(a);
        RetrievedCounts(urls, retrieve, a);
        RetrievedCounts(others, retrieve, a);
        FilterPermuted(urls, others, p);
        assert |Filter(urls, p)| == |multiset(Filter(urls, p))|;
        assert |Filter(others, p)| == |multiset(Filter(others, p))|;
      }
    }
  }

  /** No other result meets the specification. */
  lemma AnswerIsUnique(actors: seq<Actor>, objects: Objects, r1: Result, r2: Result)
    requires IsAnswer(actors, objects, r1) && IsAnswer(actors, objects, r2)
    ensures r1 == r2
  {
  }

  /** So the order in which the actors are listed does not matter: listed in another order they give the
      same address, or fail in the same way. */
  lemma OrderDoesNotMatter(urls: seq<string>, others: seq<string>, retrieve: Retrieve, objects: Objects, r1: Result,
                           r2: Result)
    requires multiset(urls) == multiset(others)
    requires IsResult(urls, retrieve, objects, r1) && IsResult(others, retrieve, objects, r2)
    ensures r1 == r2
  {
    assert |urls| == |multiset(urls)| && |others| == |multiset(others)|;
    RetrievedPermuted(urls, others, retrieve);
    if urls != [] && Retrieved(urls, retrieve).Some? {
      var actors, again := Retrieved(urls, retrieve).value, Retrieved(others, retrieve).value;
      AnswerPermuted(actors, again, objects, r1);
      AnswerIsUnique(again, objects, r1, r2);
    }
  }

  /** The address is that of an active unit. */
  ghost predicate OfUnit(actors: seq<Actor>, objects: Objects, email: string)
  {
    exists u :: u in actors && u.kind == UNIT && HasAddress(objects, u)
        && UnitEmail(objects(u.objectId)) == Address(email)
  }

  /** Without an active medewerker the address that is found is a unit's if and only if the one active actor
      with an address in the objects is a unit. */
  lemma AddressOfUnitIff(actors: seq<Actor>, objects: Objects, r: Result, email: string)
    requires IsAnswer(actors, objects, r) && r == Address(email) && !Any(actors, ActiveWorker())
    ensures exists a :: a in actors && HasAddress(objects, a)
    ensures OfUnit(actors, objects, email) <==> forall a | a in actors && HasAddress(objects, a) :: a.kind == UNIT
  {
    AddressIff(actors, objects, r, email);
    var i :| OnlyAt(actors, Candidate(actors, objects), i) && AddressOf(actors, objects, actors[i]) == email;
    assert Reachable(objects)(actors[i]) && actors[i] in actors;
    forall a | a in actors && HasAddress(objects, a)
      ensures a == actors[i]
    {
      var j :| 0 <= j < |actors| && actors[j] == a;
      assert Reachable(objects)(actors[j]);
    }
  }

  /** Once a unit is active the loop asks for the address of every active actor: the address found may
      belong to an actor that is no unit at all. */
  lemma OtherActorMaySupplyTheAddress() returns (actors: seq<Actor>, objects: Objects, r: Result, i: nat)
    ensures IsAnswer(actors, objects, r) && r.Address? && r.email != ""
    ensures OnlyAt(actors, Candidate(actors, objects), i) && actors[i].kind != UNIT && actors[i].kind != WORKER
  {
    var unit := Actor(true, UNIT, "", "");
    var robot := Actor(true, "geautomatiseerde_actor", "", "robot");
    actors, objects, r, i := [unit, robot], (id: string) => ["robot@example.org"], Address("robot@example.org"), 1;
    assert objects("robot") == ["robot@example.org"];
    assert Filter(objects("robot")[1..], NonEmpty()) == [];
    assert UnitEmail(objects("robot")) == Address("robot@example.org");
    assert ActiveUnit()(unit) && unit in actors && actors[0] == unit && actors[1] == robot;
    assert !Any(actors, ActiveWorker()) && !Any(actors, Breaking(objects));
    assert HasAddress(objects, robot) && !HasAddress(objects, unit);
    OnlyOneLeft(actors, Reachable(objects), 1);
  }
}
