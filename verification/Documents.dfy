/** Setting indicatieGebruiksrecht on all documents of a zaak: lock all, update all, unlock all, each
    phase in parallel (src/bptl/work_units/zgw/tasks/documents.py: SetIndicatieGebruiksrecht).

    Within a phase the calls reach the documents API in any order, which is the `:|` below.  When a
    call fails, calls that have not started may be cancelled, and the next phase does not begin. */
module Documents {
  import opened Wrappers

  type Url = string
  type LockId = nat

  datatype Doc = Doc(flag: Option<bool>, lock: Option<LockId>)

  /** What was asked of the API.  A lock request carries the id it was granted. */
  datatype Request =
    | LockRequest(url: Url, granted: Option<LockId>)
    | UpdateRequest(url: Url, lock: LockId)
    | UnlockRequest(url: Url, lock: LockId)

  /** A call never arrives, is applied while its response is lost, or is answered. */
  datatype Fate = Unreached | Lost | Answered

  datatype Outcome = Done | LockFailed | UpdateFailed | UnlockFailed

  ghost predicate Distinct(urls: seq<Url>)
  {
    forall i, j | 0 <= i < j < |urls| :: urls[i] != urls[j]
  }

  /** Documents outside the zaak are left alone, and none appears or disappears. */
  ghost predicate OthersKept(before: map<Url, Doc>, docs: map<Url, Doc>, urls: seq<Url>)
  {
    docs.Keys == before.Keys && forall u | u in docs && u !in urls :: docs[u] == before[u]
  }

  function At(docs: map<Url, Doc>, u: Url): Doc
  {
    if u in docs then docs[u] else Doc(None, None)
  }

  /** Every document is held under the lock the first phase got for it. */
  ghost predicate AllHeld(docs: map<Url, Doc>, urls: seq<Url>, locks: seq<LockId>)
  {
    |locks| == |urls| && Distinct(urls) && forall i | 0 <= i < |urls| :: At(docs, urls[i]).lock == Some(locks[i])
  }

  ghost predicate FlagsKept(before: map<Url, Doc>, docs: map<Url, Doc>)
  {
    docs.Keys == before.Keys && forall u | u in docs :: docs[u].flag == before[u].flag
  }

  /** The positions of a list of n calls. */
  function Below(n: nat): (s: set<nat>)
    ensures forall i: nat :: i in s <==> i < n
  {
    if n == 0 then {} else Below(n - 1) + {n - 1}
  }

  /** The log has grown, and nothing in it was rewritten. */
  ghost predicate Grown(before: seq<Request>, after: seq<Request>)
  {
    |before| <= |after| && after[..|before|] == before
  }

  ghost predicate Logged(requests: seq<Request>, from: nat, r: Request)
  {
    exists k :: from <= k < |requests| && requests[k] == r
  }

  ghost predicate OwnLock(urls: seq<Url>, locks: seq<LockId>, u: Url, id: LockId)
  {
    exists i :: 0 <= i < |urls| && i < |locks| && urls[i] == u && locks[i] == id
  }

  /** Nothing stands in the way of locking all documents. */
  ghost predicate Lockable(docs: map<Url, Doc>, urls: seq<Url>)
  {
    Distinct(urls) && forall u | u in urls :: u in docs && docs[u].lock.None?
  }

  /** In the first phase documents only change from unlocked to locked. */
  ghost predicate Locking(before: map<Url, Doc>, docs: map<Url, Doc>, urls: seq<Url>)
  {
    && OthersKept(before, docs, urls) && FlagsKept(before, docs)
    && forall u | u in docs :: docs[u] == before[u] || before[u].lock.None?
  }

  lemma StillLocking(before: map<Url, Doc>, earlier: map<Url, Doc>, docs: map<Url, Doc>, urls: seq<Url>, url: Url)
    requires Locking(before, earlier, urls) && url in urls
    requires docs == earlier || (url in earlier && earlier[url].lock.None? && exists id ::
                                   docs == earlier[url := earlier[url].(lock := Some(id))])
    ensures Locking(before, docs, urls)
  {
  }

  /** In the third phase documents only change to unlocked. */
  ghost predicate Unlocking(before: map<Url, Doc>, docs: map<Url, Doc>, urls: seq<Url>)
  {
    && OthersKept(before, docs, urls) && FlagsKept(before, docs)
    && forall u | u in docs :: docs[u] == before[u] || docs[u].lock.None?
  }

  lemma StillUnlocking(before: map<Url, Doc>, earlier: map<Url, Doc>, docs: map<Url, Doc>, urls: seq<Url>, url: Url)
    requires Unlocking(before, earlier, urls) && url in urls
    requires docs == earlier || (url in earlier && docs == earlier[url := earlier[url].(lock := None)])
    ensures Unlocking(before, docs, urls)
  {
  }

  /** The documents of the calls that are still to come are as they were. */
  ghost predicate Untouched(before: map<Url, Doc>, docs: map<Url, Doc>, urls: seq<Url>, pending: set<nat>)
  {
    forall i | i in pending && i < |urls| :: At(docs, urls[i]) == At(before, urls[i])
  }

  lemma StillUntouched(before: map<Url, Doc>, earlier: map<Url, Doc>, docs: map<Url, Doc>, urls: seq<Url>,
                       pending: set<nat>, i: nat)
    requires i < |urls| && docs - {urls[i]} == earlier - {urls[i]}
    requires Distinct(urls) && Untouched(before, earlier, urls, pending)
    ensures Untouched(before, docs, urls, pending - {i})
  {
    forall j | j in pending - {i} && j < |urls|
      ensures At(docs, urls[j]) == At(before, urls[j])
    {
      assert j < i || i < j;
      var u := urls[j];
      assert u in docs - {urls[i]} <==> u in earlier - {urls[i]};
      assert u in docs ==> (docs - {urls[i]})[u] == docs[u];
      assert u in earlier ==> (earlier - {urls[i]})[u] == earlier[u];
    }
  }

  /** A lock was granted for document u in this phase, and is still in force. */
  ghost predicate Granted(before: map<Url, Doc>, docs: map<Url, Doc>, requests: seq<Request>, from: nat, u: Url,
                          id: LockId)
  {
    && u in before && before[u].lock.None? && At(docs, u).lock == Some(id)
    && Logged(requests, from, LockRequest(u, Some(id)))
  }

  ghost predicate AllGranted(before: map<Url, Doc>, docs: map<Url, Doc>, requests: seq<Request>, from: nat,
                             urls: seq<Url>, got: map<nat, LockId>)
  {
    && (forall i | i in got :: i < |urls| && Granted(before, docs, requests, from, urls[i], got[i]))
    && (forall i, j | i in got && j in got && i != j :: urls[i] != urls[j])
  }

  lemma StillLogged(before: seq<Request>, after: seq<Request>, from: nat, r: Request)
    requires Grown(before, after) && Logged(before, from, r)
    ensures Logged(after, from, r)
  {
    var k :| from <= k < |before| && before[k] == r;
    assert after[..|before|][k] == r;
  }

  lemma OneMoreCall(before: map<Url, Doc>, earlier: map<Url, Doc>, asked: seq<Request>, docs: map<Url, Doc>,
                    requests: seq<Request>, from: nat, urls: seq<Url>, got: map<nat, LockId>, i: nat,
                    granted: Option<LockId>)
    requires AllGranted(before, earlier, asked, from, urls, got)
    requires i < |urls| && i !in got && from <= |asked| && requests == asked + [LockRequest(urls[i], granted)]
    requires forall u | u in earlier :: earlier[u] == At(before, u) || At(before, u).lock.None?
    requires earlier.Keys == before.Keys
    requires docs == earlier || (urls[i] in earlier && earlier[urls[i]].lock.None? && exists id ::
                                   docs == earlier[urls[i] := earlier[urls[i]].(lock := Some(id))]
                                   && (granted.Some? ==> granted.value == id))
    requires granted.Some? ==> docs != earlier
    ensures AllGranted(before, docs, requests, from, urls, if granted.Some? then got[i := granted.value] else got)
  {
    forall j | j in got
      ensures Granted(before, docs, requests, from, urls[j], got[j])
    {
      assert Granted(before, earlier, asked, from, urls[j], got[j]);
      StillLogged(asked, requests, from, LockRequest(urls[j], Some(got[j])));
    }
    if granted.Some? {
      assert requests[|asked|] == LockRequest(urls[i], granted);
      assert earlier[urls[i]].lock.None?;
      assert Granted(before, docs, requests, from, urls[i], granted.value);
    }
  }

  lemma AllAnswered(before: map<Url, Doc>, docs: map<Url, Doc>, requests: seq<Request>, from: nat, urls: seq<Url>,
                    got: map<nat, LockId>)
    requires AllGranted(before, docs, requests, from, urls, got)
    requires forall i | 0 <= i < |urls| :: i in got
    ensures Distinct(urls)
    ensures forall i | 0 <= i < |urls| :: Granted(before, docs, requests, from, urls[i], got[i])
  {
  }

  lemma GrantedBefore(start: seq<Request>, locked: seq<Request>, after: seq<Request>, urls: seq<Url>,
                      locks: seq<LockId>)
    requires Grown(start, locked) && Grown(locked, after) && |locks| == |urls|
    requires forall i | 0 <= i < |urls| :: Logged(locked, |start|, LockRequest(urls[i], Some(locks[i])))
    ensures forall u, id | OwnLock(urls, locks, u, id) :: Logged(after, |start|, LockRequest(u, Some(id)))
  {
    forall u, id | OwnLock(urls, locks, u, id)
      ensures Logged(after, |start|, LockRequest(u, Some(id)))
    {
      var i :| 0 <= i < |urls| && i < |locks| && urls[i] == u && locks[i] == id;
      StillLogged(locked, after, |start|, LockRequest(urls[i], Some(locks[i])));
    }
  }

  /** The first phase, with the calls in `pending` still to come and the answers in `got`. */
  ghost predicate LockPhase(before: map<Url, Doc>, docs: map<Url, Doc>, sent: seq<Request>, requests: seq<Request>,
                            urls: seq<Url>, got: map<nat, LockId>, pending: set<nat>)
  {
    && Locking(before, docs, urls) && Grown(sent, requests)
    && (forall k | |sent| <= k < |requests| :: requests[k].LockRequest?)
    && (forall i | i in pending :: i < |urls| && i !in got)
    && AllGranted(before, docs, requests, |sent|, urls, got)
  }

  /** The third phase, with the calls in `pending` still to come. */
  ghost predicate UnlockPhase(before: map<Url, Doc>, docs: map<Url, Doc>, sent: seq<Request>, requests: seq<Request>,
                              urls: seq<Url>, locks: seq<LockId>, pending: set<nat>)
  {
    && AllHeld(before, urls, locks) && Unlocking(before, docs, urls) && Grown(sent, requests)
    && (forall k | |sent| <= k < |requests| ::
          requests[k].UnlockRequest? && OwnLock(urls, locks, requests[k].url, requests[k].lock))
    && (forall i | i in pending :: i < |urls|)
    && Untouched(before, docs, urls, pending)
  }

  /** The result of a run in which every call succeeds. */
  ghost predicate Finished(before: map<Url, Doc>, urls: seq<Url>, docs: map<Url, Doc>)
  {
    OthersKept(before, docs, urls) && forall u | u in urls :: u in docs && docs[u] == Doc(Some(false), None)
  }

  /** A `reliable` API answers every call. */
  class Api {
    var docs: map<Url, Doc>
    var issued: LockId
    var requests: seq<Request>
    const reliable: bool

    constructor (docs: map<Url, Doc>, reliable: bool)
      ensures this.docs == docs && this.reliable == reliable && requests == []
    {
      this.docs := docs;
      this.reliable := reliable;
      this.issued := 0;
      this.requests := [];
    }

    /** How a call fares on its way. */
    method Journey() returns (fate: Fate)
      ensures reliable ==> fate.Answered?
    {
      fate := *;
      if reliable {
        fate := Answered;
      }
    }

    /** A lock is granted for a document that is not locked, with an id never used before. */
    method Lock(url: Url) returns (granted: Option<LockId>)
      modifies this
      ensures requests == old(requests) + [LockRequest(url, granted)] && issued >= old(issued)
      ensures docs == old(docs)
              || (url in old(docs) && old(docs)[url].lock.None?
                  && docs == old(docs)[url := old(docs)[url].(lock := Some(old(issued)))] && issued == old(issued) + 1)
      ensures granted.Some? ==> docs != old(docs) && granted == Some(old(issued))
      ensures reliable && url in old(docs) && old(docs)[url].lock.None? ==> granted.Some?
    {
      granted := None;
      var fate := Journey();
      if !fate.Unreached? && url in docs && docs[url].lock.None? {
        docs := docs[url := docs[url].(lock := Some(issued))];
        if fate.Answered? {
          granted := Some(issued);
        }
        issued := issued + 1;
      }
      requests := requests + [LockRequest(url, granted)];
    }

    /** A locked document changes only for who holds its lock id. */
    method Update(url: Url, lock: LockId) returns (ok: bool)
      modifies this`docs, this`requests
      ensures requests == old(requests) + [UpdateRequest(url, lock)]
      ensures docs == old(docs)
              || (url in old(docs) && old(docs)[url].lock == Some(lock)
                  && docs == old(docs)[url := old(docs)[url].(flag := Some(false))])
      ensures ok ==> url in docs && docs[url].flag == Some(false)
      ensures reliable && url in old(docs) && old(docs)[url].lock == Some(lock) ==> ok
    {
      requests := requests + [UpdateRequest(url, lock)];
      var fate := Journey();
      if fate.Unreached? || url !in docs || docs[url].lock != Some(lock) {
        return false;
      }
      docs := docs[url := docs[url].(flag := Some(false))];
      return fate.Answered?;
    }

    method Unlock(url: Url, lock: LockId) returns (ok: bool)
      modifies this`docs, this`requests
      ensures requests == old(requests) + [UnlockRequest(url, lock)]
      ensures docs == old(docs)
              || (url in old(docs) && old(docs)[url].lock == Some(lock)
                  && docs == old(docs)[url := old(docs)[url].(lock := None)])
      ensures ok ==> url in docs && docs[url].lock == None
      ensures reliable && url in old(docs) && old(docs)[url].lock == Some(lock) ==> ok
    {
      requests := requests + [UnlockRequest(url, lock)];
      var fate := Journey();
      if fate.Unreached? || url !in docs || docs[url].lock != Some(lock) {
        return false;
      }
      docs := docs[url := docs[url].(lock := None)];
      return fate.Answered?;
    }

    // ----- the three phases -----

    /** One call of the first phase. */
    method LockNext(urls: seq<Url>, i: nat, got: map<nat, LockId>, ghost pending: set<nat>, ghost before: map<Url, Doc>,
                    ghost sent: seq<Request>)
      returns (now: map<nat, LockId>)
      requires i in pending && LockPhase(before, docs, sent, requests, urls, got, pending)
      modifies this
      ensures LockPhase(before, docs, sent, requests, urls, now, pending - {i})
      ensures got.Keys <= now.Keys <= got.Keys + {i}
      ensures reliable && Lockable(before, urls) && old(Untouched(before, docs, urls, pending)) ==>
                i in now && Untouched(before, docs, urls, pending - {i})
    {
      ghost var earlier, asked := docs, requests;
      var granted := Lock(urls[i]);
      StillLocking(before, earlier, docs, urls, urls[i]);
      OneMoreCall(before, earlier, asked, docs, requests, |sent|, urls, got, i, granted);
      if Lockable(before, urls) && Untouched(before, earlier, urls, pending) {
        StillUntouched(before, earlier, docs, urls, pending, i);
      }
      now := if granted.Some? then got[i := granted.value] else got;
    }

    /** The first phase.  A document that is locked already, or listed twice, makes it fail. */
    method LockAll(urls: seq<Url>) returns (locks: Option<seq<LockId>>)
      modifies this
      ensures Grown(old(requests), requests)
      ensures forall k | |old(requests)| <= k < |requests| :: requests[k].LockRequest?
      ensures OthersKept(old(docs), docs, urls) && FlagsKept(old(docs), docs)
      ensures forall u | u in docs :: docs[u] == old(docs)[u] || old(docs)[u].lock.None?
      ensures locks.Some? ==>
                && AllHeld(docs, urls, locks.value)
                && (forall i | 0 <= i < |urls| :: urls[i] in old(docs) && old(docs)[urls[i]].lock.None?)
                && (forall i | 0 <= i < |urls| ::
                      Logged(requests, |old(requests)|, LockRequest(urls[i], Some(locks.value[i]))))
      ensures reliable && Lockable(old(docs), urls) ==> locks.Some?
    {
      var pending := Below(|urls|);
      var got: map<nat, LockId> := map[];
      var failed := false;
      while pending != {}
        invariant LockPhase(old(docs), docs, old(requests), requests, urls, got, pending)
        invariant !failed ==> forall i | 0 <= i < |urls| :: i in pending || i in got
        invariant reliable && Lockable(old(docs), urls) ==> !failed && Untouched(old(docs), docs, urls, pending)
        decreases pending
      {
        var i :| i in pending;
        got := LockNext(urls, i, got, pending, old(docs), old(requests));
        pending := pending - {i};
        if i !in got {
          failed := true;
          if * {
            break;
          }
        }
      }
      if failed {
        return None;
      }
      AllAnswered(old(docs), docs, requests, |old(requests)|, urls, got);
      return Some(seq(|urls|, i requires 0 <= i < |urls| && i in got => got[i]));
    }

    /** The second phase writes the flag under each document's own lock. */
    method UpdateAll(urls: seq<Url>, locks: seq<LockId>) returns (ok: bool)
      requires AllHeld(docs, urls, locks)
      modifies this`docs, this`requests
      ensures Grown(old(requests), requests)
      ensures forall k | |old(requests)| <= k < |requests| ::
                requests[k].UpdateRequest? && OwnLock(urls, locks, requests[k].url, requests[k].lock)
      ensures OthersKept(old(docs), docs, urls) && AllHeld(docs, urls, locks)
      ensures forall i | 0 <= i < |urls| ::
                At(docs, urls[i]) == At(old(docs), urls[i]) || At(docs, urls[i]).flag == Some(false)
      ensures ok ==> forall i | 0 <= i < |urls| :: At(docs, urls[i]).flag == Some(false)
      ensures reliable ==> ok
    {
      ghost var before, sent := docs, |requests|;
      var pending := Below(|urls|);
      ok := true;
      while pending != {}
        invariant forall i | i in pending :: i < |urls|
        invariant Grown(old(requests), requests)
        invariant forall k | sent <= k < |requests| ::
                    requests[k].UpdateRequest? && OwnLock(urls, locks, requests[k].url, requests[k].lock)
        invariant OthersKept(before, docs, urls) && AllHeld(docs, urls, locks)
        invariant forall i | 0 <= i < |urls| ::
                    At(docs, urls[i]) == At(before, urls[i]) || At(docs, urls[i]).flag == Some(false)
        invariant ok ==> forall i | 0 <= i < |urls| :: i in pending || At(docs, urls[i]).flag == Some(false)
        invariant reliable ==> ok
        decreases pending
      {
        var i :| i in pending;
        pending := pending - {i};
        var updated := Update(urls[i], locks[i]);
        if !updated {
          ok := false;
          if * {
            break;
          }
        }
      }
    }

    /** One call of the third phase. */
    method UnlockNext(urls: seq<Url>, locks: seq<LockId>, i: nat, ghost pending: set<nat>, ghost before: map<Url, Doc>,
                      ghost sent: seq<Request>)
      returns (ok: bool)
      requires i in pending && UnlockPhase(before, docs, sent, requests, urls, locks, pending)
      modifies this`docs, this`requests
      ensures UnlockPhase(before, docs, sent, requests, urls, locks, pending - {i})
      ensures forall u | u != urls[i] :: At(docs, u) == At(old(docs), u)
      ensures ok ==> At(docs, urls[i]).lock.None?
      ensures reliable ==> ok
    {
      ghost var earlier := docs;
      ok := Unlock(urls[i], locks[i]);
      StillUnlocking(before, earlier, docs, urls, urls[i]);
      StillUntouched(before, earlier, docs, urls, pending, i);
    }

    /** The third phase gives every lock back. */
    method UnlockAll(urls: seq<Url>, locks: seq<LockId>) returns (ok: bool)
      requires AllHeld(docs, urls, locks)
      modifies this`docs, this`requests
      ensures Grown(old(requests), requests)
      ensures forall k | |old(requests)| <= k < |requests| ::
                requests[k].UnlockRequest? && OwnLock(urls, locks, requests[k].url, requests[k].lock)
      ensures OthersKept(old(docs), docs, urls) && FlagsKept(old(docs), docs)
      ensures forall i | 0 <= i < |urls| ::
                At(docs, urls[i]) == At(old(docs), urls[i]) || At(docs, urls[i]).lock.None?
      ensures ok ==> forall i | 0 <= i < |urls| :: At(docs, urls[i]).lock.None?
      ensures reliable ==> ok
    {
      var pending := Below(|urls|);
      ok := true;
      while pending != {}
        invariant UnlockPhase(old(docs), docs, old(requests), requests, urls, locks, pending)
        invariant ok ==> forall i | 0 <= i < |urls| :: i in pending || At(docs, urls[i]).lock.None?
        invariant reliable ==> ok
        decreases pending
      {
        var i :| i in pending;
        var unlocked := UnlockNext(urls, locks, i, pending, old(docs), old(requests));
        pending := pending - {i};
        if !unlocked {
          ok := false;
          if * {
            break;
          }
        }
      }
    }

    // ----- the work unit -----

    method Perform(urls: seq<Url>) returns (outcome: Outcome)
      modifies this
      ensures Grown(old(requests), requests) && OthersKept(old(docs), docs, urls)
      // nothing is updated or unlocked but under the lock this very run was granted for it
      ensures forall k | |old(requests)| <= k < |requests| && !requests[k].LockRequest? ::
                Logged(requests, |old(requests)|, LockRequest(requests[k].url, Some(requests[k].lock)))
      ensures outcome.Done? ==> Finished(old(docs), urls, docs)
      // a document that is locked, by whomever, stops the run before anything else happens
      ensures !outcome.LockFailed? ==> Lockable(old(docs), urls)
      ensures reliable ==> (outcome.Done? <==> Lockable(old(docs), urls))
      ensures outcome.LockFailed? ==>
                && FlagsKept(old(docs), docs)
                && (forall k | |old(requests)| <= k < |requests| :: requests[k].LockRequest?)
                && (forall u | u in docs :: docs[u] == old(docs)[u] || old(docs)[u].lock.None?)
      ensures outcome.UpdateFailed? ==>
                && (forall k | |old(requests)| <= k < |requests| :: !requests[k].UnlockRequest?)
                && (forall u | u in urls :: u in docs && docs[u].lock.Some?)
                && (forall u | u in urls :: docs[u].flag == old(docs)[u].flag || docs[u].flag == Some(false))
      ensures outcome.UnlockFailed? ==> forall u | u in urls :: u in docs && docs[u].flag == Some(false)
    {
      var locks := LockAll(urls);
      if locks.None? {
        return LockFailed;
      }
      ghost var lockedDocs, lockRequests := docs, requests;
      assert forall i | 0 <= i < |urls| :: At(lockedDocs, urls[i]).flag == old(docs)[urls[i]].flag;
      var ok := UpdateAll(urls, locks.value);
      GrantedBefore(old(requests), lockRequests, requests, urls, locks.value);
      if !ok {
        return UpdateFailed;
      }
      ghost var updateRequests := requests;
      ok := UnlockAll(urls, locks.value);
      GrantedBefore(old(requests), lockRequests, requests, urls, locks.value);
      return if ok then Done else UnlockFailed;
    }

    /** After a failed update nothing helps: however often the work unit is tried again, it fails on the
        locks it left behind and changes nothing. */
    method PerformAgain(urls: seq<Url>, times: nat) returns (outcome: Outcome)
      requires urls != [] && forall u | u in urls :: u in docs && docs[u].lock.Some?
      modifies this
      ensures times > 0 ==> outcome.LockFailed?
      ensures docs == old(docs)
      ensures Grown(old(requests), requests)
      ensures forall k | |old(requests)| <= k < |requests| :: requests[k].LockRequest?
    {
      outcome := LockFailed;
      var n := 0;
      while n < times
        invariant outcome.LockFailed? && docs == old(docs) && Grown(old(requests), requests)
        invariant forall k | |old(requests)| <= k < |requests| :: requests[k].LockRequest?
      {
        assert urls[0] in urls;
        outcome := Perform(urls);
        n := n + 1;
      }
    }
  }

  /** The result of a finished run does not depend on the order of its calls, nor on the lock ids. */
  lemma OrderDoesNotMatter(before: map<Url, Doc>, urls: seq<Url>, one: map<Url, Doc>, other: map<Url, Doc>)
    requires Finished(before, urls, one) && Finished(before, urls, other)
    ensures one == other
  {
    forall u | u in one
      ensures one[u] == other[u]
    {
      if u !in urls {
        assert one[u] == before[u] && other[u] == before[u];
      }
    }
  }
}
