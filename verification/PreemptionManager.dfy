/** The manager of durable preemptive resources, as it updates its records. */
module PreemptionManagers {
  import opened Outcomes
  import opened Preemption

  class DurablePreemptiveResourceManager {
    const capacities: map<string, nat>
    var demands: map<string, Demand>
    var reservations: map<ReservationId, Reservation>
    var releases: map<ReservationId, ReleaseIntent>
    var results: map<ResultId, PreemptionResult>
    var backendLeases: map<ReservationId, Lease>      // the rest is ephemeral
    var pendingGrants: map<string, Lease>
    var pendingPreemptions: map<string, Eviction>

    function Records(): Durable
      reads this
    {
      Durable(capacities, demands, reservations, releases, results)
    }

    function View(): State
      reads this
    {
      State(Records(), backendLeases, pendingGrants, pendingPreemptions)
    }

    constructor (definitions: map<string, nat>)
      ensures View() == Cleared(Durable(definitions, map[], map[], map[], map[]))
    {
      capacities := definitions;
      demands, reservations, releases, results := map[], map[], map[], map[];
      backendLeases, pendingGrants, pendingPreemptions := map[], map[], map[];
    }

    /** The reservation a request holds, if any. */
    method ReservationFor(request: string) returns (found: Option<ReservationId>)
      requires Linked(Records())
      ensures found.None? <==> Holding(Records(), request) == {}
      ensures found.Some? ==> found.value in reservations && found.value == Owner(Records(), request)
    {
      var todo := reservations.Keys;
      while todo != {}
        invariant todo <= reservations.Keys
        invariant forall k :: k in reservations && k !in todo ==> k.request != request
        decreases todo
      {
        var k :| k in todo;
        todo := todo - {k};
        if k.request == request {
          OwnerIsUnique(Records(), request, k);
          return Some(k);
        }
      }
      return None;
    }

    /** Ask for a resource: the demand commits before the backend hears of it. */
    method RequestResource(demand: Demand) returns (accepted: bool)
      requires Linked(Records())
      modifies this`demands
      ensures View() == Request(old(View()), demand)
      ensures accepted <==> demand.resource in capacities && !Requested(old(Records()), demand.request)
    {
      if demand.resource !in capacities || demand.request in demands {
        return false;
      }
      var owner := ReservationFor(demand.request);
      if owner.Some? {
        return false;
      }
      demands := demands[demand.request := demand];
      return true;
    }

    /** Withdraw a pending demand, if the backend agrees to cancel it. */
    method Cancel(request: string, backendAgrees: bool) returns (cancelled: bool)
      modifies this
      ensures View() == CancelPending(old(View()), request, backendAgrees)
      ensures cancelled <==> request in old(demands) && backendAgrees
    {
      if request !in demands || !backendAgrees {
        return false;
      }
      demands := demands - {request};
      pendingGrants, pendingPreemptions := pendingGrants - {request}, pendingPreemptions - {request};
      return true;
    }

    /** Commit the preemption both of whose callbacks have arrived. */
    method TryCommitPreemption(winner: string) returns (outcome: Attempt)
      requires Linked(Records())
      modifies this
      ensures outcome == TryPreemption(old(View()), winner)
      ensures View() == if outcome.Committed? then outcome.state else old(View())
    {
      if winner !in pendingGrants || winner !in pendingPreemptions || winner !in demands {
        return Waiting;
      }
      var lease, e, demand := pendingGrants[winner], pendingPreemptions[winner], demands[winner];
      var owner := ReservationFor(e.request);
      if owner.None? {
        return Waiting;
      }
      var k := owner.value;
      if demand.resource != k.resource {
        return Raised;
      }
      DemandNamedIn(Records(), winner, k);
      var successor, result := Granted(demand, lease), Outcome(demand, reservations[k], e.preemptedAt);
      demands := demands - {winner};
      reservations := (reservations - {k})[successor.id := successor];
      results := results[result.id := result];
      backendLeases := (backendLeases - {k})[successor.id := lease];
      pendingGrants, pendingPreemptions := pendingGrants - {winner}, pendingPreemptions - {winner};
      return Committed(View());
    }

    /** Reservations of one resource. */
    method CountActive(resource: string) returns (count: nat)
      ensures count == |Active(Records(), resource)|
    {
      var todo := reservations.Keys;
      var seen: set<ReservationId> := {};
      while todo != {}
        invariant seen == Active(Records(), resource) - todo && todo <= reservations.Keys
        decreases todo
      {
        var k :| k in todo;
        todo := todo - {k};
        if k.resource == resource {
          seen := seen + {k};
        }
      }
      return |seen|;
    }

    /** Commit an ordinary grant unless it must wait for a preemption or release. */
    method TryCommitNormalGrant(request: string)
      requires Linked(Records())
      modifies this
      ensures View() == TryGrant(old(View()), request)
    {
      if request !in pendingGrants || request !in demands {
        return;
      }
      var lease, demand := pendingGrants[request], demands[request];
      DemandNamedIn(Records(), request, ReservationId("", ""));
      if Releasing(Records(), demand.resource) {
        return;
      }
      var active := CountActive(demand.resource);
      if active >= capacities[demand.resource] {
        return;
      }
      var reservation := Granted(demand, lease);
      demands := demands - {request};
      reservations := reservations[reservation.id := reservation];
      backendLeases := backendLeases[reservation.id := lease];
      pendingGrants := pendingGrants - {request};
    }

    method ReconsiderGrant(request: string) returns (raised: bool)
      requires Linked(Records())
      modifies this
      ensures View() == Reconsider(old(View()), request)
      ensures raised <==> Crossed(old(View()), request)
    {
      var outcome := TryCommitPreemption(request);
      if outcome.Waiting? {
        TryCommitNormalGrant(request);
      }
      return outcome.Raised?;
    }

    /** The backend granted a request. */
    method RecordAcquired(request: string, lease: Lease) returns (raised: bool)
      requires Linked(Records())
      modifies this
      ensures View() == Acquired(old(View()), request, lease)
      ensures raised <==> AcquiredRaises(old(View()), request, lease)
    {
      var owner := ReservationFor(request);
      if owner.Some? {
        backendLeases := backendLeases[owner.value := lease];
        return false;
      }
      if request !in demands {
        return false;
      }
      pendingGrants := pendingGrants[request := lease];
      raised := ReconsiderGrant(request);
    }

    /** The backend took a reservation away. */
    method RecordPreempted(e: Eviction) returns (raised: bool)
      requires Linked(Records())
      modifies this
      ensures View() == Evicted(old(View()), e)
      ensures raised <==> EvictionRaises(old(View()), e)
    {
      if e.winner.None? || e.winner.value == "" {
        return true;
      }
      var owner := ReservationFor(e.request);
      if owner.None? {
        return false;
      }
      if owner.value.resource != e.resource {
        return true;
      }
      pendingPreemptions := pendingPreemptions[e.winner.value := e];
      var outcome := TryCommitPreemption(e.winner.value);
      return outcome.Raised?;
    }

    /** Reconsider the pending grants of one resource after a release. */
    method ReconcilePendingGrants(order: seq<string>, resource: string) returns (raised: bool)
      requires Inv(Records())
      modifies this
      ensures View() == ReconsiderAll(old(View()), order, resource)
      ensures raised <==> ReconcileRaises(old(View()), order, resource)
    {
      hide Inv, Reconsider, Crossed;
      assert order[0..] == order;
      for i := 0 to |order|
        invariant Inv(Records())
        invariant ReconsiderAll(View(), order[i..], resource) == ReconsiderAll(old(View()), order, resource)
        invariant ReconcileRaises(View(), order[i..], resource) <==> ReconcileRaises(old(View()), order, resource)
      {
        assert order[i..][1..] == order[i + 1..];
        if order[i] in pendingGrants && pendingGrants[order[i]].resource == resource {
          ReconsiderKeepsInv(View(), order[i]);
          InvLinks(Records());
          ghost var s := View();
          raised := ReconsiderGrant(order[i]);
          if raised {
            CrossedKeepsAll(s, order[i]);
            return;
          }
        }
      }
      return false;
    }

    /** Release a reservation: intent, backend, then both records at once. */
    method ReleaseReservation(k: ReservationId, at: int, fate: ReleaseFate, order: seq<string>) returns (released: bool, raised: bool)
      requires Inv(Records())
      modifies this
      ensures View() == Release(old(View()), k, at, fate, order)
      ensures raised <==> ReleaseRaises(old(View()), k, at, fate, order)
      ensures released <==> k in old(reservations) && k in old(backendLeases) && fate == Completes && !raised
    {
      if k !in reservations || k !in backendLeases {
        return false, k in reservations;
      }
      ReleaseStepsKeepInv(Records(), k, at);
      hide Inv, ReconsiderAll, ReconcileRaises;
      releases := releases[k := ReleaseIntent(k, k.resource, at)];
      if fate == Dies {
        Forget();
        return false, false;
      }
      if fate == BackendRaises {
        return false, true;
      }
      reservations, releases := reservations - {k}, releases - {k};
      backendLeases := backendLeases - {k};
      raised := ReconcilePendingGrants(order, k.resource);
      released := !raised;
    }

    /** A dead process keeps no handles and no half-finished handshakes. */
    method Forget()
      modifies this`backendLeases, this`pendingGrants, this`pendingPreemptions
      ensures View() == Cleared(old(Records()))
    {
      backendLeases, pendingGrants, pendingPreemptions := map[], map[], map[];
    }

    /** One transaction: reservation and intent go together. */
    method FinalizeReleaseIntent(k: ReservationId)
      modifies this`reservations, this`releases
      ensures Records() == Finalize(old(Records()), {k})
    {
      reservations, releases := reservations - {k}, releases - {k};
    }

    /** Finish interrupted releases, one transaction each, while the process lives. */
    method FinalizeInterruptedReleases(life: nat) returns (ghost done: set<ReservationId>)
      modifies this`reservations, this`releases
      ensures Records() == Finalize(old(Records()), done) && done <= old(releases).Keys
      ensures life >= |old(releases)| ==> done == old(releases).Keys
    {
      var todo := releases.Keys;
      var left := life;
      done := {};
      FinalizeNone(Records());
      while todo != {} && left > 0
        invariant done + todo == old(releases).Keys && left <= life
        invariant |todo| <= |old(releases)| - (life - left)
        invariant Records() == Finalize(old(Records()), done)
        decreases left
      {
        hide Finalize;
        var k :| k in todo;
        FinalizeMore(old(Records()), done, k);
        FinalizeReleaseIntent(k);
        MovesOver(todo, done, k);
        todo, left, done := todo - {k}, left - 1, done + {k};
      }
      assert done + {} == done;
    }

    /** Forget the dead backend, validate, then finish interrupted releases. */
    method RebuildBackend(life: nat) returns (accepted: bool, ghost done: set<ReservationId>)
      modifies this
      ensures accepted <==> ValidRebuild(old(Records()))
      ensures accepted <==>
                && (forall k :: k in old(reservations) ==> k.resource in capacities && k.request !in old(demands))
                && (forall r :: r in old(demands) ==> old(demands)[r].resource in capacities)
                && (forall k :: k in old(releases) ==> k in old(reservations) && k.resource == old(releases)[k].resource)
                && (forall r :: r in old(results) ==> old(results)[r].resource in capacities)
                && (forall name :: name in capacities ==>
                      |set k | k in old(reservations) && k.resource == name| <= capacities[name])
      ensures Rebuilds(old(View()), done, life < |old(releases)|, View())
    {
      Forget();
      done := {};
      if !ValidRebuild(Records()) {
        return false, done;
      }
      hide ValidRebuild;
      done := FinalizeInterruptedReleases(life);
      return true, done;
    }
  }

  lemma CrossedKeepsAll(s: State, winner: string)
    ensures Crossed(s, winner) ==> Reconsider(s, winner) == s
  {
  }

  lemma FinalizeNone(d: Durable)
    ensures Finalize(d, {}) == d
  {
    assert d.reservations - {} == d.reservations && d.releases - {} == d.releases;
  }

  lemma FinalizeMore(d: Durable, done: set<ReservationId>, k: ReservationId)
    ensures Finalize(Finalize(d, done), {k}) == Finalize(d, done + {k})
  {
    assert d.reservations - done - {k} == d.reservations - (done + {k});
    assert d.releases - done - {k} == d.releases - (done + {k});
  }

  lemma MovesOver(todo: set<ReservationId>, done: set<ReservationId>, k: ReservationId)
    requires k in todo
    ensures (done + {k}) + (todo - {k}) == done + todo && |todo - {k}| == |todo| - 1
  {
  }

  lemma DemandNamedIn(d: Durable, request: string, k: ReservationId)
    requires Linked(d) && request in d.demands
    ensures d.demands[request].request == request && d.demands[request].resource in d.capacities
    ensures k in d.reservations ==> d.reservations[k].id == k
  {
  }

  lemma InvLinks(d: Durable)
    requires Inv(d)
    ensures Linked(d)
  {
  }

  lemma ReleaseStepsKeepInv(d: Durable, k: ReservationId, at: int)
    requires Inv(d) && k in d.reservations
    ensures Inv(Finalize(IntendRelease(d, k, at), {k}))
  {
    hide Active;
    FewerReservationsKeepInv(d, IntendRelease(d, k, at));
    FewerReservationsKeepInv(d, Finalize(IntendRelease(d, k, at), {k}));
  }
}
