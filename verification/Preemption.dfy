/**
 Durable preemptive resources: demands, reservations, release intents and
 preemption results survive a crash; leases and half-finished handshakes do not.
 Backend callbacks may arrive in any order and number.
 */
module Preemption {
  import opened Outcomes

  /** A reservation is identified by its resource and request. */
  datatype ReservationId = ReservationId(resource: string, request: string)

  datatype Demand = Demand(request: string, resource: string, priority: int, preempt: bool, requestedAt: int, sequence: nat)

  datatype Reservation = Reservation(id: ReservationId, acquiredAt: int, priority: int, sequence: nat)

  datatype ReleaseIntent = ReleaseIntent(reservation: ReservationId, resource: string, requestedAt: int)

  datatype ResultId = ResultId(displaced: ReservationId, winner: string)

  datatype PreemptionResult = PreemptionResult(
    id: ResultId, resource: string, displaced: ReservationId, displacedRequest: string,
    preempting: string, successor: ReservationId, preemptedAt: int, sequence: nat)

  datatype Durable = Durable(
    capacities: map<string, nat>,
    demands: map<string, Demand>,
    reservations: map<ReservationId, Reservation>,
    releases: map<ReservationId, ReleaseIntent>,
    results: map<ResultId, PreemptionResult>)

  datatype Lease = Lease(resource: string, acquiredAt: int)

  /** The backend reports that `request` lost its place to `winner`. */
  datatype Eviction = Eviction(request: string, resource: string, preemptedAt: int, winner: Option<string>)

  datatype State = State(
    durable: Durable,
    leases: map<ReservationId, Lease>,
    grants: map<string, Lease>,
    evictions: map<string, Eviction>)

  // --------------------------------------------------------------- looking things up

  function Holding(d: Durable, request: string): set<ReservationId> {
    set k | k in d.reservations && k.request == request
  }

  function Active(d: Durable, resource: string): set<ReservationId> {
    set k | k in d.reservations && k.resource == resource
  }

  predicate Releasing(d: Durable, resource: string) {
    exists k :: k in d.releases && d.releases[k].resource == resource
  }

  predicate Requested(d: Durable, request: string) {
    request in d.demands || Holding(d, request) != {}
  }

  // ------------------------------------------------------------------- commits

  function Granted(demand: Demand, lease: Lease): Reservation {
    Reservation(ReservationId(demand.resource, demand.request), lease.acquiredAt, demand.priority, demand.sequence)
  }

  function Outcome(demand: Demand, displaced: Reservation, at: int): PreemptionResult {
    PreemptionResult(ResultId(displaced.id, demand.request), demand.resource, displaced.id, displaced.id.request,
                     demand.request, ReservationId(demand.resource, demand.request), at, demand.sequence)
  }

  /** One transaction: the demand becomes a reservation. */
  function Grant(d: Durable, demand: Demand, lease: Lease): Durable {
    var r := Granted(demand, lease);
    d.(demands := d.demands - {demand.request}, reservations := d.reservations[r.id := r])
  }

  /** One transaction: the demand takes the displaced reservation's place. */
  function Swap(d: Durable, demand: Demand, lease: Lease, displaced: Reservation, at: int): Durable {
    var r, result := Granted(demand, lease), Outcome(demand, displaced, at);
    d.(demands := d.demands - {demand.request},
       reservations := (d.reservations - {displaced.id})[r.id := r],
       results := d.results[result.id := result])
  }

  datatype Attempt = Committed(state: State) | Waiting | Raised

  /** The reservation a request holds. */
  ghost function Owner(d: Durable, request: string): (k: ReservationId)
    requires Holding(d, request) != {}
    ensures k in d.reservations && k.request == request
  {
    var k :| k in Holding(d, request);
    k
  }

  /** Commit the preemption `winner` takes part in, if both callbacks arrived. */
  ghost function TryPreemption(s: State, winner: string): Attempt {
    if winner !in s.grants || winner !in s.evictions then Waiting
    else if winner !in s.durable.demands || Holding(s.durable, s.evictions[winner].request) == {} then Waiting
    else
      var k := Owner(s.durable, s.evictions[winner].request);
      if s.durable.demands[winner].resource != k.resource then Raised
      else Committed(Swapped(s, winner, k))
  }

  function Swapped(s: State, winner: string, k: ReservationId): State
    requires winner in s.grants && winner in s.evictions && winner in s.durable.demands && k in s.durable.reservations
  {
    var demand := s.durable.demands[winner];
    State(Swap(s.durable, demand, s.grants[winner], s.durable.reservations[k], s.evictions[winner].preemptedAt),
          (s.leases - {k})[ReservationId(demand.resource, winner) := s.grants[winner]],
          s.grants - {winner}, s.evictions - {winner})
  }

  predicate RoomFor(d: Durable, resource: string) {
    && resource in d.capacities
    && !Releasing(d, resource) && |Active(d, resource)| < d.capacities[resource]
  }

  /** Commit an ordinary grant if there is durable room and nothing is being released. */
  function TryGrant(s: State, request: string): State {
    if request !in s.grants || request !in s.durable.demands then s
    else
      var demand := s.durable.demands[request];
      if !RoomFor(s.durable, demand.resource) then s
      else State(Grant(s.durable, demand, s.grants[request]),
                 s.leases[ReservationId(demand.resource, request) := s.grants[request]],
                 s.grants - {request}, s.evictions)
  }

  /** What one pending grant leads to when reconsidered. */
  ghost function Reconsider(s: State, request: string): State {
    match TryPreemption(s, request)
    case Committed(s') => s'
    case Raised => s
    case Waiting => TryGrant(s, request)
  }

  // ------------------------------------------------------------------- callbacks

  ghost function Acquired(s: State, request: string, lease: Lease): State {
    if Holding(s.durable, request) != {} then s.(leases := s.leases[Owner(s.durable, request) := lease])
    else if request !in s.durable.demands then s
    else Reconsider(s.(grants := s.grants[request := lease]), request)
  }

  ghost function Evicted(s: State, e: Eviction): State {
    if e.winner.None? || e.winner.value == "" || Holding(s.durable, e.request) == {} then s
    else if Owner(s.durable, e.request).resource != e.resource then s
    else
      var noted := s.(evictions := s.evictions[e.winner.value := e]);
      match TryPreemption(noted, e.winner.value)
      case Committed(s') => s'
      case _ => noted
  }

  // ------------------------------------------------------------------ operations

  function Request(s: State, demand: Demand): State {
    if demand.resource !in s.durable.capacities || Requested(s.durable, demand.request) then s
    else s.(durable := s.durable.(demands := s.durable.demands[demand.request := demand]))
  }

  function CancelPending(s: State, request: string, backendAgrees: bool): State {
    if request !in s.durable.demands || !backendAgrees then s
    else State(s.durable.(demands := s.durable.demands - {request}), s.leases, s.grants - {request}, s.evictions - {request})
  }

  function IntendRelease(d: Durable, k: ReservationId, at: int): Durable {
    d.(releases := d.releases[k := ReleaseIntent(k, k.resource, at)])
  }

  function Finalize(d: Durable, ks: set<ReservationId>): Durable {
    d.(reservations := d.reservations - ks, releases := d.releases - ks)
  }

  /** What interrupts a release between its two transactions, if anything. */
  datatype ReleaseFate = Completes | BackendRaises | Dies

  /** The pair of callbacks names two resources, which raises. */
  ghost predicate Crossed(s: State, winner: string) {
    TryPreemption(s, winner).Raised?
  }

  ghost predicate AcquiredRaises(s: State, request: string, lease: Lease) {
    && Holding(s.durable, request) == {} && request in s.durable.demands
    && Crossed(s.(grants := s.grants[request := lease]), request)
  }

  ghost predicate EvictionRaises(s: State, e: Eviction) {
    if e.winner.None? || e.winner.value == "" then true
    else if Holding(s.durable, e.request) == {} then false
    else
      || Owner(s.durable, e.request).resource != e.resource
      || Crossed(s.(evictions := s.evictions[e.winner.value := e]), e.winner.value)
  }

  /** Grants of a resource are reconsidered in the order they arrived, up to one
      that raises. */
  ghost function ReconsiderAll(s: State, order: seq<string>, resource: string): State
    decreases |order|
  {
    if order == [] then s
    else if order[0] in s.grants && s.grants[order[0]].resource == resource then
      if Crossed(s, order[0]) then s else ReconsiderAll(Reconsider(s, order[0]), order[1..], resource)
    else ReconsiderAll(s, order[1..], resource)
  }

  ghost predicate ReconcileRaises(s: State, order: seq<string>, resource: string)
    decreases |order|
  {
    if order == [] then false
    else if order[0] in s.grants && s.grants[order[0]].resource == resource then
      Crossed(s, order[0]) || ReconcileRaises(Reconsider(s, order[0]), order[1..], resource)
    else ReconcileRaises(s, order[1..], resource)
  }

  ghost function Freed(s: State, k: ReservationId, at: int): State {
    s.(durable := Finalize(IntendRelease(s.durable, k, at), {k}), leases := s.leases - {k})
  }

  ghost predicate ReleaseRaises(s: State, k: ReservationId, at: int, fate: ReleaseFate, order: seq<string>) {
    && k in s.durable.reservations
    && (|| k !in s.leases || fate == BackendRaises
        || (fate == Completes && ReconcileRaises(Freed(s, k, at), order, k.resource)))
  }

  function Cleared(d: Durable): State {
    State(d, map[], map[], map[])
  }

  ghost function Release(s: State, k: ReservationId, at: int, fate: ReleaseFate, order: seq<string>): State {
    if k !in s.durable.reservations || k !in s.leases then s
    else
      var intended := IntendRelease(s.durable, k, at);
      match fate
      case Dies => Cleared(intended)
      case BackendRaises => s.(durable := intended)
      case Completes =>
        var freed := s.(durable := Finalize(intended, {k}), leases := s.leases - {k});
        ReconsiderAll(freed, order, k.resource)
  }

  // ---------------------------------------------------------- validation, rebuild

  /** What a rebuild insists on before it touches anything. */
  predicate ValidRebuild(d: Durable) {
    && (forall k :: k in d.reservations ==> k.resource in d.capacities)
    && (forall r :: r in d.demands ==> d.demands[r].resource in d.capacities)
    && (forall k :: k in d.releases ==> k in d.reservations && k.resource == d.releases[k].resource)
    && (forall name :: name in d.capacities ==> |Active(d, name)| <= d.capacities[name])
    && (forall k :: k in d.reservations ==> k.request !in d.demands)
    && (forall r :: r in d.results ==> d.results[r].resource in d.capacities)
  }

  /** A rebuild that finalized `done` before it either finished or died. */
  ghost predicate Rebuilds(s: State, done: set<ReservationId>, dies: bool, s': State) {
    if !ValidRebuild(s.durable) then s' == Cleared(s.durable)
    else && done <= s.durable.releases.Keys && (!dies ==> done == s.durable.releases.Keys)
         && s' == Cleared(Finalize(s.durable, done))
  }

  datatype Op =
    | DoRequest(demand: Demand)
    | DoCancel(request: string, backendAgrees: bool)
    | DoRelease(reservation: ReservationId, at: int, fate: ReleaseFate, order: seq<string>)
    | OnAcquired(request: string, lease: Lease)
    | OnPreempted(eviction: Eviction)
    | Crash
    | Rebuild(done: set<ReservationId>, dies: bool)

  ghost predicate Next(s: State, op: Op, s': State) {
    match op
    case DoRequest(demand) => s' == Request(s, demand)
    case DoCancel(request, agrees) => s' == CancelPending(s, request, agrees)
    case DoRelease(k, at, fate, order) => s' == Release(s, k, at, fate, order)
    case OnAcquired(request, lease) => s' == Acquired(s, request, lease)
    case OnPreempted(e) => s' == Evicted(s, e)
    case Crash => s' == Cleared(s.durable)
    case Rebuild(done, dies) => Rebuilds(s, done, dies, s')
  }

  // ------------------------------------------------------------------- invariant

  /** Capacity is never exceeded, nobody is both pending and reserved, a request
      holds at most one reservation, and references are to known resources. */
  ghost predicate Inv(d: Durable) {
    Linked(d) && WithinCapacity(d)
  }

  ghost predicate WithinCapacity(d: Durable) {
    forall name :: name in d.capacities ==> |Active(d, name)| <= d.capacities[name]
  }

  ghost predicate Linked(d: Durable) {
    && (forall k :: k in d.reservations ==> d.reservations[k].id == k && k.resource in d.capacities && k.request !in d.demands)
    && (forall j, k :: j in d.reservations && k in d.reservations && j.request == k.request ==> j == k)
    && (forall r :: r in d.demands ==> d.demands[r].request == r && d.demands[r].resource in d.capacities)
    && (forall k :: k in d.releases ==> d.releases[k].reservation == k && d.releases[k].resource == k.resource)
    && (forall r :: r in d.results ==> d.results[r].resource in d.capacities)
  }

  /** Every outstanding release still has its reservation. */
  predicate ReleasesHeld(d: Durable) {
    forall k :: k in d.releases ==> k in d.reservations
  }

  /** A rebuild is accepted exactly when no outstanding release lost its
      reservation; everything else it checks holds in every reachable state. */
  lemma ValidRebuildOf(d: Durable)
    requires Inv(d)
    ensures ValidRebuild(d) <==> ReleasesHeld(d)
  {
  }

  lemma SubsetFits(a: set<ReservationId>, b: set<ReservationId>)
    requires a <= b
    ensures |a| <= |b|
    decreases a
  {
    if a != {} {
      var x :| x in a;
      SubsetFits(a - {x}, b - {x});
    }
  }

  lemma NewOwner(d: Durable, demand: Demand)
    requires Linked(d) && demand.request in d.demands && d.demands[demand.request] == demand
    ensures ReservationId(demand.resource, demand.request) !in d.reservations
    ensures Holding(d, demand.request) == {} && demand.resource in d.capacities
  {
  }

  lemma GrantLinked(d: Durable, demand: Demand, lease: Lease)
    requires Linked(d) && demand.request in d.demands && d.demands[demand.request] == demand
    ensures Linked(Grant(d, demand, lease))
  {
    var n := ReservationId(demand.resource, demand.request);
    forall k | k in d.reservations ensures k.request != demand.request {
    }
  }

  lemma GrantKeepsInv(d: Durable, demand: Demand, lease: Lease)
    requires Inv(d) && demand.request in d.demands && d.demands[demand.request] == demand && RoomFor(d, demand.resource)
    ensures Inv(Grant(d, demand, lease))
  {
    GrantLinked(d, demand, lease);
    hide Linked, Active;
    var d' := Grant(d, demand, lease);
    var n := ReservationId(demand.resource, demand.request);
    assert d'.reservations.Keys == d.reservations.Keys + {n};
    forall name | name in d'.capacities ensures |Active(d', name)| <= d'.capacities[name] {
      GrantCounts(d, d', name, n);
    }
  }

  lemma GrantCounts(d: Durable, d': Durable, name: string, n: ReservationId)
    requires d'.reservations.Keys == d.reservations.Keys + {n}
    ensures |Active(d', name)| <= |Active(d, name)| + if name == n.resource then 1 else 0
  {
    assert Active(d', name) == Active(d, name) + if name == n.resource then {n} else {};
  }

  /** A preemption commit swaps exactly one owner: the displaced reservation for
      the preempting one, and the number held stays as it was. */
  lemma SwapsOneOwner(d: Durable, demand: Demand, lease: Lease, k: ReservationId, at: int)
    requires Linked(d) && demand.request in d.demands && d.demands[demand.request] == demand
    requires k in d.reservations && k.resource == demand.resource
    ensures var d' := Swap(d, demand, lease, d.reservations[k], at);
            var n := ReservationId(demand.resource, demand.request);
            && n !in d.reservations && d'.reservations.Keys == d.reservations.Keys - {k} + {n}
            && (forall name :: |Active(d', name)| == |Active(d, name)|)
            && d'.demands == d.demands - {demand.request}
            && d'.releases == d.releases && d'.capacities == d.capacities
  {
    NewOwner(d, demand);
    assert d.reservations[k].id == k;
    hide Linked;
    var d' := Swap(d, demand, lease, d.reservations[k], at);
    var n := ReservationId(demand.resource, demand.request);
    assert d'.reservations.Keys == d.reservations.Keys - {k} + {n};
    forall name ensures |Active(d', name)| == |Active(d, name)| {
      SwapCounts(d, d', name, k, n);
    }
  }

  lemma SwapCounts(d: Durable, d': Durable, name: string, k: ReservationId, n: ReservationId)
    requires k in d.reservations && n !in d.reservations && k.resource == n.resource
    requires d'.reservations.Keys == d.reservations.Keys - {k} + {n}
    ensures |Active(d', name)| == |Active(d, name)|
  {
    if name == k.resource {
      assert k in Active(d, name) && n !in Active(d, name);
      assert Active(d', name) == Active(d, name) - {k} + {n};
    } else {
      assert Active(d', name) == Active(d, name);
    }
  }

  lemma SwapLinked(d: Durable, demand: Demand, lease: Lease, k: ReservationId, at: int)
    requires Linked(d) && demand.request in d.demands && d.demands[demand.request] == demand
    requires k in d.reservations && k.resource == demand.resource
    ensures Linked(Swap(d, demand, lease, d.reservations[k], at))
  {
    var freed := d.(reservations := d.reservations - {k});
    assert d.reservations[k].id == k;
    FewerLinked(d, freed);
    GrantLinked(freed, demand, lease);
    var d' := Swap(d, demand, lease, d.reservations[k], at);
    assert d' == Grant(freed, demand, lease).(results := d'.results);
  }

  lemma FewerLinked(d: Durable, d': Durable)
    requires Linked(d) && d' == d.(reservations := d'.reservations, releases := d'.releases)
    requires forall k :: k in d'.reservations ==> k in d.reservations && d'.reservations[k] == d.reservations[k]
    requires forall k :: k in d'.releases ==> d'.releases[k].reservation == k && d'.releases[k].resource == k.resource
    ensures Linked(d')
  {
  }

  lemma SwapKeepsInv(d: Durable, demand: Demand, lease: Lease, k: ReservationId, at: int)
    requires Inv(d) && demand.request in d.demands && d.demands[demand.request] == demand
    requires k in d.reservations && k.resource == demand.resource
    ensures Inv(Swap(d, demand, lease, d.reservations[k], at))
  {
    hide Active, Linked, Swap;
    SwapsOneOwner(d, demand, lease, k, at);
    SwapLinked(d, demand, lease, k, at);
  }

  lemma FewerReservationsKeepInv(d: Durable, d': Durable)
    requires Inv(d) && d' == d.(reservations := d'.reservations, releases := d'.releases)
    requires forall k :: k in d'.reservations ==> k in d.reservations && d'.reservations[k] == d.reservations[k]
    requires forall k :: k in d'.releases ==> d'.releases[k].reservation == k && d'.releases[k].resource == k.resource
    ensures Inv(d')
  {
    FewerLinked(d, d');
    hide Linked;
    forall name | name in d'.capacities ensures |Active(d', name)| <= d'.capacities[name] {
      SubsetFits(Active(d', name), Active(d, name));
    }
    hide Active;
  }

  lemma ReconsiderKeepsInv(s: State, request: string)
    requires Inv(s.durable)
    ensures Inv(Reconsider(s, request).durable)
  {
    hide Inv, RoomFor;
    DemandNamed(s.durable, request);
    match TryPreemption(s, request)
    case Committed(_) =>
      var k := Owner(s.durable, s.evictions[request].request);
      SwapKeepsInv(s.durable, s.durable.demands[request], s.grants[request], k, s.evictions[request].preemptedAt);
    case Raised =>
    case Waiting =>
      if request in s.grants && request in s.durable.demands && RoomFor(s.durable, s.durable.demands[request].resource) {
        GrantKeepsInv(s.durable, s.durable.demands[request], s.grants[request]);
      }
  }

  lemma DemandNamed(d: Durable, request: string)
    requires Inv(d)
    ensures request in d.demands ==> d.demands[request].request == request
    ensures forall k :: k in d.reservations ==> d.reservations[k].id == k
  {
  }

  lemma {:induction false} ReconsiderAllKeepsInv(s: State, order: seq<string>, resource: string)
    requires Inv(s.durable)
    ensures Inv(ReconsiderAll(s, order, resource).durable)
    decreases |order|
  {
    hide Inv, Reconsider;
    if order != [] {
      ReconsiderKeepsInv(s, order[0]);
      ReconsiderAllKeepsInv(Reconsider(s, order[0]), order[1..], resource);
      ReconsiderAllKeepsInv(s, order[1..], resource);
    }
  }

  lemma EvictedKeepsInv(s: State, e: Eviction)
    requires Inv(s.durable)
    ensures Inv(Evicted(s, e).durable)
  {
    hide Inv;
    if e.winner.Some? {
      var noted := s.(evictions := s.evictions[e.winner.value := e]);
      DemandNamed(s.durable, e.winner.value);
      if TryPreemption(noted, e.winner.value).Committed? {
        var winner := e.winner.value;
        var k := Owner(noted.durable, noted.evictions[winner].request);
        SwapKeepsInv(noted.durable, noted.durable.demands[winner], noted.grants[winner], k, noted.evictions[winner].preemptedAt);
      }
    }
  }

  lemma ReleaseKeepsInv(s: State, k: ReservationId, at: int, fate: ReleaseFate, order: seq<string>)
    requires Inv(s.durable)
    ensures Inv(Release(s, k, at, fate, order).durable)
  {
    hide ReconsiderAll, Active;
    if k in s.durable.reservations && k in s.leases {
      var intended := IntendRelease(s.durable, k, at);
      FewerReservationsKeepInv(s.durable, intended);
      FewerReservationsKeepInv(s.durable, Finalize(intended, {k}));
      hide Inv;
      ReconsiderAllKeepsInv(s.(durable := Finalize(intended, {k}), leases := s.leases - {k}), order, k.resource);
    }
  }

  lemma RequestKeepsInv(s: State, demand: Demand)
    requires Inv(s.durable)
    ensures Inv(Request(s, demand).durable)
  {
    var d' := Request(s, demand).durable;
    if d' != s.durable {
      forall k | k in s.durable.reservations ensures k.request != demand.request {
        assert k.request == demand.request ==> k in Holding(s.durable, demand.request);
      }
      forall name ensures Active(d', name) == Active(s.durable, name) {
      }
    }
    hide Active;
  }

  lemma CancelKeepsInv(s: State, request: string, agrees: bool)
    requires Inv(s.durable)
    ensures Inv(CancelPending(s, request, agrees).durable)
  {
    var d' := CancelPending(s, request, agrees).durable;
    forall name ensures Active(d', name) == Active(s.durable, name) {
    }
    hide Active;
  }

  lemma AcquiredKeepsInv(s: State, request: string, lease: Lease)
    requires Inv(s.durable)
    ensures Inv(Acquired(s, request, lease).durable)
  {
    hide Inv;
    ReconsiderKeepsInv(s.(grants := s.grants[request := lease]), request);
  }

  lemma RebuildsKeepsInv(s: State, done: set<ReservationId>, dies: bool, s': State)
    requires Inv(s.durable) && Rebuilds(s, done, dies, s')
    ensures Inv(s'.durable)
  {
    if ValidRebuild(s.durable) {
      FinalizeKeepsInv(s.durable, done);
    }
    hide Inv, ValidRebuild, Finalize;
  }

  lemma FinalizeKeepsInv(d: Durable, done: set<ReservationId>)
    requires Inv(d)
    ensures Inv(Finalize(d, done))
  {
    hide WithinCapacity;
    FewerReservationsKeepInv(d, Finalize(d, done));
  }

  /** Whatever the backend calls back, in any order and number, and wherever the
      process dies. */
  lemma NextKeepsInv(s: State, op: Op, s': State)
    requires Inv(s.durable) && Next(s, op, s')
    ensures Inv(s'.durable) && s'.durable.capacities == s.durable.capacities
  {
    CapacitiesFixed(s, op, s');
    hide Inv, Request, CancelPending, Release, Acquired, Evicted, Rebuilds;
    match op
    case DoRequest(demand) => RequestKeepsInv(s, demand);
    case DoCancel(request, agrees) => CancelKeepsInv(s, request, agrees);
    case DoRelease(k, at, fate, order) => ReleaseKeepsInv(s, k, at, fate, order);
    case OnAcquired(request, lease) => AcquiredKeepsInv(s, request, lease);
    case OnPreempted(e) => EvictedKeepsInv(s, e);
    case Crash =>
    case Rebuild(done, dies) => RebuildsKeepsInv(s, done, dies, s');
  }

  lemma {:induction false} ReconsiderAllKeepsCapacities(s: State, order: seq<string>, resource: string)
    ensures ReconsiderAll(s, order, resource).durable.capacities == s.durable.capacities
    decreases |order|
  {
    if order != [] {
      ReconsiderAllKeepsCapacities(Reconsider(s, order[0]), order[1..], resource);
      ReconsiderAllKeepsCapacities(s, order[1..], resource);
    }
  }

  lemma CapacitiesFixed(s: State, op: Op, s': State)
    requires Next(s, op, s')
    ensures s'.durable.capacities == s.durable.capacities
  {
    hide ValidRebuild, ReconsiderAll;
    if op.DoRelease? && op.fate.Completes? {
      var k := op.reservation;
      var freed := s.(durable := Finalize(IntendRelease(s.durable, k, op.at), {k}), leases := s.leases - {k});
      ReconsiderAllKeepsCapacities(freed, op.order, k.resource);
    }
  }

  // ------------------------------------------------------- what a commit writes

  /** A granted demand becomes one reservation, as it was asked for. */
  lemma GrantWrites(d: Durable, demand: Demand, lease: Lease)
    ensures var k := ReservationId(demand.resource, demand.request);
            Grant(d, demand, lease) ==
              d.(demands := d.demands - {demand.request},
                 reservations := d.reservations[k := Reservation(k, lease.acquiredAt, demand.priority, demand.sequence)])
  {
  }

  /** A preemption commit does that, takes the displaced reservation away, and
      records who displaced whom, on which resource and when. */
  lemma SwapWrites(d: Durable, demand: Demand, lease: Lease, displaced: Reservation, at: int)
    ensures var k := ReservationId(demand.resource, demand.request);
            var id := ResultId(displaced.id, demand.request);
            Swap(d, demand, lease, displaced, at) ==
              d.(demands := d.demands - {demand.request},
                 reservations := (d.reservations - {displaced.id})[k := Reservation(k, lease.acquiredAt, demand.priority, demand.sequence)],
                 results := d.results[id := PreemptionResult(id, demand.resource, displaced.id, displaced.id.request,
                                                             demand.request, k, at, demand.sequence)])
  {
  }

  // --------------------------------------------------- no grant is left behind

  /** Nothing more can be granted: the resource is full, or a release of it is outstanding. */
  ghost predicate Full(d: Durable, name: string) {
    name in d.capacities
    && ((exists k :: k in d.releases && d.releases[k].resource == name)
        || |set k | k in d.reservations && k.resource == name| >= d.capacities[name])
  }

  /** Reconsidering only takes grants and demands away. */
  lemma ReconsiderShrinks(s: State, request: string)
    ensures var s' := Reconsider(s, request);
            && (forall r :: r in s'.grants ==> r in s.grants && s'.grants[r] == s.grants[r])
            && (forall r :: r in s'.durable.demands ==> r in s.durable.demands && s'.durable.demands[r] == s.durable.demands[r])
            && s'.durable.releases == s.durable.releases && s'.durable.capacities == s.durable.capacities
  {
    hide RoomFor, Holding;
  }

  lemma {:induction false} ReconsiderAllShrinks(s: State, order: seq<string>, resource: string)
    ensures var s' := ReconsiderAll(s, order, resource);
            && (forall r :: r in s'.grants ==> r in s.grants && s'.grants[r] == s.grants[r])
            && (forall r :: r in s'.durable.demands ==> r in s.durable.demands && s'.durable.demands[r] == s.durable.demands[r])
    decreases |order|
  {
    hide Reconsider, Crossed;
    if order != [] {
      ReconsiderShrinks(s, order[0]);
      ReconsiderAllShrinks(Reconsider(s, order[0]), order[1..], resource);
      ReconsiderAllShrinks(s, order[1..], resource);
    }
  }

  /** What was full stays full while grants are reconsidered. */
  lemma FullStays(s: State, request: string, name: string)
    requires Inv(s.durable) && Full(s.durable, name)
    ensures Full(Reconsider(s, request).durable, name)
  {
    hide WithinCapacity, RoomFor, Linked;
    DemandNamed(s.durable, request);
    match TryPreemption(s, request)
    case Committed(s') =>
      var k := Owner(s.durable, s.evictions[request].request);
      SwapsOneOwner(s.durable, s.durable.demands[request], s.grants[request], k, s.evictions[request].preemptedAt);
      assert |Active(s'.durable, name)| == |Active(s.durable, name)|;
    case Raised =>
    case Waiting =>
      var s' := TryGrant(s, request);
      assert Active(s.durable, name) <= Active(s'.durable, name);
      SubsetFits(Active(s.durable, name), Active(s'.durable, name));
  }

  /** A grant that is still waiting after its turn found no room. */
  lemma WaitsOnlyIfFull(s: State, request: string)
    requires Inv(s.durable) && !Crossed(s, request)
    ensures var s' := Reconsider(s, request);
            request in s'.grants && request in s'.durable.demands ==> Full(s'.durable, s'.durable.demands[request].resource)
  {
    hide WithinCapacity;
    if request in s.durable.demands {
      var name := s.durable.demands[request].resource;
      assert Active(s.durable, name) == set k | k in s.durable.reservations && k.resource == name;
    }
  }

  lemma {:induction false} FullToTheEnd(s: State, order: seq<string>, resource: string, name: string)
    requires Inv(s.durable) && Full(s.durable, name)
    ensures Full(ReconsiderAll(s, order, resource).durable, name)
    decreases |order|
  {
    hide Inv, Full, Reconsider, Crossed;
    if order != [] {
      FullStays(s, order[0], name);
      ReconsiderKeepsInv(s, order[0]);
      FullToTheEnd(Reconsider(s, order[0]), order[1..], resource, name);
      FullToTheEnd(s, order[1..], resource, name);
    }
  }

  /** After a release that does not raise, a waiting grant of the resource waits only
      because its own resource is full or being released. */
  lemma {:induction false} NoGrantLeftBehind(s: State, order: seq<string>, resource: string, request: string)
    requires Inv(s.durable) && !ReconcileRaises(s, order, resource) && request in order
    ensures var s' := ReconsiderAll(s, order, resource);
            request in s'.grants && s'.grants[request].resource == resource && request in s'.durable.demands ==>
              Full(s'.durable, s'.durable.demands[request].resource)
    decreases |order|
  {
    hide Inv, Full, Reconsider, Crossed;
    var first, rest := order[0], order[1..];
    ReconsiderAllShrinks(s, order, resource);
    if first in s.grants && s.grants[first].resource == resource {
      ReconsiderKeepsInv(s, first);
      var next := Reconsider(s, first);
      ReconsiderAllShrinks(next, rest, resource);
      if request == first {
        WaitsOnlyIfFull(s, first);
        if request in next.grants && request in next.durable.demands {
          FullToTheEnd(next, rest, resource, next.durable.demands[request].resource);
        }
      } else {
        NoGrantLeftBehind(next, rest, resource, request);
      }
    } else if request in rest {
      NoGrantLeftBehind(s, rest, resource, request);
    }
  }

  // --------------------------------------------------------------- held releases

  /** The one step that can break a rebuild: a preemption commit displacing a
      reservation whose release is still outstanding. */
  lemma SwapKeepsReleasesHeld(d: Durable, demand: Demand, lease: Lease, k: ReservationId, at: int)
    requires Linked(d) && ReleasesHeld(d) && demand.request in d.demands && d.demands[demand.request] == demand
    requires k in d.reservations && k.resource == demand.resource
    ensures ReleasesHeld(Swap(d, demand, lease, d.reservations[k], at)) <==> k !in d.releases
  {
    SwapsOneOwner(d, demand, lease, k, at);
    hide Linked, Active, Swap;
  }

  /** Releases that were never refused by the backend are outstanding only while
      no backend is up, so no callback can displace their reservations. */
  ghost predicate Orderly(ops: seq<Op>) {
    forall i :: 0 <= i < |ops| ==> !(ops[i].DoRelease? && ops[i].fate == BackendRaises)
  }

  /** The backend is gone after a crash, a death inside a release, or a rebuild
      that did not finish; it can call back only once rebuilt. */
  function UpAfter(up: bool, d: Durable, op: Op): bool {
    match op
    case Crash => false
    case Rebuild(_, dies) => !dies && ValidRebuild(d)
    case DoRelease(_, _, fate, _) => up && !fate.Dies?
    case _ => up
  }

  ghost predicate Run(states: seq<State>, ups: seq<bool>, ops: seq<Op>) {
    && |states| == |ops| + 1 == |ups|
    && Inv(states[0].durable) && states[0].durable.releases == map[] && !ups[0] && states[0] == Cleared(states[0].durable)
    && forall i {:trigger ops[i]} :: 0 <= i < |ops| ==>
         && Next(states[i], ops[i], states[i + 1]) && ups[i + 1] == UpAfter(ups[i], states[i].durable, ops[i])
         && (ups[i] || ops[i].Crash? || ops[i].Rebuild?)
  }

  lemma {:induction false} ReachableInv(states: seq<State>, ups: seq<bool>, ops: seq<Op>, i: nat)
    requires Run(states, ups, ops) && i < |states|
    ensures Inv(states[i].durable)
  {
    hide Inv, Next, UpAfter, Cleared;
    if i > 0 {
      ReachableInv(states, ups, ops, i - 1);
      assert Next(states[i - 1], ops[i - 1], states[i]);
      hide Run;
      NextKeepsInv(states[i - 1], ops[i - 1], states[i]);
    }
  }

  /** At every point of every run, orderly or not, a rebuild is accepted if and
      only if every outstanding release still has its reservation. */
  lemma ValidRebuildExact(states: seq<State>, ups: seq<bool>, ops: seq<Op>, i: nat)
    requires Run(states, ups, ops) && i < |states|
    ensures ValidRebuild(states[i].durable) <==> ReleasesHeld(states[i].durable)
  {
    ReachableInv(states, ups, ops, i);
    hide Run, Inv, ValidRebuild, ReleasesHeld;
    ValidRebuildOf(states[i].durable);
  }

  lemma {:induction false} ReconsiderAllKeepsReleases(s: State, order: seq<string>, resource: string)
    ensures ReconsiderAll(s, order, resource).durable.releases == s.durable.releases
    decreases |order|
  {
    if order != [] {
      ReconsiderAllKeepsReleases(Reconsider(s, order[0]), order[1..], resource);
      ReconsiderAllKeepsReleases(s, order[1..], resource);
    }
  }

  /** While a backend is up, nothing is left half released. */
  lemma LiveMeansNoReleases(s: State, op: Op, s': State, up: bool)
    requires Inv(s.durable) && Next(s, op, s') && ReleasesHeld(s.durable)
    requires (up ==> s.durable.releases == map[]) && (up || op.Crash? || op.Rebuild?)
    requires !(op.DoRelease? && op.fate == BackendRaises)
    ensures ReleasesHeld(s'.durable)
    ensures UpAfter(up, s.durable, op) ==> s'.durable.releases == map[]
  {
    hide Inv, ReconsiderAll;
    if op.DoRelease? && op.fate.Completes? {
      var k := op.reservation;
      var freed := s.(durable := Finalize(IntendRelease(s.durable, k, op.at), {k}), leases := s.leases - {k});
      ReconsiderAllKeepsReleases(freed, op.order, k.resource);
      assert freed.durable.releases == map[] || k !in s.durable.reservations || k !in s.leases;
    }
  }

  lemma {:induction false} ReleasesHeldThroughout(states: seq<State>, ups: seq<bool>, ops: seq<Op>, i: nat)
    requires Run(states, ups, ops) && Orderly(ops) && i < |states|
    ensures ReleasesHeld(states[i].durable)
    ensures ups[i] ==> states[i].durable.releases == map[]
  {
    hide Inv, ValidRebuild, UpAfter;
    if i > 0 {
      hide ReleasesHeld;
      ReleasesHeldThroughout(states, ups, ops, i - 1);
      ReachableInv(states, ups, ops, i - 1);
      hide Next;
      assert Next(states[i - 1], ops[i - 1], states[i]);
      LiveMeansNoReleases(states[i - 1], ops[i - 1], states[i], ups[i - 1]);
    }
  }

  /** In every orderly run a rebuild is accepted at every crash point. */
  lemma RebuildAccepted(states: seq<State>, ups: seq<bool>, ops: seq<Op>, i: nat)
    requires Run(states, ups, ops) && Orderly(ops) && i < |states|
    ensures ValidRebuild(states[i].durable)
  {
    ReachableInv(states, ups, ops, i);
    ReleasesHeldThroughout(states, ups, ops, i);
    hide Run, Inv, ValidRebuild, ReleasesHeld, Orderly;
    ValidRebuildOf(states[i].durable);
  }

  /** The rebuild itself leaves nothing half released. */
  lemma RebuildClearsReleases(s: State, done: set<ReservationId>, s': State)
    requires Rebuilds(s, done, false, s') && ValidRebuild(s.durable)
    ensures s'.durable.releases == map[] && s'.leases == map[] && s'.grants == map[] && s'.evictions == map[]
    ensures s'.durable.reservations.Keys == s.durable.reservations.Keys - s.durable.releases.Keys
    ensures s'.durable.demands == s.durable.demands && s'.durable.results == s.durable.results
  {
    hide ValidRebuild;
  }

  // ------------------------------------------------------------------ the handshake

  /** Neither callback of this pair has arrived yet. */
  ghost predicate FreshPair(s: State, winner: string, lease: Lease, e: Eviction) {
    Inv(s.durable) && FreshHandshake(s, winner, e)
  }

  ghost predicate FreshHandshake(s: State, winner: string, e: Eviction) {
    && winner != "" && e.winner == Some(winner)
    && winner in s.durable.demands && winner !in s.grants && winner !in s.evictions
    && Holding(s.durable, e.request) != {}
    && Owner(s.durable, e.request).resource == e.resource == s.durable.demands[winner].resource
  }

  ghost function AcquiredFirst(s: State, winner: string, lease: Lease, e: Eviction): State {
    Evicted(Acquired(s, winner, lease), e)
  }

  ghost function PreemptedFirst(s: State, winner: string, lease: Lease, e: Eviction): State {
    Acquired(Evicted(s, e), winner, lease)
  }

  lemma OwnerIsUnique(d: Durable, request: string, k: ReservationId)
    requires Linked(d) && k in d.reservations && k.request == request
    ensures k in Holding(d, request) && Owner(d, request) == k
  {
  }

  /** Preempted first, the pair always commits the preemption. */
  lemma PreemptedFirstSwaps(s: State, winner: string, lease: Lease, e: Eviction)
    requires FreshPair(s, winner, lease, e)
    ensures PreemptedFirst(s, winner, lease, e) ==
              Swapped(s.(grants := s.grants[winner := lease], evictions := s.evictions[winner := e]), winner, Owner(s.durable, e.request))
  {
    DemandNamed(s.durable, winner);
    NewOwner(s.durable, s.durable.demands[winner]);
    hide Inv, Swapped;
  }

  /** Acquired first, it does so when the grant had to wait. */
  lemma AcquiredFirstWaits(s: State, winner: string, lease: Lease, e: Eviction)
    requires FreshPair(s, winner, lease, e) && !RoomFor(s.durable, s.durable.demands[winner].resource)
    ensures AcquiredFirst(s, winner, lease, e) ==
              Swapped(s.(grants := s.grants[winner := lease], evictions := s.evictions[winner := e]), winner, Owner(s.durable, e.request))
  {
    DemandNamed(s.durable, winner);
    NewOwner(s.durable, s.durable.demands[winner]);
    hide Inv, Swapped, RoomFor;
  }

  /** Otherwise both requests end up holding the resource. */
  lemma AcquiredFirstGrants(s: State, winner: string, lease: Lease, e: Eviction)
    requires FreshPair(s, winner, lease, e) && RoomFor(s.durable, s.durable.demands[winner].resource)
    ensures Owner(s.durable, e.request) in AcquiredFirst(s, winner, lease, e).durable.reservations
  {
    DemandNamed(s.durable, winner);
    var demand, k := s.durable.demands[winner], Owner(s.durable, e.request);
    NewOwner(s.durable, demand);
    GrantLinked(s.durable, demand, lease);
    var s1 := Acquired(s, winner, lease);
    assert s1.durable == Grant(s.durable, demand, lease) && winner !in s1.grants;
    assert k in s1.durable.reservations;
    OwnerIsUnique(s1.durable, e.request, k);
    hide Inv, RoomFor;
  }

  /** The two callbacks of a preemption may arrive in either order with the same
      durable outcome exactly when the preempting request could not have been
      granted outright: the resource is full, or a release is outstanding. */
  lemma HandshakeCommutes(s: State, winner: string, lease: Lease, e: Eviction)
    requires FreshPair(s, winner, lease, e)
    ensures AcquiredFirst(s, winner, lease, e).durable == PreemptedFirst(s, winner, lease, e).durable
            <==> !RoomFor(s.durable, s.durable.demands[winner].resource)
  {
    PreemptedFirstSwaps(s, winner, lease, e);
    DemandNamed(s.durable, winner);
    NewOwner(s.durable, s.durable.demands[winner]);
    if RoomFor(s.durable, s.durable.demands[winner].resource) {
      AcquiredFirstGrants(s, winner, lease, e);
      assert Owner(s.durable, e.request) !in PreemptedFirst(s, winner, lease, e).durable.reservations;
    } else {
      AcquiredFirstWaits(s, winner, lease, e);
    }
    hide Inv, RoomFor, AcquiredFirst, PreemptedFirst;
  }

  /** At every point of every run. */
  lemma HandshakeConfluence(states: seq<State>, ups: seq<bool>, ops: seq<Op>, i: nat, winner: string, lease: Lease, e: Eviction)
    requires Run(states, ups, ops) && i < |states| && FreshHandshake(states[i], winner, e)
    ensures var s := states[i];
            AcquiredFirst(s, winner, lease, e).durable == PreemptedFirst(s, winner, lease, e).durable
            <==> !RoomFor(s.durable, s.durable.demands[winner].resource)
  {
    ReachableInv(states, ups, ops, i);
    hide Run, Inv, RoomFor, AcquiredFirst, PreemptedFirst;
    HandshakeCommutes(states[i], winner, lease, e);
  }

  /** A release the backend refused stays outstanding; if its owner is then
      preempted, the next rebuild refuses to start. */
  lemma PreemptedWhileReleasing(s: State, winner: string, lease: Lease, e: Eviction)
    requires FreshPair(s, winner, lease, e) && Owner(s.durable, e.request) in s.durable.releases
    ensures !ValidRebuild(AcquiredFirst(s, winner, lease, e).durable)
    ensures !ValidRebuild(PreemptedFirst(s, winner, lease, e).durable)
  {
    var k := Owner(s.durable, e.request);
    assert s.durable.releases[k].resource == k.resource;
    assert Releasing(s.durable, k.resource);
    HandshakeCommutes(s, winner, lease, e);
    PreemptedFirstSwaps(s, winner, lease, e);
    DemandNamed(s.durable, winner);
    NewOwner(s.durable, s.durable.demands[winner]);
    var d := PreemptedFirst(s, winner, lease, e).durable;
    assert k in d.releases && k !in d.reservations;
    hide Inv, AcquiredFirst, PreemptedFirst, Linked;
  }

  function Relinked(d: Durable, k: ReservationId, held: Lease): State {
    Cleared(d).(leases := map[k := held])
  }

  /** A reservation of a rebuilt backend, a refused release of it, and the fresh
      pair of callbacks that hands its place to `winner`. */
  function RefusalOps(k: ReservationId, held: Lease, at: int, winner: string, lease: Lease, e: Eviction): seq<Op> {
    [Rebuild({}, false), OnAcquired(k.request, held), DoRelease(k, at, BackendRaises, []), OnPreempted(e), OnAcquired(winner, lease)]
  }

  ghost function RefusalStates(d: Durable, k: ReservationId, held: Lease, at: int, winner: string, lease: Lease, e: Eviction): seq<State> {
    var refused := Relinked(d, k, held).(durable := IntendRelease(d, k, at));
    [Cleared(d), Cleared(d), Relinked(d, k, held), refused, Evicted(refused, e), PreemptedFirst(refused, winner, lease, e)]
  }

  lemma RefusalStarts(d: Durable, k: ReservationId, held: Lease, at: int)
    requires Inv(d) && ValidRebuild(d) && d.releases == map[] && k in d.reservations
    ensures Rebuilds(Cleared(d), {}, false, Cleared(d))
    ensures Acquired(Cleared(d), k.request, held) == Relinked(d, k, held)
    ensures Release(Relinked(d, k, held), k, at, BackendRaises, []) == Relinked(d, k, held).(durable := IntendRelease(d, k, at))
  {
    assert Finalize(d, {}) == d;
    hide WithinCapacity, ValidRebuild;
    OwnerIsUnique(d, k.request, k);
  }

  /** From any records without an outstanding release, a run that ends in records
      a rebuild refuses, as soon as some demand waits for a held resource. */
  lemma RefusedReleaseStrandsRebuild(d: Durable, k: ReservationId, held: Lease, at: int, winner: string, lease: Lease, e: Eviction)
    requires Inv(d) && d.releases == map[] && k in d.reservations && winner != "" && winner in d.demands
    requires d.demands[winner].resource == k.resource && e == Eviction(k.request, k.resource, at, Some(winner))
    ensures Run(RefusalStates(d, k, held, at, winner, lease, e), [false, true, true, true, true, true],
                RefusalOps(k, held, at, winner, lease, e))
    ensures !ValidRebuild(RefusalStates(d, k, held, at, winner, lease, e)[5].durable)
  {
    ValidRebuildOf(d);
    hide ValidRebuild, Relinked, IntendRelease;
    RefusalEnds(d, k, held, at, winner, lease, e);
    RefusalSteps(d, k, held, at, winner, lease, e);
  }

  lemma RefusalSteps(d: Durable, k: ReservationId, held: Lease, at: int, winner: string, lease: Lease, e: Eviction)
    requires Inv(d) && ValidRebuild(d) && d.releases == map[] && k in d.reservations
    ensures Run(RefusalStates(d, k, held, at, winner, lease, e), [false, true, true, true, true, true],
                RefusalOps(k, held, at, winner, lease, e))
  {
    assert Cleared(d).durable == d;
    RefusalNext(d, k, held, at, winner, lease, e);
    hide Inv, ValidRebuild, Next, Relinked, IntendRelease, Evicted, PreemptedFirst, Run;
    FiveSteps(RefusalStates(d, k, held, at, winner, lease, e), [false, true, true, true, true, true],
              RefusalOps(k, held, at, winner, lease, e));
  }

  lemma FiveSteps(states: seq<State>, ups: seq<bool>, ops: seq<Op>)
    requires |ops| == 5 && |states| == |ups| == 6
    requires Inv(states[0].durable) && ValidRebuild(states[0].durable) && states[0].durable.releases == map[]
    requires states[0] == Cleared(states[0].durable) && ups == [false, true, true, true, true, true]
    requires ops[0].Rebuild? && !ops[0].dies && ops[2].DoRelease? && !ops[2].fate.Dies?
    requires ops[1].OnAcquired? && ops[3].OnPreempted? && ops[4].OnAcquired?
    requires Next(states[0], ops[0], states[1]) && Next(states[1], ops[1], states[2]) && Next(states[2], ops[2], states[3])
    requires Next(states[3], ops[3], states[4]) && Next(states[4], ops[4], states[5])
    ensures Run(states, ups, ops)
  {
    hide Inv, ValidRebuild, Next, Cleared;
    forall i {:trigger ops[i]} | 0 <= i < |ops|
      ensures Next(states[i], ops[i], states[i + 1]) && ups[i + 1] == UpAfter(ups[i], states[i].durable, ops[i])
    {
      assert i == 0 || i == 1 || i == 2 || i == 3 || i == 4;
    }
  }

  lemma RefusalNext(d: Durable, k: ReservationId, held: Lease, at: int, winner: string, lease: Lease, e: Eviction)
    requires Inv(d) && ValidRebuild(d) && d.releases == map[] && k in d.reservations
    ensures var states, ops := RefusalStates(d, k, held, at, winner, lease, e), RefusalOps(k, held, at, winner, lease, e);
            && Next(states[0], ops[0], states[1]) && Next(states[1], ops[1], states[2]) && Next(states[2], ops[2], states[3])
            && Next(states[3], ops[3], states[4]) && Next(states[4], ops[4], states[5])
  {
    RefusalStarts(d, k, held, at);
    hide Inv, ValidRebuild, Acquired, Evicted, Release, Rebuilds, Relinked, IntendRelease;
  }

  lemma RefusalEnds(d: Durable, k: ReservationId, held: Lease, at: int, winner: string, lease: Lease, e: Eviction)
    requires Inv(d) && d.releases == map[] && k in d.reservations && winner != "" && winner in d.demands
    requires d.demands[winner].resource == k.resource && e == Eviction(k.request, k.resource, at, Some(winner))
    ensures !ValidRebuild(PreemptedFirst(Relinked(d, k, held).(durable := IntendRelease(d, k, at)), winner, lease, e).durable)
  {
    var refused := Relinked(d, k, held).(durable := IntendRelease(d, k, at));
    IntendKeepsInv(d, k, at);
    OwnerIsUnique(refused.durable, k.request, k);
    hide Inv, PreemptedFirst, ValidRebuild;
    PreemptedWhileReleasing(refused, winner, lease, e);
  }

  lemma IntendKeepsInv(d: Durable, k: ReservationId, at: int)
    requires Inv(d) && k in d.reservations
    ensures Inv(IntendRelease(d, k, at)) && Linked(IntendRelease(d, k, at))
  {
    assert forall name :: Active(IntendRelease(d, k, at), name) == Active(d, name);
  }
}
