/**
 What each boundary transaction does to the store: publish, claim, consume and
 complete. A transaction that raises leaves the store as it was.
 */
module BoundaryProtocol {
  import opened Outcomes
  import opened BoundaryModel

  datatype Fault =
    | MissingEvent
    | EventCorrelationMismatch
    | EventAfterMessage
    | CausalCycle
    | CorrelationMismatch
    | ParentAfterMessage
    | DescendantConflict
    | IdentityConflict
    | LostTrigger
    | InvalidArgument
    | UnknownRecord
    | InconsistentRecord
    | StaleClaim
    | UnsupportedContract
    | NotTerminal

  // ---------------------------------------------------------------- causation

  /** Why an event cause is unacceptable for `m`, if it is. */
  function EventFault(s: Store, m: Message, event: string): Option<Fault> {
    if event !in s.events then Some(MissingEvent)
    else if s.events[event].correlation != m.correlation then Some(EventCorrelationMismatch)
    else if s.events[event].occurredAt > m.producedAt then Some(EventAfterMessage)
    else None
  }

  /** The ancestor walk of `m`, from `cursor` on, having seen `visited`. */
  function Walk(s: Store, m: Message, cursor: Option<string>, kind: CauseKind, visited: set<string>): Option<Fault>
    decreases s.messages.Keys - visited
  {
    if cursor.None? then None
    else if kind == FromEvent then EventFault(s, m, cursor.value)
    else if cursor.value in visited then Some(CausalCycle)
    else if cursor.value !in s.messages then None
    else
      var p := s.messages[cursor.value];
      if p.correlation != m.correlation then Some(CorrelationMismatch)
      else if p.producedAt > m.producedAt then Some(ParentAfterMessage)
      else
        assert cursor.value in s.messages.Keys - visited;
        assert cursor.value !in s.messages.Keys - (visited + {cursor.value});
        Walk(s, m, p.cause, p.kind, visited + {cursor.value})
  }

  function CausationFault(s: Store, m: Message): Option<Fault> {
    Walk(s, m, m.cause, m.kind, {m.id})
  }

  /** A durable child of `m` that a late publication of `m` would contradict. */
  predicate ContradictedBy(s: Store, m: Message, k: DeliveryId)
    requires k in s.deliveries
  {
    var d := s.deliveries[k];
    && d.messageId in s.messages
    && s.messages[d.messageId].Parent() == Some(m.id)
    && (|| s.messages[d.messageId].correlation != m.correlation
        || s.messages[d.messageId].producedAt < m.producedAt
        || d.status == Consumed)
  }

  predicate DescendantsAgree(s: Store, m: Message) {
    forall k :: k in s.deliveries ==> !ContradictedBy(s, m, k)
  }

  datatype Readiness = Ready | Blocked | Broken

  /** Whether the typed predecessor's certificate vouches for its effect. */
  function CertificateReadiness(s: Store, predecessor: Message, effect: EffectId): Readiness {
    if effect !in s.certificates then Blocked
    else
      var proof := s.certificates[effect];
      var key := EntityKey(proof.entityType, proof.entityId);
      if proof.effect != effect || proof.messageId != predecessor.id || proof.correlation != predecessor.correlation
      then Broken
      else if key !in s.entities || s.entities[key].version < proof.entityVersion || s.entities[key].state != proof.terminalState
      then Broken
      else Ready
  }

  /** Whether `m` may be consumed as far as its causal predecessor goes. */
  function PredecessorReadiness(s: Store, m: Message): Readiness {
    if CausationFault(s, m).Some? then Broken
    else if m.kind == FromEvent then Ready
    else if m.cause.None? || m.cause.value !in s.messages then
      if m.kind == Opaque then Ready else Blocked
    else
      var predecessor := s.messages[m.cause.value];
      var k := DeliveryOf(predecessor);
      if k !in s.deliveries || s.deliveries[k].status != Consumed then Blocked
      else if k !in s.consumptions then Broken
      else
        var effect := s.consumptions[k].effect;
        if effect in s.commands then Blocked
        else if m.kind == FromBoundary && s.CertifiedContract(predecessor.contract) then
          CertificateReadiness(s, predecessor, effect)
        else Ready
  }

  // ------------------------------------------------------------------ publish

  /** The jobs after charging a new publication to a recovery job, if any. */
  function ChargePublication(s: Store, m: Message, job: Option<string>): Result<map<string, Job>, Fault> {
    if job.None? then Ok(s.jobs)
    else if job.value !in s.jobs || s.jobs[job.value].activeTrigger.None? then Err(LostTrigger)
    else if m.id in s.jobs[job.value].publications then Err(InconsistentRecord)
    else
      var j := s.jobs[job.value];
      Ok(s.jobs[job.value := j.(publications := j.publications + [m.id])])
  }

  /** Store after `publish`, with the delivery it returns. */
  function Publish(s: Store, m: Message, job: Option<string>): Result<(Store, Delivery), Fault> {
    var k := DeliveryOf(m);
    if CausationFault(s, m).Some? then Err(CausationFault(s, m).value)
    else if m.id in s.messages && s.messages[m.id] != m then Err(IdentityConflict)
    else if m.id !in s.messages && !DescendantsAgree(s, m) then Err(DescendantConflict)
    else if m.id !in s.messages && ChargePublication(s, m, job).Err? then Err(ChargePublication(s, m, job).error)
    else
      var s1 := if m.id in s.messages then s
                else s.(messages := s.messages[m.id := m], jobs := ChargePublication(s, m, job).value);
      if k in s1.deliveries then
        var d := s1.deliveries[k];
        if d.messageId != m.id || d.destination != m.destination || d.contract != m.contract
        then Err(IdentityConflict)
        else Ok((s1, d))
      else Ok((s1.(deliveries := s1.deliveries[k := PendingDelivery(m)]), PendingDelivery(m)))
  }

  // -------------------------------------------------------------------- claim

  datatype Filter = Filter(
    destination: Option<string>,
    contracts: Option<set<Contract>>,
    messageId: Option<string>,
    correlation: Option<string>)

  const Unfiltered: Filter := Filter(None, None, None, None)

  predicate Blank(text: string) {
    forall c :: c in text ==> c in [' ', '\t', '\n', '\r']
  }

  predicate ClaimArgumentsValid(owner: string, duration: int, f: Filter) {
    && !Blank(owner)
    && f.destination != Some("") && f.messageId != Some("") && f.correlation != Some("")
    && duration > 0
    && (f.contracts.Some? ==> forall c :: c in f.contracts.value ==> c.name != "" && c.version > 0)
  }

  /** The delivery passes the record-level filters and is not held or done. */
  predicate Open(d: Delivery, f: Filter, now: Instant) {
    && (f.messageId.Some? ==> d.messageId == f.messageId.value)
    && (f.destination.Some? ==> d.destination == f.destination.value)
    && (f.contracts.Some? ==> d.contract in f.contracts.value)
    && d.status != Consumed
    && !(d.status == Claimed && d.expiresAt.Some? && d.expiresAt.value > now)
  }

  /** How the claim loop classifies one delivery; None means it is skipped. */
  function Consider(s: Store, k: DeliveryId, f: Filter, now: Instant): Option<Readiness>
    requires k in s.deliveries
  {
    var d := s.deliveries[k];
    if !Open(d, f, now) then None
    else if d.messageId !in s.messages then Some(Broken)
    else if f.correlation.Some? && s.messages[d.messageId].correlation != f.correlation.value then None
    else Some(PredecessorReadiness(s, s.messages[d.messageId]))
  }

  /** Logical production time of the message behind a delivery. */
  function ProducedAt(s: Store, k: DeliveryId): Instant
    requires k in s.deliveries && s.deliveries[k].messageId in s.messages
  {
    s.messages[s.deliveries[k].messageId].producedAt
  }

  ghost predicate Candidate(s: Store, k: DeliveryId, f: Filter, now: Instant) {
    k in s.deliveries && Consider(s, k, f, now) == Some(Ready)
  }

  /** `k` is first among the candidates by production time, then identity. */
  ghost predicate NextClaim(s: Store, k: DeliveryId, f: Filter, now: Instant, uuid: DeliveryId -> nat) {
    && Candidate(s, k, f, now)
    && forall j :: Candidate(s, j, f, now) ==>
         || ProducedAt(s, k) < ProducedAt(s, j)
         || (ProducedAt(s, k) == ProducedAt(s, j) && uuid(k) <= uuid(j))
  }

  ghost predicate ClaimRaises(s: Store, f: Filter, now: Instant) {
    exists k :: k in s.deliveries && Consider(s, k, f, now) == Some(Broken)
  }

  /** The delivery `d` under a fresh lease: the fencing epoch goes up by one. */
  function Reclaimed(d: Delivery, owner: string, now: Instant, duration: int): Delivery {
    d.(status := Claimed, attempts := d.attempts + 1, owner := Some(owner), epoch := d.epoch + 1,
       claimedAt := Some(now), expiresAt := Some(now + duration), consumedAt := None, effect := None)
  }

  function LeaseOn(k: DeliveryId, d: Delivery, owner: string, expiresAt: Instant): Lease {
    Lease(k, d.messageId, owner, d.epoch, expiresAt)
  }

  datatype ClaimOutcome = Leased(lease: Lease) | Nothing | Rejected(fault: Fault)

  /** The store and outcome `claim_next` may produce. */
  ghost predicate Claims(s: Store, owner: string, now: Instant, duration: int, f: Filter,
                         uuid: DeliveryId -> nat, out: ClaimOutcome, s': Store)
  {
    if !ClaimArgumentsValid(owner, duration, f) || ClaimRaises(s, f, now) then
      out.Rejected? && s' == s
    else if forall k :: !Candidate(s, k, f, now) then
      out.Nothing? && s' == s
    else
      && out.Leased?
      && NextClaim(s, out.lease.delivery, f, now, uuid)
      && var d := Reclaimed(s.deliveries[out.lease.delivery], owner, now, duration);
         && s' == s.(deliveries := s.deliveries[out.lease.delivery := d])
         && out.lease == LeaseOn(out.lease.delivery, d, owner, now + duration)
  }

  // ------------------------------------------------------------------ consume

  /** A handler registration: the Command to stage and who owns it. */
  datatype Intent = Intent(name: string, entityType: string, entityId: string, owner: string)

  datatype HandlerKey = HandlerKey(source: Option<string>, destination: string, contract: Contract)

  type Registry = map<HandlerKey, Intent>

  /** Exact producer registrations win; a destination-only one serves only
      while no producer-qualified registration exists for the contract. */
  function Resolve(r: Registry, m: Message): Option<Intent> {
    var exact := HandlerKey(Some(m.source), m.destination, m.contract);
    var general := HandlerKey(None, m.destination, m.contract);
    if exact in r then Some(r[exact])
    else if exists key :: key in r && key.source.Some? && key.destination == m.destination && key.contract == m.contract
    then None
    else if general in r then Some(r[general])
    else None
  }

  function EffectOf(m: Message, i: Intent): EffectId {
    EffectId(m.id, i.name, i.entityType, i.entityId)
  }

  function CommandOf(m: Message, i: Intent): Command {
    Command(EffectOf(m, i), i.name, i.entityType, i.entityId, m.producedAt, m.id, m.correlation, i.owner)
  }

  /** Why this lease may not acknowledge the delivery at `now`, if so. */
  predicate HoldsClaim(d: Delivery, lease: Lease, now: Instant) {
    && d.status == Claimed
    && d.messageId == lease.messageId && d.owner == Some(lease.owner) && d.epoch == lease.epoch
    && d.claimedAt.Some? && d.claimedAt.value <= now
    && d.expiresAt.Some? && now < d.expiresAt.value
  }

  /** The acknowledgement transaction for a handler that stages `intent`. */
  function Acknowledge(s: Store, k: DeliveryId, m: Message, intent: Intent, now: Instant): Result<(Store, Consumption), Fault>
    requires k in s.deliveries
  {
    var d := s.deliveries[k];
    var effect := EffectOf(m, intent);
    var command := CommandOf(m, intent);
    var consumption := ConsumptionFor(d, effect, now);
    if effect in s.commands && s.commands[effect] != command then Err(IdentityConflict)
    else if k in s.consumptions && s.consumptions[k] != consumption then Err(IdentityConflict)
    else Ok((s.(commands := s.commands[effect := command],
                consumptions := s.consumptions[k := consumption],
                deliveries := s.deliveries[k := d.(status := Consumed, consumedAt := Some(now), effect := Some(effect))]),
             consumption))
  }

  /** Store after `consume`, with the acknowledgement it returns. */
  function Consume(s: Store, lease: Lease, r: Registry, now: Instant): Result<(Store, Consumption), Fault> {
    var k := lease.delivery;
    if k !in s.deliveries then Err(UnknownRecord)
    else if s.deliveries[k].status == Consumed then
      if k in s.consumptions then Ok((s, s.consumptions[k])) else Err(InconsistentRecord)
    else if !HoldsClaim(s.deliveries[k], lease, now) then Err(StaleClaim)
    else if s.deliveries[k].messageId !in s.messages then Err(InconsistentRecord)
    else
      var m := s.messages[s.deliveries[k].messageId];
      match PredecessorReadiness(s, m)
      case Broken => Err(InconsistentRecord)
      case Blocked => Err(StaleClaim)
      case Ready =>
        match Resolve(r, m)
        case None => Err(UnsupportedContract)
        case Some(intent) => Acknowledge(s, k, m, intent, now)
  }

  // ----------------------------------------------------------------- complete

  /** Deliveries that acknowledge exactly this effect for this message. */
  function AcceptedReceipts(s: Store, messageId: string, effect: EffectId): set<DeliveryId> {
    set k | k in s.deliveries && s.deliveries[k].messageId == messageId
         && k in s.consumptions && s.consumptions[k].effect == effect
         && s.deliveries[k].effect == Some(effect) && s.deliveries[k].status == Consumed
  }

  /** Invoicing counts only with a consistent open receivable beside it. */
  predicate ReceivableConsistent(s: Store, order: string, sale: Entity) {
    var key := ReceivableOf(order);
    && key in s.entities && s.entities[key].state == "open"
    && s.entities[key].Get("order_id") == Some(order)
    && s.entities[key].Get("amount") == sale.Get("amount")
    && s.entities[key].Get("currency") == sale.Get("currency")
  }

  function CertificateFor(m: Message, effect: EffectId, c: Command, e: Entity, at: Instant): Certificate {
    Certificate(effect, m.id, m.correlation, c.entityType, c.entityId, e.state, e.version, at)
  }

  /** The checks `complete` makes on a pending Command before certifying it. */
  predicate Certifiable(s: Store, effect: EffectId)
    requires effect in s.commands
  {
    var c := s.commands[effect];
    && s.CertifiedIntent(c.name)
    && var t := s.terminals[c.name];
       && c.entityType == t.entityType
       && c.cause != "" && c.correlation != ""
       && |AcceptedReceipts(s, c.cause, effect)| == 1
       && c.cause in s.messages
       && var m := s.messages[c.cause];
          && m.correlation == c.correlation
          && m.contract == t.contract && m.source == t.source && m.destination == t.destination
          && m.Field(t.payloadField) == c.entityId
          && EntityKey(c.entityType, c.entityId) in s.entities
          && var e := s.entities[EntityKey(c.entityType, c.entityId)];
             && e.state == t.state
             && (t.needsReceivable ==> ReceivableConsistent(s, c.entityId, e))
  }

  /** Store after `complete`, with the certificate it returns. */
  function Complete(s: Store, effect: EffectId, at: Instant): Result<(Store, Certificate), Fault> {
    if effect in s.certificates then
      if effect in s.commands then Err(InconsistentRecord) else Ok((s, s.certificates[effect]))
    else if effect !in s.commands then Err(UnknownRecord)
    else if !Certifiable(s, effect) then Err(NotTerminal)
    else
      var c := s.commands[effect];
      var certificate := CertificateFor(s.messages[c.cause], effect, c, s.entities[EntityKey(c.entityType, c.entityId)], at);
      Ok((s.(certificates := s.certificates[effect := certificate], commands := s.commands - {effect}), certificate))
  }

  /** An uncertified intent retires its Command without leaving a certificate. */
  function Retire(s: Store, effect: EffectId): Store {
    if effect in s.commands && !s.CertifiedIntent(s.commands[effect].name)
    then s.(commands := s.commands - {effect})
    else s
  }

  // -------------------------------------------------------------- environment

  /** Committed events are never replaced. */
  function RecordEvent(s: Store, id: string, e: Event): Store {
    if id in s.events then s else s.(events := s.events[id := e])
  }

  /** Entity versions never decrease, and one version has one content. */
  function SaveEntity(s: Store, key: EntityKey, e: Entity): Store {
    if key in s.entities && e.version <= s.entities[key].version then s
    else s.(entities := s.entities[key := e])
  }

  // --------------------------------------------------------------------- runs

  datatype Op =
    | DoPublish(message: Message, job: Option<string>)
    | DoClaim(owner: string, now: Instant, duration: int, filter: Filter, uuid: DeliveryId -> nat)
    | DoConsume(lease: Lease, registry: Registry, now: Instant)
    | DoComplete(effect: EffectId, at: Instant)
    | DoRetire(effect: EffectId)
    | DoRecordEvent(id: string, event: Event)
    | DoSaveEntity(key: EntityKey, entity: Entity)
    | DoSaveJob(jobId: string, state: Job)

  function After<T>(s: Store, r: Result<(Store, T), Fault>): Store {
    if r.Ok? then r.value.0 else s
  }

  /** One committed transaction, of any worker, takes the store from s to s'. */
  ghost predicate Next(s: Store, op: Op, s': Store) {
    match op
    case DoPublish(m, job) => m.Valid() && s' == After(s, Publish(s, m, job))
    case DoClaim(owner, now, duration, f, uuid) =>
      exists out :: Claims(s, owner, now, duration, f, uuid, out, s')
    case DoConsume(lease, r, now) => s' == After(s, Consume(s, lease, r, now))
    case DoComplete(effect, at) => s' == After(s, Complete(s, effect, at))
    case DoRetire(effect) => s' == Retire(s, effect)
    case DoRecordEvent(id, e) => s' == RecordEvent(s, id, e)
    case DoSaveEntity(key, e) => s' == SaveEntity(s, key, e)
    case DoSaveJob(jobId, state) => s' == s.(jobs := s.jobs[jobId := state])
  }

  /** No boundary traffic yet; entities, events and jobs may already exist. */
  ghost predicate Initial(s: Store) {
    && s.terminals == CertifiedTerminals()
    && s.messages == map[] && s.deliveries == map[] && s.consumptions == map[] && s.commands == map[] && s.certificates == map[]
  }

  ghost predicate Run(states: seq<Store>, ops: seq<Op>) {
    && |states| == |ops| + 1
    && Initial(states[0])
    && forall i {:trigger ops[i]} :: 0 <= i < |ops| ==> Next(states[i], ops[i], states[i + 1])
  }
}
