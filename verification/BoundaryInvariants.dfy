/**
 What every reachable store satisfies, whichever workers ran, died or raced:
 fenced leases, one acknowledgement per delivery, causal closure of the
 consumed set, and one of Command or certificate per certified effect.
 */
module BoundaryInvariants {
  import opened Outcomes
  import opened BoundaryModel
  import opened BoundaryProtocol
  import opened BoundaryCausation

  // ------------------------------------------------------------------- fencing

  /** Messages and deliveries correspond one to one. */
  ghost predicate Paired(s: Store) {
    && (forall id :: id in s.messages ==> s.messages[id].id == id && DeliveryOf(s.messages[id]) in s.deliveries)
    && (forall k :: k in s.deliveries ==> k.messageId in s.messages && k == DeliveryOf(s.messages[k.messageId]))
  }

  ghost predicate DeliveryNamed(k: DeliveryId, d: Delivery) {
    d.id == k && d.messageId == k.messageId && d.destination == k.destination && d.contract == k.contract
  }

  /** A lease was taken: epoch counts the attempts and the window is not empty. */
  ghost predicate ClaimProvenance(d: Delivery) {
    && d.attempts >= 1 && d.epoch == d.attempts
    && d.owner.Some? && !Blank(d.owner.value)
    && d.claimedAt.Some? && d.expiresAt.Some? && d.claimedAt.value < d.expiresAt.value
  }

  /** A delivery and its receipt, status by status. */
  ghost predicate RecordSound(k: DeliveryId, d: Delivery, receipt: Option<Consumption>) {
    && DeliveryNamed(k, d)
    && match d.status
       case Pending => d == Delivery(k, k.messageId, k.destination, k.contract, Pending, 0, None, 0, None, None, None, None)
       case Claimed => ClaimProvenance(d) && d.consumedAt.None? && d.effect.None?
       case Consumed =>
         && ClaimProvenance(d)
         && d.consumedAt.Some? && d.claimedAt.value <= d.consumedAt.value < d.expiresAt.value
         && d.effect.Some?
         && receipt == Some(ConsumptionFor(d, d.effect.value, d.consumedAt.value))
  }

  function ReceiptFor(s: Store, k: DeliveryId): Option<Consumption> {
    if k in s.consumptions then Some(s.consumptions[k]) else None
  }

  ghost predicate DeliverySound(s: Store, k: DeliveryId)
    requires k in s.deliveries
  {
    RecordSound(k, s.deliveries[k], ReceiptFor(s, k))
  }

  ghost predicate Fenced(s: Store) {
    && (forall k :: k in s.deliveries ==> DeliverySound(s, k))
    && (forall k :: k in s.consumptions ==> k in s.deliveries && s.deliveries[k].status == Consumed)
  }

  // -------------------------------------------------------------------- effects

  /** The effect is the one its message's delivery was acknowledged with. */
  ghost predicate Acknowledged(s: Store, e: EffectId) {
    && e.messageId in s.messages
    && var k := DeliveryOf(s.messages[e.messageId]);
       k in s.deliveries && s.deliveries[k].status == Consumed && s.deliveries[k].effect == Some(e)
  }

  ghost predicate CommandSound(s: Store, e: EffectId)
    requires e in s.commands
  {
    var c := s.commands[e];
    && c.id == e && c.name == e.intent && c.entityType == e.entityType && c.entityId == e.entityId
    && c.cause == e.messageId
    && Acknowledged(s, e)
    && c.correlation == s.messages[e.messageId].correlation
  }

  ghost predicate CertificateSound(s: Store, e: EffectId)
    requires e in s.certificates
  {
    var proof := s.certificates[e];
    && s.CertifiedIntent(e.intent)
    && Acknowledged(s, e) && e !in s.commands
    && var t := s.terminals[e.intent];
       var m := s.messages[e.messageId];
       && proof.effect == e && proof.messageId == e.messageId && proof.correlation == m.correlation
       && m.contract == t.contract && m.Field(t.payloadField) == proof.entityId
       && proof.entityType == t.entityType && proof.terminalState == t.state
       && var key := EntityKey(proof.entityType, proof.entityId);
          && key in s.entities
          && s.entities[key].version >= proof.entityVersion
          && (s.entities[key].version == proof.entityVersion ==> s.entities[key].state == proof.terminalState)
  }

  /** An acknowledged certified effect is pending or certified. */
  ghost predicate EffectAccounted(s: Store, k: DeliveryId)
    requires k in s.deliveries
  {
    var d := s.deliveries[k];
    d.status == Consumed && d.effect.Some? ==>
      && d.effect.value.messageId == k.messageId
      && (s.CertifiedIntent(d.effect.value.intent) ==> d.effect.value in s.commands || d.effect.value in s.certificates)
  }

  ghost predicate EffectsSound(s: Store) {
    && (forall e :: e in s.commands ==> CommandSound(s, e))
    && (forall e :: e in s.certificates ==> CertificateSound(s, e))
    && (forall k :: k in s.deliveries ==> EffectAccounted(s, k))
  }

  // -------------------------------------------------------------------- closure

  predicate IsConsumed(s: Store, id: string) {
    && id in s.messages
    && DeliveryOf(s.messages[id]) in s.deliveries
    && s.deliveries[DeliveryOf(s.messages[id])].status == Consumed
  }

  /** The predecessor was consumed and its effect retired, with a certificate
      where the link is typed and the contract certified. */
  ghost predicate PredecessorApplied(s: Store, m: Message, parent: string) {
    && IsConsumed(s, parent)
    && var d := s.deliveries[DeliveryOf(s.messages[parent])];
       && d.effect.Some? && d.effect.value !in s.commands
       && (m.kind == FromBoundary && s.CertifiedContract(s.messages[parent].contract) ==> d.effect.value in s.certificates)
  }

  ghost predicate ClosedAt(s: Store, id: string)
    requires id in s.messages
  {
    var m := s.messages[id];
    IsConsumed(s, id) && m.Parent().Some? && (m.kind == FromBoundary || m.Parent().value in s.messages) ==>
      PredecessorApplied(s, m, m.Parent().value)
  }

  ghost predicate CausallyClosed(s: Store) {
    forall id :: id in s.messages ==> ClosedAt(s, id)
  }

  ghost predicate Inv(s: Store) {
    Paired(s) && Fenced(s) && CausationSound(s) && EffectsSound(s) && CausallyClosed(s)
  }

  // ------------------------------------------------------- evidence only grows

  ghost predicate DeliveryAdvances(s: Store, s': Store, k: DeliveryId)
    requires k in s.deliveries
  {
    && k in s'.deliveries
    && (s.deliveries[k].status == Consumed ==> s'.deliveries[k] == s.deliveries[k])
    && s.deliveries[k].epoch <= s'.deliveries[k].epoch
    && (s.deliveries[k].epoch == s'.deliveries[k].epoch ==>
          s'.deliveries[k] == s.deliveries[k] || s'.deliveries[k].status == Consumed)
  }

  ghost predicate EntityAdvances(s: Store, s': Store, key: EntityKey)
    requires key in s.entities
  {
    && key in s'.entities
    && s.entities[key].version <= s'.entities[key].version
    && (s.entities[key].version == s'.entities[key].version ==> s'.entities[key] == s.entities[key])
  }

  /** A retired Command stays retired. */
  ghost predicate StaysRetired(s: Store, s': Store, e: EffectId) {
    Acknowledged(s, e) && e !in s.commands ==> e !in s'.commands
  }

  /** Durable evidence of s is still there, unchanged, in s'. */
  ghost predicate Extends(s: Store, s': Store) {
    && s'.terminals == s.terminals
    && (forall id :: id in s.messages ==> id in s'.messages && s'.messages[id] == s.messages[id])
    && (forall k :: k in s.deliveries ==> DeliveryAdvances(s, s', k))
    && (forall k :: k in s.consumptions ==> k in s'.consumptions && s'.consumptions[k] == s.consumptions[k])
    && (forall e :: e in s.certificates ==> e in s'.certificates && s'.certificates[e] == s.certificates[e])
    && (forall id :: id in s.events ==> id in s'.events && s'.events[id] == s.events[id])
    && (forall key :: key in s.entities ==> EntityAdvances(s, s', key))
    && (forall e :: StaysRetired(s, s', e))
  }

  lemma AcknowledgedPersists(s: Store, s': Store, e: EffectId)
    requires Extends(s, s') && Acknowledged(s, e)
    ensures Acknowledged(s', e)
  {
    assert DeliveryAdvances(s, s', DeliveryOf(s.messages[e.messageId]));
  }

  lemma CommandPersists(s: Store, s': Store, e: EffectId)
    requires Extends(s, s') && e in s.commands && CommandSound(s, e)
    requires e in s'.commands && s'.commands[e] == s.commands[e]
    ensures CommandSound(s', e)
  {
    AcknowledgedPersists(s, s', e);
  }

  lemma CertificatePersists(s: Store, s': Store, e: EffectId)
    requires Extends(s, s') && e in s.certificates && CertificateSound(s, e)
    ensures CertificateSound(s', e)
  {
    AcknowledgedPersists(s, s', e);
    assert StaysRetired(s, s', e);
    assert EntityAdvances(s, s', EntityKey(s.certificates[e].entityType, s.certificates[e].entityId));
  }

  /** Applied predecessors stay applied while evidence only grows. */
  lemma AppliedPersists(s: Store, s': Store, m: Message, parent: string)
    requires Extends(s, s') && PredecessorApplied(s, m, parent)
    requires s.messages[parent].id == parent
    requires EffectAccounted(s, DeliveryOf(s.messages[parent]))
    ensures PredecessorApplied(s', m, parent)
  {
    var k := DeliveryOf(s.messages[parent]);
    assert DeliveryAdvances(s, s', k);
    assert StaysRetired(s, s', s.deliveries[k].effect.value);
  }

  /** Links stay sound while no late parent arrives and events are kept. */
  lemma LinkPersists(s: Store, s': Store, m: Message)
    requires LinkSound(s, m) && s'.messages == s.messages
    requires forall id :: id in s.events ==> id in s'.events && s'.events[id] == s.events[id]
    ensures LinkSound(s', m)
  {
  }

  lemma CausationPersists(s: Store, s': Store)
    requires CausationSound(s) && s'.messages == s.messages && Extends(s, s')
    ensures CausationSound(s')
  {
    forall id | id in s'.messages ensures LinkSound(s', s'.messages[id]) {
      LinkPersists(s, s', s.messages[id]);
    }
  }

  /** Effect records stay sound if what is new is sound and no certified
      Command disappears without its certificate. */
  lemma EffectsPersist(s: Store, s': Store)
    requires EffectsSound(s) && Extends(s, s')
    requires forall e :: e in s'.commands ==> (e in s.commands && s'.commands[e] == s.commands[e]) || CommandSound(s', e)
    requires forall e :: e in s'.certificates ==> e in s.certificates || CertificateSound(s', e)
    requires forall e :: e in s.commands && s.CertifiedIntent(e.intent) ==> e in s'.commands || e in s'.certificates
    requires forall k :: k in s'.deliveries ==>
               (k in s.deliveries && s.deliveries[k].status == Consumed) || EffectAccounted(s', k)
    ensures EffectsSound(s')
  {
    forall e | e in s'.commands ensures CommandSound(s', e) {
      if !CommandSound(s', e) { CommandPersists(s, s', e); }
    }
    forall e | e in s'.certificates ensures CertificateSound(s', e) {
      if !CertificateSound(s', e) { CertificatePersists(s, s', e); }
    }
    forall k | k in s'.deliveries ensures EffectAccounted(s', k) {
      if !EffectAccounted(s', k) { assert DeliveryAdvances(s, s', k) && EffectAccounted(s, k); }
    }
  }

  /** Closure survives where no message becomes consumed or gains a parent. */
  lemma ClosurePersists(s: Store, s': Store)
    requires CausallyClosed(s) && EffectsSound(s) && Paired(s) && Extends(s, s')
    requires forall id :: id in s'.messages && IsConsumed(s', id) ==>
               || ClosedAt(s', id)
               || (&& IsConsumed(s, id)
                   && (s.messages[id].Parent().Some? && s.messages[id].Parent().value in s'.messages ==>
                         s.messages[id].Parent().value in s.messages))
    ensures CausallyClosed(s')
  {
    forall id | id in s'.messages ensures ClosedAt(s', id) {
      if !ClosedAt(s', id) {
        var m := s.messages[id];
        assert ClosedAt(s, id);
        AppliedPersists(s, s', m, m.Parent().value);
      }
    }
  }

  // ------------------------------------------------------------------- publish

  /** Publishing an unknown message either raises or adds it with a fresh
      pending delivery; a known one is left exactly as stored. */
  lemma PublishShape(s: Store, m: Message, job: Option<string>)
    requires Paired(s) && (forall k :: k in s.deliveries ==> DeliverySound(s, k))
    ensures var r := Publish(s, m, job);
            r.Ok? ==>
              && CausationFault(s, m).None?
              && (m.id in s.messages ==>
                    && s.messages[m.id] == m && DeliveryOf(m) in s.deliveries
                    && r.value == (s, s.deliveries[DeliveryOf(m)]))
              && (m.id !in s.messages ==>
                    && DescendantsAgree(s, m)
                    && r.value.1 == PendingDelivery(m)
                    && Published(s, m, r.value.0))
  {
    if m.id in s.messages && s.messages[m.id] == m {
      assert DeliverySound(s, DeliveryOf(m));
    }
  }

  ghost predicate Published(s: Store, m: Message, s': Store) {
    && m.id !in s.messages
    && s' == s.(messages := s.messages[m.id := m],
                deliveries := s.deliveries[DeliveryOf(m) := PendingDelivery(m)],
                jobs := s'.jobs)
  }

  lemma PublishedExtends(s: Store, m: Message, s': Store)
    requires Paired(s) && Published(s, m, s')
    ensures Extends(s, s')
  {
    UnknownHasNoDelivery(s, m);
    forall e ensures StaysRetired(s, s', e) {
      assert Acknowledged(s, e) ==> e.messageId in s.messages;
    }
    forall k | k in s.deliveries ensures DeliveryAdvances(s, s', k) {
    }
    EntitiesStay(s, s');
    hide Paired, StaysRetired, DeliveryAdvances, EntityAdvances, DeliveryOf, PendingDelivery;
  }

  lemma PublishedPaired(s: Store, m: Message, s': Store)
    requires Paired(s) && Published(s, m, s')
    ensures Paired(s')
  {
  }

  lemma PublishedRecord(s: Store, m: Message, s': Store, k: DeliveryId)
    requires Fenced(s) && Published(s, m, s') && DeliveryOf(m) !in s.deliveries && k in s'.deliveries
    ensures DeliverySound(s', k)
  {
    NewRecordSound(m);
    hide RecordSound, DeliveryOf, PendingDelivery;
    assert k in s.deliveries ==> DeliverySound(s, k);
  }

  lemma PublishedFenced(s: Store, m: Message, s': Store)
    requires Paired(s) && Fenced(s) && Published(s, m, s')
    ensures Paired(s') && Fenced(s')
  {
    PublishedPaired(s, m, s');
    UnknownHasNoDelivery(s, m);
    hide DeliverySound, Paired, DeliveryOf, PendingDelivery;
    forall k | k in s'.deliveries ensures DeliverySound(s', k) {
      PublishedRecord(s, m, s', k);
    }
  }

  lemma UnknownHasNoDelivery(s: Store, m: Message)
    requires Paired(s) && m.id !in s.messages
    ensures DeliveryOf(m) !in s.deliveries
  {
  }

  lemma NewRecordSound(m: Message)
    ensures RecordSound(DeliveryOf(m), PendingDelivery(m), None)
  {
  }

  lemma PublishedCausation(s: Store, m: Message, s': Store)
    requires Paired(s) && Fenced(s) && CausationSound(s) && Published(s, m, s')
    requires m.Valid() && CausationFault(s, m).None? && DescendantsAgree(s, m)
    ensures CausationSound(s')
  {
    forall id | id in s.messages
      ensures DeliveryOf(s.messages[id]) in s.deliveries && s.deliveries[DeliveryOf(s.messages[id])].messageId == id
    {
      assert DeliverySound(s, DeliveryOf(s.messages[id]));
    }
    PublishKeepsCausation(s, m, s');
  }

  /** A late parent has no consumed child, so closure is not disturbed. */
  lemma PublishedClosure(s: Store, m: Message, s': Store)
    requires Paired(s) && Fenced(s) && EffectsSound(s) && CausallyClosed(s) && Published(s, m, s')
    requires DescendantsAgree(s, m) && Extends(s, s')
    ensures CausallyClosed(s')
  {
    forall id | id in s'.messages && IsConsumed(s', id)
      ensures IsConsumed(s, id) && s.messages[id].Parent() != Some(m.id)
    {
      var k := DeliveryOf(s.messages[id]);
      assert !ContradictedBy(s, m, k) && DeliverySound(s, k);
    }
    ClosurePersists(s, s');
  }

  lemma PublishKeepsInv(s: Store, m: Message, job: Option<string>, s': Store)
    requires Inv(s) && m.Valid() && s' == After(s, Publish(s, m, job))
    ensures Inv(s') && Extends(s, s')
  {
    if s' == s {
      ExtendsReflexive(s);
    } else {
      PublishChanges(s, m, job, s');
      PublishedExtends(s, m, s');
      PublishedFenced(s, m, s');
      PublishedCausation(s, m, s');
      PublishedClosure(s, m, s');
      EffectsPersist(s, s');
    }
  }

  lemma PublishChanges(s: Store, m: Message, job: Option<string>, s': Store)
    requires Paired(s) && Fenced(s) && s' == After(s, Publish(s, m, job)) && s' != s
    ensures CausationFault(s, m).None? && DescendantsAgree(s, m) && Published(s, m, s')
  {
    PublishShape(s, m, job);
  }

  lemma ExtendsReflexive(s: Store)
    ensures Extends(s, s)
  {
  }

  // --------------------------------------------------------------------- claim

  ghost predicate Released(s: Store, k: DeliveryId, owner: string, now: Instant, duration: int, s': Store) {
    && k in s.deliveries && s.deliveries[k].status != Consumed
    && !Blank(owner) && duration > 0
    && s' == s.(deliveries := s.deliveries[k := Reclaimed(s.deliveries[k], owner, now, duration)])
  }

  /** The new lease has its provenance and fences the previous one. */
  lemma ReclaimedSound(s: Store, k: DeliveryId, owner: string, now: Instant, duration: int, s': Store)
    requires Released(s, k, owner, now, duration, s') && DeliverySound(s, k)
    ensures DeliverySound(s', k) && DeliveryAdvances(s, s', k)
    ensures s'.deliveries[k].epoch == s.deliveries[k].epoch + 1
  {
  }

  lemma ReleasedFenced(s: Store, k: DeliveryId, owner: string, now: Instant, duration: int, s': Store)
    requires Paired(s) && Fenced(s) && Released(s, k, owner, now, duration, s')
    ensures Paired(s') && Fenced(s')
  {
    hide RecordSound;
    forall j | j in s'.deliveries ensures DeliverySound(s', j) {
      assert DeliverySound(s, j);
      if j == k { ReclaimedSound(s, k, owner, now, duration, s'); }
    }
  }

  lemma ReleasedExtends(s: Store, k: DeliveryId, owner: string, now: Instant, duration: int, s': Store)
    requires Fenced(s) && Released(s, k, owner, now, duration, s')
    ensures Extends(s, s')
  {
    assert DeliverySound(s, k);
    ReclaimedSound(s, k, owner, now, duration, s');
    ExtendsIfDeliveriesAdvance(s, s');
  }

  /** Where only deliveries change, evidence grows if each delivery advances. */
  lemma ExtendsIfDeliveriesAdvance(s: Store, s': Store)
    requires s' == s.(deliveries := s'.deliveries)
    requires forall j :: j in s.deliveries ==> DeliveryAdvances(s, s', j)
    ensures Extends(s, s')
  {
  }

  lemma ReleasedEffects(s: Store, k: DeliveryId, owner: string, now: Instant, duration: int, s': Store)
    requires EffectsSound(s) && Released(s, k, owner, now, duration, s') && Extends(s, s')
    ensures EffectsSound(s')
  {
    EffectsPersist(s, s');
  }

  lemma ReleasedClosure(s: Store, k: DeliveryId, owner: string, now: Instant, duration: int, s': Store)
    requires Paired(s) && EffectsSound(s) && CausallyClosed(s)
    requires Released(s, k, owner, now, duration, s') && Extends(s, s')
    ensures CausallyClosed(s')
  {
    ClosurePersists(s, s');
  }

  /** A lease moves one unconsumed delivery to the next epoch. */
  lemma ClaimKeepsInv(s: Store, k: DeliveryId, owner: string, now: Instant, duration: int, s': Store)
    requires Inv(s) && Released(s, k, owner, now, duration, s')
    ensures Inv(s') && Extends(s, s')
  {
    ReleasedFenced(s, k, owner, now, duration, s');
    ReleasedExtends(s, k, owner, now, duration, s');
    CausationPersists(s, s');
    ReleasedEffects(s, k, owner, now, duration, s');
    ReleasedClosure(s, k, owner, now, duration, s');
  }

  // ------------------------------------------------------------------- consume

  /** A store in which exactly `k` has just been acknowledged with `i`. */
  ghost predicate JustConsumed(s: Store, k: DeliveryId, i: Intent, now: Instant, s': Store) {
    && k in s.deliveries && k.messageId in s.messages && k !in s.consumptions
    && s.deliveries[k].status == Claimed
    && s.deliveries[k].claimedAt.Some? && s.deliveries[k].claimedAt.value <= now
    && s.deliveries[k].expiresAt.Some? && now < s.deliveries[k].expiresAt.value
    && var m := s.messages[k.messageId];
       && EffectOf(m, i) !in s.commands && EffectOf(m, i) !in s.certificates
       && PredecessorReadiness(s, m) == Ready
       && Acknowledge(s, k, m, i, now).Ok?
       && s' == Acknowledge(s, k, m, i, now).value.0
  }

  /** A committed acknowledgement came from the current lease of an unconsumed
      delivery whose predecessor is applied. */
  lemma ConsumeShape(s: Store, lease: Lease, r: Registry, now: Instant)
    requires Paired(s) && Fenced(s) && EffectsSound(s)
    ensures var out := Consume(s, lease, r, now);
            var k := lease.delivery;
            out.Ok? && k in s.deliveries && s.deliveries[k].status != Consumed ==>
              && HoldsClaim(s.deliveries[k], lease, now)
              && k.messageId in s.messages
              && Resolve(r, s.messages[k.messageId]).Some?
              && JustConsumed(s, k, Resolve(r, s.messages[k.messageId]).value, now, out.value.0)
  {
    var k := lease.delivery;
    if k in s.deliveries && s.deliveries[k].status != Consumed && Consume(s, lease, r, now).Ok? {
      assert DeliverySound(s, k);
      var m := s.messages[k.messageId];
      var e := EffectOf(m, Resolve(r, m).value);
      FreshEffect(s, e);
    }
  }

  /** No effect record exists for a message that is not consumed. */
  lemma FreshEffect(s: Store, e: EffectId)
    requires EffectsSound(s)
    ensures e in s.commands || e in s.certificates ==> IsConsumed(s, e.messageId)
  {
    if e in s.commands { assert CommandSound(s, e); }
    if e in s.certificates { assert CertificateSound(s, e); }
  }

  lemma ConsumedRetired(s: Store, k: DeliveryId, i: Intent, now: Instant, s': Store, f: EffectId)
    requires Paired(s) && JustConsumed(s, k, i, now, s')
    ensures StaysRetired(s, s', f)
  {
    hide PredecessorReadiness, Acknowledge, Resolve;
    ConsumedCommands(s, k, i, now, s');
    var e := EffectOf(s.messages[k.messageId], i);
    assert e.messageId == k.messageId && !Acknowledged(s, e);
  }

  lemma ConsumedCommands(s: Store, k: DeliveryId, i: Intent, now: Instant, s': Store)
    requires JustConsumed(s, k, i, now, s')
    ensures var m := s.messages[k.messageId];
            && s'.commands == s.commands[EffectOf(m, i) := CommandOf(m, i)]
            && s'.messages == s.messages && s'.certificates == s.certificates && s'.events == s.events
            && s'.entities == s.entities && s'.terminals == s.terminals
            && (forall j :: j in s.consumptions ==> j in s'.consumptions && s'.consumptions[j] == s.consumptions[j])
  {
    hide PredecessorReadiness, HoldsClaim;
  }

  lemma ConsumedAdvances(s: Store, k: DeliveryId, i: Intent, now: Instant, s': Store, j: DeliveryId)
    requires JustConsumed(s, k, i, now, s') && j in s.deliveries
    ensures DeliveryAdvances(s, s', j)
  {
    hide PredecessorReadiness, HoldsClaim;
  }

  lemma EntitiesStay(s: Store, s': Store)
    requires s'.entities == s.entities
    ensures forall key :: key in s.entities ==> EntityAdvances(s, s', key)
  {
  }

  lemma ConsumedExtends(s: Store, k: DeliveryId, i: Intent, now: Instant, s': Store)
    requires Paired(s) && JustConsumed(s, k, i, now, s')
    ensures Extends(s, s')
  {
    ConsumedCommands(s, k, i, now, s');
    hide Paired, JustConsumed, DeliveryAdvances, StaysRetired, EntityAdvances;
    EntitiesStay(s, s');
    forall j | j in s.deliveries ensures DeliveryAdvances(s, s', j) {
      ConsumedAdvances(s, k, i, now, s', j);
    }
    forall f ensures StaysRetired(s, s', f) {
      ConsumedRetired(s, k, i, now, s', f);
    }
  }

  lemma ConsumedFenced(s: Store, k: DeliveryId, i: Intent, now: Instant, s': Store)
    requires Paired(s) && Fenced(s) && JustConsumed(s, k, i, now, s')
    ensures Paired(s') && Fenced(s')
  {
    hide RecordSound, PredecessorReadiness;
    assert DeliverySound(s, k);
    ConsumedDeliverySound(s, k, i, now, s');
    forall j | j in s'.deliveries ensures DeliverySound(s', j) {
      assert DeliverySound(s, j);
    }
  }

  lemma ConsumedDeliverySound(s: Store, k: DeliveryId, i: Intent, now: Instant, s': Store)
    requires JustConsumed(s, k, i, now, s') && DeliverySound(s, k)
    ensures DeliverySound(s', k)
  {
  }

  lemma ConsumedEffects(s: Store, k: DeliveryId, i: Intent, now: Instant, s': Store)
    requires Paired(s) && EffectsSound(s) && JustConsumed(s, k, i, now, s') && Extends(s, s')
    ensures EffectsSound(s')
  {
    hide PredecessorReadiness, Extends;
    var e := EffectOf(s.messages[k.messageId], i);
    assert Acknowledged(s', e) && CommandSound(s', e);
    assert EffectAccounted(s', k);
    forall j | j in s'.deliveries && j != k && s.deliveries[j].status != Consumed ensures EffectAccounted(s', j) {
    }
    EffectsPersist(s, s');
  }

  /** Readiness of the predecessor is what closure asks of the new member. */
  lemma ReadyMeansApplied(s: Store, m: Message)
    requires Fenced(s) && PredecessorReadiness(s, m) == Ready
    requires m.Parent().Some? && (m.kind == FromBoundary || m.Parent().value in s.messages)
    ensures PredecessorApplied(s, m, m.Parent().value)
  {
    if m.cause.value in s.messages {
      assert DeliverySound(s, DeliveryOf(s.messages[m.cause.value]));
    }
  }

  lemma ConsumedClosedAt(s: Store, k: DeliveryId, i: Intent, now: Instant, s': Store)
    requires Paired(s) && Fenced(s) && EffectsSound(s) && JustConsumed(s, k, i, now, s') && Extends(s, s')
    ensures k.messageId in s'.messages && ClosedAt(s', k.messageId)
  {
    hide PredecessorReadiness, HoldsClaim;
    var m := s.messages[k.messageId];
    if m.Parent().Some? && (m.kind == FromBoundary || m.Parent().value in s.messages) {
      ReadyMeansApplied(s, m);
      AppliedPersists(s, s', m, m.Parent().value);
    }
  }

  lemma OthersConsumedBefore(s: Store, k: DeliveryId, i: Intent, now: Instant, s': Store, id: string)
    requires Paired(s) && JustConsumed(s, k, i, now, s') && id in s'.messages && id != k.messageId && IsConsumed(s', id)
    ensures IsConsumed(s, id)
  {
    hide PredecessorReadiness, HoldsClaim;
  }

  lemma ConsumedClosure(s: Store, k: DeliveryId, i: Intent, now: Instant, s': Store)
    requires Paired(s) && Fenced(s) && EffectsSound(s) && CausallyClosed(s)
    requires JustConsumed(s, k, i, now, s') && Extends(s, s')
    ensures CausallyClosed(s')
  {
    ConsumedCommands(s, k, i, now, s');
    hide JustConsumed, Paired, Fenced, EffectsSound, CausallyClosed, Extends, ClosedAt, IsConsumed;
    ConsumedClosedAt(s, k, i, now, s');
    forall id | id in s'.messages && IsConsumed(s', id) && id != k.messageId ensures IsConsumed(s, id) {
      OthersConsumedBefore(s, k, i, now, s', id);
    }
    ClosurePersists(s, s');
  }

  lemma ConsumeKeepsInv(s: Store, lease: Lease, r: Registry, now: Instant, s': Store)
    requires Inv(s) && s' == After(s, Consume(s, lease, r, now))
    ensures Inv(s') && Extends(s, s')
  {
    if s' == s {
      ExtendsReflexive(s);
    } else {
      ConsumeShape(s, lease, r, now);
      var k := lease.delivery;
      var i := Resolve(r, s.messages[k.messageId]).value;
      ConsumedExtends(s, k, i, now, s');
      ConsumedFenced(s, k, i, now, s');
      CausationPersists(s, s');
      ConsumedEffects(s, k, i, now, s');
      ConsumedClosure(s, k, i, now, s');
    }
  }

  // ------------------------------------------------- certify, retire, environment

  /** Messages, deliveries and acknowledgements are as they were. */
  ghost predicate SameTraffic(s: Store, s': Store) {
    && s'.messages == s.messages && s'.deliveries == s.deliveries && s'.consumptions == s.consumptions
    && s'.commands.Keys <= s.commands.Keys
    && forall e :: e in s'.commands ==> s'.commands[e] == s.commands[e]
  }

  lemma SameTrafficFenced(s: Store, s': Store)
    requires Paired(s) && Fenced(s) && SameTraffic(s, s')
    ensures Paired(s') && Fenced(s')
  {
    hide RecordSound;
    forall k | k in s'.deliveries ensures DeliverySound(s', k) {
      assert DeliverySound(s, k);
    }
  }

  lemma SameTrafficKeepsInv(s: Store, s': Store)
    requires Inv(s) && SameTraffic(s, s') && Extends(s, s')
    requires forall e :: e in s'.certificates ==> e in s.certificates || CertificateSound(s', e)
    requires forall e :: e in s.commands && s.CertifiedIntent(e.intent) ==> e in s'.commands || e in s'.certificates
    ensures Inv(s')
  {
    SameTrafficFenced(s, s');
    CausationPersists(s, s');
    EffectsPersist(s, s');
    ClosurePersists(s, s');
  }

  /** The certificate `complete` writes is sound the moment it is written. */
  lemma NewCertificateSound(s: Store, effect: EffectId, at: Instant, s': Store)
    requires EffectsSound(s) && effect !in s.certificates && effect in s.commands && Certifiable(s, effect)
    requires s' == After(s, Complete(s, effect, at))
    ensures effect in s'.certificates && CertificateSound(s', effect)
  {
    assert CommandSound(s, effect);
    assert Acknowledged(s', effect);
  }

  lemma CompletedExtends(s: Store, effect: EffectId, at: Instant, s': Store)
    requires effect !in s.certificates && s' == After(s, Complete(s, effect, at))
    ensures Extends(s, s') && SameTraffic(s, s')
  {
    ExtendsReflexive(s);
    if s' != s {
      RecordsExtend(s, s');
    }
  }

  /** Retiring Commands, adding certificates or events and advancing entities
      only adds evidence. */
  lemma RecordsExtend(s: Store, s': Store)
    requires s'.terminals == s.terminals && SameTraffic(s, s')
    requires forall e :: e in s.certificates ==> e in s'.certificates && s'.certificates[e] == s.certificates[e]
    requires forall id :: id in s.events ==> id in s'.events && s'.events[id] == s.events[id]
    requires forall key :: key in s.entities ==> EntityAdvances(s, s', key)
    ensures Extends(s, s')
  {
    forall k | k in s.deliveries ensures DeliveryAdvances(s, s', k) {
    }
    forall e ensures StaysRetired(s, s', e) {
    }
  }

  lemma RecordsExtendEvents(s: Store, s': Store)
    requires s' == s.(events := s'.events)
    requires forall id :: id in s.events ==> id in s'.events && s'.events[id] == s.events[id]
    ensures SameTraffic(s, s') && Extends(s, s')
  {
    hide Extends, StaysRetired;
    forall key | key in s.entities ensures EntityAdvances(s, s', key) {
    }
    RecordsExtend(s, s');
  }

  lemma CompleteKeepsInv(s: Store, effect: EffectId, at: Instant, s': Store)
    requires Inv(s) && s' == After(s, Complete(s, effect, at))
    ensures Inv(s') && Extends(s, s')
  {
    if s' == s {
      ExtendsReflexive(s);
    } else {
      NewCertificateSound(s, effect, at, s');
      CompletedExtends(s, effect, at, s');
      SameTrafficKeepsInv(s, s');
    }
  }

  lemma RetireKeepsInv(s: Store, effect: EffectId, s': Store)
    requires Inv(s) && s' == Retire(s, effect)
    ensures Inv(s') && Extends(s, s')
  {
    hide Extends;
    if effect in s.commands { assert CommandSound(s, effect); }
    RetiredExtends(s, effect, s');
    SameTrafficKeepsInv(s, s');
  }

  lemma RetiredExtends(s: Store, effect: EffectId, s': Store)
    requires effect in s.commands ==> s.commands[effect].name == effect.intent
    requires s' == Retire(s, effect)
    ensures Extends(s, s') && SameTraffic(s, s') && s'.certificates == s.certificates
    ensures forall e :: e in s.commands && s.CertifiedIntent(e.intent) ==> e in s'.commands
  {
    hide Extends;
    forall key | key in s.entities ensures EntityAdvances(s, s', key) {
    }
    RecordsExtend(s, s');
  }

  lemma RecordEventKeepsInv(s: Store, id: string, event: Event, s': Store)
    requires Inv(s) && s' == RecordEvent(s, id, event)
    ensures Inv(s') && Extends(s, s')
  {
    hide Extends;
    RecordEventExtends(s, id, event, s');
    SameTrafficKeepsInv(s, s');
  }

  lemma RecordEventExtends(s: Store, id: string, event: Event, s': Store)
    requires s' == RecordEvent(s, id, event)
    ensures SameTraffic(s, s') && Extends(s, s') && s'.certificates == s.certificates && s'.commands == s.commands
  {
    hide Extends, StaysRetired;
    if id in s.events {
      ExtendsReflexive(s);
    } else {
      RecordsExtendEvents(s, s');
    }
  }

  lemma SaveEntityKeepsInv(s: Store, key: EntityKey, entity: Entity, s': Store)
    requires Inv(s) && s' == SaveEntity(s, key, entity)
    ensures Inv(s') && Extends(s, s')
  {
    hide Extends;
    SaveEntityExtends(s, key, entity, s');
    SameTrafficKeepsInv(s, s');
  }

  lemma SaveEntityExtends(s: Store, key: EntityKey, entity: Entity, s': Store)
    requires s' == SaveEntity(s, key, entity)
    ensures SameTraffic(s, s') && Extends(s, s') && s'.certificates == s.certificates && s'.commands == s.commands
  {
    hide Extends, StaysRetired;
    if s' == s {
      ExtendsReflexive(s);
    } else {
      forall other | other in s.entities ensures EntityAdvances(s, s', other) {
      }
      RecordsExtend(s, s');
    }
  }

  lemma SaveJobsKeepsInv(s: Store, jobs: map<string, Job>, s': Store)
    requires Inv(s) && s' == s.(jobs := jobs)
    ensures Inv(s') && Extends(s, s')
  {
    hide Extends;
    forall key | key in s.entities ensures EntityAdvances(s, s', key) {
    }
    RecordsExtend(s, s');
    SameTrafficKeepsInv(s, s');
  }

  // ---------------------------------------------------------------- every run

  lemma InitialInv(s: Store)
    requires Initial(s)
    ensures Inv(s)
  {
    assert Ranked(s.messages, map[]);
  }

  lemma ClaimStepKeepsInv(s: Store, op: Op, s': Store)
    requires Inv(s) && Next(s, op, s') && op.DoClaim?
    ensures Inv(s') && Extends(s, s')
  {
    hide Inv, Extends, ClaimRaises;
    var out :| Claims(s, op.owner, op.now, op.duration, op.filter, op.uuid, out, s');
    if out.Leased? {
      ClaimKeepsInv(s, out.lease.delivery, op.owner, op.now, op.duration, s');
    } else {
      ExtendsReflexive(s);
    }
  }

  lemma NextKeepsInv(s: Store, op: Op, s': Store)
    requires Inv(s) && Next(s, op, s')
    ensures Inv(s') && Extends(s, s')
  {
    hide Inv, Extends;
    match op
    case DoPublish(m, job) => PublishKeepsInv(s, m, job, s');
    case DoClaim(owner, now, duration, f, uuid) => ClaimStepKeepsInv(s, op, s');
    case DoConsume(lease, r, now) => ConsumeKeepsInv(s, lease, r, now, s');
    case DoComplete(effect, at) => CompleteKeepsInv(s, effect, at, s');
    case DoRetire(effect) => RetireKeepsInv(s, effect, s');
    case DoRecordEvent(id, e) => RecordEventKeepsInv(s, id, e, s');
    case DoSaveEntity(key, e) => SaveEntityKeepsInv(s, key, e, s');
    case DoSaveJob(jobId, state) => SaveJobsKeepsInv(s, s'.jobs, s');
  }

  /** The invariant holds at every point of every run. */
  lemma {:induction false} ReachableInv(states: seq<Store>, ops: seq<Op>, i: nat)
    requires Run(states, ops) && i < |states|
    ensures Inv(states[i])
  {
    hide Inv, Next, Initial, Extends;
    if i == 0 {
      InitialInv(states[0]);
    } else {
      ReachableInv(states, ops, i - 1);
      RunStep(states, ops, i - 1);
      NextKeepsInv(states[i - 1], ops[i - 1], states[i]);
    }
  }

  lemma RunStep(states: seq<Store>, ops: seq<Op>, i: nat)
    requires Run(states, ops) && i < |ops|
    ensures Next(states[i], ops[i], states[i + 1])
  {
  }

  lemma StepExtends(states: seq<Store>, ops: seq<Op>, i: nat)
    requires Run(states, ops) && i < |ops|
    ensures Extends(states[i], states[i + 1])
  {
    hide Inv, Next, Initial, Extends;
    ReachableInv(states, ops, i);
    RunStep(states, ops, i);
    NextKeepsInv(states[i], ops[i], states[i + 1]);
  }

  lemma ExtendsTransitive(a: Store, b: Store, c: Store)
    requires Extends(a, b) && Extends(b, c)
    ensures Extends(a, c)
  {
    forall k | k in a.deliveries ensures DeliveryAdvances(a, c, k) {
      assert DeliveryAdvances(a, b, k) && DeliveryAdvances(b, c, k);
    }
    forall key | key in a.entities ensures EntityAdvances(a, c, key) {
      assert EntityAdvances(a, b, key) && EntityAdvances(b, c, key);
    }
    forall e ensures StaysRetired(a, c, e) {
      assert StaysRetired(a, b, e) && StaysRetired(b, c, e);
      if Acknowledged(a, e) { AcknowledgedPersists(a, b, e); }
    }
  }

  /** Evidence committed at one point of a run is intact at every later point. */
  lemma {:induction false} EvidenceIsPermanent(states: seq<Store>, ops: seq<Op>, i: nat, j: nat)
    requires Run(states, ops) && i <= j < |states|
    ensures Extends(states[i], states[j])
    decreases j
  {
    hide Inv, Next, Initial, Extends;
    if i < j {
      EvidenceIsPermanent(states, ops, i, j - 1);
      StepExtends(states, ops, j - 1);
      ExtendsTransitive(states[i], states[j - 1], states[j]);
    } else {
      ExtendsReflexive(states[i]);
    }
  }
}
