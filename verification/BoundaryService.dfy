/**
 The services over the authoritative store. Each method is one transaction: it
 reads the tables, and either commits new ones or raises and leaves them alone.
 */
module BoundaryServices {
  import opened Outcomes
  import opened BoundaryModel
  import opened BoundaryProtocol
  import opened BoundaryCausation
  import opened BoundaryInvariants

  class BoundaryService {
    const terminals: map<string, Terminal>
    const uuid: DeliveryId -> nat
    var messages: map<string, Message>
    var deliveries: map<DeliveryId, Delivery>
    var consumptions: map<DeliveryId, Consumption>
    var events: map<string, Event>
    var commands: map<EffectId, Command>
    var certificates: map<EffectId, Certificate>
    var entities: map<EntityKey, Entity>
    var jobs: map<string, Job>

    /** What a transaction opened now would see. */
    function View(): Store
      reads this
    {
      Store(terminals, messages, deliveries, consumptions, events, commands, certificates, entities, jobs)
    }

    constructor (rank: DeliveryId -> nat, history: map<string, Event>, world: map<EntityKey, Entity>, runs: map<string, Job>)
      ensures Initial(View()) && Inv(View()) && uuid == rank
      ensures events == history && entities == world && jobs == runs
    {
      terminals, uuid := CertifiedTerminals(), rank;
      messages, deliveries, consumptions, commands, certificates := map[], map[], map[], map[], map[];
      events, entities, jobs := history, world, runs;
      new;
      InitialInv(View());
    }

    /** Follow durable ancestry from `m` until it ends, an event decides, or
        something contradicts it. */
    method ValidateCausation(m: Message) returns (fault: Option<Fault>)
      ensures fault == CausationFault(View(), m)
    {
      var visited := {m.id};
      var cursor, kind := m.cause, m.kind;
      while cursor.Some?
        invariant Walk(View(), m, cursor, kind, visited) == CausationFault(View(), m)
        decreases cursor.Some?, messages.Keys - visited
      {
        if kind == FromEvent {
          return EventFault(View(), m, cursor.value);
        }
        if cursor.value in visited {
          return Some(CausalCycle);
        }
        if cursor.value !in messages {
          return None;
        }
        var predecessor := messages[cursor.value];
        if predecessor.correlation != m.correlation {
          return Some(CorrelationMismatch);
        }
        if predecessor.producedAt > m.producedAt {
          return Some(ParentAfterMessage);
        }
        assert cursor.value in messages.Keys - visited;
        visited := visited + {cursor.value};
        cursor, kind := predecessor.cause, predecessor.kind;
      }
      return None;
    }

    /** A late parent must not contradict descendants already durable. */
    method ValidateExistingDescendants(m: Message) returns (clean: bool)
      ensures clean <==> DescendantsAgree(View(), m)
    {
      var todo := deliveries.Keys;
      while todo != {}
        invariant todo <= deliveries.Keys
        invariant forall k :: k in deliveries && k !in todo ==> !ContradictedBy(View(), m, k)
        decreases todo
      {
        var k :| k in todo;
        todo := todo - {k};
        if ContradictedBy(View(), m, k) {
          return false;
        }
      }
      return true;
    }

    /** Publish idempotently, charging a new publication to its job. */
    method PublishMessage(m: Message, job: Option<string>) returns (r: Result<Delivery, Fault>)
      requires m.Valid()
      modifies this
      ensures View() == After(old(View()), Publish(old(View()), m, job))
      ensures r.Ok? <==> Publish(old(View()), m, job).Ok?
      ensures r.Ok? ==> r.value == Publish(old(View()), m, job).value.1
    {
      var fault := ValidateCausation(m);
      if fault.Some? {
        return Err(fault.value);
      }
      if m.id in messages && messages[m.id] != m {
        return Err(IdentityConflict);
      }
      var k := DeliveryOf(m);
      var charged := jobs;
      if m.id !in messages {
        var clean := ValidateExistingDescendants(m);
        if !clean {
          return Err(DescendantConflict);
        }
        var charge := ChargePublication(View(), m, job);
        if charge.Err? {
          return Err(charge.error);
        }
        charged := charge.value;
      }
      if k in deliveries && (deliveries[k].messageId != m.id || deliveries[k].destination != m.destination || deliveries[k].contract != m.contract) {
        return Err(IdentityConflict);
      }
      messages, jobs := messages[m.id := m], charged;
      if k !in deliveries {
        deliveries := deliveries[k := PendingDelivery(m)];
      }
      return Ok(deliveries[k]);
    }

    /** The first candidate by production time, then identity, unless some
        considered delivery is broken. */
    method SelectCandidate(now: Instant, f: Filter) returns (broken: bool, best: Option<DeliveryId>)
      ensures broken <==> ClaimRaises(View(), f, now)
      ensures !broken && best.None? ==> forall k :: !Candidate(View(), k, f, now)
      ensures !broken && best.Some? ==> NextClaim(View(), best.value, f, now, uuid)
    {
      best := None;
      var todo := deliveries.Keys;
      ghost var seen: set<DeliveryId> := {};
      while todo != {}
        invariant todo + seen == deliveries.Keys
        invariant forall k :: k in seen ==> Consider(View(), k, f, now) != Some(Broken)
        invariant best.None? ==> forall k :: k in seen ==> !Candidate(View(), k, f, now)
        invariant best.Some? ==> best.value in seen && Candidate(View(), best.value, f, now)
        invariant best.Some? ==> forall k :: k in seen && Candidate(View(), k, f, now) ==> Before(best.value, k)
        decreases todo
      {
        var k :| k in todo;
        todo, seen := todo - {k}, seen + {k};
        var verdict := Consider(View(), k, f, now);
        if verdict == Some(Broken) {
          return true, None;
        }
        if verdict == Some(Ready) && (best.None? || !Before(best.value, k)) {
          best := Some(k);
        }
      }
      assert seen == deliveries.Keys;
      return false, best;
    }

    /** Claim order of two deliveries with known messages. */
    predicate Before(j: DeliveryId, k: DeliveryId)
      reads this
      requires j in deliveries && deliveries[j].messageId in messages
      requires k in deliveries && deliveries[k].messageId in messages
    {
      || ProducedAt(View(), j) < ProducedAt(View(), k)
      || (ProducedAt(View(), j) == ProducedAt(View(), k) && uuid(j) <= uuid(k))
    }

    /** Lease the first ready delivery the filter admits. */
    method ClaimNext(owner: string, now: Instant, duration: int, f: Filter) returns (out: ClaimOutcome)
      modifies this
      ensures Claims(old(View()), owner, now, duration, f, uuid, out, View())
    {
      if !ClaimArgumentsValid(owner, duration, f) {
        return Rejected(InvalidArgument);
      }
      var broken, best := SelectCandidate(now, f);
      if broken || best.None? {
        return if broken then Rejected(InconsistentRecord) else Nothing;
      }
      var k := best.value;
      var claimed := Reclaimed(deliveries[k], owner, now, duration);
      deliveries := deliveries[k := claimed];
      out := Leased(LeaseOn(k, claimed, owner, now + duration));
    }

    /** Acknowledge a delivery under its current lease, staging the handler's
        Command in the same transaction. */
    method ConsumeDelivery(lease: Lease, registry: Registry, now: Instant) returns (r: Result<Consumption, Fault>)
      modifies this
      ensures View() == After(old(View()), Consume(old(View()), lease, registry, now))
      ensures r.Ok? <==> Consume(old(View()), lease, registry, now).Ok?
      ensures r.Ok? ==> r.value == Consume(old(View()), lease, registry, now).value.1
    {
      var k := lease.delivery;
      if k !in deliveries {
        return Err(UnknownRecord);
      }
      var current := deliveries[k];
      if current.status == Consumed {
        return if k in consumptions then Ok(consumptions[k]) else Err(InconsistentRecord);
      }
      if !HoldsClaim(current, lease, now) {
        return Err(StaleClaim);
      }
      if current.messageId !in messages {
        return Err(InconsistentRecord);
      }
      var m := messages[current.messageId];
      var readiness := PredecessorReadiness(View(), m);
      if readiness != Ready {
        return Err(if readiness == Blocked then StaleClaim else InconsistentRecord);
      }
      var handler := Resolve(registry, m);
      if handler.None? {
        return Err(UnsupportedContract);
      }
      var effect, command := EffectOf(m, handler.value), CommandOf(m, handler.value);
      var consumption := ConsumptionFor(current, effect, now);
      if (effect in commands && commands[effect] != command) || (k in consumptions && consumptions[k] != consumption) {
        return Err(IdentityConflict);
      }
      commands := commands[effect := command];
      consumptions := consumptions[k := consumption];
      deliveries := deliveries[k := current.(status := Consumed, consumedAt := Some(now), effect := Some(effect))];
      return Ok(consumption);
    }

    /** Certify committed domain truth and retire its Command, or return the
        certificate already written. */
    method CompleteEffect(effect: EffectId, at: Instant) returns (r: Result<Certificate, Fault>)
      modifies this
      ensures View() == After(old(View()), Complete(old(View()), effect, at))
      ensures r.Ok? <==> Complete(old(View()), effect, at).Ok?
      ensures r.Ok? ==> r.value == Complete(old(View()), effect, at).value.1
    {
      if effect in certificates {
        return if effect in commands then Err(InconsistentRecord) else Ok(certificates[effect]);
      }
      if effect !in commands {
        return Err(UnknownRecord);
      }
      if !Certifiable(View(), effect) {
        return Err(NotTerminal);
      }
      var pending := commands[effect];
      var proof := CertificateFor(messages[pending.cause], effect, pending, entities[EntityKey(pending.entityType, pending.entityId)], at);
      certificates := certificates[effect := proof];
      commands := commands - {effect};
      return Ok(proof);
    }
  }

  /** A repeated completion returns the same certificate and changes nothing. */
  lemma CompleteIsIdempotent(s: Store, effect: EffectId, at: Instant, again: Instant)
    requires Complete(s, effect, at).Ok? && effect in s.commands
    ensures var s' := Complete(s, effect, at).value.0;
            Complete(s', effect, again) == Ok((s', Complete(s, effect, at).value.1))
  {
  }

  /** Publishing again returns the stored delivery and charges nothing. */
  lemma RepublishIsIdempotent(s: Store, m: Message, job: Option<string>, again: Option<string>)
    requires Inv(s) && m.Valid() && Publish(s, m, job).Ok?
    ensures var s' := Publish(s, m, job).value.0;
            && Inv(s') && DeliveryOf(m) in s'.deliveries
            && Publish(s', m, again) == Ok((s', s'.deliveries[DeliveryOf(m)]))
  {
    var s' := Publish(s, m, job).value.0;
    PublishKeepsInv(s, m, job, s');
    PublishShape(s, m, job);
    StoredCausationHolds(s', m.id);
    RepublishKnown(s', m, again);
  }

  lemma RepublishKnown(s: Store, m: Message, job: Option<string>)
    requires Paired(s) && Fenced(s) && m.id in s.messages && s.messages[m.id] == m && CausationFault(s, m).None?
    ensures DeliveryOf(m) in s.deliveries && Publish(s, m, job) == Ok((s, s.deliveries[DeliveryOf(m)]))
  {
    assert DeliverySound(s, DeliveryOf(m));
  }
}
