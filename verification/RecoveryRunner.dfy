/**
 The bounded recovery runner: one scheduled occurrence may commit at most
 `maxActions` actions, however often its process dies and is restarted.
 */
module RecoveryRunners {
  import opened Outcomes
  import opened BoundaryModel
  import opened BoundaryProtocol
  import opened BoundaryCausation
  import opened BoundaryInvariants
  import opened BoundaryServices
  import opened BoundaryTheorems
  import opened BoundaryExactness
  import opened RecoveryBudget

  /** What the surrounding domains offer during one turn of the loop. */
  datatype Turn = Turn(
    world: seq<(EntityKey, Entity)>,   // committed domain transitions of the executed effect
    waits: bool,                       // physical capacity is contended
    egress: seq<seq<Message>>,         // what each egress reconciliation wants published
    registry: Registry)

  predicate WellFormed(turn: Turn) {
    && |turn.egress| == 4
    && forall wanted :: wanted in turn.egress ==> forall m :: m in wanted ==> m.Valid()
  }

  predicate DistinctIds(wanted: seq<Message>) {
    forall i, j :: 0 <= i < j < |wanted| ==> wanted[i].id != wanted[j].id
  }

  /** No egress reconciliation of this turn names one message twice. */
  predicate Orderly(turn: Turn) {
    forall wanted :: wanted in turn.egress ==> DistinctIds(wanted)
  }

  datatype Ended =
    | Finished(actions: nat)   // the loop ran to its end
    | Died                     // the process was killed between two transactions
    | Raised                   // an exception left the loop

  /** The claims one turn tries, in order. */
  function ClaimOrder(scope: Option<string>): seq<Filter> {
    [ Filter(Some("warehouse_management"), Some({Contract("warehouse.inventory_consumption_requested", 1)}), None, scope),
      Filter(Some("logistics"), Some({Contract("warehouse.dispatch_ready", 1)}), None, scope),
      Filter(Some("order_to_cash"), Some({Contract("logistics.delivery_completed", 1)}), None, scope),
      Filter(Some("cards_payments"), Some({Contract("o2c.payment_requested", 1)}), None, scope),
      Filter(Some("record_to_report"), Some({Contract("accounting.entry_requested", 1)}), None, scope) ]
  }

  /** The entities after these transitions, the latest version of each. */
  function WorldAfter(entities: map<EntityKey, Entity>, world: seq<(EntityKey, Entity)>): map<EntityKey, Entity> {
    if world == [] then entities
    else
      var before := WorldAfter(entities, world[..|world| - 1]);
      var (key, entity) := world[|world| - 1];
      if key in before && entity.version <= before[key].version then before else before[key := entity]
  }

  lemma NothingYet(entities: map<EntityKey, Entity>)
    ensures WorldAfter(entities, []) == entities
  {
  }

  lemma WorldGrows(entities: map<EntityKey, Entity>, world: seq<(EntityKey, Entity)>, i: nat)
    requires i < |world|
    ensures var before, key, entity := WorldAfter(entities, world[..i]), world[i].0, world[i].1;
            WorldAfter(entities, world[..i + 1]) ==
              if key in before && entity.version <= before[key].version then before else before[key := entity]
  {
    assert world[..i + 1][..i] == world[..i];
  }

  function Lengths(egress: seq<seq<Message>>): nat {
    if egress == [] then 0 else Lengths(egress[..|egress| - 1]) + |egress[|egress| - 1]|
  }

  /** Transactions one turn needs at most, whichever way it goes. */
  function TurnCost(turn: Turn): nat {
    |turn.world| + Lengths(turn.egress) + 9
  }

  function RunCost(script: nat -> Turn, turns: nat): nat {
    if turns == 0 then 0 else RunCost(script, turns - 1) + TurnCost(script(turns - 1))
  }

  lemma LengthsGrow(egress: seq<seq<Message>>, i: nat)
    requires i < |egress|
    ensures Lengths(egress[..i + 1]) == Lengths(egress[..i]) + |egress[i]|
  {
    assert egress[..i + 1][..i] == egress[..i];
  }

  lemma {:induction false} LengthsUpTo(egress: seq<seq<Message>>, i: nat)
    requires i <= |egress|
    ensures Lengths(egress[..i]) <= Lengths(egress)
    decreases |egress| - i
  {
    if i == |egress| {
      assert egress[..i] == egress;
    } else {
      LengthsGrow(egress, i);
      LengthsUpTo(egress, i + 1);
    }
  }

  lemma RunCostStep(script: nat -> Turn, turns: nat)
    ensures RunCost(script, turns) == if turns == 0 then 0 else RunCost(script, turns - 1) + TurnCost(script(turns - 1))
  {
  }

  lemma {:induction false} RunCostGrows(script: nat -> Turn, n: nat, m: nat)
    requires n <= m
    ensures RunCost(script, n) <= RunCost(script, m)
  {
    if n < m {
      RunCostGrows(script, n, m - 1);
    }
  }

  ghost predicate SomeWaits(script: nat -> Turn, turns: nat) {
    exists i :: 0 <= i < turns && script(i).waits
  }

  lemma WaitsGrow(script: nat -> Turn, n: nat, skipped: bool, deferred: bool)
    requires (skipped ==> SomeWaits(script, n)) && (deferred && !skipped ==> script(n).waits)
    ensures deferred ==> SomeWaits(script, n + 1)
  {
  }

  // -------------------------------------------------- why a transaction is refused

  /** A message to publish is stored with other contents. */
  ghost predicate Conflicts(s: Store, wanted: seq<Message>) {
    exists m :: m in wanted && m.id in s.messages && s.messages[m.id] != m.(producedAt := s.messages[m.id].producedAt)
  }

  /** Its cause or its stored children do not admit a message to publish. */
  ghost predicate Inadmissible(s: Store, wanted: seq<Message>) {
    exists m :: m in wanted && m.id !in s.messages && !(CauseAdmits(s, m) && ChildrenAdmit(s, m))
  }

  /** The claim is malformed, or the entity certified for the typed parent of a
      delivery it looks at has left its certified state. */
  ghost predicate ClaimFails(s: Store, owner: string, duration: int, scope: Option<string>, now: Instant) {
    || Blank(owner) || duration <= 0 || scope == Some("")
    || exists f, k :: f in ClaimOrder(scope) && TerminalLost(s, k, f, now)
  }

  /** Nobody handles the message of a delivery that is claimed. */
  ghost predicate Unhandled(s: Store, r: Registry) {
    exists k :: k in s.deliveries && s.deliveries[k].status == Claimed && Helpless(s, k, r)
  }

  ghost predicate Helpless(s: Store, k: DeliveryId, r: Registry) {
    k.messageId in s.messages && forall i :: !Handles(r, s.messages[k.messageId], i)
  }

  /** A certified Command whose terminal state the domain did not reach. */
  ghost predicate Unreached(s: Store) {
    exists e :: e in s.commands && MissesTerminal(s, e)
  }

  ghost predicate MissesTerminal(s: Store, e: EffectId) {
    e.intent in s.terminals && e.messageId in s.messages && !TerminalReached(s, e)
  }

  class RecoveryRunner {
    const service: BoundaryService
    const jobId: string
    const maxActions: nat
    const recoverable: set<string>
    const scope: Option<string>
    const owner: string
    const duration: int
    const order: string -> nat   // how message identities sort
    var life: nat                // transactions left before this process is killed
    ghost var committed: nat     // actions durably committed under the occurrence

    /** What the store records as spent is what was committed, within budget. */
    ghost predicate Valid()
      reads this, service
    {
      Budgeted(service.View(), jobId, committed) && committed <= maxActions
    }

    ghost predicate Active(trigger: string)
      reads this, service
    {
      Trigger(service.View(), jobId) == Some(trigger)
    }

    /** The store itself gained exactly the actions that were committed. */
    twostate predicate Accounts()
      reads this, service
    {
      Slack() == old(Slack())
    }

    ghost function Slack(): int
      reads this, service
    {
      Work(service.View()) - committed
    }

    /** Nothing is left to do on this turn: no executable effect outside the
        deferred ones, nothing to publish, and no delivery to claim. */
    ghost predicate Exhausted(turn: Turn, deferred: set<EffectId>, now: Instant)
      reads this, service
    {
      && (forall k :: !Executable(k, deferred))
      && (forall e :: e in service.commands && e.intent in recoverable && InScope(e) ==> e in deferred)
      && (forall wanted, m :: wanted in turn.egress && m in wanted ==> m.id in service.messages)
      && (forall f, k :: f in ClaimOrder(scope) ==> !Eligible(service.View(), k, f, now))
    }

    ghost predicate InScope(e: EffectId)
      reads this, service
    {
      e.messageId in service.messages && (scope.Some? ==> service.messages[e.messageId].correlation == scope.value)
    }

    /** What the records show where this turn makes the run raise. */
    ghost predicate Troubled(turn: Turn, now: Instant)
      reads this, service
    {
      || (exists wanted :: wanted in turn.egress && (Conflicts(service.View(), wanted) || Inadmissible(service.View(), wanted)))
      || ClaimFails(service.View(), owner, duration, scope, now)
      || Unhandled(service.View(), turn.registry)
      || (!turn.waits && Unreached(service.View()))
    }

    constructor (boundary: BoundaryService, id: string, max: nat, names: set<string>, correlation: Option<string>,
                 worker: string, lease: int, rank: string -> nat)
      requires Inv(boundary.View()) && id in boundary.jobs && JobSound(boundary.View(), boundary.jobs[id])
      requires boundary.jobs[id].activeTrigger.None?
      ensures Valid() && service == boundary && jobId == id && maxActions == max && committed == 0
      ensures recoverable == names && scope == correlation && owner == worker && duration == lease && order == rank
    {
      service, jobId, maxActions, recoverable, owner := boundary, id, max, names, worker;
      scope, duration, order := correlation, lease, rank;
      life, committed := 0, 0;
      new;
      IdleSpendsNothing(boundary.View(), boundary.jobs[id]);
    }

    /** One more transaction may commit before the process dies. */
    method Survives() returns (alive: bool)
      modifies this`life
      ensures alive <==> old(life) > 0
      ensures life == if alive then old(life) - 1 else 0
    {
      alive := life > 0;
      if alive { life := life - 1; }
    }

    // ------------------------------------------------- transactions of the loop

    /** Publish a new message, charging it to the occurrence. */
    method PublishCharged(m: Message) returns (published: bool)
      requires Valid() && m.Valid() && m.id !in service.messages && committed < maxActions
      modifies this`committed, service
      ensures Valid() && Standing(service.View(), jobId) == old(Standing(service.View(), jobId))
      ensures Accounts()
      ensures published ==> committed == old(committed) + 1 && service.messages == old(service.messages)[m.id := m]
      ensures !published ==> committed == old(committed) && service.View() == old(service.View())
      ensures !published ==> Trigger(service.View(), jobId).None? || !(CauseAdmits(service.View(), m) && ChildrenAdmit(service.View(), m))
      ensures service.commands == old(service.commands)
      ensures service.View() == After(old(service.View()), Publish(old(service.View()), m, Some(jobId)))
    {
      hide Budgeted, Publish, Work, CauseAdmits, ChildrenAdmit;
      PublishWork(service.View(), m, jobId, committed);
      PublicationRefused(service.View(), m, jobId, committed);
      PublishKeepsCommands(service.View(), m, Some(jobId));
      PublishBudgeted(service.View(), m, jobId, committed, After(service.View(), Publish(service.View(), m, Some(jobId))));
      var r := service.PublishMessage(m, Some(jobId));
      if r.Ok? {
        committed := committed + 1;
      }
      return r.Ok?;
    }

    /** Try one claim. */
    method TryClaim(now: Instant, f: Filter) returns (out: ClaimOutcome)
      requires Valid()
      modifies service
      ensures Valid() && service.jobs == old(service.jobs)
      ensures Accounts()
      ensures Claims(old(service.View()), owner, now, duration, f, service.uuid, out, service.View())
      ensures out.Nothing? && f in ClaimOrder(scope) ==>
                service.View() == old(service.View()) && forall k :: !Eligible(service.View(), k, f, now)
      ensures out.Rejected? && f in ClaimOrder(scope) ==>
                service.View() == old(service.View()) && ClaimFails(service.View(), owner, duration, scope, now)
      ensures out.Leased? ==> Held(service.View(), out.lease, now) && Eligible(old(service.View()), out.lease.delivery, f, now)
      ensures service.commands == old(service.commands)
      ensures out.Leased? ==> && out.lease.delivery in service.deliveries
                              && service.deliveries[out.lease.delivery].status != Consumed
                              && out.lease.messageId == out.lease.delivery.messageId
    {
      hide Budgeted, Claims, Eligible, ClaimFails, Held;
      ghost var s := service.View();
      out := service.ClaimNext(owner, now, duration, f);
      ClaimBudgeted(s, jobId, committed, owner, now, duration, f, service.uuid, out, service.View());
      ClaimWork(s, owner, now, duration, f, service.uuid, out, service.View());
      ClaimAnswers(s, jobId, committed, scope, f, owner, now, duration, service.uuid, out, service.View());
    }

    /** Enrol claimed ingress before its acknowledgement can commit. */
    method EnrolAck(k: DeliveryId)
      requires Valid() && k in service.deliveries && service.deliveries[k].status != Consumed
      requires Trigger(service.View(), jobId).Some?
      modifies service`jobs
      ensures Valid() && jobId in service.jobs && k.messageId in service.jobs[jobId].acknowledgements
      ensures Accounts()
      ensures var job := old(service.jobs)[jobId];
              service.jobs == old(service.jobs)[jobId := if k.messageId in job.acknowledgements then job
                                                         else job.(acknowledgements := job.acknowledgements + [k.messageId])]
      ensures Standing(service.View(), jobId) == old(Standing(service.View(), jobId))
    {
      hide Budgeted;
      var job := service.jobs[jobId];
      if k.messageId !in job.acknowledgements {
        EnrolAckBudgeted(service.View(), jobId, committed, k);
        service.jobs := service.jobs[jobId := job.(acknowledgements := job.acknowledgements + [k.messageId])];
      }
    }

    /** Acknowledge enrolled ingress: one action, or nothing at all. */
    method ConsumeEnrolled(lease: Lease, registry: Registry, now: Instant) returns (consumed: bool)
      requires Valid() && committed < maxActions
      requires lease.delivery in service.deliveries && service.deliveries[lease.delivery].status != Consumed
      requires jobId in service.jobs && lease.delivery.messageId in service.jobs[jobId].acknowledgements
      modifies this`committed, service
      ensures Valid() && service.jobs == old(service.jobs)
      ensures Accounts()
      ensures service.View() == After(old(service.View()), Consume(old(service.View()), lease, registry, now))
      ensures committed == old(committed) + if consumed then 1 else 0
      ensures consumed ==> lease.delivery in service.deliveries && service.deliveries[lease.delivery].status == Consumed
      ensures !consumed ==> service.View() == old(service.View())
      ensures !consumed && Held(service.View(), lease, now) ==> Helpless(service.View(), lease.delivery, registry)
      ensures old(service.commands).Keys <= service.commands.Keys
    {
      hide Budgeted, Consume, Work, Held, Helpless;
      ghost var s := service.View();
      ConsumeWork(s, jobId, committed, lease, registry, now);
      AcknowledgementRefused(s, jobId, committed, lease, registry, now);
      ConsumeBudgeted(s, jobId, committed, lease, registry, now, After(s, Consume(s, lease, registry, now)));
      var r := service.ConsumeDelivery(lease, registry, now);
      if r.Ok? {
        ConsumeConsumes(s, lease, registry, now);
        committed := committed + 1;
      }
      return r.Ok?;
    }

    /** Enrol a pending effect before its domain transition. */
    method EnrolEffect(e: EffectId)
      requires Valid() && e in service.commands && Trigger(service.View(), jobId).Some?
      modifies service`jobs
      ensures Valid() && jobId in service.jobs && e in service.jobs[jobId].effects
      ensures Accounts()
      ensures var job := old(service.jobs)[jobId];
              service.jobs == old(service.jobs)[jobId := if e in job.effects then job
                                                         else job.(effects := job.effects + [e])]
      ensures Standing(service.View(), jobId) == old(Standing(service.View(), jobId))
    {
      hide Budgeted;
      var job := service.jobs[jobId];
      if e !in job.effects {
        EnrolEffectBudgeted(service.View(), jobId, committed, e);
        service.jobs := service.jobs[jobId := job.(effects := job.effects + [e])];
      }
    }

    /** One committed domain transition. */
    method SaveWorld(key: EntityKey, entity: Entity)
      requires Valid()
      modifies service`entities
      ensures Valid() && service.View() == SaveEntity(old(service.View()), key, entity)
      ensures Accounts()
    {
      hide Budgeted;
      WorldBudgeted(service.View(), jobId, committed, key, entity);
      if key !in service.entities || service.entities[key].version < entity.version {
        service.entities := service.entities[key := entity];
      }
    }

    /** Certify the effect, or retire its Command where no certificate exists
        for that intent: one action, or nothing at all. */
    method Finish(e: EffectId, now: Instant) returns (done: bool)
      requires Valid() && committed < maxActions
      requires e in service.commands && jobId in service.jobs && e in service.jobs[jobId].effects
      modifies this`committed, service
      ensures Valid() && service.jobs == old(service.jobs)
      ensures Accounts()
      ensures service.View() == FinishEffect(old(service.View()), e, now)
      ensures committed == old(committed) + if done then 1 else 0
      ensures done ==> e !in service.commands
      ensures !done ==> service.View() == old(service.View()) && MissesTerminal(service.View(), e)
      ensures service.entities == old(service.entities)
      ensures old(service.commands).Keys - {e} <= service.commands.Keys
    {
      hide Budgeted, Complete, Work, Certifiable, MissesTerminal;
      FinishWork(service.View(), jobId, committed, e, now);
      CertificationRefused(service.View(), jobId, committed, e, now);
      FinishBudgeted(service.View(), jobId, committed, e, now);
      if service.commands[e].name in service.terminals {
        var r := service.CompleteEffect(e, now);
        done := r.Ok?;
      } else {
        service.commands := service.commands - {e};
        done := true;
      }
      if done {
        committed := committed + 1;
      }
    }

    // --------------------------------------------------------------- the recount

    /** Actions already committed under the active occurrence, read back from
        durable records. It raises exactly when a record was lost; the guard
        against an overrun budget never fires. */
    method Recount() returns (r: Result<nat, Fault>)
      requires Valid()
      ensures r.Ok? ==> r.value == committed
      ensures r.Err? <==> LostRecord(service.View(), service.jobs[jobId])
    {
      hide Paired, Fenced, EffectsSound, CausationSound, CausallyClosed, JobSound, LostAck, LostEffect, SpentAcks, SpentEffects;
      var s, job := service.View(), service.jobs[jobId];
      var published := CountPublications(s, job);
      if published.None? {
        return Err(InconsistentRecord);
      }
      var acknowledged := CountAcks(s, job);
      if acknowledged.None? {
        return Err(InconsistentRecord);
      }
      var executed := CountEffects(s, job);
      if executed.None? {
        return Err(InconsistentRecord);
      }
      var actions := published.value + acknowledged.value + executed.value;
      if actions > maxActions {
        return Err(InconsistentRecord);
      }
      return Ok(actions);
    }

    // ------------------------------------------------------------- the work loop

    /** An accepted effect this turn may execute. */
    predicate Executable(k: DeliveryId, skipped: set<EffectId>)
      reads this, service
    {
      && k in service.deliveries && service.deliveries[k].status == Consumed && k in service.consumptions
      && var e := service.consumptions[k].effect;
         && e in service.commands && service.commands[e].name in recoverable && e !in skipped
         && k.messageId in service.messages
         && (scope.Some? ==> service.messages[k.messageId].correlation == scope.value)
    }

    /** The delivery is acknowledged, and its Command of a recoverable intent still
        waits, within the run's correlation. */
    ghost predicate Pending(s: Store, k: DeliveryId, skipped: set<EffectId>)
    {
      && k in s.deliveries && s.deliveries[k].status == Consumed && k in s.consumptions && k.messageId in s.messages
      && s.consumptions[k].effect in s.commands && s.commands[s.consumptions[k].effect].name in recoverable
      && s.consumptions[k].effect !in skipped
      && (scope.None? || s.messages[k.messageId].correlation == scope.value)
    }

    predicate Precedes(j: DeliveryId, k: DeliveryId)
      reads this, service
    {
      && j.messageId in service.messages && k.messageId in service.messages
      && var a, b := service.messages[j.messageId].producedAt, service.messages[k.messageId].producedAt;
         a < b || (a == b && order(j.messageId) <= order(k.messageId))
    }

    /** The first executable effect by production time, then message identity. */
    method NextPending(skipped: set<EffectId>) returns (found: Option<DeliveryId>)
      ensures found.None? ==> forall k :: !Executable(k, skipped)
      ensures found.None? ==> forall k :: Pending(service.View(), k, skipped) ==> false
      ensures found.Some? ==> Pending(service.View(), found.value, skipped)
      ensures found.Some? ==> forall k :: Pending(service.View(), k, skipped) ==>
                var a, b := service.messages[found.value.messageId].producedAt, service.messages[k.messageId].producedAt;
                a < b || (a == b && order(found.value.messageId) <= order(k.messageId))
      ensures found.Some? ==> Executable(found.value, skipped)
                              && forall k :: Executable(k, skipped) ==> Precedes(found.value, k)
    {
      found := None;
      var todo := service.deliveries.Keys;
      while todo != {}
        invariant todo <= service.deliveries.Keys
        invariant forall k :: k in service.deliveries && k !in todo && Executable(k, skipped) ==>
                    found.Some? && Precedes(found.value, k)
        invariant found.Some? ==> Executable(found.value, skipped)
        decreases todo
      {
        var k :| k in todo;
        todo := todo - {k};
        if Executable(k, skipped) && (found.None? || !Precedes(found.value, k)) {
          found := Some(k);
        }
      }
      forall k ensures Pending(service.View(), k, skipped) <==> Executable(k, skipped) { }
      forall k | found.Some? && Pending(service.View(), k, skipped)
        ensures var a, b := service.messages[found.value.messageId].producedAt, service.messages[k.messageId].producedAt;
                a < b || (a == b && order(found.value.messageId) <= order(k.messageId))
      {
        assert Executable(k, skipped) && Precedes(found.value, k);
      }
    }

    /** Publish one message in a transaction of its own. */
    method PublishMissing(m: Message) returns (stop: Option<Ended>)
      requires Valid() && m.Valid() && m.id !in service.messages && committed < maxActions
      modifies this`life, this`committed, service
      ensures Valid() && Standing(service.View(), jobId) == old(Standing(service.View(), jobId))
      ensures Accounts() && service.commands == old(service.commands)
      ensures stop.None? ==> committed == old(committed) + 1 && service.messages == old(service.messages)[m.id := m]
      ensures stop.Some? ==> committed == old(committed) && service.View() == old(service.View()) && stop.value in {Died, Raised}
      ensures stop == Some(Raised) ==>
                Trigger(service.View(), jobId).None? || !(CauseAdmits(service.View(), m) && ChildrenAdmit(service.View(), m))
      ensures stop == Some(Died) ==> life == 0
      ensures old(life) >= 1 ==> stop != Some(Died) && life >= old(life) - 1
    {
      hide Budgeted, Work, CauseAdmits, ChildrenAdmit, Publish;
      var alive := Survives();
      if !alive {
        return Some(Died);
      }
      var published := PublishCharged(m);
      return if published then None else Some(Raised);
    }

    /** Reconcile one egress: verify what is durable, publish what is missing,
        until the allowance is used up. `emitted` counts every message that was
        not durable before, so a message named twice is counted twice. */
    method ReconcileEgress(wanted: seq<Message>, maxNew: nat) returns (stop: Option<Ended>, emitted: nat)
      requires Valid() && committed + maxNew <= maxActions && forall m :: m in wanted ==> m.Valid()
      modifies this`life, this`committed, service
      ensures Valid() && Standing(service.View(), jobId) == old(Standing(service.View(), jobId))
      ensures Accounts()
      ensures old(committed) <= committed <= old(committed) + maxNew
      ensures stop.Some? ==> !stop.value.Finished?
      ensures stop == Some(Raised) ==>
                || Trigger(service.View(), jobId).None?
                || Conflicts(service.View(), wanted) || Inadmissible(service.View(), wanted)
      ensures stop == Some(Died) ==> life == 0
      ensures old(life) >= |wanted| ==> stop != Some(Died) && life >= old(life) - |wanted|
      ensures service.commands == old(service.commands)
      ensures stop.None? ==> committed <= old(committed) + emitted
      ensures stop.None? && emitted == 0 && maxNew > 0 ==>
                service.View() == old(service.View()) && forall m :: m in wanted ==> m.id in service.messages
      ensures stop.None? && DistinctIds(wanted) ==> committed == old(committed) + emitted
      ensures stop.None? && emitted < maxNew ==> forall m :: m in wanted ==> m.id in service.messages
    {
      hide Budgeted, Work, Slack, CauseAdmits, ChildrenAdmit, Conflicts, Inadmissible, Standing, Trigger;
      var before := service.messages.Keys;
      var remaining := maxNew;
      emitted := 0;
      var i := 0;
      while i < |wanted|
        invariant i <= |wanted| && Valid() && Accounts() && service.commands == old(service.commands)
        invariant old(life) >= |wanted| ==> life >= old(life) - i
        invariant emitted == 0 ==> service.View() == old(service.View()) && remaining == maxNew
        invariant forall j :: 0 <= j < i ==> wanted[j].id in service.messages
        invariant Standing(service.View(), jobId) == old(Standing(service.View(), jobId))
        invariant 0 <= remaining <= maxNew && committed + remaining == old(committed) + maxNew
        invariant committed <= old(committed) + emitted
        invariant DistinctIds(wanted) ==> committed == old(committed) + emitted
        invariant before <= service.messages.Keys
        invariant forall id :: id in service.messages && id !in before ==> exists j :: 0 <= j < i && wanted[j].id == id
        decreases |wanted| - i
      {
        var m := wanted[i];
        i := i + 1;
        if m.id in service.messages {
          if service.messages[m.id] != m.(producedAt := service.messages[m.id].producedAt) {
            ConflictFound(service.View(), wanted, m);
            return Some(Raised), emitted;
          }
        } else {
          if remaining == 0 {
            return None, emitted;
          }
          remaining := remaining - 1;
          stop := PublishMissing(m);
          if stop.Some? {
            if stop == Some(Raised) && Trigger(service.View(), jobId).Some? {
              RefusalFound(service.View(), wanted, m);
            }
            return;
          }
        }
        if m.id !in before {
          emitted := emitted + 1;
        }
      }
      return None, emitted;
    }

    /** Execute one accepted effect, enrolling it first. */
    method ExecutePending(e: EffectId, turn: Turn, now: Instant) returns (stop: Option<Ended>)
      requires Valid() && e in service.commands && committed < maxActions && Trigger(service.View(), jobId).Some?
      modifies this`life, this`committed, service
      ensures Valid() && Standing(service.View(), jobId) == old(Standing(service.View(), jobId))
      ensures Accounts()
      ensures old(committed) <= committed
      ensures stop.Some? ==> !stop.value.Finished?
      ensures stop == Some(Raised) ==> !turn.waits && Unreached(service.View())
      ensures stop == Some(Died) ==> life == 0
      ensures old(life) >= |turn.world| + 2 ==> stop != Some(Died) && life >= old(life) - |turn.world| - 2
      ensures if turn.waits then service.commands == old(service.commands) else old(service.commands).Keys - {e} <= service.commands.Keys
      ensures stop.None? ==> committed == old(committed) + if turn.waits then 0 else 1
      ensures stop.None? && !turn.waits ==> e !in service.commands
      ensures stop.None? ==> service.entities == WorldAfter(old(service.entities), turn.world)
      ensures stop.None? ==> jobId in service.jobs && e in service.jobs[jobId].effects
    {
      hide Budgeted, Work, FinishEffect, WorldAfter, Unreached, MissesTerminal;
      var alive := Survives();
      if !alive {
        return Some(Died);
      }
      EnrolEffect(e);
      alive := Transition(e, turn.world);
      if !alive {
        return Some(Died);
      }
      if turn.waits {
        return None;
      }
      alive := Survives();
      if !alive {
        return Some(Died);
      }
      var done := Finish(e, now);
      if !done {
        UnreachedFound(service.View(), e);
      }
      return if done then None else Some(Raised);
    }

    /** The committed domain transitions of one effect. */
    method Transition(ghost e: EffectId, world: seq<(EntityKey, Entity)>) returns (alive: bool)
      requires Valid() && e in service.commands && jobId in service.jobs && e in service.jobs[jobId].effects
      modifies this`life, service`entities
      ensures Valid() && Accounts()
      ensures !alive ==> life == 0
      ensures old(life) >= |world| ==> alive && life >= old(life) - |world|
      ensures alive ==> service.entities == WorldAfter(old(service.entities), world)
    {
      hide Budgeted, Work, WorldAfter;
      NothingYet(service.entities);
      for i := 0 to |world|
        invariant Valid() && Accounts()
        invariant service.entities == WorldAfter(old(service.entities), world[..i])
        invariant old(life) >= |world| ==> life >= old(life) - i
      {
        alive := Survives();
        if !alive {
          return;
        }
        WorldGrows(old(service.entities), world, i);
        SaveWorld(world[i].0, world[i].1);
      }
      assert world[..|world|] == world;
      return true;
    }

    /** The i-th claim finds this delivery, and none before it finds any. */
    ghost predicate FirstToLease(s: Store, i: nat, k: DeliveryId, now: Instant)
    {
      && i < |ClaimOrder(scope)| && Eligible(s, k, ClaimOrder(scope)[i], now)
      && forall j, x :: 0 <= j < i ==> !Eligible(s, x, ClaimOrder(scope)[j], now)
    }

    /** Try the claims in order until one is leased. */
    method ClaimFirst(now: Instant) returns (stop: Option<Ended>, lease: Option<Lease>)
      requires Valid()
      modifies this`life, service
      ensures Valid() && service.jobs == old(service.jobs)
      ensures Accounts()
      ensures stop.Some? ==> !stop.value.Finished? && lease.None?
      ensures stop == Some(Raised) ==> ClaimFails(service.View(), owner, duration, scope, now)
      ensures stop == Some(Died) ==> life == 0
      ensures old(life) >= 5 ==> stop != Some(Died) && life >= old(life) - 5
      ensures service.commands == old(service.commands)
      ensures lease.Some? ==> Held(service.View(), lease.value, now)
      ensures stop.None? && lease.None? ==>
                && service.View() == old(service.View())
                && forall f, k :: f in ClaimOrder(scope) ==> !Eligible(service.View(), k, f, now)
      ensures lease.Some? ==> && lease.value.delivery in service.deliveries
                              && service.deliveries[lease.value.delivery].status != Consumed
                              && lease.value.messageId == lease.value.delivery.messageId
      ensures lease.Some? ==> exists i :: 0 <= i < |ClaimOrder(scope)| && FirstToLease(old(service.View()), i, lease.value.delivery, now)
    {
      hide Budgeted, ClaimOrder, Eligible;
      var filters := ClaimOrder(scope);
      FiveClaims(scope);
      for i := 0 to |filters|
        invariant Valid() && service.View() == old(service.View()) && committed == old(committed)
        invariant old(life) >= 5 ==> life >= old(life) - i
        invariant forall j, k :: 0 <= j < i ==> !Eligible(service.View(), k, filters[j], now)
      {
        var alive := Survives();
        if !alive {
          return Some(Died), None;
        }
        var out := TryClaim(now, filters[i]);
        match out {
          case Rejected(_) => return Some(Raised), None;
          case Leased(held) =>
            assert FirstToLease(old(service.View()), i, held.delivery, now);
            return None, Some(held);
          case Nothing =>
        }
      }
      return None, None;
    }

    /** Enrol claimed ingress, then acknowledge it. */
    method Accept(lease: Lease, turn: Turn, now: Instant) returns (stop: Option<Ended>)
      requires Valid() && committed < maxActions && Trigger(service.View(), jobId).Some?
      requires lease.delivery in service.deliveries && service.deliveries[lease.delivery].status != Consumed
      modifies this`life, this`committed, service
      ensures Valid() && Standing(service.View(), jobId) == old(Standing(service.View(), jobId))
      ensures Accounts()
      ensures old(committed) <= committed
      ensures stop.Some? ==> !stop.value.Finished?
      ensures stop == Some(Raised) && old(Held(service.View(), lease, now)) ==> Unhandled(service.View(), turn.registry)
      ensures stop == Some(Died) ==> life == 0
      ensures old(life) >= 2 ==> stop != Some(Died) && life >= old(life) - 2
      ensures old(service.commands).Keys <= service.commands.Keys
      ensures stop.None? ==> committed == old(committed) + 1
      ensures stop.None? ==> jobId in service.jobs && lease.delivery.messageId in service.jobs[jobId].acknowledgements
      ensures stop.None? ==> lease.delivery in service.deliveries && service.deliveries[lease.delivery].status == Consumed
    {
      hide Budgeted, Work;
      var alive := Survives();
      if !alive {
        return Some(Died);
      }
      ghost var s := service.View();
      EnrolAck(lease.delivery);
      StillHeld(s, service.View(), lease, now);
      alive := Survives();
      if !alive {
        return Some(Died);
      }
      var consumed := ConsumeEnrolled(lease, turn.registry, now);
      return if consumed then None else Some(Raised);
    }

    /** The four egress reconciliations, stopping when the budget is used up. */
    method ReconcileAll(turn: Turn, spent: nat) returns (stop: Option<Ended>, actions: nat)
      requires Valid() && committed <= spent < maxActions && WellFormed(turn)
      modifies this`life, this`committed, service
      ensures Valid() && Standing(service.View(), jobId) == old(Standing(service.View(), jobId))
      ensures Accounts()
      ensures old(committed) <= committed
      ensures stop.Some? ==> !stop.value.Finished?
      ensures stop == Some(Raised) ==>
                || Trigger(service.View(), jobId).None?
                || exists wanted :: wanted in turn.egress && (Conflicts(service.View(), wanted) || Inadmissible(service.View(), wanted))
      ensures stop == Some(Died) ==> life == 0
      ensures old(life) >= Lengths(turn.egress) ==> stop != Some(Died) && life >= old(life) - Lengths(turn.egress)
      ensures service.commands == old(service.commands)
      ensures stop.None? ==> spent <= actions && committed <= actions
      ensures stop.None? && Orderly(turn) && old(committed) == spent ==> committed == actions
      ensures stop.None? && actions == spent ==>
                && service.View() == old(service.View())
                && forall wanted, m :: wanted in turn.egress && m in wanted ==> m.id in service.messages
    {
      hide Budgeted, Work, Slack;
      actions := spent;
      var i := 0;
      while i < |turn.egress| && actions < maxActions
        invariant i <= |turn.egress| && Valid() && Accounts() && service.commands == old(service.commands)
        invariant old(life) >= Lengths(turn.egress) ==> life >= old(life) - Lengths(turn.egress[..i])
        invariant actions == spent ==> service.View() == old(service.View())
        invariant actions == spent ==>
                    forall j, m :: 0 <= j < i && m in turn.egress[j] ==> m.id in service.messages
        invariant Standing(service.View(), jobId) == old(Standing(service.View(), jobId))
        invariant old(committed) <= committed <= actions && spent <= actions
        invariant Orderly(turn) && old(committed) == spent ==> committed == actions
        decreases |turn.egress| - i
      {
        var emitted;
        assert turn.egress[i] in turn.egress;
        LengthsGrow(turn.egress, i);
        LengthsUpTo(turn.egress, i + 1);
        stop, emitted := ReconcileEgress(turn.egress[i], maxActions - actions);
        if stop.Some? {
          return stop, actions;
        }
        actions := actions + emitted;
        i := i + 1;
      }
      LengthsUpTo(turn.egress, i);
      return None, actions;
    }

    /** With no effect to execute: publish what is missing, then claim and accept.
        `idle` where there was nothing to do at all. */
    method TakeIn(turn: Turn, spent: nat, ghost deferred: set<EffectId>, now: Instant)
      returns (stop: Option<Ended>, actions: nat, idle: bool)
      requires Valid() && committed <= spent < maxActions && WellFormed(turn) && Trigger(service.View(), jobId).Some?
      requires forall k :: !Executable(k, deferred)
      modifies this`life, this`committed, service
      ensures Valid() && Standing(service.View(), jobId) == old(Standing(service.View(), jobId))
      ensures Accounts() && old(committed) <= committed
      ensures stop.Some? ==> !stop.value.Finished?
      ensures stop.None? ==> spent <= actions && committed <= actions
      ensures stop.None? && Orderly(turn) && old(committed) == spent ==> committed == actions
      ensures stop.None? && idle ==> Exhausted(turn, deferred, now) && actions == spent
      ensures stop.None? && !idle ==> actions > spent
      ensures stop == Some(Raised) ==> Troubled(turn, now)
      ensures stop == Some(Died) ==> life == 0
      ensures old(life) >= Lengths(turn.egress) + 7 ==> stop != Some(Died) && life >= old(life) - Lengths(turn.egress) - 7
      ensures old(service.commands).Keys <= service.commands.Keys
    {
      hide Budgeted, WellFormed, Orderly, ClaimOrder, Work, Slack, Eligible, Conflicts, Inadmissible, ClaimFails, Unhandled, Unreached, Held, Lengths;
      idle := false;
      stop, actions := ReconcileAll(turn, spent);
      if stop.Some? || actions >= maxActions {
        return;
      }
      var lease;
      stop, lease := ClaimFirst(now);
      if stop.Some? {
        return;
      }
      if lease.None? {
        idle := actions == spent;
        if idle {
          assert service.View() == old(service.View());
          forall k ensures !Executable(k, deferred) {
            assert !old(Executable(k, deferred));
          }
          forall e | e in service.commands && e.intent in recoverable && InScope(e) ensures e in deferred {
            CommandIsExecutable(service.View(), jobId, committed, e);
            assert !Executable(DeliveryOf(service.messages[e.messageId]), deferred);
          }
        }
        return;
      }
      stop := Accept(lease.value, turn, now);
      if stop.None? {
        actions := actions + 1;
      }
    }

    /** One turn of the loop: execute the first effect there is, or take in work. */
    method OneTurn(turn: Turn, spent: nat, skipped: set<EffectId>, now: Instant)
      returns (stop: Option<Ended>, actions: nat, deferred: set<EffectId>, idle: bool)
      requires Valid() && committed <= spent < maxActions && WellFormed(turn) && Trigger(service.View(), jobId).Some?
      requires skipped <= service.commands.Keys
      modifies this`life, this`committed, service
      ensures Valid() && Standing(service.View(), jobId) == old(Standing(service.View(), jobId))
      ensures Trigger(service.View(), jobId).Some?
      ensures Accounts() && old(committed) <= committed
      ensures stop.Some? ==> !stop.value.Finished?
      ensures stop.None? ==> spent <= actions && committed <= actions
      ensures stop.None? && Orderly(turn) && old(committed) == spent ==> committed == actions
      ensures skipped <= deferred <= service.commands.Keys && (deferred != skipped ==> turn.waits)
      ensures stop.None? && idle ==> Exhausted(turn, deferred, now) && actions == spent && deferred == skipped
      ensures stop.None? && !idle ==> actions + |deferred| > spent + |skipped|
      ensures stop == Some(Raised) ==> Troubled(turn, now)
      ensures stop == Some(Died) ==> life == 0
      ensures old(life) >= TurnCost(turn) ==> stop != Some(Died) && life >= old(life) - TurnCost(turn)
    {
      hide Budgeted, WellFormed, Orderly, Exhausted, Work, Slack, Unreached, Conflicts, Inadmissible, ClaimFails, Unhandled, Lengths;
      actions, deferred, idle := spent, skipped, false;
      var pending := NextPending(skipped);
      if pending.None? {
        stop, actions, idle := TakeIn(turn, spent, skipped, now);
        return;
      }
      var e := service.consumptions[pending.value].effect;
      stop := ExecutePending(e, turn, now);
      if stop.None? {
        if turn.waits {
          deferred := skipped + {e};
        } else {
          actions := spent + 1;
        }
      }
    }

    /** The turns of one run, from the actions counted so far. */
    method RunTurns(script: nat -> Turn, counted: nat, now: Instant) returns (ended: Ended, ghost turns: nat, ghost deferred: set<EffectId>)
      requires Valid() && counted == committed && Trigger(service.View(), jobId).Some? && forall i :: WellFormed(script(i))
      modifies this`life, this`committed, service
      ensures Valid() && Standing(service.View(), jobId) == old(Standing(service.View(), jobId))
      ensures Accounts() && old(committed) <= committed
      ensures ended.Finished? ==> committed <= ended.actions
      ensures ended.Finished? && (forall i :: Orderly(script(i))) ==> committed == ended.actions
      ensures ended.Raised? ==> 0 < turns <= maxActions && Troubled(script(turns - 1), now)
      ensures ended.Died? ==> life == 0
      ensures old(life) >= RunCost(script, maxActions) ==> !ended.Died? && life >= old(life) - RunCost(script, maxActions)
      ensures ended.Finished? ==> turns <= maxActions && turns <= ended.actions - counted + |deferred| + 1
      ensures ended.Finished? ==>
                || ended.actions >= maxActions
                || (turns > 0 && Exhausted(script(turns - 1), deferred, now))
                || (turns == maxActions && turns <= ended.actions - counted + |deferred|)
      ensures deferred <= service.commands.Keys && (deferred != {} ==> SomeWaits(script, turns))
    {
      hide Valid, LostRecord, WellFormed, Orderly, Exhausted, Troubled, Slack, TurnCost, RunCost, SomeWaits, Standing, Trigger;
      turns, deferred := 0, {};
      var actions := counted;
      RunCostStep(script, 0);
      ghost var tidy := forall i :: Orderly(script(i));
      var skipped: set<EffectId> := {};
      var turn := 0;
      while turn < maxActions && actions < maxActions
        invariant Valid() && Standing(service.View(), jobId) == old(Standing(service.View(), jobId))
        invariant Trigger(service.View(), jobId).Some?
        invariant old(committed) <= committed <= actions && Accounts()
        invariant tidy ==> committed == actions
        invariant turns == turn <= maxActions && deferred == skipped <= service.commands.Keys
        invariant turn <= actions - counted + |skipped|
        invariant old(life) >= RunCost(script, maxActions) ==> life >= old(life) - RunCost(script, turn)
        invariant skipped != {} ==> SomeWaits(script, turn)
        decreases maxActions - turn
      {
        var offer := script(turn);
        turn, turns := turn + 1, turns + 1;
        assert script(turn - 1) == offer && WellFormed(offer) && (tidy ==> Orderly(offer));
        RunCostGrows(script, turn, maxActions);
        RunCostStep(script, turn);
        var stop, idle;
        stop, actions, skipped, idle := OneTurn(offer, actions, skipped, now);
        WaitsGrow(script, turn - 1, deferred != {}, skipped != {});
        deferred := skipped;
        if stop.Some? {
          return stop.value, turns, deferred;
        }
        if idle {
          return Finished(actions), turns, deferred;
        }
      }
      RunCostGrows(script, turn, maxActions);
      return Finished(actions), turns, deferred;
    }

    /** One bounded run. `script` is what the domains offer, turn by turn. */
    method RunBounded(script: nat -> Turn, now: Instant) returns (ended: Ended, ghost turns: nat, ghost deferred: set<EffectId>)
      requires Valid() && Trigger(service.View(), jobId).Some? && forall i :: WellFormed(script(i))
      modifies this`life, this`committed, service
      ensures Valid() && Standing(service.View(), jobId) == old(Standing(service.View(), jobId))
      ensures Accounts()
      ensures old(committed) <= committed
      ensures ended.Finished? ==> committed <= ended.actions
      ensures ended.Finished? && (forall i :: Orderly(script(i))) ==> committed == ended.actions
      ensures old(LostRecord(service.View(), service.jobs[jobId])) ==> ended.Raised?
      ensures ended.Raised? ==>
                LostRecord(service.View(), service.jobs[jobId]) || (0 < turns <= maxActions && Troubled(script(turns - 1), now))
      ensures ended.Died? ==> life == 0
      ensures old(life) >= RunCost(script, maxActions) ==> !ended.Died? && life >= old(life) - RunCost(script, maxActions)
      ensures ended.Finished? ==> turns <= maxActions && turns <= ended.actions - old(committed) + |deferred| + 1
      ensures ended.Finished? ==>
                || ended.actions >= maxActions
                || (turns > 0 && Exhausted(script(turns - 1), deferred, now))
                || (turns == maxActions && turns <= ended.actions - old(committed) + |deferred|)
      ensures deferred <= service.commands.Keys
      ensures ended.Finished? && ended.actions < maxActions && turns < maxActions ==>
                turns > 0 && Exhausted(script(turns - 1), deferred, now)
      ensures deferred != {} ==> SomeWaits(script, turns)
    {
      hide Budgeted, LostRecord, WellFormed, Orderly, Exhausted, Troubled, Work, Slack, SomeWaits, RunCost;
      turns, deferred := 0, {};
      var counted := Recount();
      if counted.Err? {
        return Raised, turns, deferred;
      }
      ended, turns, deferred := RunTurns(script, counted.value, now);
    }

    // -------------------------------------------------------- a whole occurrence

    /** Make the occurrence the job's active one. */
    method StartTrigger(trigger: string)
      requires Valid() && Trigger(service.View(), jobId) in {None, Some(trigger)}
      modifies service`jobs
      ensures Valid() && Standing(service.View(), jobId) == (Some(trigger), old(service.jobs[jobId].completed))
      ensures Work(service.View()) == old(Work(service.View()))
    {
      hide Inv, Spent, JobSound, Work;
      ghost var s := service.View();
      StartBudgeted(s, jobId, committed, trigger);
      service.jobs := service.jobs[jobId := service.jobs[jobId].(activeTrigger := Some(trigger))];
      WorkIgnoresJobs(s, service.jobs);
      assert service.View() == s.(jobs := service.jobs);
    }

    /** Record the occurrence and clear its enrolments. */
    method CloseTrigger(trigger: string)
      requires Valid()
      modifies this`committed, service`jobs
      ensures Valid() && committed == 0 && Work(service.View()) == old(Work(service.View()))
      ensures service.jobs[jobId] == Job(None, [], [], [], old(service.jobs[jobId].completed) + [trigger])
    {
      hide Inv, Spent, JobSound, Work;
      ghost var s := service.View();
      CloseBudgeted(s, jobId, committed, trigger);
      service.jobs := service.jobs[jobId := Closed(service.jobs[jobId], trigger)];
      WorkIgnoresJobs(s, service.jobs);
      assert service.View() == s.(jobs := service.jobs);
      committed := 0;
    }

    /** Run one trigger in one process life. A trigger that already completed
        changes nothing; a trigger may not start while another is active. */
    method RunTrigger(trigger: string, script: nat -> Turn, now: Instant) returns (ended: Ended, ghost total: nat)
      requires Valid() && trigger != "" && forall i :: WellFormed(script(i))
      requires Trigger(service.View(), jobId).None? ==> committed == 0
      modifies this`life, this`committed, service
      ensures Valid() && (Trigger(service.View(), jobId).None? ==> committed == 0)
      ensures Work(service.View()) - old(Work(service.View())) == total - old(committed)
      ensures ended.Died? ==> life == 0
      ensures old(life) >= RunCost(script, maxActions) + 2 ==> !ended.Died?
      ensures ended.Raised? ==>
                || old(Trigger(service.View(), jobId)) !in {None, Some(trigger)}
                || LostRecord(service.View(), service.jobs[jobId])
                || exists i :: 0 <= i < maxActions && Troubled(script(i), now)
      ensures old(trigger in service.jobs[jobId].completed) ==>
                ended == Finished(0) && service.View() == old(service.View())
      ensures old(trigger !in service.jobs[jobId].completed && Trigger(service.View(), jobId) !in {None, Some(trigger)}) ==>
                ended == Raised && service.View() == old(service.View())
      ensures ended.Finished? && old(trigger !in service.jobs[jobId].completed) ==>
                && service.jobs[jobId] == Job(None, [], [], [], old(service.jobs[jobId].completed) + [trigger])
                && old(committed) <= total <= ended.actions && total <= maxActions
                && ((forall i :: Orderly(script(i))) ==> total == ended.actions)
      ensures !ended.Finished? ==>
                && total == committed && old(committed) <= committed
                && Trigger(service.View(), jobId) in {old(Trigger(service.View(), jobId)), Some(trigger)}
                && service.jobs[jobId].completed == old(service.jobs[jobId].completed)
    {
      hide Inv, Spent, JobSound, LostRecord, WellFormed, Orderly, Exhausted, Work, Troubled, RunCost;
      total := committed;
      var job := service.jobs[jobId];
      if trigger in job.completed {
        return Finished(0), total;
      }
      if job.activeTrigger != None && job.activeTrigger != Some(trigger) {
        return Raised, total;
      }
      var alive := Survives();
      if !alive {
        return Died, total;
      }
      StartTrigger(trigger);
      ghost var turns, deferred;
      ended, turns, deferred := RunBounded(script, now);
      total := committed;
      if !ended.Finished? {
        return;
      }
      alive := Survives();
      if !alive {
        return Died, total;
      }
      CloseTrigger(trigger);
    }

    /** One occurrence over any number of process deaths: each life resumes from
        the durable job alone, and together they never exceed the budget. */
    method RunOccurrence(trigger: string, lives: seq<nat>, scripts: nat -> nat -> Turn, now: nat -> Instant)
      returns (ended: Ended, ghost total: nat)
      requires Valid() && trigger != "" && forall n, i :: WellFormed(scripts(n)(i))
      requires Trigger(service.View(), jobId).None? && committed == 0 && trigger !in service.jobs[jobId].completed
      modifies this`life, this`committed, service
      ensures Valid() && total <= maxActions
      ensures Work(service.View()) - old(Work(service.View())) == total
      ensures ended.Died? && lives != [] ==> life == 0
      ensures lives != [] && lives[|lives| - 1] >= RunCost(scripts(|lives| - 1), maxActions) + 2 ==> !ended.Died?
      ensures ended.Raised? ==>
                || LostRecord(service.View(), service.jobs[jobId])
                || exists n, i :: 0 <= n < |lives| && 0 <= i < maxActions && Troubled(scripts(n)(i), now(n))
      ensures ended.Finished? ==> trigger in service.jobs[jobId].completed && total <= ended.actions
      ensures ended.Finished? && (forall n, i :: Orderly(scripts(n)(i))) ==> total == ended.actions
    {
      hide Inv, Spent, JobSound, LostRecord, WellFormed, Orderly, Exhausted, Work;
      ended, total := Died, 0;
      for n := 0 to |lives|
        invariant Valid() && (Trigger(service.View(), jobId).None? ==> committed == 0)
        invariant !ended.Finished? && total == committed
        invariant Work(service.View()) - old(Work(service.View())) == total
        invariant trigger !in service.jobs[jobId].completed
        invariant Trigger(service.View(), jobId) in {None, Some(trigger)}
        invariant ended.Died? && n > 0 ==> life == 0
        invariant n > 0 && lives[n - 1] >= RunCost(scripts(n - 1), maxActions) + 2 ==> !ended.Died?
        invariant ended.Raised? ==>
                    || LostRecord(service.View(), service.jobs[jobId])
                    || exists m, i :: 0 <= m < n && 0 <= i < maxActions && Troubled(scripts(m)(i), now(m))
      {
        life := lives[n];
        ended, total := RunTrigger(trigger, scripts(n), now(n));
        if ended.Finished? {
          return;
        }
      }
    }
  }

  // ------------------------------------------------------ the causes, from the records

  /** The lease is current at `now`, and nothing its message waits for is missing. */
  ghost predicate Held(s: Store, lease: Lease, now: Instant) {
    && lease.delivery in s.deliveries && Current(s.deliveries[lease.delivery], lease, now)
    && lease.delivery.messageId in s.messages && PredecessorDone(s, s.messages[lease.delivery.messageId])
  }

  lemma FiveClaims(scope: Option<string>)
    ensures |ClaimOrder(scope)| == 5
  {
  }

  lemma StillHeld(s: Store, s': Store, lease: Lease, now: Instant)
    requires s' == s.(jobs := s'.jobs)
    ensures Held(s', lease, now) == Held(s, lease, now)
  {
  }

  lemma PublicationRefused(s: Store, m: Message, jobId: string, spent: nat)
    requires Budgeted(s, jobId, spent) && m.Valid() && m.id !in s.messages
    ensures Publish(s, m, Some(jobId)).Err? ==> Trigger(s, jobId).None? || !(CauseAdmits(s, m) && ChildrenAdmit(s, m))
  {
    hide Inv, Spent, Publish, CauseAdmits, ChildrenAdmit;
    PublishExactly(s, m, Some(jobId));
  }

  lemma AcknowledgementRefused(s: Store, jobId: string, spent: nat, lease: Lease, r: Registry, now: Instant)
    requires Budgeted(s, jobId, spent) && lease.delivery in s.deliveries && s.deliveries[lease.delivery].status != Consumed
    ensures Consume(s, lease, r, now).Err? && Held(s, lease, now) ==> Helpless(s, lease.delivery, r)
    ensures s.commands.Keys <= After(s, Consume(s, lease, r, now)).commands.Keys
  {
    hide Inv, Spent, JobSound, Consume, PredecessorDone, Handles;
    ConsumeExactly(s, lease, r, now);
    ConsumeKeepsCommands(s, lease, r, now);
  }

  lemma ConsumeKeepsCommands(s: Store, lease: Lease, r: Registry, now: Instant)
    ensures s.commands.Keys <= After(s, Consume(s, lease, r, now)).commands.Keys
  {
    hide PredecessorReadiness, Resolve, HoldsClaim;
  }

  lemma CertificationRefused(s: Store, jobId: string, spent: nat, e: EffectId, at: Instant)
    requires Budgeted(s, jobId, spent) && e in s.commands
    ensures s.commands[e].name in s.terminals && Complete(s, e, at).Err? ==> MissesTerminal(s, e)
    ensures s.commands.Keys - {e} <= FinishEffect(s, e, at).commands.Keys && FinishEffect(s, e, at).entities == s.entities
  {
    hide Inv, Spent, JobSound, Certifiable, TerminalReached;
    CompleteExactly(s, e, at);
    PendingCommand(s, e);
  }

  lemma CommandIsExecutable(s: Store, jobId: string, spent: nat, e: EffectId)
    requires Budgeted(s, jobId, spent) && e in s.commands && e.messageId in s.messages
    ensures var k := DeliveryOf(s.messages[e.messageId]);
            && k in s.deliveries && s.deliveries[k].status == Consumed && k in s.consumptions && s.consumptions[k].effect == e
            && k.messageId == e.messageId && s.commands[e].name == e.intent
  {
    hide JobSound, Spent, CausationSound, CausallyClosed;
    assert CommandSound(s, e);
    EffectRecords(s, e);
    PendingCommand(s, e);
  }

  lemma ClaimAnswers(s: Store, jobId: string, spent: nat, scope: Option<string>, f: Filter, owner: string, now: Instant, duration: int,
                     uuid: DeliveryId -> nat, out: ClaimOutcome, s': Store)
    requires Budgeted(s, jobId, spent) && Claims(s, owner, now, duration, f, uuid, out, s')
    ensures s'.commands == s.commands
    ensures out.Nothing? ==> s' == s && forall k :: !Eligible(s, k, f, now)
    ensures out.Rejected? ==> s' == s
    ensures out.Rejected? && f in ClaimOrder(scope) ==> ClaimFails(s, owner, duration, scope, now)
    ensures out.Leased? ==> Held(s', out.lease, now) && Eligible(s, out.lease.delivery, f, now)
  {
    hide Spent, JobSound, Paired, Fenced, CausationSound, EffectsSound, CausallyClosed;
    hide Claims, Eligible, Held, ClaimFails, NewLease;
    ClaimWrites(s, owner, now, duration, f, uuid, out, s');
    if out.Rejected? {
      if f in ClaimOrder(scope) {
        RejectedClaim(s, scope, f, owner, now, duration, uuid, out, s');
      }
    } else {
      ClaimLeasesFirst(s, owner, now, duration, f, uuid, out, s');
      if out.Leased? {
        LeaseHeld(s, owner, now, duration, f, uuid, out, s');
      }
    }
  }

  lemma LeaseHeld(s: Store, owner: string, now: Instant, duration: int, f: Filter, uuid: DeliveryId -> nat, out: ClaimOutcome, s': Store)
    requires Inv(s) && Claims(s, owner, now, duration, f, uuid, out, s') && out.Leased? && Eligible(s, out.lease.delivery, f, now)
    ensures Held(s', out.lease, now)
  {
    hide Inv, Claims, Matches;
    ClaimWrites(s, owner, now, duration, f, uuid, out, s');
    ClaimLasts(s, owner, now, duration, f, uuid, out, s');
    LeasedRecord(s, out.lease.delivery);
    DoneStays(s, s', out.lease.delivery, s.messages[out.lease.delivery.messageId]);
    hide PredecessorDone;
  }

  lemma DoneStays(s: Store, s': Store, k: DeliveryId, m: Message)
    requires k in s.deliveries && s.deliveries[k].status != Consumed && k in s'.deliveries
    requires s' == s.(deliveries := s.deliveries[k := s'.deliveries[k]])
    ensures PredecessorDone(s, m) ==> PredecessorDone(s', m)
  {
  }

  lemma RejectedClaim(s: Store, scope: Option<string>, f: Filter, owner: string, now: Instant, duration: int,
                      uuid: DeliveryId -> nat, out: ClaimOutcome, s': Store)
    requires Inv(s) && Claims(s, owner, now, duration, f, uuid, out, s') && out.Rejected? && f in ClaimOrder(scope)
    ensures ClaimFails(s, owner, duration, scope, now)
  {
    hide Inv, ClaimRaises, TerminalLost, Blank;
    RaisesExactly(s, f, now);
    if !Blank(owner) && duration > 0 && scope != Some("") {
      OrderedClaimsAreValid(scope, f, owner, duration);
    }
    hide ClaimOrder, ClaimArgumentsValid;
  }

  lemma ConflictFound(s: Store, wanted: seq<Message>, m: Message)
    requires m in wanted && m.id in s.messages && s.messages[m.id] != m.(producedAt := s.messages[m.id].producedAt)
    ensures Conflicts(s, wanted)
  {
  }

  lemma RefusalFound(s: Store, wanted: seq<Message>, m: Message)
    requires m in wanted && m.id !in s.messages && !(CauseAdmits(s, m) && ChildrenAdmit(s, m))
    ensures Inadmissible(s, wanted)
  {
  }

  lemma UnreachedFound(s: Store, e: EffectId)
    requires e in s.commands && MissesTerminal(s, e)
    ensures Unreached(s)
  {
  }

  lemma OrderedClaimsAreValid(scope: Option<string>, f: Filter, owner: string, duration: int)
    requires f in ClaimOrder(scope) && !Blank(owner) && duration > 0 && scope != Some("")
    ensures ClaimArgumentsValid(owner, duration, f)
  {
    hide Blank;
  }
}
