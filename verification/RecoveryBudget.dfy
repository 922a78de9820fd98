/**
 What a recurring recovery occurrence has spent, read back from durable records:
 publications, acknowledgements and executed effects enrolled in its job.
 */
module RecoveryBudget {
  import opened Outcomes
  import opened BoundaryModel
  import opened BoundaryProtocol
  import opened BoundaryCausation
  import opened BoundaryInvariants
  import BoundaryTheorems

  // ------------------------------------------------------------ what was spent

  function SpentAcks(s: Store, job: Job): set<string> {
    set id | id in job.acknowledgements && IsConsumed(s, id)
  }

  /** Executed effects: their Command is gone, certified or retired. */
  function SpentEffects(s: Store, job: Job): set<EffectId> {
    set e | e in job.effects && e !in s.commands
  }

  /** Actions durably committed under the occurrence. */
  function Spent(s: Store, job: Job): nat {
    |job.publications| + |SpentAcks(s, job)| + |SpentEffects(s, job)|
  }

  /** Enrolments refer to real records, and an idle job has none. */
  ghost predicate JobSound(s: Store, job: Job) {
    && Distinct(job.publications) && Distinct(job.acknowledgements) && Distinct(job.effects)
    && (job.activeTrigger.None? ==> job.publications == [] && job.acknowledgements == [] && job.effects == [])
    && (forall id :: id in job.publications ==> id in s.messages)
    && (forall id :: id in job.acknowledgements ==> id in s.messages)
    && (forall e :: e in job.effects ==> Acknowledged(s, e))
  }

  // ------------------------------------------------------------------- recount

  /** Deliveries of one message, as the recount scans for them. */
  function DeliveriesFor(s: Store, id: string): set<DeliveryId> {
    set k | k in s.deliveries && s.deliveries[k].messageId == id
  }

  predicate PublicationCounts(s: Store, id: string) {
    && id in s.messages && |DeliveriesFor(s, id)| == 1
    && forall k :: k in DeliveriesFor(s, id) ==> s.deliveries[k].contract == s.messages[id].contract
  }

  /** Whether one enrolled acknowledgement counts; None where the recount raises. */
  function AckVerdict(s: Store, id: string): Option<bool> {
    if |DeliveriesFor(s, id)| != 1 then None
    else
      var k := Only(DeliveriesFor(s, id));
      var d := s.deliveries[k];
      if d.status == Consumed then
        if k in s.consumptions && d.effect == Some(s.consumptions[k].effect) && id in s.messages
           && (s.consumptions[k].effect in s.commands || s.consumptions[k].effect in s.certificates)
        then Some(true) else None
      else if k in s.consumptions then None
      else Some(false)
  }

  function Only(ks: set<DeliveryId>): (k: DeliveryId)
    requires |ks| == 1
    ensures ks == {k}
  {
    SingletonUnique(ks);
    var k :| k in ks;
    k
  }

  lemma SingletonUnique(ks: set<DeliveryId>)
    requires |ks| == 1
    ensures exists k :: ks == {k}
    ensures forall j, k :: j in ks && k in ks ==> j == k
  {
    var k :| k in ks;
    assert |ks - {k}| == 0;
    assert ks == {k} + (ks - {k});
  }

  /** Whether one enrolled effect counts; None where the recount raises. */
  function EffectVerdict(s: Store, e: EffectId): Option<bool> {
    if e !in s.certificates then
      if e in s.commands then Some(false) else None
    else if e in s.commands then None
    else
      var proof := s.certificates[e];
      if proof.effect != e || |DeliveriesFor(s, proof.messageId)| != 1 then None
      else
        var k := Only(DeliveriesFor(s, proof.messageId));
        if k in s.consumptions && s.consumptions[k].effect == e then Some(true) else None
  }

  /** Enrolled work whose records were both retired: a resume cannot account for it. */
  ghost predicate LostRecord(s: Store, job: Job) {
    || (exists id :: id in job.acknowledgements && LostAck(s, id))
    || (exists e :: e in job.effects && LostEffect(s, Some(e)))
  }

  /** This acknowledgement's effect has neither Command nor certificate left. */
  predicate LostAck(s: Store, id: string) {
    IsConsumed(s, id) && LostEffect(s, s.deliveries[DeliveryOf(s.messages[id])].effect)
  }

  predicate LostEffect(s: Store, e: Option<EffectId>) {
    e.Some? ==> e.value !in s.commands && e.value !in s.certificates
  }

  lemma DeliveriesOfStored(s: Store, id: string)
    requires Paired(s) && Fenced(s) && id in s.messages
    ensures DeliveriesFor(s, id) == {DeliveryOf(s.messages[id])}
    ensures s.deliveries[DeliveryOf(s.messages[id])].contract == s.messages[id].contract
  {
    var k := DeliveryOf(s.messages[id]);
    assert DeliverySound(s, k);
    forall j | j in DeliveriesFor(s, id) ensures j == k {
      assert DeliverySound(s, j);
    }
  }

  lemma PublicationsCount(s: Store, id: string)
    requires Paired(s) && Fenced(s) && id in s.messages
    ensures PublicationCounts(s, id)
  {
    DeliveriesOfStored(s, id);
  }

  lemma AckCounts(s: Store, id: string)
    requires Paired(s) && Fenced(s) && id in s.messages
    ensures AckVerdict(s, id) == if LostAck(s, id) then None else Some(IsConsumed(s, id))
  {
    DeliveriesOfStored(s, id);
    assert DeliverySound(s, DeliveryOf(s.messages[id]));
  }

  lemma EffectCounts(s: Store, e: EffectId)
    requires Paired(s) && Fenced(s) && EffectsSound(s) && Acknowledged(s, e)
    ensures EffectVerdict(s, e) == if LostEffect(s, Some(e)) then None else Some(e !in s.commands)
  {
    hide Paired, Fenced, EffectsSound, DeliveriesFor;
    DeliveriesOfStored(s, e.messageId);
    EffectRecords(s, e);
  }

  lemma EffectRecords(s: Store, e: EffectId)
    requires Fenced(s) && EffectsSound(s) && Acknowledged(s, e)
    ensures DeliveryOf(s.messages[e.messageId]) in s.consumptions
    ensures s.consumptions[DeliveryOf(s.messages[e.messageId])].effect == e
    ensures e in s.certificates ==> e !in s.commands && s.certificates[e].effect == e && s.certificates[e].messageId == e.messageId
  {
    assert DeliverySound(s, DeliveryOf(s.messages[e.messageId]));
    assert e in s.certificates ==> CertificateSound(s, e);
  }

  // --------------------------------------------- how transactions change the sum

  /** Evidence growth keeps a job's enrolments sound. */
  lemma JobSoundPersists(s: Store, s': Store, job: Job)
    requires Extends(s, s') && JobSound(s, job)
    ensures JobSound(s', job)
  {
    forall e | e in job.effects ensures Acknowledged(s', e) {
      AcknowledgedPersists(s, s', e);
    }
  }

  /** Two stores in which the same enrolled work is done. */
  lemma SpentUnchanged(s: Store, s': Store, job: Job)
    requires forall id :: id in job.acknowledgements ==> IsConsumed(s, id) == IsConsumed(s', id)
    requires forall e :: e in job.effects ==> (e in s.commands <==> e in s'.commands)
    ensures Spent(s', job) == Spent(s, job)
  {
    assert SpentAcks(s, job) == SpentAcks(s', job);
    assert SpentEffects(s, job) == SpentEffects(s', job);
  }

  /** Publishing a new message under the job costs exactly one action. */
  lemma PublicationSpends(s: Store, m: Message, jobId: string, s': Store)
    requires Inv(s) && jobId in s.jobs && JobSound(s, s.jobs[jobId])
    requires s' == After(s, Publish(s, m, Some(jobId))) && Publish(s, m, Some(jobId)).Ok? && m.id !in s.messages
    ensures m.id !in s.jobs[jobId].publications
    ensures s'.jobs == s.jobs[jobId := s.jobs[jobId].(publications := s.jobs[jobId].publications + [m.id])]
    ensures Spent(s', s'.jobs[jobId]) == Spent(s, s.jobs[jobId]) + 1
  {
    PublishShape(s, m, Some(jobId));
    PublishCharges(s, m, jobId, s');
    PublicationSpendsOne(s, m, s', s.jobs[jobId]);
  }

  lemma PublicationSpendsOne(s: Store, m: Message, s': Store, job: Job)
    requires Paired(s) && JobSound(s, job) && Published(s, m, s') && s'.commands == s.commands
    ensures Spent(s', job.(publications := job.publications + [m.id])) == Spent(s, job) + 1
  {
    var job' := job.(publications := job.publications + [m.id]);
    SpentUnchanged(s, s', job);
    assert SpentAcks(s', job') == SpentAcks(s', job) && SpentEffects(s', job') == SpentEffects(s', job);
  }

  lemma PublishCharges(s: Store, m: Message, jobId: string, s': Store)
    requires s' == After(s, Publish(s, m, Some(jobId))) && Publish(s, m, Some(jobId)).Ok? && m.id !in s.messages
    ensures jobId in s.jobs && m.id !in s.jobs[jobId].publications
    ensures s'.jobs == s.jobs[jobId := s.jobs[jobId].(publications := s.jobs[jobId].publications + [m.id])]
    ensures s'.commands == s.commands
  {
  }

  /** A lease costs nothing. */
  lemma LeaseIsFree(s: Store, k: DeliveryId, owner: string, now: Instant, duration: int, s': Store, job: Job)
    requires Paired(s) && Released(s, k, owner, now, duration, s')
    ensures Spent(s', job) == Spent(s, job)
  {
    SpentUnchanged(s, s', job);
  }

  /** Enrolling unconsumed ingress costs nothing until it is acknowledged. */
  lemma EnrolAckIsFree(s: Store, job: Job, id: string)
    requires id !in job.acknowledgements && !IsConsumed(s, id)
    ensures Spent(s, job.(acknowledgements := job.acknowledgements + [id])) == Spent(s, job)
  {
    var job' := job.(acknowledgements := job.acknowledgements + [id]);
    assert SpentAcks(s, job') == SpentAcks(s, job) && SpentEffects(s, job') == SpentEffects(s, job);
  }

  lemma EnrolEffectIsFree(s: Store, job: Job, e: EffectId)
    requires e !in job.effects && e in s.commands
    ensures Spent(s, job.(effects := job.effects + [e])) == Spent(s, job)
  {
    var job' := job.(effects := job.effects + [e]);
    assert SpentAcks(s, job') == SpentAcks(s, job) && SpentEffects(s, job') == SpentEffects(s, job);
  }

  /** Acknowledging enrolled ingress costs exactly one action. */
  lemma AcknowledgementSpends(s: Store, k: DeliveryId, i: Intent, now: Instant, s': Store, job: Job)
    requires Paired(s) && JobSound(s, job)
    requires JustConsumed(s, k, i, now, s') && k.messageId in job.acknowledgements
    ensures Spent(s', job) == Spent(s, job) + 1
  {
    assert k == DeliveryOf(s.messages[k.messageId]);
    assert SpentAcks(s', job) == SpentAcks(s, job) + {k.messageId};
    assert k.messageId !in SpentAcks(s, job);
    var e := EffectOf(s.messages[k.messageId], i);
    assert !Acknowledged(s, e);
    assert SpentEffects(s', job) == SpentEffects(s, job);
  }

  /** Certifying or retiring an enrolled effect costs exactly one action. */
  lemma ExecutionSpends(s: Store, e: EffectId, s': Store, job: Job)
    requires e in job.effects && e in s.commands
    requires s'.messages == s.messages && s'.deliveries == s.deliveries && s'.commands == s.commands - {e}
    ensures Spent(s', job) == Spent(s, job) + 1
  {
    assert SpentAcks(s', job) == SpentAcks(s, job);
    assert SpentEffects(s', job) == SpentEffects(s, job) + {e};
    assert e !in SpentEffects(s, job);
  }

  lemma IdleSpendsNothing(s: Store, job: Job)
    requires JobSound(s, job) && job.activeTrigger.None?
    ensures Spent(s, job) == 0
  {
    assert SpentAcks(s, job) == {} && SpentEffects(s, job) == {};
  }

  // ------------------------------------------------------- counting by scanning

  /** Acknowledgements in the scanned prefix that count. */
  function AcksUpTo(s: Store, job: Job, n: nat): set<string>
    requires n <= |job.acknowledgements|
  {
    set i | 0 <= i < n && IsConsumed(s, job.acknowledgements[i]) :: job.acknowledgements[i]
  }

  lemma AcksUpToGrows(s: Store, job: Job, n: nat)
    requires Distinct(job.acknowledgements) && n < |job.acknowledgements|
    ensures var id := job.acknowledgements[n];
            |AcksUpTo(s, job, n + 1)| == |AcksUpTo(s, job, n)| + if IsConsumed(s, id) then 1 else 0
  {
    var id := job.acknowledgements[n];
    assert id !in AcksUpTo(s, job, n);
    assert AcksUpTo(s, job, n + 1) == AcksUpTo(s, job, n) + if IsConsumed(s, id) then {id} else {};
  }

  lemma AcksUpToAll(s: Store, job: Job)
    ensures AcksUpTo(s, job, 0) == {} && AcksUpTo(s, job, |job.acknowledgements|) == SpentAcks(s, job)
  {
  }

  method CountAcks(s: Store, job: Job) returns (count: Option<nat>)
    requires Paired(s) && Fenced(s) && JobSound(s, job)
    ensures count.Some? ==> count.value == |SpentAcks(s, job)|
    ensures count.None? <==> exists id :: id in job.acknowledgements && LostAck(s, id)
  {
    hide Paired, Fenced, AckVerdict, IsConsumed, LostAck, AcksUpTo, SpentAcks, Acknowledged;
    var actions := 0;
    AcksUpToAll(s, job);
    for i := 0 to |job.acknowledgements|
      invariant actions == |AcksUpTo(s, job, i)|
      invariant forall j :: 0 <= j < i ==> !LostAck(s, job.acknowledgements[j])
    {
      var id := job.acknowledgements[i];
      AckCounts(s, id);
      var verdict := AckVerdict(s, id);
      if verdict.None? {
        return None;
      }
      AcksUpToGrows(s, job, i);
      if verdict.value {
        actions := actions + 1;
      }
    }
    return Some(actions);
  }

  function EffectsUpTo(s: Store, job: Job, n: nat): set<EffectId>
    requires n <= |job.effects|
  {
    set i | 0 <= i < n && job.effects[i] !in s.commands :: job.effects[i]
  }

  lemma EffectsUpToGrows(s: Store, job: Job, n: nat)
    requires Distinct(job.effects) && n < |job.effects|
    ensures |EffectsUpTo(s, job, n + 1)| == |EffectsUpTo(s, job, n)| + if job.effects[n] !in s.commands then 1 else 0
  {
    var e := job.effects[n];
    assert e !in EffectsUpTo(s, job, n);
    assert EffectsUpTo(s, job, n + 1) == EffectsUpTo(s, job, n) + if e !in s.commands then {e} else {};
  }

  lemma EffectsUpToAll(s: Store, job: Job)
    ensures EffectsUpTo(s, job, 0) == {} && EffectsUpTo(s, job, |job.effects|) == SpentEffects(s, job)
  {
  }

  method CountEffects(s: Store, job: Job) returns (count: Option<nat>)
    requires Paired(s) && Fenced(s) && EffectsSound(s) && JobSound(s, job)
    ensures count.Some? ==> count.value == |SpentEffects(s, job)|
    ensures count.None? <==> exists e :: e in job.effects && LostEffect(s, Some(e))
  {
    hide Paired, Fenced, EffectsSound, EffectVerdict, LostEffect, EffectsUpTo, SpentEffects, Acknowledged;
    var actions := 0;
    EffectsUpToAll(s, job);
    for i := 0 to |job.effects|
      invariant actions == |EffectsUpTo(s, job, i)|
      invariant forall j :: 0 <= j < i ==> !LostEffect(s, Some(job.effects[j]))
    {
      var e := job.effects[i];
      EffectCounts(s, e);
      var verdict := EffectVerdict(s, e);
      if verdict.None? {
        return None;
      }
      EffectsUpToGrows(s, job, i);
      if verdict.value {
        actions := actions + 1;
      }
    }
    return Some(actions);
  }

  /** Publications enrolled in the job are durable, so each counts. */
  method CountPublications(s: Store, job: Job) returns (count: Option<nat>)
    requires Paired(s) && Fenced(s) && JobSound(s, job)
    ensures count == Some(|job.publications|)
  {
    hide Paired, Fenced, PublicationCounts, Acknowledged;
    var actions := 0;
    for i := 0 to |job.publications|
      invariant actions == i
    {
      PublicationsCount(s, job.publications[i]);
      if !PublicationCounts(s, job.publications[i]) {
        assert false;
        return None;
      }
      actions := actions + 1;
    }
    return Some(actions);
  }

  // ------------------------------------------------- each transaction's charge

  /** The store is sound and records exactly `spent` actions for the job. */
  ghost predicate Budgeted(s: Store, jobId: string, spent: nat) {
    Inv(s) && jobId in s.jobs && JobSound(s, s.jobs[jobId]) && spent == Spent(s, s.jobs[jobId])
  }

  function Trigger(s: Store, jobId: string): Option<string> {
    if jobId in s.jobs then s.jobs[jobId].activeTrigger else None
  }

  /** The part of the job no transaction inside an occurrence touches. */
  function Standing(s: Store, jobId: string): (Option<string>, seq<string>) {
    (Trigger(s, jobId), if jobId in s.jobs then s.jobs[jobId].completed else [])
  }

  /** A charged publication costs one action; one that raises costs nothing. */
  lemma PublishBudgeted(s: Store, m: Message, jobId: string, spent: nat, s': Store)
    requires Budgeted(s, jobId, spent) && m.Valid() && m.id !in s.messages
    requires s' == After(s, Publish(s, m, Some(jobId)))
    ensures var ok := Publish(s, m, Some(jobId)).Ok?;
            && Budgeted(s', jobId, spent + if ok then 1 else 0)
            && Standing(s', jobId) == Standing(s, jobId)
            && (ok ==> s'.messages == s.messages[m.id := m])
  {
    hide JobSound, Spent, Extends, DeliverySound, CausationSound, EffectsSound, CausallyClosed, CausationFault, DescendantsAgree;
    var job := s.jobs[jobId];
    PublishKeepsInv(s, m, Some(jobId), s');
    JobSoundPersists(s, s', job);
    if Publish(s, m, Some(jobId)).Ok? {
      PublishShape(s, m, Some(jobId));
      PublicationSpends(s, m, jobId, s');
      EnrolPublicationSound(s', job, m.id);
    }
  }

  lemma EnrolPublicationSound(s: Store, job: Job, id: string)
    requires JobSound(s, job) && id !in job.publications && id in s.messages && job.activeTrigger.Some?
    ensures JobSound(s, job.(publications := job.publications + [id]))
  {
  }

  /** A claim costs nothing. */
  lemma ClaimBudgeted(s: Store, jobId: string, spent: nat, owner: string, now: Instant, duration: int, f: Filter,
                      uuid: DeliveryId -> nat, out: ClaimOutcome, s': Store)
    requires Budgeted(s, jobId, spent) && Claims(s, owner, now, duration, f, uuid, out, s')
    ensures Budgeted(s', jobId, spent) && s'.jobs == s.jobs && s'.messages == s.messages
    ensures out.Leased? ==>
              && out.lease.delivery in s'.deliveries && s'.deliveries[out.lease.delivery].status != Consumed
              && out.lease.messageId == out.lease.delivery.messageId
  {
    hide JobSound, Spent, Extends, Claims;
    ClaimLeases(s, owner, now, duration, f, uuid, out, s');
    if out.Leased? {
      var k := out.lease.delivery;
      ClaimKeepsInv(s, k, owner, now, duration, s');
      JobSoundPersists(s, s', s.jobs[jobId]);
      LeaseIsFree(s, k, owner, now, duration, s', s.jobs[jobId]);
      assert DeliverySound(s, k);
    }
  }

  /** Enrolling unconsumed ingress costs nothing yet. */
  lemma EnrolAckBudgeted(s: Store, jobId: string, spent: nat, k: DeliveryId)
    requires Budgeted(s, jobId, spent) && k in s.deliveries && s.deliveries[k].status != Consumed
    requires Trigger(s, jobId).Some? && k.messageId !in s.jobs[jobId].acknowledgements
    ensures var job := s.jobs[jobId];
            Budgeted(s.(jobs := s.jobs[jobId := job.(acknowledgements := job.acknowledgements + [k.messageId])]), jobId, spent)
  {
    hide Extends, Inv, Paired, Spent;
    var job := s.jobs[jobId];
    var job' := job.(acknowledgements := job.acknowledgements + [k.messageId]);
    var s' := s.(jobs := s.jobs[jobId := job']);
    SaveJobsKeepsInv(s, s'.jobs, s');
    UnconsumedIngress(s, k);
    EnrolAckIsFree(s, job, k.messageId);
    SpentUnchanged(s, s', job');
  }

  lemma UnconsumedIngress(s: Store, k: DeliveryId)
    requires Inv(s) && k in s.deliveries && s.deliveries[k].status != Consumed
    ensures k.messageId in s.messages && !IsConsumed(s, k.messageId)
  {
  }

  /** Acknowledging enrolled ingress costs one action, or raises at no cost. */
  lemma ConsumeBudgeted(s: Store, jobId: string, spent: nat, lease: Lease, r: Registry, now: Instant, s': Store)
    requires Budgeted(s, jobId, spent) && s' == After(s, Consume(s, lease, r, now))
    requires lease.delivery in s.deliveries && s.deliveries[lease.delivery].status != Consumed
    requires lease.delivery.messageId in s.jobs[jobId].acknowledgements
    ensures Budgeted(s', jobId, spent + if Consume(s, lease, r, now).Ok? then 1 else 0)
    ensures s'.jobs == s.jobs && s'.messages == s.messages
  {
    hide Extends, JobSound, Spent, Consume, JustConsumed, HoldsClaim, Fenced, CausationSound, EffectsSound, CausallyClosed;
    ConsumeKeepsInv(s, lease, r, now, s');
    JobSoundPersists(s, s', s.jobs[jobId]);
    ConsumeKeepsJobs(s, lease, r, now);
    ConsumeShape(s, lease, r, now);
    if Consume(s, lease, r, now).Ok? {
      AcknowledgementSpends(s, lease.delivery, Resolve(r, s.messages[lease.delivery.messageId]).value, now, s', s.jobs[jobId]);
    }
  }

  lemma ConsumeKeepsJobs(s: Store, lease: Lease, r: Registry, now: Instant)
    ensures After(s, Consume(s, lease, r, now)).jobs == s.jobs
    ensures After(s, Consume(s, lease, r, now)).messages == s.messages
  {
    hide PredecessorReadiness, HoldsClaim, Resolve;
  }

  lemma ConsumeConsumes(s: Store, lease: Lease, r: Registry, now: Instant)
    requires Consume(s, lease, r, now).Ok?
    ensures var s' := Consume(s, lease, r, now).value.0;
            lease.delivery in s'.deliveries && s'.deliveries[lease.delivery].status == Consumed
  {
    hide PredecessorReadiness, HoldsClaim, Resolve;
  }

  /** Enrolling a pending effect costs nothing yet. */
  lemma EnrolEffectBudgeted(s: Store, jobId: string, spent: nat, e: EffectId)
    requires Budgeted(s, jobId, spent) && e in s.commands
    requires Trigger(s, jobId).Some? && e !in s.jobs[jobId].effects
    ensures var job := s.jobs[jobId];
            Budgeted(s.(jobs := s.jobs[jobId := job.(effects := job.effects + [e])]), jobId, spent)
  {
    hide Extends, Paired, Fenced, CausationSound, EffectsSound, CausallyClosed, Spent;
    var job := s.jobs[jobId];
    var job' := job.(effects := job.effects + [e]);
    var s' := s.(jobs := s.jobs[jobId := job']);
    SaveJobsKeepsInv(s, s'.jobs, s');
    PendingIsAcknowledged(s, e);
    EnrolEffectIsFree(s, job, e);
    SpentUnchanged(s, s', job');
  }

  /** A committed domain transition costs nothing. */
  lemma WorldBudgeted(s: Store, jobId: string, spent: nat, key: EntityKey, entity: Entity)
    requires Budgeted(s, jobId, spent)
    ensures Budgeted(SaveEntity(s, key, entity), jobId, spent)
  {
    hide Extends, Inv, JobSound, Spent;
    var s' := SaveEntity(s, key, entity);
    SaveEntityKeepsInv(s, key, entity, s');
    JobSoundPersists(s, s', s.jobs[jobId]);
    SpentUnchanged(s, s', s.jobs[jobId]);
  }

  /** Store after executing an effect: certified, or retired uncertified. */
  function FinishEffect(s: Store, e: EffectId, at: Instant): Store
    requires e in s.commands
  {
    if s.CertifiedIntent(s.commands[e].name) then After(s, Complete(s, e, at)) else Retire(s, e)
  }

  /** Executing an enrolled effect costs one action, or raises at no cost. */
  lemma FinishBudgeted(s: Store, jobId: string, spent: nat, e: EffectId, at: Instant)
    requires Budgeted(s, jobId, spent) && e in s.commands && e in s.jobs[jobId].effects
    ensures var done := s.CertifiedIntent(s.commands[e].name) ==> Complete(s, e, at).Ok?;
            var s' := FinishEffect(s, e, at);
            && Budgeted(s', jobId, spent + if done then 1 else 0) && s'.jobs == s.jobs && s'.messages == s.messages
            && (done ==> e !in s'.commands)
  {
    hide Extends, Paired, Fenced, CausationSound, EffectsSound, CausallyClosed, JobSound, Spent, Certifiable;
    var s' := FinishEffect(s, e, at);
    if s.CertifiedIntent(s.commands[e].name) {
      CompleteKeepsInv(s, e, at, s');
      CompleteRemoves(s, e, at);
    } else {
      RetireKeepsInv(s, e, s');
    }
    JobSoundPersists(s, s', s.jobs[jobId]);
    if s' != s {
      ExecutionSpends(s, e, s', s.jobs[jobId]);
    }
  }

  lemma CompleteRemoves(s: Store, e: EffectId, at: Instant)
    requires EffectsSound(s) && e in s.commands
    ensures var r := Complete(s, e, at);
            r.Ok? ==> r.value.0.commands == s.commands - {e} && r.value.0.deliveries == s.deliveries
                      && r.value.0.messages == s.messages && r.value.0.jobs == s.jobs && r.value.0 != s
                      && r.value.0.consumptions == s.consumptions
  {
    assert e in s.certificates ==> CertificateSound(s, e);
    hide Certifiable, EffectsSound, CertificateSound;
    assert e in s.commands && e !in s.commands - {e};
  }

  // --------------------------------------------------- what the store itself gained

  /** Publications, acknowledgements and executed effects on record, whoever they
      were charged to: an acknowledged effect is executed once its Command is gone. */
  function Work(s: Store): int {
    |s.messages| + |s.consumptions| + (|s.consumptions| - |s.commands|)
  }

  lemma WorkIgnoresJobs(s: Store, jobs: map<string, Job>)
    ensures Work(s.(jobs := jobs)) == Work(s)
  {
  }

  lemma PublishWork(s: Store, m: Message, jobId: string, spent: nat)
    requires Budgeted(s, jobId, spent) && m.id !in s.messages
    ensures var r := Publish(s, m, Some(jobId)); Work(After(s, r)) == Work(s) + if r.Ok? then 1 else 0
  {
    hide JobSound, Spent, CausationSound, EffectsSound, CausallyClosed, Publish, Paired, DeliverySound, CausationFault, DescendantsAgree, PendingDelivery;
    PublishShape(s, m, Some(jobId));
  }

  lemma ConsumeWork(s: Store, jobId: string, spent: nat, lease: Lease, r: Registry, now: Instant)
    requires Budgeted(s, jobId, spent) && lease.delivery in s.deliveries && s.deliveries[lease.delivery].status != Consumed
    ensures Work(After(s, Consume(s, lease, r, now))) == Work(s) + if Consume(s, lease, r, now).Ok? then 1 else 0
  {
    hide JobSound, Spent, Consume, HoldsClaim, Resolve, CausationSound, EffectsSound, CausallyClosed, Paired, DeliverySound;
    ConsumeShape(s, lease, r, now);
  }

  lemma FinishWork(s: Store, jobId: string, spent: nat, e: EffectId, at: Instant)
    requires Budgeted(s, jobId, spent) && e in s.commands
    ensures var done := s.CertifiedIntent(s.commands[e].name) ==> Complete(s, e, at).Ok?;
            Work(FinishEffect(s, e, at)) == Work(s) + if done then 1 else 0
  {
    hide JobSound, Spent, Complete, EffectsSound, Fenced, Paired, CausationSound, CausallyClosed;
    CompleteRemoves(s, e, at);
    OneLess(s.commands, e);
    hide Inv;
  }

  lemma OneLess(commands: map<EffectId, Command>, e: EffectId)
    requires e in commands
    ensures |commands - {e}| == |commands| - 1
  {
    var less := commands - {e};
    assert less[e := commands[e]] == commands;
  }

  lemma ClaimWork(s: Store, owner: string, now: Instant, duration: int, f: Filter, uuid: DeliveryId -> nat, out: ClaimOutcome, s': Store)
    requires Claims(s, owner, now, duration, f, uuid, out, s')
    ensures Work(s') == Work(s)
    ensures out.Nothing? ==> s' == s && forall k :: !Candidate(s, k, f, now)
  {
    hide Candidate, NextClaim, ClaimRaises;
  }

  /** Activating a trigger on an idle job finds nothing spent. */
  lemma StartBudgeted(s: Store, jobId: string, spent: nat, trigger: string)
    requires Budgeted(s, jobId, spent)
    ensures Budgeted(s.(jobs := s.jobs[jobId := s.jobs[jobId].(activeTrigger := Some(trigger))]), jobId, spent)
    ensures Trigger(s, jobId).None? ==> spent == 0
  {
    hide Extends, Inv, Spent;
    var job' := s.jobs[jobId].(activeTrigger := Some(trigger));
    var s' := s.(jobs := s.jobs[jobId := job']);
    SaveJobsKeepsInv(s, s'.jobs, s');
    SameEnrolments(s, s.jobs[jobId], job');
    SpentUnchanged(s, s', job');
    if Trigger(s, jobId).None? { IdleSpendsNothing(s, s.jobs[jobId]); }
  }

  lemma SameEnrolments(s: Store, job: Job, job': Job)
    requires job' == job.(activeTrigger := job'.activeTrigger)
    ensures Spent(s, job') == Spent(s, job)
  {
  }

  function Closed(job: Job, trigger: string): Job {
    Job(None, [], [], [], job.completed + [trigger])
  }

  /** Finishing a trigger clears its enrolments, so the next one starts at zero. */
  lemma CloseBudgeted(s: Store, jobId: string, spent: nat, trigger: string)
    requires Budgeted(s, jobId, spent)
    ensures Budgeted(s.(jobs := s.jobs[jobId := Closed(s.jobs[jobId], trigger)]), jobId, 0)
  {
    hide Extends, Inv;
    var s' := s.(jobs := s.jobs[jobId := Closed(s.jobs[jobId], trigger)]);
    SaveJobsKeepsInv(s, s'.jobs, s');
    IdleSpendsNothing(s', s'.jobs[jobId]);
  }

  // ------------------------------------------------------ other writers in between

  /** A transaction of somebody else: it charges nothing to this job, and leaves
      this job's enrolled ingress and effects alone. */
  predicate Foreign(s: Store, op: Op, jobId: string) {
    && jobId in s.jobs
    && match op
       case DoPublish(_, charged) => charged != Some(jobId)
       case DoConsume(lease, _, _) => lease.delivery.messageId !in s.jobs[jobId].acknowledgements
       case DoComplete(e, _) => e !in s.jobs[jobId].effects
       case DoRetire(e) => e !in s.jobs[jobId].effects
       case DoSaveJob(other, _) => other != jobId
       case _ => true
  }

  lemma ForeignKeepsJob(s: Store, op: Op, s': Store, jobId: string)
    requires Next(s, op, s') && Foreign(s, op, jobId)
    ensures jobId in s'.jobs && s'.jobs[jobId] == s.jobs[jobId]
  {
    hide Claims;
    match op
    case DoPublish(m, charged) => ForeignPublish(s, m, charged, jobId);
    case DoConsume(lease, r, now) => ConsumeKeepsJobs(s, lease, r, now);
    case DoClaim(owner, now, duration, f, uuid) =>
      var out :| Claims(s, owner, now, duration, f, uuid, out, s');
      ClaimLeases(s, owner, now, duration, f, uuid, out, s');
    case DoComplete(e, at) => CompleteKeepsJobs(s, e, at);
    case _ =>
  }

  lemma ForeignPublish(s: Store, m: Message, charged: Option<string>, jobId: string)
    requires jobId in s.jobs && charged != Some(jobId)
    ensures var s' := After(s, Publish(s, m, charged));
            jobId in s'.jobs && s'.jobs[jobId] == s.jobs[jobId] && s'.commands == s.commands
  {
    ForeignCharge(s, m, charged, jobId);
    PublishKeepsCommands(s, m, charged);
    PublishKeepsJob(s, m, charged, jobId);
    hide Publish, ChargePublication;
  }

  lemma PublishKeepsCommands(s: Store, m: Message, charged: Option<string>)
    ensures After(s, Publish(s, m, charged)).commands == s.commands
  {
    hide CausationFault, DescendantsAgree, ChargePublication, PendingDelivery, DeliveryOf;
  }

  lemma PublishKeepsJob(s: Store, m: Message, charged: Option<string>, jobId: string)
    requires jobId in s.jobs
    requires ChargePublication(s, m, charged).Ok? ==>
               var jobs := ChargePublication(s, m, charged).value; jobId in jobs && jobs[jobId] == s.jobs[jobId]
    ensures var s' := After(s, Publish(s, m, charged)); jobId in s'.jobs && s'.jobs[jobId] == s.jobs[jobId]
  {
    hide CausationFault, DescendantsAgree, ChargePublication, PendingDelivery, DeliveryOf;
    if m.id in s.messages {
    } else if DeliveryOf(m) in s.deliveries {
    }
  }

  lemma ForeignCharge(s: Store, m: Message, charged: Option<string>, jobId: string)
    requires jobId in s.jobs && charged != Some(jobId)
    ensures var r := ChargePublication(s, m, charged);
            r.Ok? ==> jobId in r.value && r.value[jobId] == s.jobs[jobId]
  {
  }

  lemma CompleteKeepsJobs(s: Store, e: EffectId, at: Instant)
    ensures var s' := After(s, Complete(s, e, at));
            s'.jobs == s.jobs && forall x :: x != e ==> (x in s'.commands <==> x in s.commands)
  {
    hide Certifiable;
  }

  lemma ForeignKeepsConsumed(s: Store, op: Op, s': Store, jobId: string, id: string)
    requires Inv(s) && Next(s, op, s') && Extends(s, s') && Foreign(s, op, jobId)
    requires id in s.jobs[jobId].acknowledgements && id in s.messages
    ensures IsConsumed(s', id) == IsConsumed(s, id)
  {
    var k := DeliveryOf(s.messages[id]);
    KnownDelivery(s, id);
    ExtendsDelivery(s, s', id);
    hide Inv, Next, Extends;
    if s.deliveries[k].status != Consumed && s'.deliveries[k].status == Consumed {
      BoundaryTheorems.OnlyConsumeCommits(s, op, s', k);
    }
  }

  lemma KnownDelivery(s: Store, id: string)
    requires Inv(s) && id in s.messages
    ensures DeliveryOf(s.messages[id]) in s.deliveries && DeliveryOf(s.messages[id]).messageId == id
  {
  }

  lemma ExtendsDelivery(s: Store, s': Store, id: string)
    requires Extends(s, s') && id in s.messages && DeliveryOf(s.messages[id]) in s.deliveries
    ensures id in s'.messages && s'.messages[id] == s.messages[id]
    ensures DeliveryAdvances(s, s', DeliveryOf(s.messages[id]))
  {
  }

  lemma ForeignKeepsCommand(s: Store, op: Op, s': Store, jobId: string, e: EffectId)
    requires Inv(s) && Next(s, op, s') && Foreign(s, op, jobId) && e in s.jobs[jobId].effects && Acknowledged(s, e)
    ensures e in s'.commands <==> e in s.commands
  {
    hide Inv, Publish, Claims, Consume, Complete, Acknowledged;
    if op.DoConsume? {
      ForeignConsume(s, op.lease, op.registry, op.now, e);
    } else if op.DoPublish? {
      PublishKeepsCommands(s, op.message, op.job);
    } else {
      QuietKeepsCommand(s, op, s', e);
    }
  }

  lemma QuietKeepsCommand(s: Store, op: Op, s': Store, e: EffectId)
    requires Next(s, op, s') && !op.DoConsume? && !op.DoPublish?
    requires (op.DoComplete? ==> op.effect != e) && (op.DoRetire? ==> op.effect != e)
    ensures e in s'.commands <==> e in s.commands
  {
    hide Claims, Complete;
    match op
    case DoClaim(owner, now, duration, f, uuid) =>
      var out :| Claims(s, owner, now, duration, f, uuid, out, s');
      ClaimLeases(s, owner, now, duration, f, uuid, out, s');
    case DoComplete(x, at) => CompleteKeepsJobs(s, x, at);
    case _ =>
  }

  /** A fresh Command belongs to a message nobody had acknowledged. */
  lemma ForeignConsume(s: Store, lease: Lease, r: Registry, now: Instant, e: EffectId)
    requires Inv(s) && Acknowledged(s, e)
    ensures e in After(s, Consume(s, lease, r, now)).commands <==> e in s.commands
  {
    hide CausationSound, CausallyClosed, HoldsClaim, Resolve, DeliverySound;
    ConsumeShape(s, lease, r, now);
    hide EffectsSound;
    if lease.delivery in s.deliveries && s.deliveries[lease.delivery].status != Consumed {
      hide Consume;
    } else {
      ConsumedAgain(s, lease, r, now);
      hide Consume;
    }
  }

  lemma ConsumedAgain(s: Store, lease: Lease, r: Registry, now: Instant)
    requires lease.delivery !in s.deliveries || s.deliveries[lease.delivery].status == Consumed
    ensures After(s, Consume(s, lease, r, now)) == s
  {
  }

  /** However many transactions of others come in between, what the job has spent
      stays what it was. */
  lemma ForeignBudgeted(s: Store, op: Op, s': Store, jobId: string, spent: nat)
    requires Budgeted(s, jobId, spent) && Next(s, op, s') && Foreign(s, op, jobId)
    ensures Budgeted(s', jobId, spent) && s'.jobs[jobId] == s.jobs[jobId]
  {
    hide Inv, JobSound, Next, Foreign, Extends, Spent;
    NextKeepsInv(s, op, s');
    ForeignKeepsJob(s, op, s', jobId);
    JobSoundPersists(s, s', s.jobs[jobId]);
    ForeignSpends(s, op, s', jobId);
  }

  lemma ForeignSpends(s: Store, op: Op, s': Store, jobId: string)
    requires Inv(s) && Next(s, op, s') && Extends(s, s') && Foreign(s, op, jobId) && jobId in s.jobs && JobSound(s, s.jobs[jobId])
    ensures Spent(s', s.jobs[jobId]) == Spent(s, s.jobs[jobId])
  {
    var job := s.jobs[jobId];
    hide Inv, Next, Foreign, Extends, Spent, IsConsumed, Acknowledged;
    forall id | id in job.acknowledgements ensures IsConsumed(s', id) == IsConsumed(s, id) {
      ForeignKeepsConsumed(s, op, s', jobId, id);
    }
    forall e | e in job.effects ensures e in s'.commands <==> e in s.commands {
      ForeignKeepsCommand(s, op, s', jobId, e);
    }
    SpentUnchanged(s, s', job);
  }

  lemma {:induction false} ForeignRunBudgeted(states: seq<Store>, ops: seq<Op>, jobId: string, spent: nat)
    requires |states| == |ops| + 1 && Budgeted(states[0], jobId, spent)
    requires forall i {:trigger ops[i]} :: 0 <= i < |ops| ==> Next(states[i], ops[i], states[i + 1]) && Foreign(states[i], ops[i], jobId)
    ensures Budgeted(states[|ops|], jobId, spent) && states[|ops|].jobs[jobId] == states[0].jobs[jobId]
  {
    hide Inv, JobSound, Spent, Next, Foreign;
    if ops != [] {
      var n := |ops| - 1;
      assert Next(states[n], ops[n], states[n + 1]) && Foreign(states[n], ops[n], jobId);
      forall i {:trigger ops[i]} | 0 <= i < n
        ensures Next(states[..n + 1][i], ops[..n][i], states[..n + 1][i + 1]) && Foreign(states[..n + 1][i], ops[..n][i], jobId)
      {
        assert ops[i] == ops[..n][i];
      }
      ForeignRunBudgeted(states[..n + 1], ops[..n], jobId, spent);
      ForeignBudgeted(states[n], ops[n], states[n + 1], jobId, spent);
    }
  }

  // ----------------------------------------------- when a resume cannot account

  /** The effect an acknowledged message staged, if it is consumed. */
  function AckEffect(s: Store, id: string): Option<EffectId> {
    if IsConsumed(s, id) then s.deliveries[DeliveryOf(s.messages[id])].effect else None
  }

  /** An uncertified intent whose Command is gone: it was executed. */
  predicate RetiredUncertified(s: Store, e: EffectId) {
    !s.CertifiedIntent(e.intent) && e !in s.commands
  }

  /** A resume raises exactly when an enrolled uncertified intent was executed. */
  lemma LostExactly(s: Store, job: Job)
    requires Inv(s) && JobSound(s, job)
    ensures LostRecord(s, job) <==>
              || (exists id :: id in job.acknowledgements && AckEffect(s, id).Some? && RetiredUncertified(s, AckEffect(s, id).value))
              || (exists e :: e in job.effects && RetiredUncertified(s, e))
  {
    hide Inv, JobSound, RetiredUncertified, LostEffect, LostAck, AckEffect;
    forall id | id in job.acknowledgements
      ensures LostAck(s, id) <==> AckEffect(s, id).Some? && RetiredUncertified(s, AckEffect(s, id).value)
    {
      LostAckExactly(s, id);
    }
    forall e | e in job.effects ensures LostEffect(s, Some(e)) <==> RetiredUncertified(s, e) {
      EnrolledIsAcknowledged(s, job, e);
      LostEffectExactly(s, e);
    }
  }

  lemma EnrolledIsAcknowledged(s: Store, job: Job, e: EffectId)
    requires JobSound(s, job) && e in job.effects
    ensures Acknowledged(s, e)
  {
  }

  lemma LostEffectExactly(s: Store, e: EffectId)
    requires Inv(s) && Acknowledged(s, e)
    ensures LostEffect(s, Some(e)) <==> RetiredUncertified(s, e)
  {
    assert EffectAccounted(s, DeliveryOf(s.messages[e.messageId]));
    assert e in s.certificates ==> CertificateSound(s, e);
    hide Paired, Fenced, CausationSound, CausallyClosed, EffectsSound;
  }

  lemma LostAckExactly(s: Store, id: string)
    requires Inv(s)
    ensures LostAck(s, id) <==> AckEffect(s, id).Some? && RetiredUncertified(s, AckEffect(s, id).value)
  {
    hide CausationSound, CausallyClosed;
    if IsConsumed(s, id) {
      var k := DeliveryOf(s.messages[id]);
      assert DeliverySound(s, k) && EffectAccounted(s, k);
      var e := s.deliveries[k].effect.value;
      assert Acknowledged(s, e);
      hide Inv;
      LostEffectExactly(s, e);
    }
  }

  /** With only certified intents enrolled, every record can be accounted for. */
  lemma CertifiedNeverLost(s: Store, job: Job)
    requires Inv(s) && JobSound(s, job)
    requires forall e :: e in job.effects ==> s.CertifiedIntent(e.intent)
    requires forall id :: id in job.acknowledgements && AckEffect(s, id).Some? ==> s.CertifiedIntent(AckEffect(s, id).value.intent)
    ensures !LostRecord(s, job)
  {
    hide Inv, JobSound, LostRecord, AckEffect;
    LostExactly(s, job);
  }

  /** Executing an enrolled uncertified intent loses its record. */
  lemma UncertifiedIsLost(s: Store, job: Job, e: EffectId, at: Instant)
    requires Inv(s) && e in s.commands && e in job.effects && !s.CertifiedIntent(s.commands[e].name)
    ensures LostRecord(FinishEffect(s, e, at), job)
  {
    hide Paired, Fenced, CausationSound, CausallyClosed;
    var s' := FinishEffect(s, e, at);
    assert e in s.certificates ==> CertificateSound(s, e);
    assert LostEffect(s', Some(e));
  }

  // ---------------------------------------------------------------- small frames

  lemma ClaimLeases(s: Store, owner: string, now: Instant, duration: int, f: Filter, uuid: DeliveryId -> nat, out: ClaimOutcome, s': Store)
    requires Claims(s, owner, now, duration, f, uuid, out, s')
    ensures out.Leased? ==> Released(s, out.lease.delivery, owner, now, duration, s')
    ensures out.Leased? ==> out.lease.messageId == s.deliveries[out.lease.delivery].messageId
    ensures !out.Leased? ==> s' == s
  {
  }

  lemma PendingIsAcknowledged(s: Store, e: EffectId)
    requires EffectsSound(s) && e in s.commands
    ensures Acknowledged(s, e) && s.commands[e].name == e.intent
  {
    assert CommandSound(s, e);
  }
}
