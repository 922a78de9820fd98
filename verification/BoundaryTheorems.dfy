/** The guarantees of the boundary protocol, over every run. */
module BoundaryTheorems {
  import opened Outcomes
  import opened BoundaryModel
  import opened BoundaryProtocol
  import opened BoundaryCausation
  import opened BoundaryInvariants

  // ------------------------------------------------- fenced exactly-once delivery

  /** Step i of the run commits the acknowledgement of delivery k. */
  ghost predicate CommitsAt(states: seq<Store>, i: nat, k: DeliveryId)
    requires i + 1 < |states|
  {
    && k in states[i].deliveries && states[i].deliveries[k].status != Consumed
    && k in states[i + 1].deliveries && states[i + 1].deliveries[k].status == Consumed
  }

  lemma CommittedStaysConsumed(states: seq<Store>, ops: seq<Op>, i: nat, j: nat, k: DeliveryId)
    requires Run(states, ops) && i < j < |states| && CommitsAt(states, i, k)
    ensures k in states[j].deliveries && states[j].deliveries[k].status == Consumed
  {
    EvidenceIsPermanent(states, ops, i + 1, j);
    assert DeliveryAdvances(states[i + 1], states[j], k);
  }

  /** No two steps of a run acknowledge the same delivery, so its handler's
      effect is committed at most once. */
  lemma HandlerCommitsOnce(states: seq<Store>, ops: seq<Op>, i: nat, j: nat, k: DeliveryId)
    requires Run(states, ops) && i < |ops| && j < |ops|
    requires CommitsAt(states, i, k) && CommitsAt(states, j, k)
    ensures i == j
  {
    if i < j {
      CommittedStaysConsumed(states, ops, i, j, k);
    } else if j < i {
      CommittedStaysConsumed(states, ops, j, i, k);
    }
  }

  /** CONSUMED and its acknowledgement are terminal. */
  lemma ConsumedIsTerminal(states: seq<Store>, ops: seq<Op>, i: nat, j: nat, k: DeliveryId)
    requires Run(states, ops) && i <= j < |states|
    requires k in states[i].deliveries && states[i].deliveries[k].status == Consumed
    ensures k in states[j].deliveries && states[j].deliveries[k] == states[i].deliveries[k]
    ensures k in states[i].consumptions && k in states[j].consumptions
    ensures states[j].consumptions[k] == states[i].consumptions[k]
  {
    ReachableInv(states, ops, i);
    assert DeliverySound(states[i], k);
    EvidenceIsPermanent(states, ops, i, j);
    assert DeliveryAdvances(states[i], states[j], k);
  }

  /** A delivery is CONSUMED exactly when its one matching record exists. */
  lemma ReceiptMatches(s: Store, k: DeliveryId)
    requires Inv(s) && k in s.deliveries
    ensures s.deliveries[k].status == Consumed <==> k in s.consumptions
    ensures k in s.consumptions ==>
              && s.deliveries[k].effect.Some? && s.deliveries[k].consumedAt.Some?
              && s.consumptions[k] == ConsumptionFor(s.deliveries[k], s.deliveries[k].effect.value, s.deliveries[k].consumedAt.value)
    ensures forall j :: j in s.consumptions && s.consumptions[j].messageId == k.messageId ==> j == k
  {
    assert DeliverySound(s, k);
    forall j | j in s.consumptions && s.consumptions[j].messageId == k.messageId ensures j == k {
      assert DeliverySound(s, j);
    }
  }

  /** At every point of every run a delivery is consumed exactly when one matching
      receipt exists, and no other receipt names its message. */
  lemma ConsumedIffAcknowledged(states: seq<Store>, ops: seq<Op>, i: nat, k: DeliveryId)
    requires Run(states, ops) && i < |states| && k in states[i].deliveries
    ensures states[i].deliveries[k].status == Consumed <==> k in states[i].consumptions
    ensures var s := states[i];
            k in s.consumptions ==>
              && s.deliveries[k].effect.Some? && s.deliveries[k].consumedAt.Some?
              && s.consumptions[k] == ConsumptionFor(s.deliveries[k], s.deliveries[k].effect.value, s.deliveries[k].consumedAt.value)
    ensures forall j :: j in states[i].consumptions && states[i].consumptions[j].messageId == k.messageId ==> j == k
  {
    ReachableInv(states, ops, i);
    hide Run, Inv;
    ReceiptMatches(states[i], k);
  }

  /** Once a newer lease of a delivery was issued, the older one can never
      change anything again. */
  lemma SupersededLeaseIsInert(states: seq<Store>, ops: seq<Op>, i: nat, j: nat, stale: Lease, r: Registry, now: Instant)
    requires Run(states, ops) && i <= j < |states|
    requires stale.delivery in states[i].deliveries && stale.epoch < states[i].deliveries[stale.delivery].epoch
    ensures After(states[j], Consume(states[j], stale, r, now)) == states[j]
  {
    EvidenceIsPermanent(states, ops, i, j);
    assert DeliveryAdvances(states[i], states[j], stale.delivery);
  }

  /** A lease just issued carries the delivery's current epoch, one above the
      epoch it had before. */
  lemma LeaseEpoch(s: Store, op: Op, out: ClaimOutcome, s': Store)
    requires op.DoClaim? && out.Leased?
    requires Claims(s, op.owner, op.now, op.duration, op.filter, op.uuid, out, s')
    ensures out.lease.delivery in s.deliveries && out.lease.delivery in s'.deliveries
    ensures s'.deliveries[out.lease.delivery].epoch == out.lease.epoch
    ensures out.lease.epoch == s.deliveries[out.lease.delivery].epoch + 1
  {
  }

  /** A claim after another claim of the same delivery supersedes it. */
  lemma LaterClaimSupersedes(states: seq<Store>, ops: seq<Op>, i: nat, j: nat, first: ClaimOutcome, second: ClaimOutcome)
    requires Run(states, ops) && i < j < |ops| && ops[i].DoClaim? && ops[j].DoClaim?
    requires Claims(states[i], ops[i].owner, ops[i].now, ops[i].duration, ops[i].filter, ops[i].uuid, first, states[i + 1])
    requires Claims(states[j], ops[j].owner, ops[j].now, ops[j].duration, ops[j].filter, ops[j].uuid, second, states[j + 1])
    requires first.Leased? && second.Leased? && first.lease.delivery == second.lease.delivery
    ensures first.lease.epoch < second.lease.epoch
    ensures second.lease.delivery in states[j + 1].deliveries
    ensures states[j + 1].deliveries[second.lease.delivery].epoch == second.lease.epoch
  {
    hide Claims, Initial, Next;
    LeaseEpoch(states[i], ops[i], first, states[i + 1]);
    LeaseEpoch(states[j], ops[j], second, states[j + 1]);
    EpochsGrow(states, ops, i + 1, j, first.lease.delivery);
  }

  lemma EpochsGrow(states: seq<Store>, ops: seq<Op>, i: nat, j: nat, k: DeliveryId)
    requires Run(states, ops) && i <= j < |states| && k in states[i].deliveries
    ensures k in states[j].deliveries && states[i].deliveries[k].epoch <= states[j].deliveries[k].epoch
  {
    hide Run;
    EvidenceIsPermanent(states, ops, i, j);
    assert DeliveryAdvances(states[i], states[j], k);
  }

  // -------------------------------------------------------------- causal safety

  /** The consumed set is closed under known ancestors, at any distance. */
  lemma {:induction false} ConsumedAncestors(s: Store, id: string, n: nat)
    requires Inv(s) && IsConsumed(s, id)
    ensures var a := Ancestor(s.messages, id, n); a.Some? ==> IsConsumed(s, a.value)
  {
    hide Paired, Fenced, CausationSound, EffectsSound;
    if n > 0 {
      ConsumedAncestors(s, id, n - 1);
      var a := Ancestor(s.messages, id, n - 1);
      if a.Some? && a.value in s.messages {
        assert ClosedAt(s, a.value);
      }
    }
  }

  /** A typed parent is never overtaken even while it is unpublished. */
  lemma TypedParentConsumed(s: Store, id: string)
    requires Inv(s) && IsConsumed(s, id) && s.messages[id].kind == FromBoundary
    ensures s.messages[id].cause.Some? && IsConsumed(s, s.messages[id].cause.value)
  {
    hide Paired, Fenced, EffectsSound, LinksSound, Acyclic;
    assert s.messages[id].Valid() && ClosedAt(s, id);
  }

  /** At every point of every run, a consumed message's typed parent is consumed. */
  lemma TypedParentConsumedFirst(states: seq<Store>, ops: seq<Op>, i: nat, id: string)
    requires Run(states, ops) && i < |states| && IsConsumed(states[i], id) && states[i].messages[id].kind == FromBoundary
    ensures var cause := states[i].messages[id].cause; cause.Some? && IsConsumed(states[i], cause.value)
  {
    ReachableInv(states, ops, i);
    hide Run, Inv;
    TypedParentConsumed(states[i], id);
  }

  /** At every point of every run the consumed set is closed under known
      ancestors, and the cause graph among them is acyclic. */
  lemma CausalSafety(states: seq<Store>, ops: seq<Op>, i: nat, id: string, n: nat)
    requires Run(states, ops) && i < |states| && id in states[i].messages
    ensures var s := states[i];
            var a := Ancestor(s.messages, id, n);
            a.Some? && a.value in s.messages ==>
              && (IsConsumed(s, id) ==> IsConsumed(s, a.value))
              && s.messages[a.value].correlation == s.messages[id].correlation
              && s.messages[a.value].producedAt <= s.messages[id].producedAt
              && (n > 0 ==> a.value != id)
  {
    ReachableInv(states, ops, i);
    hide Run, Paired, Fenced, EffectsSound, CausallyClosed, CausationSound;
    var s := states[i];
    AncestorsPrecede(s, id, n);
    if IsConsumed(s, id) { ConsumedAncestors(s, id, n); }
  }

  /** When a child's acknowledgement commits, its known or typed parent was
      already consumed in the state before that step. */
  lemma NoOvertaking(states: seq<Store>, ops: seq<Op>, i: nat, id: string, parent: string)
    requires Run(states, ops) && i < |ops|
    requires id in states[i].messages && CommitsAt(states, i, DeliveryOf(states[i].messages[id]))
    requires states[i].messages[id].Parent() == Some(parent)
    requires states[i].messages[id].kind == FromBoundary || parent in states[i].messages
    ensures PredecessorApplied(states[i], states[i].messages[id], parent)
  {
    var s, s' := states[i], states[i + 1];
    var m := s.messages[id];
    ReachableInv(states, ops, i);
    RunStep(states, ops, i);
    OnlyConsumeCommits(s, ops[i], s', DeliveryOf(m));
    ConsumeShape(s, ops[i].lease, ops[i].registry, ops[i].now);
    ReadyMeansApplied(s, m);
  }

  /** Only a consume transaction turns a delivery into CONSUMED. */
  lemma OnlyConsumeCommits(s: Store, op: Op, s': Store, k: DeliveryId)
    requires Paired(s) && Fenced(s) && Next(s, op, s')
    requires k in s.deliveries && s.deliveries[k].status != Consumed
    requires k in s'.deliveries && s'.deliveries[k].status == Consumed
    ensures op.DoConsume? && op.lease.delivery == k && Consume(s, op.lease, op.registry, op.now).Ok?
  {
    if op.DoPublish? {
      PublishNeverConsumes(s, op.message, op.job, k);
    } else {
      OtherOpsDoNotCommit(s, op, s', k);
    }
  }

  lemma OtherOpsDoNotCommit(s: Store, op: Op, s': Store, k: DeliveryId)
    requires !op.DoPublish? && Next(s, op, s')
    requires k in s.deliveries && s.deliveries[k].status != Consumed
    requires k in s'.deliveries && s'.deliveries[k].status == Consumed
    ensures op.DoConsume? && op.lease.delivery == k && Consume(s, op.lease, op.registry, op.now).Ok?
  {
    match op
    case DoClaim(owner, now, duration, f, uuid) => ClaimNeverConsumes(s, op, s', k);
    case DoConsume(lease, r, now) => ConsumeTouchesItsDelivery(s, lease, r, now, k);
    case DoComplete(effect, at) => CompleteKeepsDeliveries(s, effect, at);
    case DoRetire(effect) =>
    case DoRecordEvent(id, e) =>
    case DoSaveEntity(key, e) =>
    case DoSaveJob(jobId, state) =>
  }

  lemma PublishNeverConsumes(s: Store, m: Message, job: Option<string>, k: DeliveryId)
    requires Paired(s) && Fenced(s) && k in s.deliveries && s.deliveries[k].status != Consumed
    ensures var s' := After(s, Publish(s, m, job)); k in s'.deliveries && s'.deliveries[k].status != Consumed
  {
    hide Publish, Paired, DeliverySound, DescendantsAgree, CausationFault;
    PublishShape(s, m, job);
  }

  lemma ClaimNeverConsumes(s: Store, op: Op, s': Store, k: DeliveryId)
    requires op.DoClaim? && exists out :: Claims(s, op.owner, op.now, op.duration, op.filter, op.uuid, out, s')
    requires k in s.deliveries && s.deliveries[k].status != Consumed
    ensures k in s'.deliveries && s'.deliveries[k].status != Consumed
  {
    var out :| Claims(s, op.owner, op.now, op.duration, op.filter, op.uuid, out, s');
  }

  lemma ConsumeTouchesItsDelivery(s: Store, lease: Lease, r: Registry, now: Instant, k: DeliveryId)
    requires k in s.deliveries
    ensures var out := Consume(s, lease, r, now);
            var s' := After(s, out);
            k in s'.deliveries && (s'.deliveries[k] != s.deliveries[k] ==> out.Ok? && lease.delivery == k)
  {
  }

  lemma CompleteKeepsDeliveries(s: Store, effect: EffectId, at: Instant)
    ensures After(s, Complete(s, effect, at)).deliveries == s.deliveries
  {
  }

  /** Deliveries enter the store unconsumed. */
  lemma NewDeliveriesArePending(s: Store, op: Op, s': Store, k: DeliveryId)
    requires Paired(s) && Fenced(s) && Next(s, op, s')
    requires k !in s.deliveries && k in s'.deliveries
    ensures s'.deliveries[k].status == Pending
  {
    if op.DoPublish? {
      PublishShape(s, op.message, op.job);
    } else {
      OnlyPublishAdds(s, op, s');
    }
  }

  lemma OnlyPublishAdds(s: Store, op: Op, s': Store)
    requires !op.DoPublish? && Next(s, op, s')
    ensures s'.deliveries.Keys == s.deliveries.Keys
  {
    match op
    case DoClaim(owner, now, duration, f, uuid) => ClaimAddsNothing(s, op, s');
    case DoConsume(lease, r, now) => ConsumeAddsNothing(s, lease, r, now);
    case DoComplete(effect, at) => CompleteKeepsDeliveries(s, effect, at);
    case DoRetire(effect) =>
    case DoRecordEvent(id, e) =>
    case DoSaveEntity(key, e) =>
    case DoSaveJob(jobId, state) =>
  }

  lemma ClaimAddsNothing(s: Store, op: Op, s': Store)
    requires op.DoClaim? && exists out :: Claims(s, op.owner, op.now, op.duration, op.filter, op.uuid, out, s')
    ensures s'.deliveries.Keys == s.deliveries.Keys
  {
    var out :| Claims(s, op.owner, op.now, op.duration, op.filter, op.uuid, out, s');
  }

  lemma ConsumeAddsNothing(s: Store, lease: Lease, r: Registry, now: Instant)
    ensures After(s, Consume(s, lease, r, now)).deliveries.Keys == s.deliveries.Keys
  {
  }

  // ------------------------------------------------------ Command or certificate

  /** An acknowledged certified effect has exactly one of a pending Command and
      an immutable certificate. */
  lemma PendingXorCertified(s: Store, k: DeliveryId)
    requires Inv(s) && k in s.deliveries && s.deliveries[k].status == Consumed
    ensures s.deliveries[k].effect.Some?
    ensures s.CertifiedIntent(s.deliveries[k].effect.value.intent) ==>
              (s.deliveries[k].effect.value in s.commands) != (s.deliveries[k].effect.value in s.certificates)
  {
    assert DeliverySound(s, k) && EffectAccounted(s, k);
    var e := s.deliveries[k].effect.value;
    assert e in s.certificates ==> CertificateSound(s, e);
  }

  /** At every point of every run, for every acknowledged certified effect. */
  lemma CommandXorCertificate(states: seq<Store>, ops: seq<Op>, i: nat, k: DeliveryId)
    requires Run(states, ops) && i < |states| && k in states[i].deliveries && states[i].deliveries[k].status == Consumed
    ensures states[i].deliveries[k].effect.Some?
    ensures var e := states[i].deliveries[k].effect.value;
            states[i].CertifiedIntent(e.intent) ==> (e in states[i].commands) != (e in states[i].certificates)
  {
    ReachableInv(states, ops, i);
    hide Run, Inv;
    PendingXorCertified(states[i], k);
  }

  /** An effect is acknowledged by the delivery of its own message only. */
  lemma ReceiptOfEffect(s: Store, k: DeliveryId)
    requires Paired(s) && Fenced(s) && EffectsSound(s) && k in s.consumptions
    ensures s.consumptions[k].effect.messageId == k.messageId && k.messageId in s.messages
    ensures k == DeliveryOf(s.messages[k.messageId])
    ensures k in s.deliveries && s.deliveries[k].effect == Some(s.consumptions[k].effect)
  {
    assert DeliverySound(s, k) && EffectAccounted(s, k);
  }

  /** Every certificate is reached by exactly one acknowledgement. */
  lemma CertificateReached(s: Store, e: EffectId)
    requires Inv(s) && e in s.certificates
    ensures e.messageId in s.messages && s.certificates[e].messageId == e.messageId
    ensures AcceptedReceipts(s, e.messageId, e) == {DeliveryOf(s.messages[e.messageId])}
    ensures forall k :: k in s.consumptions && s.consumptions[k].effect == e ==> k == DeliveryOf(s.messages[e.messageId])
  {
    assert CertificateSound(s, e);
    var k := DeliveryOf(s.messages[e.messageId]);
    assert DeliverySound(s, k);
    forall j | j in s.consumptions ensures s.consumptions[j].effect == e ==> j == k {
      ReceiptOfEffect(s, j);
    }
    OneReceipt(s, e, k);
  }

  /** At every point of every run each certificate is reached by exactly one
      acknowledgement, that of its own message. */
  lemma CertificateHasOneReceipt(states: seq<Store>, ops: seq<Op>, i: nat, e: EffectId)
    requires Run(states, ops) && i < |states| && e in states[i].certificates
    ensures e.messageId in states[i].messages && states[i].certificates[e].messageId == e.messageId
    ensures AcceptedReceipts(states[i], e.messageId, e) == {DeliveryOf(states[i].messages[e.messageId])}
    ensures forall k :: k in states[i].consumptions && states[i].consumptions[k].effect == e ==> k == DeliveryOf(states[i].messages[e.messageId])
  {
    ReachableInv(states, ops, i);
    hide Run, Inv;
    CertificateReached(states[i], e);
  }

  lemma OneReceipt(s: Store, e: EffectId, k: DeliveryId)
    requires k in s.deliveries && k in s.consumptions && s.deliveries[k].messageId == e.messageId
    requires s.deliveries[k].status == Consumed && s.deliveries[k].effect == Some(e) && s.consumptions[k].effect == e
    requires forall j :: j in s.consumptions ==> (s.consumptions[j].effect == e ==> j == k)
    ensures AcceptedReceipts(s, e.messageId, e) == {k}
  {
  }

  // ------------------------------------------------------------ deadlock freedom

  /** The certified entity is still in its certified terminal state. */
  ghost predicate TerminalKept(s: Store, e: EffectId)
    requires e in s.certificates
  {
    var key := EntityKey(s.certificates[e].entityType, s.certificates[e].entityId);
    key in s.entities ==> s.entities[key].state == s.certificates[e].terminalState
  }

  /** A typed message whose parent is consumed under a certified contract, with
      effect `e`. */
  ghost predicate WaitsOn(s: Store, id: string, e: EffectId) {
    && id in s.messages && s.messages[id].kind == FromBoundary
    && s.messages[id].cause.Some? && IsConsumed(s, s.messages[id].cause.value)
    && var p := s.messages[s.messages[id].cause.value];
       s.CertifiedContract(p.contract) && s.deliveries[DeliveryOf(p)].effect == Some(e)
  }

  /** The entity certified for the typed parent has since left that state. */
  ghost predicate ParentLost(s: Store, id: string) {
    exists e :: WaitsOn(s, id, e) && e in s.certificates && !TerminalKept(s, e)
  }

  /** A claim looks at such a delivery. */
  ghost predicate TerminalLost(s: Store, k: DeliveryId, f: Filter, now: Instant) {
    k in s.deliveries && Consider(s, k, f, now).Some? && ParentLost(s, k.messageId)
  }

  /** No lease is live, every acknowledged Command is executed, every certified
      effect that a typed child waits on has its certificate, and no typed child
      waits for a parent that was not published. */
  ghost predicate Quiescent(s: Store, now: Instant) {
    && (forall k :: k in s.deliveries && s.deliveries[k].expiresAt.Some? && s.deliveries[k].status == Claimed ==>
          s.deliveries[k].expiresAt.value <= now)
    && (forall k :: k in s.deliveries && s.deliveries[k].status == Consumed && s.deliveries[k].effect.Some? ==>
          s.deliveries[k].effect.value !in s.commands)
    && (forall k, e :: Unconsumed(s, k) && WaitsOn(s, k.messageId, e) ==> e in s.certificates)
    && (forall k :: Unconsumed(s, k) && k.messageId in s.messages && s.messages[k.messageId].kind == FromBoundary ==>
          s.messages[k.messageId].cause.Some? && s.messages[k.messageId].cause.value in s.messages)
  }

  ghost predicate Unconsumed(s: Store, k: DeliveryId) {
    k in s.deliveries && s.deliveries[k].status != Consumed
  }

  lemma ReceiptOf(s: Store, k: DeliveryId)
    requires Fenced(s) && k in s.deliveries && s.deliveries[k].status == Consumed
    ensures k in s.consumptions && s.deliveries[k].effect == Some(s.consumptions[k].effect)
    ensures s.deliveries[k].contract == k.contract
  {
    assert DeliverySound(s, k);
  }

  /** Readiness behind a known, consumed parent. */
  lemma KnownParentReadiness(s: Store, m: Message)
    requires CausationFault(s, m).None? && m.Parent().Some? && m.Parent().value in s.messages
    ensures var p := s.messages[m.Parent().value];
            var k := DeliveryOf(p);
            k in s.deliveries && s.deliveries[k].status == Consumed && k in s.consumptions ==>
              PredecessorReadiness(s, m) ==
                if s.consumptions[k].effect in s.commands then Blocked
                else if m.kind == FromBoundary && s.CertifiedContract(p.contract) then CertificateReadiness(s, p, s.consumptions[k].effect)
                else Ready
    ensures var k := DeliveryOf(s.messages[m.Parent().value]);
            k !in s.deliveries || s.deliveries[k].status != Consumed ==> PredecessorReadiness(s, m) == Blocked
  {
    hide CausationFault, CertificateReadiness;
  }

  /** A certificate vouches for its effect while its terminal state is kept. */
  lemma CertificateVouches(s: Store, p: Message, e: EffectId)
    requires EffectsSound(s) && e in s.certificates && p.id == e.messageId && p.id in s.messages && s.messages[p.id] == p
    ensures CertificateReadiness(s, p, e) == if TerminalKept(s, e) then Ready else Broken
  {
    assert CertificateSound(s, e);
  }

  lemma EffectOfDelivery(s: Store, k: DeliveryId)
    requires EffectsSound(s) && k in s.deliveries && s.deliveries[k].status == Consumed && s.deliveries[k].effect.Some?
    ensures s.deliveries[k].effect.value.messageId == k.messageId
  {
    assert EffectAccounted(s, k);
  }

  /** Readiness of every stored message, in terms of its parent's effect. */
  lemma ReadinessBehindParent(s: Store, id: string)
    requires Inv(s) && id in s.messages && s.messages[id].Parent().Some? && s.messages[id].Parent().value in s.messages
    ensures var p := s.messages[s.messages[id].Parent().value];
            if !IsConsumed(s, p.id) then PredecessorReadiness(s, s.messages[id]) == Blocked
            else
              && s.deliveries[DeliveryOf(p)].effect.Some?
              && var e := s.deliveries[DeliveryOf(p)].effect.value;
                 PredecessorReadiness(s, s.messages[id]) ==
                   if e in s.commands then Blocked
                   else if !(s.messages[id].kind == FromBoundary && s.CertifiedContract(p.contract)) then Ready
                   else if e !in s.certificates then Blocked
                   else if TerminalKept(s, e) then Ready else Broken
    ensures s.messages[s.messages[id].Parent().value].id == s.messages[id].Parent().value
  {
    hide Fenced, EffectsSound, CausationSound, CausallyClosed, CausationFault, CertificateReadiness, TerminalKept, PredecessorReadiness;
    StoredCausationHolds(s, id);
    var m := s.messages[id];
    var p := s.messages[m.Parent().value];
    KnownParentReadiness(s, m);
    if IsConsumed(s, p.id) {
      ReceiptOf(s, DeliveryOf(p));
      EffectOfDelivery(s, DeliveryOf(p));
      var e := s.consumptions[DeliveryOf(p)].effect;
      if e in s.certificates {
        CertificateVouches(s, p, e);
      }
      NoCertificateBlocks(s, p, e);
    }
  }

  lemma ReadinessAlone(s: Store, id: string)
    requires Inv(s) && id in s.messages && !(s.messages[id].Parent().Some? && s.messages[id].Parent().value in s.messages)
    ensures PredecessorReadiness(s, s.messages[id]) == if s.messages[id].kind == FromBoundary then Blocked else Ready
  {
    StoredCausationHolds(s, id);
    hide Inv, CausationFault, PredecessorReadiness;
    UnknownParentReadiness(s, s.messages[id]);
  }

  lemma DeliveryKnown(s: Store, k: DeliveryId)
    requires Inv(s) && k in s.deliveries
    ensures k.messageId in s.messages && s.deliveries[k].messageId == k.messageId
  {
    assert DeliverySound(s, k);
  }

  lemma CertifiedIsExecuted(s: Store, e: EffectId)
    requires Inv(s) && e in s.certificates
    ensures e !in s.commands
  {
    CertifiedNotPending(s, e);
  }

  lemma LostIsBroken(s: Store, id: string)
    requires Inv(s) && id in s.messages && ParentLost(s, id)
    ensures PredecessorReadiness(s, s.messages[id]) == Broken
  {
    hide Inv, TerminalKept, PredecessorReadiness, Store.CertifiedContract;
    var e :| WaitsOn(s, id, e) && e in s.certificates && !TerminalKept(s, e);
    CertifiedIsExecuted(s, e);
    assert s.messages[id].Parent() == s.messages[id].cause;
    ReadinessBehindParent(s, id);
    hide ParentLost;
  }

  lemma BrokenIsLost(s: Store, id: string)
    requires Inv(s) && id in s.messages && PredecessorReadiness(s, s.messages[id]) == Broken
    ensures ParentLost(s, id)
  {
    hide Inv, TerminalKept, PredecessorReadiness, Store.CertifiedContract;
    if s.messages[id].Parent().Some? && s.messages[id].Parent().value in s.messages {
      ReadinessBehindParent(s, id);
      var p := s.messages[s.messages[id].Parent().value];
      assert WaitsOn(s, id, s.deliveries[DeliveryOf(p)].effect.value);
    } else {
      ReadinessAlone(s, id);
    }
  }

  /** A delivery is broken exactly when the entity certified for its typed parent
      has left the certified state. */
  lemma BrokenExactly(s: Store, k: DeliveryId, f: Filter, now: Instant)
    requires Inv(s) && k in s.deliveries
    ensures Consider(s, k, f, now) == Some(Broken) <==> TerminalLost(s, k, f, now)
  {
    DeliveryKnown(s, k);
    hide Inv, ParentLost, PredecessorReadiness, Open;
    if PredecessorReadiness(s, s.messages[k.messageId]) == Broken {
      BrokenIsLost(s, k.messageId);
    }
    if ParentLost(s, k.messageId) {
      LostIsBroken(s, k.messageId);
    }
  }

  lemma UnknownParentReadiness(s: Store, m: Message)
    requires CausationFault(s, m).None? && !(m.Parent().Some? && m.Parent().value in s.messages)
    ensures PredecessorReadiness(s, m) == if m.kind == FromBoundary then Blocked else Ready
  {
    hide CausationFault, CertificateReadiness;
  }

  lemma NoCertificateBlocks(s: Store, p: Message, e: EffectId)
    ensures e !in s.certificates ==> CertificateReadiness(s, p, e) == Blocked
  {
  }

  /** A claim raises exactly when it looks at a delivery whose typed parent's
      certified entity has left the certified state. */
  lemma RaisesExactly(s: Store, f: Filter, now: Instant)
    requires Inv(s)
    ensures ClaimRaises(s, f, now) <==> exists k :: TerminalLost(s, k, f, now)
  {
    hide Inv, Consider;
    forall k | k in s.deliveries ensures Consider(s, k, f, now) == Some(Broken) <==> TerminalLost(s, k, f, now) {
      BrokenExactly(s, k, f, now);
    }
  }

  /** At every point of every run, for every filter and instant. */
  lemma ClaimRaisesExactly(states: seq<Store>, ops: seq<Op>, i: nat, f: Filter, now: Instant)
    requires Run(states, ops) && i < |states|
    ensures ClaimRaises(states[i], f, now) <==> exists k :: TerminalLost(states[i], k, f, now)
  {
    ReachableInv(states, ops, i);
    hide Run, Inv, ClaimRaises, TerminalLost;
    RaisesExactly(states[i], f, now);
  }

  /** Any run with an open typed child behind a certificate is one save away from
      raising: the certified entity only has to move on. */
  lemma MovingOnRaises(states: seq<Store>, ops: seq<Op>, i: nat, k: DeliveryId, f: Filter, now: Instant, e: EffectId, moved: Entity)
    requires Run(states, ops) && i < |states| && k in states[i].deliveries
    requires Consider(states[i], k, f, now).Some? && WaitsOn(states[i], k.messageId, e) && e in states[i].certificates
    requires var proof := states[i].certificates[e];
             var key := EntityKey(proof.entityType, proof.entityId);
             moved.state != proof.terminalState && (key in states[i].entities ==> moved.version > states[i].entities[key].version)
    ensures var key := EntityKey(states[i].certificates[e].entityType, states[i].certificates[e].entityId);
            ClaimRaises(SaveEntity(states[i], key, moved), f, now)
  {
    ReachableInv(states, ops, i);
    hide Run, Inv;
    var s := states[i];
    var key := EntityKey(s.certificates[e].entityType, s.certificates[e].entityId);
    var s' := SaveEntity(s, key, moved);
    SaveEntityKeepsInv(s, key, moved, s');
    StillWaits(s, key, moved, k, f, now, e);
    hide SaveEntity, Consider, WaitsOn, IsConsumed;
    RaisesExactly(s', f, now);
    assert TerminalLost(s', k, f, now);
  }

  lemma StillWaits(s: Store, key: EntityKey, moved: Entity, k: DeliveryId, f: Filter, now: Instant, e: EffectId)
    requires k in s.deliveries && Consider(s, k, f, now).Some? && WaitsOn(s, k.messageId, e) && e in s.certificates
    requires key == EntityKey(s.certificates[e].entityType, s.certificates[e].entityId)
    requires moved.state != s.certificates[e].terminalState && (key in s.entities ==> moved.version > s.entities[key].version)
    ensures var s' := SaveEntity(s, key, moved);
            && k in s'.deliveries && Consider(s', k, f, now).Some? && WaitsOn(s', k.messageId, e)
            && e in s'.certificates && !TerminalKept(s', e)
  {
    hide PredecessorReadiness, Open;
  }

  /** Among unconsumed deliveries, one whose known parent is consumed. */
  lemma {:induction false} FrontierDelivery(s: Store, rank: map<string, nat>, k: DeliveryId) returns (frontier: DeliveryId)
    requires Inv(s) && Ranked(s.messages, rank) && Unconsumed(s, k) && k.messageId in rank
    ensures Unconsumed(s, frontier)
    ensures frontier.messageId in s.messages
    ensures var p := s.messages[frontier.messageId].Parent();
            p.Some? && p.value in s.messages ==> IsConsumed(s, p.value)
    decreases rank[k.messageId]
  {
    var p := s.messages[k.messageId].Parent();
    if p.Some? && p.value in s.messages && !IsConsumed(s, p.value) {
      frontier := FrontierDelivery(s, rank, DeliveryOf(s.messages[p.value]));
    } else {
      frontier := k;
    }
  }

  /** In a quiescent store a frontier message is ready, or broken. */
  lemma FrontierReadiness(s: Store, now: Instant, k: DeliveryId)
    requires Inv(s) && Quiescent(s, now) && Unconsumed(s, k) && k.messageId in s.messages
    requires var p := s.messages[k.messageId].Parent(); p.Some? && p.value in s.messages ==> IsConsumed(s, p.value)
    ensures PredecessorReadiness(s, s.messages[k.messageId]) in {Ready, Broken}
  {
    hide Inv, TerminalKept, PredecessorReadiness;
    var m := s.messages[k.messageId];
    if m.Parent().Some? && m.Parent().value in s.messages {
      ReadinessBehindParent(s, k.messageId);
      var e := s.deliveries[DeliveryOf(s.messages[m.Parent().value])].effect.value;
      assert m.kind == FromBoundary && s.CertifiedContract(s.messages[m.Parent().value].contract) ==> WaitsOn(s, k.messageId, e);
    } else {
      ReadinessAlone(s, k.messageId);
    }
  }

  lemma FrontierConsidered(s: Store, now: Instant, k: DeliveryId)
    requires Inv(s) && Quiescent(s, now) && Unconsumed(s, k) && k.messageId in s.messages
    requires var p := s.messages[k.messageId].Parent(); p.Some? && p.value in s.messages ==> IsConsumed(s, p.value)
    ensures Consider(s, k, Unfiltered, now) in {Some(Ready), Some(Broken)}
  {
    DeliveryKnown(s, k);
    FrontierReadiness(s, now, k);
    hide Inv, IsConsumed, WaitsOn, PredecessorReadiness;
  }

  lemma CandidateExists(s: Store, now: Instant, k: DeliveryId)
    requires Inv(s) && Quiescent(s, now) && Unconsumed(s, k) && !ClaimRaises(s, Unfiltered, now)
    ensures exists c :: Candidate(s, c, Unfiltered, now)
  {
    var rank :| Ranked(s.messages, rank);
    var frontier := FrontierDelivery(s, rank, k);
    FrontierConsidered(s, now, frontier);
    assert Candidate(s, frontier, Unfiltered, now);
  }

  lemma ClaimOutcomeCases(s: Store, owner: string, now: Instant, duration: int, f: Filter,
                          uuid: DeliveryId -> nat, out: ClaimOutcome, s': Store)
    requires ClaimArgumentsValid(owner, duration, f) && !ClaimRaises(s, f, now)
    requires Claims(s, owner, now, duration, f, uuid, out, s')
    ensures !out.Rejected?
    ensures out.Leased? <==> exists c :: Candidate(s, c, f, now)
  {
  }

  /** An unfiltered claim in a quiescent store raises exactly when an entity has
      left its certified state, and otherwise returns a lease exactly when some
      delivery is unconsumed. */
  lemma QuiescentClaim(s: Store, owner: string, now: Instant, duration: int, uuid: DeliveryId -> nat, out: ClaimOutcome, s': Store)
    requires Inv(s) && Quiescent(s, now)
    requires !Blank(owner) && duration > 0
    requires Claims(s, owner, now, duration, Unfiltered, uuid, out, s')
    ensures out.Rejected? <==> exists k :: TerminalLost(s, k, Unfiltered, now)
    ensures !out.Rejected? ==> (out.Leased? <==> exists k :: Unconsumed(s, k))
  {
    RaisesExactly(s, Unfiltered, now);
    hide Inv, Quiescent, TerminalLost;
    if !ClaimRaises(s, Unfiltered, now) {
      ClaimOutcomeCases(s, owner, now, duration, Unfiltered, uuid, out, s');
      if k :| Unconsumed(s, k) {
        CandidateExists(s, now, k);
      }
      if c :| Candidate(s, c, Unfiltered, now) {
        CandidateUnconsumed(s, c, Unfiltered, now);
      }
    }
  }

  /** Deadlock freedom, at every point of every run: work never gets stuck, unless
      an entity left the state that was certified for a typed parent. */
  lemma DeadlockFreedom(states: seq<Store>, ops: seq<Op>, i: nat, owner: string, now: Instant, duration: int,
                        uuid: DeliveryId -> nat, out: ClaimOutcome, s': Store)
    requires Run(states, ops) && i < |states| && Quiescent(states[i], now)
    requires !Blank(owner) && duration > 0
    requires Claims(states[i], owner, now, duration, Unfiltered, uuid, out, s')
    ensures out.Rejected? <==> exists k :: TerminalLost(states[i], k, Unfiltered, now)
    ensures !out.Rejected? ==> (out.Leased? <==> exists k :: Unconsumed(states[i], k))
  {
    ReachableInv(states, ops, i);
    hide Run, Inv, Quiescent, Claims, TerminalLost;
    QuiescentClaim(states[i], owner, now, duration, uuid, out, s');
  }

  lemma CandidateUnconsumed(s: Store, c: DeliveryId, f: Filter, now: Instant)
    requires Candidate(s, c, f, now)
    ensures Unconsumed(s, c)
  {
  }

  /** For one child: the writer's check wants the certified entity still in its terminal state, although versions move on. */
  lemma TypedChildReadyIffTerminalKept(s: Store, id: string)
    requires Inv(s) && id in s.messages && s.messages[id].kind == FromBoundary
    requires s.messages[id].cause.Some? && IsConsumed(s, s.messages[id].cause.value)
    requires s.CertifiedContract(s.messages[s.messages[id].cause.value].contract)
    requires var k := DeliveryOf(s.messages[s.messages[id].cause.value]);
             s.deliveries[k].effect.Some? && s.deliveries[k].effect.value in s.certificates
    ensures var e := s.deliveries[DeliveryOf(s.messages[s.messages[id].cause.value])].effect.value;
            PredecessorReadiness(s, s.messages[id]) == (if TerminalKept(s, e) then Ready else Broken)
  {
    hide Fenced, EffectsSound, CausationSound, CausallyClosed, CausationFault, CertificateReadiness, TerminalKept, PredecessorReadiness;
    StoredCausationHolds(s, id);
    var m := s.messages[id];
    var p := s.messages[m.cause.value];
    KnownParentReadiness(s, m);
    ReceiptOf(s, DeliveryOf(p));
    EffectOfDelivery(s, DeliveryOf(p));
    CertificateVouches(s, p, s.consumptions[DeliveryOf(p)].effect);
    CertifiedNotPending(s, s.consumptions[DeliveryOf(p)].effect);
  }

  lemma CertifiedNotPending(s: Store, e: EffectId)
    requires EffectsSound(s) && e in s.certificates
    ensures e !in s.commands
  {
    assert CertificateSound(s, e);
  }
}
