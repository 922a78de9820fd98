/**
 The two read-only judges of the boundary's records: the causal auditor and the
 selected-protocol observer. The auditor accepts a reachable store exactly when
 every typed parent is published and strictly earlier; the observer accepts
 exactly the published selections whose edges are admitted.
 */
module BoundaryAudit {
  import opened Outcomes
  import opened BoundaryModel
  import opened BoundaryProtocol
  import opened BoundaryCausation
  import opened BoundaryInvariants
  import BoundaryTheorems
  import Cycles

  // ------------------------------------------------------------- the audit's rules

  predicate DeliveryAgrees(s: Store, k: DeliveryId)
    requires k in s.deliveries
  {
    var d := s.deliveries[k];
    && d.messageId in s.messages
    && s.messages[d.messageId].destination == d.destination
    && s.messages[d.messageId].contract == d.contract
  }

  /** The messages the audit sees: those some delivery names. */
  function Audited(s: Store): map<string, Message> {
    map k | k in s.deliveries && s.deliveries[k].messageId in s.messages ::
      s.deliveries[k].messageId := s.messages[s.deliveries[k].messageId]
  }

  function TypedParents(messages: Messages): map<string, string> {
    map id | id in messages && messages[id].kind == FromBoundary && messages[id].cause.Some? :: messages[id].cause.value
  }

  /** The link of one message as the auditor wants it. */
  predicate LinkAccepted(s: Store, messages: Messages, m: Message) {
    match m.kind
    case Opaque => true
    case FromBoundary =>
      && m.cause.Some? && m.cause.value in messages
      && messages[m.cause.value].correlation == m.correlation
      && messages[m.cause.value].producedAt < m.producedAt
    case FromEvent =>
      m.cause.Some? && EventFault(s, m, m.cause.value).None?
  }

  /** A certificate found behind an acknowledgement is the right one. */
  predicate CertificateAccepted(s: Store, m: Message, e: EffectId)
    requires e in s.certificates
  {
    var proof := s.certificates[e];
    var key := EntityKey(proof.entityType, proof.entityId);
    && e !in s.commands
    && proof.effect == e && proof.messageId == m.id && proof.correlation == m.correlation
    && key in s.entities && s.entities[key].version >= proof.entityVersion
    && (s.entities[key].version == proof.entityVersion ==> s.entities[key].state == proof.terminalState)
    && AuditTarget(m.contract).Some?
    && proof.entityType == AuditTarget(m.contract).value.0
    && proof.entityId == m.Field(AuditTarget(m.contract).value.1)
  }

  /** The acknowledgement of one delivery, or its absence, is in order. */
  predicate ReceiptAccepted(s: Store, k: DeliveryId)
    requires k in s.deliveries && DeliveryAgrees(s, k)
  {
    var d := s.deliveries[k];
    var m := s.messages[d.messageId];
    if d.status != Consumed then k !in s.consumptions
    else
      && k in s.consumptions
      && var c := s.consumptions[k];
         && c.messageId == d.messageId && d.effect == Some(c.effect)
         && c.destination == d.destination && c.contract == d.contract
         && if c.effect in s.certificates then CertificateAccepted(s, m, c.effect)
            else c.effect in s.commands || AuditTarget(m.contract).None?
  }

  predicate ReachesCertificate(s: Store, k: DeliveryId) {
    k in s.deliveries && s.deliveries[k].status == Consumed && k in s.consumptions && s.consumptions[k].effect in s.certificates
  }

  function ReachedFrom(s: Store, ks: set<DeliveryId>): set<EffectId> {
    set k | k in ks && ReachesCertificate(s, k) :: s.consumptions[k].effect
  }

  /** Certificates reached from some acknowledgement. */
  function Reached(s: Store): set<EffectId> {
    ReachedFrom(s, s.deliveries.Keys)
  }

  predicate DeliveriesAgree(s: Store) {
    && (forall k :: k in s.deliveries ==> DeliveryAgrees(s, k))
    && (forall j, k :: j in s.deliveries && k in s.deliveries && s.deliveries[j].messageId == s.deliveries[k].messageId ==> j == k)
  }

  ghost predicate LinksAccepted(s: Store, messages: Messages) {
    && !Cycles.Cyclic(Cycles.ParentGraph(TypedParents(messages)))
    && forall id :: id in messages ==> LinkAccepted(s, messages, messages[id])
  }

  predicate ReceiptsAccepted(s: Store) {
    && (forall k :: k in s.deliveries ==> DeliveryAgrees(s, k) && ReceiptAccepted(s, k))
    && s.certificates.Keys == Reached(s)
  }

  ghost predicate AuditClean(s: Store) {
    DeliveriesAgree(s) && LinksAccepted(s, Audited(s)) && ReceiptsAccepted(s)
  }

  /** Collect the audited messages, refusing mismatched or doubled deliveries. */
  method CollectMessages(s: Store) returns (ok: bool, messages: Messages)
    ensures ok <==> DeliveriesAgree(s)
    ensures ok ==> messages == Audited(s)
  {
    messages := map[];
    var todo := s.deliveries.Keys;
    ghost var done: set<DeliveryId> := {};
    while todo != {}
      invariant todo + done == s.deliveries.Keys && todo !! done
      invariant forall k :: k in done ==> DeliveryAgrees(s, k)
      invariant forall j, k :: j in done && k in done && s.deliveries[j].messageId == s.deliveries[k].messageId ==> j == k
      invariant forall id :: id in messages <==> exists k :: k in done && s.deliveries[k].messageId == id
      invariant forall id :: id in messages ==> id in s.messages && messages[id] == s.messages[id]
      decreases todo
    {
      var k :| k in todo;
      if !DeliveryAgrees(s, k) || s.deliveries[k].messageId in messages {
        return false, messages;
      }
      todo, done := todo - {k}, done + {k};
      messages := messages[s.deliveries[k].messageId := s.messages[s.deliveries[k].messageId]];
    }
    assert done == s.deliveries.Keys;
    return true, messages;
  }

  /** Cycles first, then the evidence along each link. */
  method CheckLinks(s: Store, messages: Messages) returns (ok: bool)
    ensures ok <==> LinksAccepted(s, messages)
  {
    var cyclic := Cycles.DetectCycle(TypedParents(messages));
    if cyclic {
      return false;
    }
    var todo := messages.Keys;
    while todo != {}
      invariant todo <= messages.Keys
      invariant forall id :: id in messages && id !in todo ==> LinkAccepted(s, messages, messages[id])
      decreases todo
    {
      var id :| id in todo;
      todo := todo - {id};
      if !LinkAccepted(s, messages, messages[id]) {
        return false;
      }
    }
    return true;
  }

  /** Every acknowledgement, then every certificate. */
  method CheckReceipts(s: Store) returns (ok: bool)
    requires DeliveriesAgree(s)
    ensures ok <==> ReceiptsAccepted(s)
  {
    var todo := s.deliveries.Keys;
    ghost var done: set<DeliveryId> := {};
    var reached: set<EffectId> := {};
    while todo != {}
      invariant todo + done == s.deliveries.Keys
      invariant forall k :: k in done ==> ReceiptAccepted(s, k)
      invariant reached == ReachedFrom(s, done)
      decreases todo
    {
      var k :| k in todo;
      todo, done := todo - {k}, done + {k};
      if !ReceiptAccepted(s, k) {
        return false;
      }
      if ReachesCertificate(s, k) {
        reached := reached + {s.consumptions[k].effect};
      }
    }
    assert done == s.deliveries.Keys;
    return s.certificates.Keys == reached;
  }

  /** The audit: accepts exactly the clean stores and writes nothing. */
  method AuditCausalHistory(s: Store) returns (accepted: bool)
    ensures accepted <==> AuditClean(s)
  {
    var ok, messages := CollectMessages(s);
    if ok {
      ok := CheckLinks(s, messages);
      if ok {
        ok := CheckReceipts(s);
      }
    }
    return ok;
  }

  // ------------------------------------------------------- exactness of the audit

  /** A typed message has its parent published, strictly earlier. */
  ghost predicate TypedParentEarlier(s: Store, m: Message) {
    m.kind == FromBoundary ==>
      && m.cause.Some? && m.cause.value in s.messages
      && s.messages[m.cause.value].producedAt < m.producedAt
  }

  ghost predicate TypedParentsEarlier(s: Store) {
    forall id :: id in s.messages ==> TypedParentEarlier(s, s.messages[id])
  }

  /** A consumed delivery of a certified contract has not lost both records. */
  ghost predicate Accounted(s: Store, k: DeliveryId)
    requires k in s.deliveries
  {
    s.deliveries[k].status == Consumed && s.CertifiedContract(s.deliveries[k].contract) ==>
      && s.deliveries[k].effect.Some?
      && (s.deliveries[k].effect.value in s.commands || s.deliveries[k].effect.value in s.certificates)
  }

  ghost predicate CertifiedContractsAccounted(s: Store) {
    forall k :: k in s.deliveries ==> Accounted(s, k)
  }

  lemma AuditedIsEverything(s: Store)
    requires Paired(s) && Fenced(s)
    ensures Audited(s) == s.messages && DeliveriesAgree(s)
  {
    forall k | k in s.deliveries ensures DeliveryAgrees(s, k) && s.deliveries[k].messageId == k.messageId {
      assert DeliverySound(s, k);
    }
    forall id | id in s.messages ensures id in Audited(s) {
      assert s.deliveries[DeliveryOf(s.messages[id])].messageId == id;
    }
  }

  /** Typed links are known links, so they inherit the ranking. */
  lemma TypedParentsAcyclic(s: Store)
    requires CausationSound(s)
    ensures !Cycles.Cyclic(Cycles.ParentGraph(TypedParents(s.messages)))
  {
    var rank :| Ranked(s.messages, rank);
    var g := Cycles.ParentGraph(TypedParents(s.messages));
    forall e | e in g && e.0 in rank && e.1 in rank ensures rank[e.1] < rank[e.0] {
      assert s.messages[e.0].Parent() == Some(e.1);
    }
    Cycles.RankExcludesCycle(g, rank);
  }

  lemma LinkAcceptance(s: Store, id: string)
    requires CausationSound(s) && id in s.messages
    ensures LinkAccepted(s, s.messages, s.messages[id]) <==> TypedParentEarlier(s, s.messages[id])
  {
    assert LinkSound(s, s.messages[id]) && s.messages[id].Valid();
  }

  lemma LinksAcceptance(s: Store)
    requires CausationSound(s)
    ensures LinksAccepted(s, s.messages) <==> TypedParentsEarlier(s)
  {
    TypedParentsAcyclic(s);
    forall id | id in s.messages
      ensures LinkAccepted(s, s.messages, s.messages[id]) <==> TypedParentEarlier(s, s.messages[id])
    {
      LinkAcceptance(s, id);
    }
  }

  /** The certificate branches of the audit cannot fire on a reachable store. */
  lemma CertificateAcceptance(s: Store, k: DeliveryId)
    requires Paired(s) && Fenced(s) && EffectsSound(s) && AuditorKnows(s.terminals)
    requires k in s.deliveries && s.deliveries[k].status == Consumed
    requires s.deliveries[k].effect.Some? && s.deliveries[k].effect.value in s.certificates
    ensures CertificateAccepted(s, s.messages[k.messageId], s.deliveries[k].effect.value)
  {
    assert EffectAccounted(s, k);
    assert CertificateSound(s, s.deliveries[k].effect.value);
  }

  lemma ReceiptAcceptance(s: Store, k: DeliveryId)
    requires Paired(s) && Fenced(s) && EffectsSound(s) && AuditorKnows(s.terminals)
    requires k in s.deliveries && DeliveryAgrees(s, k)
    ensures ReceiptAccepted(s, k) <==> Accounted(s, k)
  {
    assert DeliverySound(s, k);
    if s.deliveries[k].status == Consumed && s.deliveries[k].effect.value in s.certificates {
      CertificateAcceptance(s, k);
    }
    CertifiedContractKnown(s, s.deliveries[k].contract);
  }

  lemma CertifiedContractKnown(s: Store, c: Contract)
    requires AuditorKnows(s.terminals)
    ensures s.CertifiedContract(c) <==> AuditTarget(c).Some?
  {
  }

  /** No certificate is orphaned. */
  lemma EveryCertificateReached(s: Store)
    requires Paired(s) && Fenced(s) && EffectsSound(s)
    ensures s.certificates.Keys == Reached(s)
  {
    forall e | e in s.certificates ensures e in Reached(s) {
      assert CertificateSound(s, e);
      var k := DeliveryOf(s.messages[e.messageId]);
      assert DeliverySound(s, k);
      assert ReachesCertificate(s, k) && s.consumptions[k].effect == e;
    }
  }

  lemma ReceiptsAcceptance(s: Store)
    requires Paired(s) && Fenced(s) && EffectsSound(s) && AuditorKnows(s.terminals)
    requires DeliveriesAgree(s)
    ensures ReceiptsAccepted(s) <==> CertifiedContractsAccounted(s)
  {
    EveryCertificateReached(s);
    forall k | k in s.deliveries ensures ReceiptAccepted(s, k) <==> Accounted(s, k) {
      ReceiptAcceptance(s, k);
    }
  }

  /** The audit accepts a reachable store exactly when every typed parent is
      published strictly earlier and no certified contract lost its records. */
  lemma AuditExact(s: Store)
    requires Inv(s) && AuditorKnows(s.terminals)
    ensures AuditClean(s) <==> TypedParentsEarlier(s) && CertifiedContractsAccounted(s)
  {
    AuditedIsEverything(s);
    LinksAcceptance(s);
    ReceiptsAcceptance(s);
  }

  // ------------------------------------------------- registries that certify

  /** Every handler of a certified contract stages a certified intent. */
  ghost predicate Disciplined(terminals: map<string, Terminal>, r: Registry) {
    forall key, name :: key in r && name in terminals && terminals[name].contract == key.contract ==> r[key].name in terminals
  }

  /** A consumed delivery of a certified contract carries a certified intent. */
  ghost predicate IntentMatches(s: Store, k: DeliveryId)
    requires k in s.deliveries
  {
    s.deliveries[k].status == Consumed && s.CertifiedContract(s.deliveries[k].contract) ==>
      s.deliveries[k].effect.Some? && s.CertifiedIntent(s.deliveries[k].effect.value.intent)
  }

  ghost predicate IntentsMatchContracts(s: Store) {
    forall k :: k in s.deliveries ==> IntentMatches(s, k)
  }

  lemma ResolvedKey(r: Registry, m: Message)
    ensures Resolve(r, m).Some? ==> exists key :: key in r && key.contract == m.contract && Resolve(r, m) == Some(r[key])
  {
    var exact := HandlerKey(Some(m.source), m.destination, m.contract);
    var general := HandlerKey(None, m.destination, m.contract);
    assert exact in r ==> exact.contract == m.contract;
    assert general in r ==> general.contract == m.contract;
  }

  lemma DisciplinedResolve(s: Store, r: Registry, m: Message)
    requires Disciplined(s.terminals, r) && s.CertifiedContract(m.contract) && Resolve(r, m).Some?
    ensures s.CertifiedIntent(Resolve(r, m).value.name)
  {
    ResolvedKey(r, m);
  }

  /** Along a run whose registries are disciplined, intents match contracts. */
  lemma {:induction false} DisciplinedRun(states: seq<Store>, ops: seq<Op>, i: nat)
    requires Run(states, ops) && i < |states|
    requires forall j :: 0 <= j < |ops| && ops[j].DoConsume? ==> Disciplined(CertifiedTerminals(), ops[j].registry)
    ensures IntentsMatchContracts(states[i]) && states[i].terminals == CertifiedTerminals()
  {
    if i > 0 {
      DisciplinedRun(states, ops, i - 1);
      var s, s' := states[i - 1], states[i];
      ReachableInv(states, ops, i - 1);
      RunStep(states, ops, i - 1);
      NextKeepsInv(s, ops[i - 1], s');
      forall k | k in s'.deliveries ensures IntentMatches(s', k) {
        StepKeepsMatch(s, ops[i - 1], s', k);
      }
    }
  }

  lemma StepKeepsMatch(s: Store, op: Op, s': Store, k: DeliveryId)
    requires Inv(s) && Extends(s, s') && Next(s, op, s') && IntentsMatchContracts(s)
    requires op.DoConsume? ==> Disciplined(s.terminals, op.registry)
    requires k in s'.deliveries
    ensures IntentMatches(s', k)
  {
    if k !in s.deliveries {
      BoundaryTheorems.NewDeliveriesArePending(s, op, s', k);
    } else if s.deliveries[k].status == Consumed {
      KeptMatch(s, s', k);
    } else if s'.deliveries[k].status == Consumed {
      BoundaryTheorems.OnlyConsumeCommits(s, op, s', k);
      FreshMatch(s, op.lease, op.registry, op.now);
    }
  }

  lemma KeptMatch(s: Store, s': Store, k: DeliveryId)
    requires Extends(s, s') && k in s.deliveries && k in s'.deliveries && IntentMatches(s, k)
    requires s.deliveries[k].status == Consumed
    ensures IntentMatches(s', k)
  {
    assert DeliveryAdvances(s, s', k);
  }

  lemma FreshMatch(s: Store, lease: Lease, r: Registry, now: Instant)
    requires Paired(s) && Fenced(s) && EffectsSound(s) && Disciplined(s.terminals, r)
    requires Consume(s, lease, r, now).Ok?
    requires lease.delivery in s.deliveries && s.deliveries[lease.delivery].status != Consumed
    ensures var s' := After(s, Consume(s, lease, r, now));
            lease.delivery in s'.deliveries && IntentMatches(s', lease.delivery)
  {
    ConsumeShape(s, lease, r, now);
    assert DeliverySound(s, lease.delivery);
    var m := s.messages[lease.delivery.messageId];
    if s.CertifiedContract(m.contract) {
      DisciplinedResolve(s, r, m);
    }
  }

  /** For disciplined registries, the audit accepts a reachable store exactly
      when every typed parent is published strictly earlier. */
  lemma AuditExactForDisciplinedRuns(states: seq<Store>, ops: seq<Op>, i: nat)
    requires Run(states, ops) && i < |states|
    requires forall j :: 0 <= j < |ops| && ops[j].DoConsume? ==> Disciplined(CertifiedTerminals(), ops[j].registry)
    ensures AuditClean(states[i]) <==> TypedParentsEarlier(states[i])
  {
    ReachableInv(states, ops, i);
    DisciplinedRun(states, ops, i);
    AuditTargetsMatchTerminals();
    AuditExact(states[i]);
    MatchedMeansAccounted(states[i]);
  }

  /** At every point of a disciplined run, every acknowledged delivery of a
      certified contract has exactly one of pending Command and certificate. */
  lemma AcknowledgedContractAccounted(states: seq<Store>, ops: seq<Op>, i: nat, k: DeliveryId)
    requires Run(states, ops) && i < |states|
    requires forall j :: 0 <= j < |ops| && ops[j].DoConsume? ==> Disciplined(CertifiedTerminals(), ops[j].registry)
    requires k in states[i].deliveries && states[i].deliveries[k].status == Consumed
    requires states[i].CertifiedContract(states[i].deliveries[k].contract)
    ensures states[i].deliveries[k].effect.Some?
    ensures var e := states[i].deliveries[k].effect.value;
            (e in states[i].commands) != (e in states[i].certificates)
  {
    DisciplinedRun(states, ops, i);
    assert IntentMatches(states[i], k);
    hide Run, Disciplined, IntentsMatchContracts;
    BoundaryTheorems.CommandXorCertificate(states, ops, i, k);
  }

  // ---------------------------------------------------- the recovery registry

  /** The handler a contract and its producer call for. */
  datatype Handling = Handling(destination: string, intent: string, entityType: string, field: string)

  function RecoveryHandling(m: Message): Option<Handling> {
    if m.contract == Contract("warehouse.inventory_consumption_requested", 1) then
      Some(Handling("warehouse_management", "composition.consume_fulfillment_inventory", "warehouse_management_stock", "stock_id"))
    else if m.contract == Contract("warehouse.dispatch_ready", 1) then
      Some(Handling("logistics", "composition.deliver_shipment", "shipment", "shipment_id"))
    else if m.contract == Contract("logistics.delivery_completed", 1) then
      Some(Handling("order_to_cash", "composition.complete_external_fulfillment", "sales_order", "order_id"))
    else if m.contract == Contract("o2c.payment_requested", 1) then
      Some(Handling("cards_payments", "composition.settle_customer_payment", "card_payment", "payment_id"))
    else if m.contract == Contract("accounting.entry_requested", 1) then
      if m.source == "cards_payments" then
        Some(Handling("record_to_report", "composition.post_customer_journal", "journal_entry", "journal_id"))
      else if m.source == "procure_to_pay" then
        Some(Handling("record_to_report", "composition.post_replenishment_journal", "journal_entry", "journal_id"))
      else None
    else None
  }

  /** The registry recovery builds for one message, on behalf of `owner`. */
  function RecoveryRegistry(m: Message, owner: string): Result<Registry, Fault> {
    match RecoveryHandling(m)
    case None => Err(UnsupportedContract)
    case Some(h) =>
      if h.field !in m.payload then Err(UnknownRecord)
      else if Blank(owner) then Err(InvalidArgument)
      else Ok(map[HandlerKey(None, h.destination, m.contract) := Intent(h.intent, h.entityType, m.Field(h.field), owner)])
  }

  /** A handling agrees with the table's row for its intent. */
  predicate RowFits(h: Handling, c: Contract) {
    var t := CertifiedTerminals();
    && h.intent in t && t[h.intent].contract == c && t[h.intent].destination == h.destination
    && t[h.intent].entityType == h.entityType && t[h.intent].payloadField == h.field
  }

  lemma ShipmentRow()
    ensures RowFits(Handling("logistics", "composition.deliver_shipment", "shipment", "shipment_id"),
                    Contract("warehouse.dispatch_ready", 1))
  {
  }

  lemma OrderRow()
    ensures RowFits(Handling("order_to_cash", "composition.complete_external_fulfillment", "sales_order", "order_id"),
                    Contract("logistics.delivery_completed", 1))
  {
  }

  lemma PaymentRow()
    ensures RowFits(Handling("cards_payments", "composition.settle_customer_payment", "card_payment", "payment_id"),
                    Contract("o2c.payment_requested", 1))
  {
  }

  lemma JournalRows(customer: bool)
    ensures RowFits(Handling("record_to_report", if customer then "composition.post_customer_journal" else "composition.post_replenishment_journal",
                             "journal_entry", "journal_id"), Contract("accounting.entry_requested", 1))
  {
  }

  lemma InventoryHasNoRow()
    ensures "composition.consume_fulfillment_inventory" !in CertifiedTerminals()
  {
    assert "composition.consume_fulfillment_inventory"[14] != "composition.complete_external_fulfillment"[14];
  }

  /** Recovery handles a certified contract with the intent, destination, entity
      type and payload field of its row, and no other contract with any row. */
  lemma RecoveryRow(m: Message)
    requires RecoveryHandling(m).Some?
    ensures var h := RecoveryHandling(m).value;
            if AuditTarget(m.contract).Some? then RowFits(h, m.contract) else h.intent !in CertifiedTerminals()
  {
    ShipmentRow();
    OrderRow();
    PaymentRow();
    JournalRows(true);
    JournalRows(false);
    InventoryHasNoRow();
    hide RowFits, CertifiedTerminals;
  }

  /** Every handler it registers for a certified contract stages a certified
      intent, so its registries are disciplined. */
  lemma RecoveryIsDisciplined(m: Message, owner: string)
    requires RecoveryRegistry(m, owner).Ok?
    ensures Disciplined(CertifiedTerminals(), RecoveryRegistry(m, owner).value)
  {
    AuditTargetsMatchTerminals();
    RecoveryRow(m);
    hide CertifiedTerminals, AuditTarget, RecoveryHandling;
  }

  /** So what recovery acknowledges keeps the audit exact. */
  lemma AuditExactForRecoveryRuns(states: seq<Store>, ops: seq<Op>, i: nat, owners: seq<string>, messages: seq<Message>)
    requires Run(states, ops) && i < |states| && |owners| == |messages| == |ops|
    requires forall j :: 0 <= j < |ops| && ops[j].DoConsume? ==>
               RecoveryRegistry(messages[j], owners[j]) == Ok(ops[j].registry)
    ensures AuditClean(states[i]) <==> TypedParentsEarlier(states[i])
  {
    hide RecoveryRegistry, Disciplined, Run;
    forall j | 0 <= j < |ops| && ops[j].DoConsume? ensures Disciplined(CertifiedTerminals(), ops[j].registry) {
      RecoveryIsDisciplined(messages[j], owners[j]);
    }
    AuditExactForDisciplinedRuns(states, ops, i);
  }

  lemma MatchedMeansAccounted(s: Store)
    requires Fenced(s) && EffectsSound(s) && IntentsMatchContracts(s)
    ensures CertifiedContractsAccounted(s)
  {
    forall k | k in s.deliveries ensures Accounted(s, k) {
      assert IntentMatches(s, k) && EffectAccounted(s, k);
    }
  }

  /** The writer admits a typed parent with the same timestamp; the audit of
      that store refuses it. */
  lemma EqualTimestampsDiverge(s: Store, child: Message)
    requires Inv(s) && AuditorKnows(s.terminals)
    requires child.Valid() && child.id !in s.messages && child.kind == FromBoundary && child.cause.value in s.messages
    requires child.producedAt == s.messages[child.cause.value].producedAt
    requires DescendantsAgree(s, child) && CausationFault(s, child).None?
    ensures Publish(s, child, None).Ok? && !AuditClean(After(s, Publish(s, child, None)))
  {
    var s' := After(s, Publish(s, child, None));
    PublishKeepsInv(s, child, None, s');
    PublishSucceeds(s, child);
    AuditRefuses(s', child.id);
  }

  lemma AuditRefuses(s: Store, id: string)
    requires Inv(s) && AuditorKnows(s.terminals)
    requires id in s.messages && !TypedParentEarlier(s, s.messages[id])
    ensures !AuditClean(s)
  {
    AuditExact(s);
  }

  lemma PublishSucceeds(s: Store, m: Message)
    requires Paired(s) && m.id !in s.messages && DescendantsAgree(s, m) && CausationFault(s, m).None?
    ensures var r := Publish(s, m, None);
            r.Ok? && r.value.0.messages == s.messages[m.id := m] && r.value.0.terminals == s.terminals
  {
    assert DeliveryOf(m) !in s.deliveries;
  }

  // ------------------------------------------------------------------ the observer

  /** Producer, consumer and contract of a message. */
  datatype Edge = Edge(source: string, destination: string, contract: Contract)

  function EdgeOf(m: Message): Edge {
    Edge(m.source, m.destination, m.contract)
  }

  /** The delivery and receipt of one selected message, as the observer demands. */
  predicate ProtocolAccepted(s: Store, id: string)
    requires id in s.messages
  {
    var m := s.messages[id];
    var k := DeliveryOf(m);
    && k in s.deliveries
    && var d := s.deliveries[k];
       && d.id == k && d.messageId == id && d.destination == m.destination && d.contract == m.contract
       && (d.status == Pending ==> d.attempts == 0 && d.epoch == 0)
       && (d.status != Pending ==>
             && d.attempts >= 1 && d.epoch == d.attempts
             && d.owner.Some? && !Blank(d.owner.value)
             && d.claimedAt.Some? && d.expiresAt.Some? && d.claimedAt.value < d.expiresAt.value)
       && (d.status == Consumed ==>
             && d.consumedAt.Some? && d.claimedAt.value <= d.consumedAt.value < d.expiresAt.value
             && k in s.consumptions && d.effect.Some?
             && s.consumptions[k] == ConsumptionFor(d, d.effect.value, d.consumedAt.value))
       && (d.status != Consumed ==> k !in s.consumptions)
  }

  function SelectedDeliveries(s: Store, selected: set<string>): set<DeliveryId> {
    set id | id in selected && id in s.messages :: DeliveryOf(s.messages[id])
  }

  function SelectedReceipts(s: Store, selected: set<string>): set<ConsumptionId> {
    set id | id in selected && id in s.messages ::
      ConsumptionId(DeliveryOf(s.messages[id]), s.messages[id].id, s.messages[id].destination, s.messages[id].contract)
  }

  /** A delivery that mentions a selected message, or carries its identity. */
  predicate DeliveryBelongs(s: Store, selected: set<string>, k: DeliveryId)
    requires k in s.deliveries
  {
    var d := s.deliveries[k];
    d.messageId in selected || d.id in SelectedDeliveries(s, selected) ==>
      && d.contract.version >= 1
      && d.messageId in selected && d.messageId in s.messages && d.id == DeliveryOf(s.messages[d.messageId])
  }

  /** A receipt that mentions a selected message, its delivery or its receipt. */
  predicate ReceiptBelongs(s: Store, selected: set<string>, k: DeliveryId)
    requires k in s.consumptions
  {
    var c := s.consumptions[k];
    c.messageId in selected || c.delivery in SelectedDeliveries(s, selected) || c.id in SelectedReceipts(s, selected) ==>
      && c.contract.version >= 1 && c.delivery in SelectedDeliveries(s, selected)
      && c.delivery in s.deliveries && s.deliveries[c.delivery].messageId == c.messageId
  }

  /** Records that mention a selected message belong to it and to it alone. */
  predicate RecordsBelong(s: Store, selected: set<string>) {
    && (forall id :: id in selected && id in s.messages ==> s.messages[id].contract.version >= 1)
    && (forall k :: k in s.deliveries ==> DeliveryBelongs(s, selected, k))
    && (forall k :: k in s.consumptions ==> ReceiptBelongs(s, selected, k))
  }

  ghost predicate ObserverAccepts(s: Store, selected: set<string>, admitted: set<Edge>) {
    && selected <= s.messages.Keys && RecordsBelong(s, selected)
    && forall id :: id in selected ==> id in s.messages && EdgeOf(s.messages[id]) in admitted && ProtocolAccepted(s, id)
  }

  /** The observer's walk over the selected messages. */
  method InspectProtocol(s: Store, selected: set<string>, admitted: set<Edge>) returns (accepted: bool)
    ensures accepted <==> ObserverAccepts(s, selected, admitted)
  {
    if !(selected <= s.messages.Keys) || !RecordsBelong(s, selected) {
      return false;
    }
    var todo := selected;
    while todo != {}
      invariant todo <= selected
      invariant forall id :: id in selected && id !in todo ==> EdgeOf(s.messages[id]) in admitted && ProtocolAccepted(s, id)
      decreases todo
    {
      var id :| id in todo;
      todo := todo - {id};
      if EdgeOf(s.messages[id]) !in admitted || !ProtocolAccepted(s, id) {
        return false;
      }
    }
    return true;
  }

  lemma DeliveriesBelong(s: Store, selected: set<string>, k: DeliveryId)
    requires Paired(s) && Fenced(s) && (forall id :: id in s.messages ==> s.messages[id].Valid()) && k in s.deliveries
    ensures DeliveryBelongs(s, selected, k)
  {
    assert DeliverySound(s, k);
    assert s.messages[k.messageId].Valid();
  }

  lemma ReceiptsBelong(s: Store, selected: set<string>, k: DeliveryId)
    requires Paired(s) && Fenced(s) && (forall id :: id in s.messages ==> s.messages[id].Valid()) && k in s.consumptions
    ensures ReceiptBelongs(s, selected, k)
  {
    assert DeliverySound(s, k);
    assert s.messages[k.messageId].Valid();
  }

  /** The observer's protocol checks never reject what the service produced. */
  lemma ServiceRecordsAccepted(s: Store, selected: set<string>)
    requires Inv(s) && selected <= s.messages.Keys
    ensures RecordsBelong(s, selected)
    ensures forall id :: id in selected ==> ProtocolAccepted(s, id)
  {
    forall k | k in s.deliveries ensures DeliveryBelongs(s, selected, k) {
      DeliveriesBelong(s, selected, k);
    }
    forall k | k in s.consumptions ensures ReceiptBelongs(s, selected, k) {
      ReceiptsBelong(s, selected, k);
    }
    forall id | id in selected ensures ProtocolAccepted(s, id) {
      assert DeliverySound(s, DeliveryOf(s.messages[id]));
    }
  }

  /** At every point of every run, the observer accepts any published selection
      whose edges are all admitted, and no other. */
  lemma ObserverAgrees(states: seq<Store>, ops: seq<Op>, i: nat, selected: set<string>, admitted: set<Edge>)
    requires Run(states, ops) && i < |states|
    ensures ObserverAccepts(states[i], selected, admitted) <==>
              forall id :: id in selected ==> id in states[i].messages && EdgeOf(states[i].messages[id]) in admitted
  {
    ReachableInv(states, ops, i);
    hide Run, Inv;
    hide RecordsBelong, ProtocolAccepted;
    if forall id :: id in selected ==> id in states[i].messages {
      ServiceRecordsAccepted(states[i], selected);
    }
  }
}
