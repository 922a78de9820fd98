/**
 Durable records of the composition boundary: messages, deliveries, leases,
 acknowledgements, staged Commands and business-effect certificates.

 Identities the program derives with `deterministic_id` are constructors over
 the same arguments, so distinct arguments give distinct identities.
 */
module BoundaryModel {
  import opened Outcomes

  type Instant = int

  datatype Contract = Contract(name: string, version: int)

  /** The optional discriminator stored beside a causation identifier. */
  datatype CauseKind = Opaque | FromBoundary | FromEvent

  datatype Message = Message(
    id: string,
    contract: Contract,
    source: string,
    destination: string,
    correlation: string,
    cause: Option<string>,
    kind: CauseKind,
    producedAt: Instant,
    payload: map<string, string>)
  {
    predicate Valid() {
      && id != "" && contract.name != "" && contract.version > 0
      && source != "" && destination != "" && correlation != ""
      && (kind != Opaque ==> cause.Some? && cause.value != "")
    }

    /** The boundary message named as the cause, whether or not it is known. */
    function Parent(): Option<string> {
      if kind == FromEvent then None else cause
    }

    function Field(name: string): string {
      if name in payload then payload[name] else ""
    }
  }

  datatype DeliveryId = DeliveryId(messageId: string, destination: string, contract: Contract)

  function DeliveryOf(m: Message): DeliveryId {
    DeliveryId(m.id, m.destination, m.contract)
  }

  datatype DeliveryStatus = Pending | Claimed | Consumed

  datatype Delivery = Delivery(
    id: DeliveryId,
    messageId: string,
    destination: string,
    contract: Contract,
    status: DeliveryStatus,
    attempts: int,
    owner: Option<string>,
    epoch: int,
    claimedAt: Option<Instant>,
    expiresAt: Option<Instant>,
    consumedAt: Option<Instant>,
    effect: Option<EffectId>)

  function PendingDelivery(m: Message): Delivery {
    Delivery(DeliveryOf(m), m.id, m.destination, m.contract, Pending, 0, None, 0, None, None, None, None)
  }

  /** Identity of the Command a handler stages for one message. */
  datatype EffectId = EffectId(messageId: string, intent: string, entityType: string, entityId: string)

  datatype Lease = Lease(delivery: DeliveryId, messageId: string, owner: string, epoch: int, expiresAt: Instant)

  datatype ConsumptionId = ConsumptionId(delivery: DeliveryId, messageId: string, destination: string, contract: Contract)

  datatype Consumption = Consumption(
    id: ConsumptionId,
    delivery: DeliveryId,
    messageId: string,
    destination: string,
    contract: Contract,
    effect: EffectId,
    consumedAt: Instant)

  function ConsumptionFor(d: Delivery, effect: EffectId, at: Instant): Consumption {
    Consumption(ConsumptionId(d.id, d.messageId, d.destination, d.contract),
                d.id, d.messageId, d.destination, d.contract, effect, at)
  }

  datatype Event = Event(correlation: string, occurredAt: Instant)

  datatype Command = Command(
    id: EffectId, name: string, entityType: string, entityId: string,
    dueAt: Instant, cause: string, correlation: string, owner: string)

  datatype EntityKey = EntityKey(entityType: string, id: string) | ReceivableOf(order: string)

  datatype Entity = Entity(state: string, version: int, attributes: map<string, string>)
  {
    function Get(name: string): Option<string> {
      if name in attributes then Some(attributes[name]) else None
    }
  }

  datatype Certificate = Certificate(
    effect: EffectId, messageId: string, correlation: string,
    entityType: string, entityId: string,
    terminalState: string, entityVersion: int, completedAt: Instant)

  /** Part of a recurring job's checkpoint that the boundary protocol charges. */
  datatype Job = Job(
    activeTrigger: Option<string>,
    effects: seq<EffectId>,
    acknowledgements: seq<string>,
    publications: seq<string>,
    completed: seq<string>)

  /** One row of the table of certified intents. */
  datatype Terminal = Terminal(
    entityType: string, state: string, contract: Contract,
    source: string, destination: string, payloadField: string, needsReceivable: bool)

  /** The authoritative store, as one transaction sees it, together with the
      table of certified intents the program was built with. */
  datatype Store = Store(
    terminals: map<string, Terminal>,
    messages: map<string, Message>,
    deliveries: map<DeliveryId, Delivery>,
    consumptions: map<DeliveryId, Consumption>,
    events: map<string, Event>,
    commands: map<EffectId, Command>,
    certificates: map<EffectId, Certificate>,
    entities: map<EntityKey, Entity>,
    jobs: map<string, Job>)
  {
    predicate CertifiedIntent(name: string) {
      name in terminals
    }

    /** Contracts whose consumption must end in a certificate. */
    predicate CertifiedContract(c: Contract) {
      exists name :: name in terminals && terminals[name].contract == c
    }
  }

  /** The table itself. */
  function CertifiedTerminals(): map<string, Terminal> {
    map[
      "composition.deliver_shipment" := Terminal("shipment", "delivered",
        Contract("warehouse.dispatch_ready", 1), "warehouse_fulfillment", "logistics", "shipment_id", false),
      "composition.complete_external_fulfillment" := Terminal("sales_order", "invoiced",
        Contract("logistics.delivery_completed", 1), "logistics", "order_to_cash", "order_id", true),
      "composition.settle_customer_payment" := Terminal("card_payment", "settled",
        Contract("o2c.payment_requested", 1), "order_to_cash", "cards_payments", "payment_id", false),
      "composition.post_customer_journal" := Terminal("journal_entry", "posted",
        Contract("accounting.entry_requested", 1), "cards_payments", "record_to_report", "journal_id", false),
      "composition.post_replenishment_journal" := Terminal("journal_entry", "posted",
        Contract("accounting.entry_requested", 1), "procure_to_pay", "record_to_report", "journal_id", false)
    ]
  }

  /** The entity type and payload field the auditor expects per contract. */
  function AuditTarget(c: Contract): Option<(string, string)> {
    if c == Contract("warehouse.dispatch_ready", 1) then Some(("shipment", "shipment_id"))
    else if c == Contract("logistics.delivery_completed", 1) then Some(("sales_order", "order_id"))
    else if c == Contract("o2c.payment_requested", 1) then Some(("card_payment", "payment_id"))
    else if c == Contract("accounting.entry_requested", 1) then Some(("journal_entry", "journal_id"))
    else None
  }

  /** The auditor keeps its own list of certified contracts and their targets. */
  ghost predicate AuditorKnows(terminals: map<string, Terminal>) {
    && (forall name :: name in terminals ==>
          AuditTarget(terminals[name].contract) == Some((terminals[name].entityType, terminals[name].payloadField)))
    && (forall c :: AuditTarget(c).Some? ==> exists name :: name in terminals && terminals[name].contract == c)
  }

  /** It names the same contracts and targets as the table. */
  lemma AuditTargetsMatchTerminals()
    ensures AuditorKnows(CertifiedTerminals())
  {
    var t := CertifiedTerminals();
    assert "composition.deliver_shipment" in t && "composition.complete_external_fulfillment" in t
      && "composition.settle_customer_payment" in t && "composition.post_customer_journal" in t;
    forall c | AuditTarget(c).Some? ensures exists name :: name in t && t[name].contract == c {
      if c == t["composition.deliver_shipment"].contract {
      } else if c == t["composition.complete_external_fulfillment"].contract {
      } else if c == t["composition.settle_customer_payment"].contract {
      } else {
        assert c == t["composition.post_customer_journal"].contract;
      }
    }
  }
}
