/**
 One run of the boundary spelled out: a message of any certified contract is
 published, claimed, acknowledged and certified, a typed child is published
 behind it, and the certified entity moves on.
 */
module BoundaryRuns {
  import opened Outcomes
  import opened BoundaryModel
  import opened BoundaryProtocol
  import opened BoundaryCausation
  import opened BoundaryInvariants
  import opened BoundaryTheorems
  import BoundaryAudit

  /** What the run is about: a row of the certified table, a message it covers,
      a child of that message, and the entity in its terminal state. */
  datatype Story = Story(
    intent: string,
    parent: Message,
    child: Message,
    entity: Entity,
    moved: Entity,
    owner: string,
    at: Instant)
  {
    ghost predicate Valid() {
      && intent in CertifiedTerminals() && !Row().needsReceivable && !Blank(owner)
      && parent.Valid() && parent.contract == Row().contract && parent.source == Row().source && parent.destination == Row().destination
      && parent.kind == Opaque && parent.cause == None
      && child.Valid() && child.id != parent.id && child.kind == FromBoundary && child.cause == Some(parent.id)
      && child.correlation == parent.correlation && child.producedAt >= parent.producedAt
      && entity.state == Row().state && moved.state != Row().state && moved.version > entity.version
    }

    function Row(): Terminal
      requires intent in CertifiedTerminals()
    {
      CertifiedTerminals()[intent]
    }

    function Key(): EntityKey
      requires intent in CertifiedTerminals()
    {
      EntityKey(Row().entityType, parent.Field(Row().payloadField))
    }

    function Handler(): Intent
      requires intent in CertifiedTerminals()
    {
      Intent(intent, Row().entityType, parent.Field(Row().payloadField), owner)
    }

    function Effect(): EffectId
      requires intent in CertifiedTerminals()
    {
      EffectOf(parent, Handler())
    }

    function Leased(): Delivery {
      Reclaimed(PendingDelivery(parent), owner, at, 1)
    }

    function Done(): Delivery
      requires intent in CertifiedTerminals()
    {
      Leased().(status := Consumed, consumedAt := Some(at), effect := Some(Effect()))
    }

    function Proof(): Certificate
      requires intent in CertifiedTerminals()
    {
      CertificateFor(parent, Effect(), CommandOf(parent, Handler()), entity, at)
    }
  }

  function Stage(y: Story, i: nat): Store
    requires y.intent in CertifiedTerminals()
  {
    var k, q := DeliveryOf(y.parent), DeliveryOf(y.child);
    var one := map[y.parent.id := y.parent];
    var receipt := map[k := ConsumptionFor(y.Leased(), y.Effect(), y.at)];
    var proof := map[y.Effect() := y.Proof()];
    var empty := Store(CertifiedTerminals(), map[], map[], map[], map[], map[], map[], map[y.Key() := y.entity], map[]);
    if i == 0 then empty
    else if i == 1 then empty.(messages := one, deliveries := map[k := PendingDelivery(y.parent)])
    else if i == 2 then empty.(messages := one, deliveries := map[k := y.Leased()])
    else if i == 3 then empty.(messages := one, deliveries := map[k := y.Done()], consumptions := receipt,
                               commands := map[y.Effect() := CommandOf(y.parent, y.Handler())])
    else if i == 4 then empty.(messages := one, deliveries := map[k := y.Done()], consumptions := receipt, certificates := proof)
    else
      var five := empty.(messages := one[y.child.id := y.child],
                         deliveries := map[k := y.Done()][q := PendingDelivery(y.child)],
                         consumptions := receipt, certificates := proof);
      if i == 5 then five else five.(entities := map[y.Key() := y.moved])
  }

  function Steps(y: Story, uuid: DeliveryId -> nat): seq<Op>
    requires y.intent in CertifiedTerminals()
  {
    var k := DeliveryOf(y.parent);
    [DoPublish(y.parent, None),
     DoClaim(y.owner, y.at, 1, Unfiltered, uuid),
     DoConsume(LeaseOn(k, y.Leased(), y.owner, y.at + 1), map[HandlerKey(None, y.parent.destination, y.parent.contract) := y.Handler()], y.at),
     DoComplete(y.Effect(), y.at),
     DoPublish(y.child, None),
     DoSaveEntity(y.Key(), y.moved)]
  }

  function Stages(y: Story): seq<Store>
    requires y.intent in CertifiedTerminals()
  {
    seq(7, i requires 0 <= i < 7 => Stage(y, i))
  }

  lemma ParentPublished(y: Story)
    requires y.Valid()
    ensures After(Stage(y, 0), Publish(Stage(y, 0), y.parent, None)) == Stage(y, 1)
  {
    hide CertifiedTerminals;
  }

  lemma ParentReady(y: Story, s: Store)
    requires y.Valid()
    ensures PredecessorReadiness(s, y.parent) == Ready
  {
    hide CertifiedTerminals;
  }

  lemma ParentClaimed(y: Story, uuid: DeliveryId -> nat)
    requires y.Valid()
    ensures Claims(Stage(y, 1), y.owner, y.at, 1, Unfiltered, uuid,
                   ClaimOutcome.Leased(LeaseOn(DeliveryOf(y.parent), y.Leased(), y.owner, y.at + 1)), Stage(y, 2))
  {
    hide CertifiedTerminals, PredecessorReadiness;
    var s, k := Stage(y, 1), DeliveryOf(y.parent);
    ParentReady(y, s);
    assert Consider(s, k, Unfiltered, y.at) == Some(Ready);
    assert Candidate(s, k, Unfiltered, y.at);
    assert s.deliveries.Keys == {k};
    assert Stage(y, 2).deliveries == s.deliveries[k := y.Leased()];
  }

  lemma ParentConsumed(y: Story)
    requires y.Valid()
    ensures var r := map[HandlerKey(None, y.parent.destination, y.parent.contract) := y.Handler()];
            var lease := LeaseOn(DeliveryOf(y.parent), y.Leased(), y.owner, y.at + 1);
            After(Stage(y, 2), Consume(Stage(y, 2), lease, r, y.at)) == Stage(y, 3)
  {
    hide CertifiedTerminals, PredecessorReadiness;
    ParentReady(y, Stage(y, 2));
    var r := map[HandlerKey(None, y.parent.destination, y.parent.contract) := y.Handler()];
    assert Resolve(r, y.parent) == Some(y.Handler());
    hide Resolve;
    var s := Stage(y, 2);
    assert Stage(y, 3).deliveries == s.deliveries[DeliveryOf(y.parent) := y.Done()];
  }

  lemma ParentCertified(y: Story)
    requires y.Valid()
    ensures After(Stage(y, 3), Complete(Stage(y, 3), y.Effect(), y.at)) == Stage(y, 4)
  {
    hide CertifiedTerminals;
    var s, k := Stage(y, 3), DeliveryOf(y.parent);
    assert AcceptedReceipts(s, y.parent.id, y.Effect()) == {k};
    assert Certifiable(s, y.Effect());
    hide Certifiable;
    assert Stage(y, 4).commands == s.commands - {y.Effect()};
  }

  lemma ChildAdmitted(y: Story)
    requires y.Valid()
    ensures CausationFault(Stage(y, 4), y.child) == None && DescendantsAgree(Stage(y, 4), y.child)
  {
    hide CertifiedTerminals;
    assert Walk(Stage(y, 4), y.child, None, y.parent.kind, {y.child.id} + {y.parent.id}) == None;
  }

  lemma ChildPublished(y: Story)
    requires y.Valid()
    ensures After(Stage(y, 4), Publish(Stage(y, 4), y.child, None)) == Stage(y, 5)
  {
    ChildAdmitted(y);
    hide CertifiedTerminals, CausationFault, DescendantsAgree;
  }

  lemma EntityMoves(y: Story)
    requires y.Valid()
    ensures SaveEntity(Stage(y, 5), y.Key(), y.moved) == Stage(y, 6)
  {
    hide CertifiedTerminals;
  }

  lemma StoryOpens(y: Story, uuid: DeliveryId -> nat)
    requires y.Valid()
    ensures Next(Stage(y, 0), Steps(y, uuid)[0], Stage(y, 1))
    ensures Next(Stage(y, 1), Steps(y, uuid)[1], Stage(y, 2))
    ensures Next(Stage(y, 2), Steps(y, uuid)[2], Stage(y, 3))
  {
    hide CertifiedTerminals, Publish, Claims, Consume, Stage, Story.Leased, Story.Handler, LeaseOn;
    ParentPublished(y);
    ParentClaimed(y, uuid);
    ParentConsumed(y);
  }

  lemma StoryCloses(y: Story, uuid: DeliveryId -> nat)
    requires y.Valid()
    ensures Next(Stage(y, 3), Steps(y, uuid)[3], Stage(y, 4))
    ensures Next(Stage(y, 4), Steps(y, uuid)[4], Stage(y, 5))
    ensures Next(Stage(y, 5), Steps(y, uuid)[5], Stage(y, 6))
  {
    hide CertifiedTerminals, Publish, Complete, SaveEntity, Stage, Story.Leased, Story.Handler, LeaseOn, Story.Effect, Story.Key;
    ParentCertified(y);
    ChildPublished(y);
    EntityMoves(y);
  }

  lemma StoryStarts(y: Story)
    requires y.Valid()
    ensures Initial(Stage(y, 0))
  {
    hide CertifiedTerminals;
  }

  lemma StoryRuns(y: Story, uuid: DeliveryId -> nat)
    requires y.Valid()
    ensures Run(Stages(y), Steps(y, uuid))
  {
    hide CertifiedTerminals, Next, Initial, Stage, Run;
    StoryStarts(y);
    StoryOpens(y, uuid);
    StoryCloses(y, uuid);
    SixSteps(Stages(y), Steps(y, uuid));
  }

  lemma SixSteps(states: seq<Store>, ops: seq<Op>)
    requires |ops| == 6 && |states| == 7 && Initial(states[0])
    requires Next(states[0], ops[0], states[1]) && Next(states[1], ops[1], states[2]) && Next(states[2], ops[2], states[3])
    requires Next(states[3], ops[3], states[4]) && Next(states[4], ops[4], states[5]) && Next(states[5], ops[5], states[6])
    ensures Run(states, ops)
  {
    hide Next, Initial;
    forall i {:trigger ops[i]} | 0 <= i < |ops| ensures Next(states[i], ops[i], states[i + 1]) {
      assert i == 0 || i == 1 || i == 2 || i == 3 || i == 4 || i == 5;
    }
  }

  /** For every row of the table that needs no receivable there is a run in which a
      typed child stands open behind a certificate; saving the entity in another
      state makes every unfiltered claim raise. */
  lemma MovingOnReached(y: Story, uuid: DeliveryId -> nat)
    requires y.Valid()
    ensures Run(Stages(y), Steps(y, uuid))
    ensures WaitsOn(Stage(y, 5), y.child.id, y.Effect()) && !ClaimRaises(Stage(y, 5), Unfiltered, y.at)
    ensures ClaimRaises(Stage(y, 6), Unfiltered, y.at)
  {
    StoryRuns(y, uuid);
    ChildWaits(y);
    EntityMoves(y);
    hide CertifiedTerminals, Stage, Run, WaitsOn, Consider, ClaimRaises, SaveEntity;
    MovingOnRaises(Stages(y), Steps(y, uuid), 5, DeliveryOf(y.child), Unfiltered, y.at, y.Effect(), y.moved);
    NotYetRaising(y, uuid);
  }

  lemma ChildWaits(y: Story)
    requires y.Valid()
    ensures var s := Stage(y, 5);
            && DeliveryOf(y.child) in s.deliveries && Consider(s, DeliveryOf(y.child), Unfiltered, y.at).Some?
            && WaitsOn(s, y.child.id, y.Effect()) && y.Effect() in s.certificates && TerminalKept(s, y.Effect())
            && s.certificates[y.Effect()] == y.Proof() && y.Key() in s.entities && s.entities[y.Key()] == y.entity
  {
    hide CertifiedTerminals, PredecessorReadiness;
    assert Stage(y, 5).terminals[y.intent].contract == y.parent.contract;
  }

  lemma NotYetRaising(y: Story, uuid: DeliveryId -> nat)
    requires y.Valid() && Run(Stages(y), Steps(y, uuid))
    ensures !ClaimRaises(Stage(y, 5), Unfiltered, y.at)
  {
    var s := Stage(y, 5);
    assert Stages(y)[5] == s;
    ClaimRaisesExactly(Stages(y), Steps(y, uuid), 5, Unfiltered, y.at);
    ChildWaits(y);
    OneCertificate(y);
    hide CertifiedTerminals, Stage, Run, Consider, ClaimRaises, WaitsOn;
  }

  lemma OneCertificate(y: Story)
    requires y.Valid()
    ensures Stage(y, 5).certificates.Keys == {y.Effect()}
  {
    hide CertifiedTerminals;
  }

  /** With equal timestamps the writer admits that child, and the auditor refuses
      the store from then on. */
  lemma EqualTimestampsReached(y: Story, uuid: DeliveryId -> nat)
    requires y.Valid() && y.child.producedAt == y.parent.producedAt
    ensures Run(Stages(y), Steps(y, uuid)) && !BoundaryAudit.AuditClean(Stage(y, 5))
  {
    StoryRuns(y, uuid);
    ReachableInv(Stages(y), Steps(y, uuid), 4);
    assert Stages(y)[4] == Stage(y, 4);
    AuditTargetsMatchTerminals();
    ChildAdmitted(y);
    ChildPublished(y);
    ParentStored(y);
    hide CertifiedTerminals, AuditorKnows, Run, Inv, Publish, Stage, CausationFault, DescendantsAgree, BoundaryAudit.AuditClean;
    BoundaryAudit.EqualTimestampsDiverge(Stage(y, 4), y.child);
  }

  lemma ParentStored(y: Story)
    requires y.Valid()
    ensures var s := Stage(y, 4);
            s.terminals == CertifiedTerminals() && s.messages == map[y.parent.id := y.parent]
  {
    hide CertifiedTerminals;
  }
}
