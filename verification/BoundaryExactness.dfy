/**
 When each transaction of the boundary succeeds and what it writes, read off the
 records themselves: the conditions a caller could check before the call.
 */
module BoundaryExactness {
  import opened Outcomes
  import opened BoundaryModel
  import opened BoundaryProtocol
  import opened BoundaryCausation
  import opened BoundaryInvariants
  import opened BoundaryTheorems
  import BoundaryAudit

  // ---------------------------------------------------------------- publishing

  /** The event or the known parent behind a new message bears it out, and the
      message is not among its own ancestors. */
  ghost predicate CauseAdmits(s: Store, m: Message) {
    if m.cause.None? then true
    else if m.kind == FromEvent then
      && m.cause.value in s.events && s.events[m.cause.value].correlation == m.correlation
      && s.events[m.cause.value].occurredAt <= m.producedAt
    else
      && m.cause.value != m.id
      && (m.cause.value in s.messages ==>
            && s.messages[m.cause.value].correlation == m.correlation
            && s.messages[m.cause.value].producedAt <= m.producedAt
            && forall n: nat :: NotBehind(s, m.cause.value, n, m.id))
  }

  /** The ancestor at distance n does not name `id` as its parent. */
  ghost predicate NotBehind(s: Store, from: string, n: nat, id: string)
    requires from in s.messages
  {
    var a := Ancestor(s.messages, from, n);
    a.Some? && a.value in s.messages ==> s.messages[a.value].Parent() != Some(id)
  }

  /** No stored child is in another correlation, earlier, or consumed already. */
  ghost predicate ChildrenAdmit(s: Store, m: Message) {
    forall id :: id in s.messages && s.messages[id].Parent() == Some(m.id) ==>
      && s.messages[id].correlation == m.correlation && m.producedAt <= s.messages[id].producedAt
      && DeliveryOf(s.messages[id]) in s.deliveries && s.deliveries[DeliveryOf(s.messages[id])].status != Consumed
  }

  lemma {:induction false} AncestorShift(messages: Messages, x: string, n: nat)
    requires x in messages && messages[x].Parent().Some? && messages[x].Parent().value in messages
    ensures Ancestor(messages, x, n + 1) == Ancestor(messages, messages[x].Parent().value, n)
  {
    if n > 0 {
      AncestorShift(messages, x, n - 1);
    }
  }

  lemma {:induction false} AncestorReaches(messages: Messages, rank: map<string, nat>, x: string, n: nat, target: string)
    requires Ranked(messages, rank) && x in messages
    requires var a := Ancestor(messages, x, n); a.Some? && a.value in messages && messages[a.value].Parent() == Some(target)
    ensures Reaches(messages, rank, x, target)
    decreases n
  {
    if n > 0 && messages[x].Parent().Some? && messages[x].Parent().value in messages {
      AncestorShift(messages, x, n - 1);
      AncestorReaches(messages, rank, messages[x].Parent().value, n - 1, target);
    } else if n > 0 {
      NoAncestors(messages, x, n);
    }
  }

  lemma {:induction false} NoAncestors(messages: Messages, x: string, n: nat)
    requires x in messages && n > 0 && !(messages[x].Parent().Some? && messages[x].Parent().value in messages)
    ensures Ancestor(messages, x, n).None?
  {
    if n > 1 {
      NoAncestors(messages, x, n - 1);
    }
  }

  lemma {:induction false} ReachesAncestor(messages: Messages, rank: map<string, nat>, x: string, target: string) returns (n: nat)
    requires Ranked(messages, rank) && x in messages && Reaches(messages, rank, x, target)
    ensures var a := Ancestor(messages, x, n); a.Some? && a.value in messages && messages[a.value].Parent() == Some(target)
    decreases rank[x]
  {
    var p := messages[x].Parent().value;
    if p == target {
      n := 0;
    } else {
      var k := ReachesAncestor(messages, rank, p, target);
      AncestorShift(messages, x, k);
      n := k + 1;
    }
  }

  /** The walk of a newcomer succeeds when no ancestor leads back to it. */
  lemma {:induction false} NewcomerWalks(s: Store, rank: map<string, nat>, m: Message, at: Message, visited: set<string>)
    requires CausationSound(s) && Ranked(s.messages, rank) && m.id !in s.messages
    requires at.id in s.messages && s.messages[at.id] == at && !Reaches(s.messages, rank, at.id, m.id)
    requires at.correlation == m.correlation && at.producedAt <= m.producedAt
    requires forall v :: v in visited ==> v == m.id || (v in rank && rank[at.id] <= rank[v])
    ensures Walk(s, m, at.cause, at.kind, visited).None?
    decreases rank[at.id]
  {
    assert LinkSound(s, at);
    if at.Parent().Some? && at.Parent().value in s.messages {
      var p := s.messages[at.Parent().value];
      assert rank[p.id] < rank[at.id];
      NewcomerWalks(s, rank, m, p, visited + {p.id});
    }
  }

  /** What the walk of a new message finds, without the walk. */
  lemma WalkExactly(s: Store, m: Message)
    requires CausationSound(s) && m.Valid() && m.id !in s.messages
    ensures CausationFault(s, m).None? <==> CauseAdmits(s, m)
  {
    var rank :| Ranked(s.messages, rank);
    if m.Parent().Some? && m.Parent().value in s.messages {
      var p := s.messages[m.Parent().value];
      if CausationFault(s, m).None? {
        WalkAvoidsStart(s, rank, m, m.cause, m.kind, {m.id});
        assert p.correlation == m.correlation && p.producedAt <= m.producedAt;
        forall n: nat ensures NotBehind(s, p.id, n, m.id) {
          AncestorsNotBehind(s, rank, p.id, n, m.id);
        }
      }
      if CauseAdmits(s, m) {
        if Reaches(s.messages, rank, p.id, m.id) {
          ReachesIsBehind(s, rank, p.id, m.id);
        }
        NewcomerWalks(s, rank, m, p, {m.id} + {p.id});
      }
    }
  }

  lemma ReachesIsBehind(s: Store, rank: map<string, nat>, x: string, id: string)
    requires Ranked(s.messages, rank) && x in s.messages && Reaches(s.messages, rank, x, id)
    ensures exists n: nat :: !NotBehind(s, x, n, id)
  {
    var n := ReachesAncestor(s.messages, rank, x, id);
    assert !NotBehind(s, x, n, id);
  }

  lemma AncestorsNotBehind(s: Store, rank: map<string, nat>, x: string, n: nat, id: string)
    requires Ranked(s.messages, rank) && x in s.messages && !Reaches(s.messages, rank, x, id)
    ensures NotBehind(s, x, n, id)
  {
    if !NotBehind(s, x, n, id) {
      AncestorReaches(s.messages, rank, x, n, id);
    }
  }

  lemma ChildrenExactly(s: Store, m: Message)
    requires Paired(s) && Fenced(s)
    ensures DescendantsAgree(s, m) <==> ChildrenAdmit(s, m)
  {
    if DescendantsAgree(s, m) {
      forall id | id in s.messages && s.messages[id].Parent() == Some(m.id)
        ensures s.messages[id].correlation == m.correlation && m.producedAt <= s.messages[id].producedAt
        ensures s.deliveries[DeliveryOf(s.messages[id])].status != Consumed
      {
        var k := DeliveryOf(s.messages[id]);
        assert DeliverySound(s, k) && !ContradictedBy(s, m, k);
      }
    }
    if ChildrenAdmit(s, m) {
      forall k | k in s.deliveries ensures !ContradictedBy(s, m, k) {
        assert DeliverySound(s, k);
      }
    }
  }

  /** A new message is published exactly when its cause and its stored children
      admit it and the job it is charged to, if any, is active. */
  lemma PublishExactly(s: Store, m: Message, job: Option<string>)
    requires Inv(s) && m.Valid() && m.id !in s.messages
    requires job.Some? && job.value in s.jobs ==> m.id !in s.jobs[job.value].publications
    ensures Publish(s, m, job).Ok? <==>
              && CauseAdmits(s, m) && ChildrenAdmit(s, m)
              && (job.Some? ==> job.value in s.jobs && s.jobs[job.value].activeTrigger.Some?)
  {
    WalkExactly(s, m);
    ChildrenExactly(s, m);
    assert DeliveryOf(m) !in s.deliveries;
    hide Paired, Fenced, CausationSound, EffectsSound, CausallyClosed, CausationFault, DescendantsAgree, CauseAdmits, ChildrenAdmit;
  }

  /** What it writes: the message, its pending delivery, and the job's charge. */
  lemma PublishWrites(s: Store, m: Message, job: Option<string>)
    requires Inv(s) && m.id !in s.messages && Publish(s, m, job).Ok?
    ensures var s' := Publish(s, m, job).value.0;
            var k := DeliveryId(m.id, m.destination, m.contract);
            && s' == s.(messages := s.messages[m.id := m], deliveries := s'.deliveries, jobs := s'.jobs)
            && s'.deliveries == s.deliveries[k := Delivery(k, m.id, m.destination, m.contract, Pending, 0, None, 0, None, None, None, None)]
            && (job.None? ==> s'.jobs == s.jobs)
            && (job.Some? ==>
                  && job.value in s.jobs
                  && s'.jobs == s.jobs[job.value := s.jobs[job.value].(publications := s.jobs[job.value].publications + [m.id])])
  {
    assert DeliveryOf(m) !in s.deliveries;
    hide Inv, CausationFault, DescendantsAgree;
  }

  /** At every point of every run. */
  lemma PublicationExactly(states: seq<Store>, ops: seq<Op>, i: nat, m: Message)
    requires Run(states, ops) && i < |states| && m.Valid()
    ensures m.id !in states[i].messages ==>
              (Publish(states[i], m, None).Ok? <==> CauseAdmits(states[i], m) && ChildrenAdmit(states[i], m))
    ensures m.id in states[i].messages ==> (Publish(states[i], m, None).Ok? <==> states[i].messages[m.id] == m)
  {
    ReachableInv(states, ops, i);
    hide Run;
    if m.id !in states[i].messages {
      hide Inv, Publish, CauseAdmits, ChildrenAdmit;
      PublishExactly(states[i], m, None);
    } else if states[i].messages[m.id] == m {
      StoredAgain(states[i], m);
    } else {
      hide CausationFault;
    }
  }

  lemma StoredAgain(s: Store, m: Message)
    requires Inv(s) && m.id in s.messages && s.messages[m.id] == m
    ensures Publish(s, m, None).Ok?
  {
    StoredCausationHolds(s, m.id);
    assert DeliverySound(s, DeliveryOf(m));
    hide CausationSound, EffectsSound, CausallyClosed, CausationFault;
  }

  /** An event-caused message with no stored child is published exactly when its
      event is stored, in its correlation, and not later than it. */
  lemma EventMessageExactly(states: seq<Store>, ops: seq<Op>, i: nat, m: Message)
    requires Run(states, ops) && i < |states| && m.Valid() && m.id !in states[i].messages && m.kind == FromEvent
    requires forall id :: id in states[i].messages ==> states[i].messages[id].Parent() != Some(m.id)
    ensures var s := states[i];
            Publish(s, m, None).Ok? <==>
              && m.cause.value in s.events && s.events[m.cause.value].correlation == m.correlation
              && s.events[m.cause.value].occurredAt <= m.producedAt
  {
    PublicationExactly(states, ops, i, m);
    hide Run, Publish;
  }

  /** The auditor's condition on one link, for each kind of cause. */
  lemma AuditLinkExactly(s: Store, messages: Messages, m: Message)
    ensures BoundaryAudit.LinkAccepted(s, messages, m) <==>
              && (m.kind == FromBoundary ==>
                    && m.cause.Some? && m.cause.value in messages
                    && messages[m.cause.value].correlation == m.correlation && messages[m.cause.value].producedAt < m.producedAt)
              && (m.kind == FromEvent ==>
                    && m.cause.Some? && m.cause.value in s.events
                    && s.events[m.cause.value].correlation == m.correlation && s.events[m.cause.value].occurredAt <= m.producedAt)
  {
  }

  // ------------------------------------------------------------------- claiming

  /** Nobody holds the delivery at `now`. */
  ghost predicate Free(d: Delivery, now: Instant) {
    d.status == Pending || (d.status == Claimed && d.expiresAt.Some? && d.expiresAt.value <= now)
  }

  ghost predicate Matches(s: Store, k: DeliveryId, f: Filter)
    requires k.messageId in s.messages
  {
    && (f.destination.Some? ==> k.destination == f.destination.value)
    && (f.contracts.Some? ==> k.contract in f.contracts.value)
    && (f.messageId.Some? ==> k.messageId == f.messageId.value)
    && (f.correlation.Some? ==> s.messages[k.messageId].correlation == f.correlation.value)
  }

  /** The message's predecessor, where it has or needs one, is consumed, its effect
      is executed, and what was certified for a typed child still stands. */
  ghost predicate PredecessorDone(s: Store, m: Message) {
    if m.kind == FromEvent || m.cause.None? then m.kind != FromBoundary
    else if m.cause.value !in s.messages then m.kind == Opaque
    else
      var p := s.messages[m.cause.value];
      var k := DeliveryOf(p);
      && k in s.deliveries && s.deliveries[k].status == Consumed && s.deliveries[k].effect.Some?
      && var e := s.deliveries[k].effect.value;
         && e !in s.commands
         && (m.kind == FromBoundary && (exists name :: name in s.terminals && s.terminals[name].contract == p.contract) ==>
               && e in s.certificates
               && var key := EntityKey(s.certificates[e].entityType, s.certificates[e].entityId);
                  key in s.entities && s.entities[key].state == s.certificates[e].terminalState)
  }

  ghost predicate Eligible(s: Store, k: DeliveryId, f: Filter, now: Instant) {
    && k in s.deliveries && k.messageId in s.messages
    && Free(s.deliveries[k], now) && Matches(s, k, f) && PredecessorDone(s, s.messages[k.messageId])
  }

  lemma CertifiedEntityKnown(s: Store, e: EffectId)
    requires EffectsSound(s) && e in s.certificates
    ensures EntityKey(s.certificates[e].entityType, s.certificates[e].entityId) in s.entities
  {
    assert CertificateSound(s, e);
  }

  lemma ReadyExactly(s: Store, id: string)
    requires Inv(s) && id in s.messages
    ensures PredecessorReadiness(s, s.messages[id]) == Ready <==> PredecessorDone(s, s.messages[id])
  {
    var m := s.messages[id];
    assert m.Valid();
    hide Paired, Fenced, EffectsSound, CausationSound, CausallyClosed, PredecessorReadiness;
    if m.Parent().Some? && m.Parent().value in s.messages {
      ReadinessBehindParent(s, id);
      var k := DeliveryOf(s.messages[m.Parent().value]);
      if k in s.deliveries && s.deliveries[k].effect.Some? && s.deliveries[k].effect.value in s.certificates {
        CertifiedEntityKnown(s, s.deliveries[k].effect.value);
      }
    } else {
      ReadinessAlone(s, id);
    }
  }

  /** What a claim may lease, read off the records. */
  lemma CandidateExactly(s: Store, k: DeliveryId, f: Filter, now: Instant)
    requires Inv(s)
    ensures Candidate(s, k, f, now) <==> Eligible(s, k, f, now)
  {
    hide Inv, PredecessorReadiness, PredecessorDone;
    if k in s.deliveries {
      KnownRecord(s, k);
      ReadyExactly(s, k.messageId);
    }
  }

  lemma KnownRecord(s: Store, k: DeliveryId)
    requires Inv(s) && k in s.deliveries
    ensures DeliveryNamed(k, s.deliveries[k]) && k.messageId in s.messages
    ensures s.deliveries[k].status == Claimed ==> s.deliveries[k].expiresAt.Some?
  {
    assert DeliverySound(s, k);
  }

  /** A claim that does not raise leases the first eligible delivery, by production
      time and then identity, and nothing exactly when none is eligible. */
  lemma ClaimExactly(states: seq<Store>, ops: seq<Op>, i: nat, owner: string, now: Instant, duration: int, f: Filter,
                     uuid: DeliveryId -> nat, out: ClaimOutcome, s': Store)
    requires Run(states, ops) && i < |states| && Claims(states[i], owner, now, duration, f, uuid, out, s') && !out.Rejected?
    ensures out.Nothing? <==> forall k :: !Eligible(states[i], k, f, now)
    ensures out.Nothing? ==> s' == states[i]
    ensures out.Leased? ==>
              var s, k := states[i], out.lease.delivery;
              && Eligible(s, k, f, now) && (forall j :: Eligible(s, j, f, now) ==> Before(s, k, j, uuid))
              && k in s.deliveries && k in s'.deliveries && s' == s.(deliveries := s.deliveries[k := s'.deliveries[k]])
              && out.lease == Lease(k, k.messageId, owner, s.deliveries[k].epoch + 1, now + duration)
              && NewLease(s.deliveries[k], owner, now, duration, s'.deliveries[k])
  {
    ReachableInv(states, ops, i);
    hide Run, Inv, Eligible, Claims, NewLease, Before;
    ClaimLeasesFirst(states[i], owner, now, duration, f, uuid, out, s');
    ClaimWrites(states[i], owner, now, duration, f, uuid, out, s');
  }

  lemma ClaimLeasesFirst(s: Store, owner: string, now: Instant, duration: int, f: Filter, uuid: DeliveryId -> nat, out: ClaimOutcome, s': Store)
    requires Inv(s) && Claims(s, owner, now, duration, f, uuid, out, s') && !out.Rejected?
    ensures out.Nothing? <==> forall k :: !Eligible(s, k, f, now)
    ensures out.Leased? ==> Eligible(s, out.lease.delivery, f, now) && forall j :: Eligible(s, j, f, now) ==> Before(s, out.lease.delivery, j, uuid)
  {
    hide Inv, Eligible, Candidate, ClaimRaises, Reclaimed, LeaseOn;
    forall k ensures Candidate(s, k, f, now) <==> Eligible(s, k, f, now) {
      CandidateExactly(s, k, f, now);
    }
    if out.Leased? {
      forall j | Eligible(s, j, f, now) ensures Before(s, out.lease.delivery, j, uuid) {
        EligibleKnown(s, out.lease.delivery, f, now);
        EligibleKnown(s, j, f, now);
        LeasedRecord(s, out.lease.delivery);
        LeasedRecord(s, j);
      }
    }
  }

  lemma ClaimWrites(s: Store, owner: string, now: Instant, duration: int, f: Filter, uuid: DeliveryId -> nat, out: ClaimOutcome, s': Store)
    requires Inv(s) && Claims(s, owner, now, duration, f, uuid, out, s')
    ensures !out.Leased? ==> s' == s
    ensures out.Leased? ==>
              var k := out.lease.delivery;
              && k in s.deliveries && k in s'.deliveries && s' == s.(deliveries := s.deliveries[k := s'.deliveries[k]])
              && out.lease == Lease(k, k.messageId, owner, s.deliveries[k].epoch + 1, now + duration)
              && NewLease(s.deliveries[k], owner, now, duration, s'.deliveries[k])
  {
    hide Inv, Consider, ClaimRaises;
    if out.Leased? {
      LeasedRecord(s, out.lease.delivery);
    }
  }

  /** First by production time, then by identity. */
  ghost predicate Before(s: Store, k: DeliveryId, j: DeliveryId, uuid: DeliveryId -> nat) {
    && k.messageId in s.messages && j.messageId in s.messages
    && var a, b := s.messages[k.messageId].producedAt, s.messages[j.messageId].producedAt;
       a < b || (a == b && uuid(k) <= uuid(j))
  }

  /** The record under the new lease. */
  ghost predicate NewLease(d: Delivery, owner: string, now: Instant, duration: int, d': Delivery) {
    && d'.id == d.id && d'.messageId == d.messageId && d'.destination == d.destination && d'.contract == d.contract
    && d'.status == Claimed && d'.attempts == d.attempts + 1 && d'.epoch == d.epoch + 1
    && d'.owner == Some(owner) && d'.claimedAt == Some(now) && d'.expiresAt == Some(now + duration)
    && d'.consumedAt.None? && d'.effect.None?
  }

  lemma EligibleKnown(s: Store, k: DeliveryId, f: Filter, now: Instant)
    requires Eligible(s, k, f, now)
    ensures k in s.deliveries && k.messageId in s.messages
  {
  }

  lemma LeasedRecord(s: Store, k: DeliveryId)
    requires Inv(s)
    ensures k in s.deliveries ==> s.deliveries[k].messageId == k.messageId && k.messageId in s.messages
  {
    if k in s.deliveries {
      assert DeliverySound(s, k);
    }
  }

  // ---------------------------------------------------- nobody loses a live lease

  /** The delivery is consumed, or held until `until` at least. */
  ghost predicate HeldUntil(s: Store, k: DeliveryId, until: Instant) {
    && k in s.deliveries && s.deliveries[k].status != Pending
    && (s.deliveries[k].status == Claimed ==> s.deliveries[k].expiresAt.Some? && until <= s.deliveries[k].expiresAt.value)
  }

  lemma ClaimsOnlyFree(s: Store, owner: string, now: Instant, duration: int, f: Filter, uuid: DeliveryId -> nat, out: ClaimOutcome, s': Store)
    requires Inv(s) && Claims(s, owner, now, duration, f, uuid, out, s') && out.Leased?
    ensures var k := out.lease.delivery;
            && k in s.deliveries && Free(s.deliveries[k], now)
            && k in s'.deliveries && s'.deliveries[k].status == Claimed && s'.deliveries[k].expiresAt == Some(now + duration)
  {
    CandidateExactly(s, out.lease.delivery, f, now);
    ClaimWrites(s, owner, now, duration, f, uuid, out, s');
    hide Inv, Consider, Matches, PredecessorDone, ClaimRaises;
  }

  lemma ClaimHolds(s: Store, owner: string, now: Instant, duration: int, f: Filter, uuid: DeliveryId -> nat, out: ClaimOutcome, s': Store,
                   k: DeliveryId, until: Instant)
    requires Inv(s) && Claims(s, owner, now, duration, f, uuid, out, s') && HeldUntil(s, k, until)
    ensures HeldUntil(s', k, until)
  {
    hide Inv, Claims, NewLease;
    ClaimWrites(s, owner, now, duration, f, uuid, out, s');
    if out.Leased? {
      ClaimsOnlyFree(s, owner, now, duration, f, uuid, out, s');
      ClaimLasts(s, owner, now, duration, f, uuid, out, s');
    }
  }

  lemma SomeClaim(s: Store, op: Op, s': Store) returns (out: ClaimOutcome)
    requires Next(s, op, s') && op.DoClaim?
    ensures Claims(s, op.owner, op.now, op.duration, op.filter, op.uuid, out, s')
  {
    hide Claims;
    out :| Claims(s, op.owner, op.now, op.duration, op.filter, op.uuid, out, s');
  }

  lemma ClaimLasts(s: Store, owner: string, now: Instant, duration: int, f: Filter, uuid: DeliveryId -> nat, out: ClaimOutcome, s': Store)
    requires Claims(s, owner, now, duration, f, uuid, out, s') && out.Leased?
    ensures duration > 0
  {
    hide Consider, ClaimRaises, NextClaim;
  }

  lemma StepHolds(s: Store, op: Op, s': Store, k: DeliveryId, until: Instant)
    requires Inv(s) && Next(s, op, s') && HeldUntil(s, k, until)
    ensures HeldUntil(s', k, until)
  {
    hide Inv, Next;
    if op.DoClaim? {
      var out := SomeClaim(s, op, s');
      hide Claims, HeldUntil;
      ClaimHolds(s, op.owner, op.now, op.duration, op.filter, op.uuid, out, s', k, until);
    } else {
      StillKnown(s, op, s', k);
      OnlyClaimsLease(s, op, s', k);
    }
  }

  lemma StillKnown(s: Store, op: Op, s': Store, k: DeliveryId)
    requires Inv(s) && Next(s, op, s') && k in s.deliveries
    ensures k in s'.deliveries
  {
    hide Inv, Next;
    NextKeepsInv(s, op, s');
    assert DeliveryAdvances(s, s', k);
  }

  /** Only a claim changes a delivery without consuming it. */
  lemma OnlyClaimsLease(s: Store, op: Op, s': Store, k: DeliveryId)
    requires Inv(s) && Next(s, op, s') && !op.DoClaim? && k in s.deliveries && k in s'.deliveries
    ensures s'.deliveries[k] == s.deliveries[k] || s'.deliveries[k].status == Consumed
  {
    hide Inv, Publish, Consume, Complete;
    if op.DoPublish? {
      PublishKeepsDelivery(s, op.message, op.job, k);
    } else if op.DoConsume? {
      ConsumeOrKeep(s, op.lease, op.registry, op.now, k);
    } else if op.DoComplete? {
      CompleteKeepsDeliveries(s, op.effect, op.at);
    }
  }

  lemma PublishKeepsDelivery(s: Store, m: Message, job: Option<string>, k: DeliveryId)
    requires Inv(s) && k in s.deliveries
    ensures var s' := After(s, Publish(s, m, job)); k in s'.deliveries && s'.deliveries[k] == s.deliveries[k]
  {
    hide CausationSound, EffectsSound, CausallyClosed, Publish, Paired, DeliverySound, DescendantsAgree, CausationFault;
    PublishShape(s, m, job);
    NoEarlyDelivery(s, m);
  }

  lemma NoEarlyDelivery(s: Store, m: Message)
    requires Paired(s)
    ensures m.id !in s.messages ==> DeliveryOf(m) !in s.deliveries
  {
  }

  lemma ConsumeOrKeep(s: Store, lease: Lease, r: Registry, now: Instant, k: DeliveryId)
    requires k in s.deliveries
    ensures var s' := After(s, Consume(s, lease, r, now));
            k in s'.deliveries && (s'.deliveries[k] == s.deliveries[k] || s'.deliveries[k].status == Consumed)
  {
    hide PredecessorReadiness, Resolve;
  }

  lemma {:induction false} HoldsThrough(states: seq<Store>, ops: seq<Op>, i: nat, j: nat, k: DeliveryId, until: Instant)
    requires Run(states, ops) && i <= j < |states| && HeldUntil(states[i], k, until)
    ensures HeldUntil(states[j], k, until)
    decreases j - i
  {
    hide Initial, HeldUntil, Next;
    if i < j {
      HoldsThrough(states, ops, i, j - 1, k, until);
      ReachableInv(states, ops, j - 1);
      hide Inv;
      assert Next(states[j - 1], ops[j - 1], states[j]);
      StepHolds(states[j - 1], ops[j - 1], states[j], k, until);
    }
  }

  /** Over any run, a delivery is leased again only once the earlier lease expired,
      whatever happened in between. */
  lemma LiveLeaseIsExclusive(states: seq<Store>, ops: seq<Op>, i: nat, j: nat, first: ClaimOutcome, second: ClaimOutcome)
    requires Run(states, ops) && i < j < |ops| && ops[i].DoClaim? && ops[j].DoClaim?
    requires Claims(states[i], ops[i].owner, ops[i].now, ops[i].duration, ops[i].filter, ops[i].uuid, first, states[i + 1])
    requires Claims(states[j], ops[j].owner, ops[j].now, ops[j].duration, ops[j].filter, ops[j].uuid, second, states[j + 1])
    requires first.Leased? && second.Leased? && first.lease.delivery == second.lease.delivery
    ensures ops[i].now + ops[i].duration <= ops[j].now
  {
    hide Inv, Claims, Free, Next, Initial;
    assert |states| == |ops| + 1;
    hide Run;
    ReachableInv(states, ops, i);
    ReachableInv(states, ops, j);
    ClaimsOnlyFree(states[i], ops[i].owner, ops[i].now, ops[i].duration, ops[i].filter, ops[i].uuid, first, states[i + 1]);
    ClaimsOnlyFree(states[j], ops[j].owner, ops[j].now, ops[j].duration, ops[j].filter, ops[j].uuid, second, states[j + 1]);
    HoldsThrough(states, ops, i + 1, j, first.lease.delivery, ops[i].now + ops[i].duration);
    HeldIsNotFree(states[j], first.lease.delivery, ops[i].now + ops[i].duration, ops[j].now);
  }

  lemma HeldIsNotFree(s: Store, k: DeliveryId, until: Instant, now: Instant)
    requires HeldUntil(s, k, until)
    ensures Free(s.deliveries[k], now) ==> until <= now
  {
  }

  // ---------------------------------------------------------------- acknowledging

  /** The handler for the message: registered for its producer, or for any producer
      where nobody registered a particular one for that destination and contract. */
  ghost predicate Handles(r: Registry, m: Message, i: Intent) {
    var exact := HandlerKey(Some(m.source), m.destination, m.contract);
    var general := HandlerKey(None, m.destination, m.contract);
    || (exact in r && r[exact] == i)
    || (general in r && r[general] == i
        && forall source: string :: HandlerKey(Some(source), m.destination, m.contract) !in r)
  }

  lemma ResolveExactly(r: Registry, m: Message)
    ensures forall i :: Resolve(r, m) == Some(i) <==> Handles(r, m, i)
  {
    var exact := HandlerKey(Some(m.source), m.destination, m.contract);
    forall i ensures Resolve(r, m) == Some(i) <==> Handles(r, m, i) {
      if key :| key in r && key.source.Some? && key.destination == m.destination && key.contract == m.contract {
        assert key == HandlerKey(Some(key.source.value), m.destination, m.contract);
      }
    }
  }

  /** The lease is the delivery's current one, and `now` lies within it. */
  ghost predicate Current(d: Delivery, lease: Lease, now: Instant) {
    && d.status == Claimed && d.messageId == lease.messageId && d.owner == Some(lease.owner) && d.epoch == lease.epoch
    && d.claimedAt.Some? && d.claimedAt.value <= now && d.expiresAt.Some? && now < d.expiresAt.value
  }

  /** An open delivery is acknowledged exactly under its current lease, with its
      predecessor done and a handler for its message; the Command it stages is the
      handler's, due when the message was produced. */
  lemma ConsumeExactly(s: Store, lease: Lease, r: Registry, now: Instant)
    requires Inv(s) && lease.delivery in s.deliveries && s.deliveries[lease.delivery].status != Consumed
    ensures var k := lease.delivery;
            && k.messageId in s.messages
            && (Consume(s, lease, r, now).Ok? <==>
                  && Current(s.deliveries[k], lease, now) && PredecessorDone(s, s.messages[k.messageId])
                  && exists i :: Handles(r, s.messages[k.messageId], i))
  {
    var k := lease.delivery;
    assert DeliverySound(s, k);
    var m := s.messages[k.messageId];
    ReadyExactly(s, k.messageId);
    ResolveExactly(r, m);
    hide Paired, Fenced, EffectsSound, CausationSound, CausallyClosed, PredecessorReadiness, PredecessorDone, Resolve, Handles;
    if Resolve(r, m).Some? {
      assert Handles(r, m, Resolve(r, m).value);
      NothingStaged(s, k, Resolve(r, m).value);
    }
  }

  lemma NothingStaged(s: Store, k: DeliveryId, i: Intent)
    requires Inv(s) && k in s.deliveries && s.deliveries[k].status != Consumed
    ensures k.messageId in s.messages && EffectOf(s.messages[k.messageId], i) !in s.commands && k !in s.consumptions
  {
    hide CausationSound, CausallyClosed;
    assert DeliverySound(s, k);
    FreshEffect(s, EffectOf(s.messages[k.messageId], i));
  }

  /** What an acknowledgement writes, for the handler `i` of the message. */
  ghost predicate Acknowledges(s: Store, k: DeliveryId, i: Intent, now: Instant, s': Store)
    requires k in s.deliveries && k.messageId in s.messages
  {
    var m := s.messages[k.messageId];
    var e := EffectId(m.id, i.name, i.entityType, i.entityId);
    && s'.commands == s.commands[e := Command(e, i.name, i.entityType, i.entityId, m.producedAt, m.id, m.correlation, i.owner)]
    && s'.deliveries == s.deliveries[k := s.deliveries[k].(status := Consumed, consumedAt := Some(now), effect := Some(e))]
    && s'.consumptions.Keys == s.consumptions.Keys + {k} && s'.consumptions[k].effect == e && s'.consumptions[k].consumedAt == now
    && s'.messages == s.messages && s'.certificates == s.certificates && s'.entities == s.entities && s'.jobs == s.jobs
  }

  lemma ConsumeWrites(s: Store, lease: Lease, r: Registry, now: Instant)
    requires Inv(s) && lease.delivery in s.deliveries && s.deliveries[lease.delivery].status != Consumed
    requires Consume(s, lease, r, now).Ok?
    ensures lease.delivery.messageId in s.messages
    ensures exists i :: Handles(r, s.messages[lease.delivery.messageId], i)
                        && Acknowledges(s, lease.delivery, i, now, Consume(s, lease, r, now).value.0)
  {
    var k := lease.delivery;
    KnownRecord(s, k);
    var m := s.messages[k.messageId];
    assert Inv(s) ==> Paired(s) && Fenced(s) && EffectsSound(s);
    hide Paired, Fenced, EffectsSound, CausationSound, CausallyClosed, Consume, Resolve, Handles, PredecessorReadiness;
    ConsumeShape(s, lease, r, now);
    ResolveExactly(r, m);
    var i := Resolve(r, m).value;
    assert Handles(r, m, i);
    JustConsumedWrites(s, k, i, now, Consume(s, lease, r, now).value.0);
  }

  lemma JustConsumedWrites(s: Store, k: DeliveryId, i: Intent, now: Instant, s': Store)
    requires JustConsumed(s, k, i, now, s')
    ensures Acknowledges(s, k, i, now, s')
  {
    hide PredecessorReadiness;
  }

  // ------------------------------------------------------------------ certifying

  /** The domain did what the row of the Command's intent asks for: the entity is in
      the terminal state and, for an invoice, an open receivable of the same order,
      amount and currency stands beside it. */
  ghost predicate TerminalReached(s: Store, e: EffectId)
    requires e.messageId in s.messages
  {
    var key := EntityKey(e.entityType, e.entityId);
    && e.intent in s.terminals && key in s.entities
    && var t, m, sale := s.terminals[e.intent], s.messages[e.messageId], s.entities[key];
       && e.entityType == t.entityType && m.contract == t.contract && m.source == t.source && m.destination == t.destination
       && m.Field(t.payloadField) == e.entityId && sale.state == t.state
       && (t.needsReceivable ==>
             && ReceivableOf(e.entityId) in s.entities
             && var r := s.entities[ReceivableOf(e.entityId)];
                && r.state == "open" && r.Get("order_id") == Some(e.entityId)
                && r.Get("amount") == sale.Get("amount") && r.Get("currency") == sale.Get("currency"))
  }

  /** A pending Command is certified exactly when its terminal state is reached. */
  lemma CompleteExactly(s: Store, e: EffectId, at: Instant)
    requires Inv(s) && e in s.commands
    ensures e.messageId in s.messages
    ensures Complete(s, e, at).Ok? <==> TerminalReached(s, e)
  {
    PendingCommand(s, e);
    CertifiableExactly(s, e);
    hide Inv, Certifiable, TerminalReached;
  }

  lemma CertifiableExactly(s: Store, e: EffectId)
    requires Inv(s) && e in s.commands && e.messageId in s.messages
    ensures Certifiable(s, e) <==> TerminalReached(s, e)
  {
    PendingCommand(s, e);
    OneReceiptEach(s, e);
    hide Inv, AcceptedReceipts;
  }

  /** And the certificate says what was found. */
  lemma CompleteWrites(s: Store, e: EffectId, at: Instant)
    requires Inv(s) && e in s.commands && Complete(s, e, at).Ok?
    ensures e.messageId in s.messages && EntityKey(e.entityType, e.entityId) in s.entities
    ensures var m, entity := s.messages[e.messageId], s.entities[EntityKey(e.entityType, e.entityId)];
            var proof := Certificate(e, m.id, m.correlation, e.entityType, e.entityId, entity.state, entity.version, at);
            Complete(s, e, at).value.0 == s.(commands := s.commands - {e}, certificates := s.certificates[e := proof])
  {
    PendingCommand(s, e);
    hide Inv, AcceptedReceipts, ReceivableConsistent;
  }

  lemma PendingCommand(s: Store, e: EffectId)
    requires Inv(s) && e in s.commands
    ensures e.messageId in s.messages && e !in s.certificates && s.messages[e.messageId].id == e.messageId
    ensures var c := s.commands[e];
            && c.name == e.intent && c.entityType == e.entityType && c.entityId == e.entityId && c.cause == e.messageId
            && c.correlation == s.messages[e.messageId].correlation && c.cause != "" && c.correlation != ""
  {
    hide Fenced, CausallyClosed, LinksSound, Acyclic;
    assert CommandSound(s, e);
    assert e in s.certificates ==> CertificateSound(s, e);
    assert s.messages[e.messageId].Valid();
  }

  lemma OneReceiptEach(s: Store, e: EffectId)
    requires Inv(s) && e in s.commands
    ensures |AcceptedReceipts(s, e.messageId, e)| == 1
  {
    assert CommandSound(s, e);
    hide Inv, AcceptedReceipts;
    OnlyItsReceipt(s, e);
  }

  lemma OnlyItsReceipt(s: Store, e: EffectId)
    requires Inv(s) && Acknowledged(s, e)
    ensures AcceptedReceipts(s, e.messageId, e) == {DeliveryOf(s.messages[e.messageId])}
  {
    hide CausationSound, CausallyClosed, AcceptedReceipts;
    var k := DeliveryOf(s.messages[e.messageId]);
    assert DeliverySound(s, k);
    hide DeliverySound;
    forall j | j in s.consumptions ensures s.consumptions[j].effect == e ==> j == k {
      ReceiptOfEffect(s, j);
    }
    hide EffectsSound, Paired, Fenced;
    OneReceipt(s, e, k);
  }

  // -------------------------------------------------- the judges on any store at all

  /** What the observer accepts of a selected message is a sound record: named after
      its message, with the provenance of a real lease and the one receipt. */
  lemma ObserverIsSound(s: Store, id: string)
    requires id in s.messages && s.messages[id].id == id
    ensures BoundaryAudit.ProtocolAccepted(s, id) ==> DeliveryOf(s.messages[id]) in s.deliveries
    ensures var k := DeliveryOf(s.messages[id]);
            k in s.deliveries && (s.deliveries[k].status == Consumed <==> k in s.consumptions)
            && (s.deliveries[k].status == Pending ==> s.deliveries[k] == PendingDelivery(s.messages[id]))
            && (s.deliveries[k].status == Claimed ==> s.deliveries[k].consumedAt.None? && s.deliveries[k].effect.None?) ==>
              (BoundaryAudit.ProtocolAccepted(s, id) <==> DeliverySound(s, k))
  {
  }

  /** Whatever store the auditor accepts, reachable or not: every delivery is its
      message's only one, and an acknowledgement has its receipt and, for a certified
      contract, its pending Command or the certificate of that very effect. */
  lemma AuditCatchesReceipts(s: Store, k: DeliveryId)
    requires BoundaryAudit.AuditClean(s) && k in s.deliveries
    ensures var d := s.deliveries[k];
            && d.messageId in s.messages && s.messages[d.messageId].destination == d.destination
            && s.messages[d.messageId].contract == d.contract
            && (forall j :: j in s.deliveries && s.deliveries[j].messageId == d.messageId ==> j == k)
            && (d.status == Consumed <==> k in s.consumptions)
            && (d.status == Consumed ==>
                  && d.effect.Some? && s.consumptions[k].effect == d.effect.value && s.consumptions[k].messageId == d.messageId
                  && s.consumptions[k].destination == d.destination && s.consumptions[k].contract == d.contract
                  && !(d.effect.value in s.commands && d.effect.value in s.certificates)
                  && (BoundaryModel.AuditTarget(d.contract).Some? ==> d.effect.value in s.commands || d.effect.value in s.certificates))
  {
    hide BoundaryAudit.LinksAccepted, AuditTarget;
    assert BoundaryAudit.ReceiptAccepted(s, k);
  }

  /** The certificate of `e` is about the message this delivery acknowledged. */
  ghost predicate Backs(s: Store, k: DeliveryId, e: EffectId)
    requires e in s.certificates
  {
    && k in s.deliveries && k in s.consumptions && s.consumptions[k].effect == e && s.deliveries[k].status == Consumed
    && s.deliveries[k].messageId in s.messages
    && var m := s.messages[s.deliveries[k].messageId];
       && s.certificates[e].messageId == m.id && s.certificates[e].correlation == m.correlation
       && AuditTarget(m.contract).Some? && s.certificates[e].entityType == AuditTarget(m.contract).value.0
       && s.certificates[e].entityId == m.Field(AuditTarget(m.contract).value.1)
  }

  /** And every certificate is that of an acknowledged effect, names the message's
      correlation and target, and its entity has not fallen behind it. */
  lemma AuditCatchesCertificates(s: Store, e: EffectId)
    requires BoundaryAudit.AuditClean(s) && e in s.certificates
    ensures var proof := s.certificates[e];
            var key := EntityKey(proof.entityType, proof.entityId);
            && proof.effect == e && e !in s.commands && (exists k :: Backs(s, k, e))
            && key in s.entities && s.entities[key].version >= proof.entityVersion
            && (s.entities[key].version == proof.entityVersion ==> s.entities[key].state == proof.terminalState)
  {
    hide BoundaryAudit.LinksAccepted, BoundaryAudit.DeliveriesAgree, AuditTarget;
    assert e in BoundaryAudit.Reached(s);
    var k :| k in s.deliveries && BoundaryAudit.ReachesCertificate(s, k) && s.consumptions[k].effect == e;
    assert BoundaryAudit.ReceiptAccepted(s, k);
    assert Backs(s, k, e);
  }

  /** Whatever selection the observer accepts, no delivery or receipt that mentions a
      selected message, or carries an identity derived from one, is anybody else's. */
  lemma ObserverCatchesStrays(s: Store, selected: set<string>, admitted: set<BoundaryAudit.Edge>, k: DeliveryId)
    requires BoundaryAudit.ObserverAccepts(s, selected, admitted)
    ensures k in s.deliveries && s.deliveries[k].messageId in selected ==>
              s.deliveries[k].messageId in s.messages && s.deliveries[k].id == DeliveryOf(s.messages[s.deliveries[k].messageId])
    ensures k in s.deliveries ==> forall id :: id in selected && s.deliveries[k].id == DeliveryOf(s.messages[id]) ==> s.deliveries[k].messageId in selected
    ensures k in s.consumptions && s.consumptions[k].messageId in selected ==>
              s.consumptions[k].delivery in s.deliveries && s.deliveries[s.consumptions[k].delivery].messageId == s.consumptions[k].messageId
    ensures k in s.consumptions ==> forall id :: id in selected && s.consumptions[k].delivery == DeliveryOf(s.messages[id]) ==>
              s.consumptions[k].delivery in s.deliveries && s.deliveries[s.consumptions[k].delivery].messageId == s.consumptions[k].messageId
    ensures forall id :: id in selected ==> BoundaryAudit.Edge(s.messages[id].source, s.messages[id].destination, s.messages[id].contract) in admitted
  {
    hide BoundaryAudit.ProtocolAccepted;
    assert k in s.deliveries ==> BoundaryAudit.DeliveryBelongs(s, selected, k);
    assert k in s.consumptions ==> BoundaryAudit.ReceiptBelongs(s, selected, k);
  }
}
