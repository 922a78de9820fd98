/**
 The known causation graph: every message has at most one boundary parent, and
 the graph may grow at either end because a parent can be published late.
 */
module BoundaryCausation {
  import opened Outcomes
  import opened BoundaryModel
  import opened BoundaryProtocol

  type Messages = map<string, Message>

  /** `rank` strictly decreases from every message to its known parent. */
  ghost predicate Ranked(messages: Messages, rank: map<string, nat>) {
    && rank.Keys == messages.Keys
    && forall c :: c in messages && messages[c].Parent().Some? && messages[c].Parent().value in messages ==>
         rank[messages[c].Parent().value] < rank[c]
  }

  ghost predicate Acyclic(messages: Messages) {
    exists rank :: Ranked(messages, rank)
  }

  /** Following known parents from `x` arrives at a child of `target`. */
  ghost predicate Reaches(messages: Messages, rank: map<string, nat>, x: string, target: string)
    requires Ranked(messages, rank) && x in messages
    decreases rank[x]
  {
    var p := messages[x].Parent();
    p.Some? && (p.value == target || (p.value in messages && Reaches(messages, rank, p.value, target)))
  }

  /** A walk that finds no fault has not come back to where it started. */
  lemma {:induction false} WalkAvoidsStart(s: Store, rank: map<string, nat>, m: Message, cursor: Option<string>, kind: CauseKind, visited: set<string>)
    requires Ranked(s.messages, rank) && m.id in visited && m.id !in s.messages
    requires Walk(s, m, cursor, kind, visited).None?
    requires kind != FromEvent && cursor.Some?
    ensures cursor.value != m.id
    ensures cursor.value in s.messages ==> !Reaches(s.messages, rank, cursor.value, m.id)
    decreases s.messages.Keys - visited
  {
    if cursor.value in s.messages {
      var p := s.messages[cursor.value];
      assert cursor.value in s.messages.Keys - visited;
      if p.Parent().Some? {
        WalkAvoidsStart(s, rank, m, p.cause, p.kind, visited + {cursor.value});
      }
    }
  }

  lemma RankBound(rank: map<string, nat>) returns (bound: nat)
    ensures forall k :: k in rank ==> rank[k] < bound
    decreases |rank|
  {
    if rank == map[] {
      bound := 0;
    } else {
      var k :| k in rank;
      var rest := rank - {k};
      assert rest.Keys == rank.Keys - {k};
      assert |rest.Keys| < |rank.Keys|;
      var b := RankBound(rest);
      bound := if b <= rank[k] then rank[k] + 1 else b;
      forall j | j in rank ensures rank[j] < bound {
        assert j == k || j in rest;
      }
    }
  }

  /** Late parents keep the graph acyclic: descendants of the newcomer are
      lifted above everything else. */
  lemma PublishKeepsAcyclic(s: Store, m: Message)
    requires Acyclic(s.messages) && m.id !in s.messages
    requires CausationFault(s, m).None?
    ensures Acyclic(s.messages[m.id := m])
  {
    var messages := s.messages;
    var rank :| Ranked(messages, rank);
    var bound := RankBound(rank);
    var grown := messages[m.id := m];
    var lifted: map<string, nat> := map x | x in grown.Keys ::
      if x == m.id then bound
      else if Reaches(messages, rank, x, m.id) then bound + 1 + rank[x]
      else rank[x];
    if m.Parent().Some? {
      WalkAvoidsStart(s, rank, m, m.cause, m.kind, {m.id});
    }
    hide Walk;
    assert Ranked(grown, lifted);
  }

  // ------------------------------------------------- edges carry the evidence

  /** What holds along each known link of a stored message. */
  ghost predicate LinkSound(s: Store, m: Message) {
    && (m.kind == FromEvent ==> m.cause.Some? && EventFault(s, m, m.cause.value).None?)
    && (m.Parent().Some? && m.Parent().value in s.messages ==>
          && s.messages[m.Parent().value].correlation == m.correlation
          && s.messages[m.Parent().value].producedAt <= m.producedAt)
  }

  ghost predicate LinksSound(s: Store) {
    forall id :: id in s.messages ==> LinkSound(s, s.messages[id])
  }

  ghost predicate CausationSound(s: Store) {
    && (forall id :: id in s.messages ==> s.messages[id].id == id && s.messages[id].Valid())
    && LinksSound(s)
    && Acyclic(s.messages)
  }

  /** The walk from a stored message meets no fault, however far it goes. */
  lemma {:induction false} WalkSucceeds(s: Store, rank: map<string, nat>, m: Message, at: Message, visited: set<string>)
    requires CausationSound(s) && Ranked(s.messages, rank)
    requires at.id in s.messages && s.messages[at.id] == at
    requires at.correlation == m.correlation && at.producedAt <= m.producedAt
    requires forall v :: v in visited ==> v in rank && rank[at.id] <= rank[v]
    ensures Walk(s, m, at.cause, at.kind, visited).None?
    decreases rank[at.id]
  {
    assert LinkSound(s, at);
    if at.Parent().Some? && at.Parent().value in s.messages {
      var p := s.messages[at.Parent().value];
      assert rank[p.id] < rank[at.id];
      WalkSucceeds(s, rank, m, p, visited + {p.id});
    }
  }

  /** Re-validation inside claim and consume never raises on a stored message. */
  lemma StoredCausationHolds(s: Store, id: string)
    requires CausationSound(s) && id in s.messages
    ensures CausationFault(s, s.messages[id]).None?
  {
    var rank :| Ranked(s.messages, rank);
    WalkSucceeds(s, rank, s.messages[id], s.messages[id], {id});
  }

  /** The newcomer's own links are sound once its walk finds no fault. */
  lemma NewcomerLinkSound(s: Store, m: Message)
    requires m.Valid() && m.id !in s.messages && CausationFault(s, m).None?
    ensures m.Parent() != Some(m.id)
    ensures LinkSound(s, m)
  {
  }

  /** Links of earlier messages survive the arrival of their late parent. */
  lemma EarlierLinkSound(s: Store, m: Message, id: string, s': Store)
    requires id in s.messages && m.id !in s.messages && LinkSound(s, s.messages[id])
    requires DeliveryOf(s.messages[id]) in s.deliveries && s.deliveries[DeliveryOf(s.messages[id])].messageId == id
    requires DescendantsAgree(s, m)
    requires s'.messages == s.messages[m.id := m] && s'.events == s.events
    ensures LinkSound(s', s.messages[id])
  {
    assert !ContradictedBy(s, m, DeliveryOf(s.messages[id]));
    var c := s.messages[id];
    assert c.kind == FromEvent ==> EventFault(s', c, c.cause.value) == EventFault(s, c, c.cause.value);
  }

  /** A publication that passes validation extends a sound graph soundly. */
  lemma PublishKeepsCausation(s: Store, m: Message, s': Store)
    requires CausationSound(s) && m.Valid() && m.id !in s.messages
    requires forall id :: id in s.messages ==> (
               && DeliveryOf(s.messages[id]) in s.deliveries
               && s.deliveries[DeliveryOf(s.messages[id])].messageId == id)
    requires CausationFault(s, m).None? && DescendantsAgree(s, m)
    requires s'.messages == s.messages[m.id := m] && s'.events == s.events
    ensures CausationSound(s')
  {
    PublishKeepsAcyclic(s, m);
    NewcomerLinkSound(s, m);
    forall id | id in s'.messages ensures LinkSound(s', s'.messages[id]) {
      if id == m.id {
        assert m.kind == FromEvent ==> EventFault(s', m, m.cause.value) == EventFault(s, m, m.cause.value);
      } else {
        EarlierLinkSound(s, m, id, s');
      }
    }
  }

  /** An ancestor at distance `n` along known parents. */
  ghost function Ancestor(messages: Messages, id: string, n: nat): Option<string>
    requires id in messages
    decreases n
  {
    if n == 0 then Some(id)
    else
      var a := Ancestor(messages, id, n - 1);
      if a.Some? && a.value in messages && messages[a.value].Parent().Some? && messages[a.value].Parent().value in messages
      then messages[a.value].Parent() else None
  }

  /** In a sound graph no message is its own ancestor, and every ancestor
      shares the correlation and is not produced later. */
  lemma {:induction false} AncestorsPrecede(s: Store, id: string, n: nat)
    requires CausationSound(s) && id in s.messages
    ensures var a := Ancestor(s.messages, id, n);
            a.Some? ==>
              && a.value in s.messages
              && (n > 0 ==> a.value != id)
              && s.messages[a.value].correlation == s.messages[id].correlation
              && s.messages[a.value].producedAt <= s.messages[id].producedAt
  {
    var rank :| Ranked(s.messages, rank);
    AncestorsRankLower(s, rank, id, n);
  }

  lemma {:induction false} AncestorsRankLower(s: Store, rank: map<string, nat>, id: string, n: nat)
    requires CausationSound(s) && Ranked(s.messages, rank) && id in s.messages
    ensures var a := Ancestor(s.messages, id, n);
            a.Some? ==>
              && a.value in s.messages
              && rank[a.value] + n <= rank[id]
              && s.messages[a.value].correlation == s.messages[id].correlation
              && s.messages[a.value].producedAt <= s.messages[id].producedAt
  {
    if n > 0 {
      AncestorsRankLower(s, rank, id, n - 1);
      var a := Ancestor(s.messages, id, n - 1);
      if a.Some? {
        assert LinkSound(s, s.messages[a.value]);
      }
    }
  }
}
