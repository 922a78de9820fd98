/** The warehouse, outbox and persistence facade, as they update their records. */
module DomainFacade {
  import opened Outcomes
  import opened DomainStore

  class MemoryDomainWarehouse {
    var entities: map<Key, Entity>
    var mutations: map<MutationId, Mutation>

    function View(): Warehouse
      reads this
    {
      Warehouse(entities, mutations)
    }

    constructor ()
      ensures View() == EmptyWarehouse
    {
      entities, mutations := map[], map[];
    }

    /** Apply idempotently, monotonically by version; a refusal changes nothing. */
    method ApplyMutation(m: Mutation) returns (r: Result<ApplyResult, Fault>)
      modifies this
      ensures var out := Apply(old(View()), m);
              && (r.Ok? <==> out.Ok?) && View() == (if out.Ok? then out.value.0 else old(View()))
              && (r.Ok? ==> r.value == out.value.1) && (r.Err? ==> r.error == out.error)
    {
      if m.id in mutations {
        return if mutations[m.id] != m then Err(IdentityConflict) else Ok(Replayed);
      }
      var key := m.entity.key;
      if key in entities {
        var current := entities[key];
        if m.entity.version < current.version {
          mutations := mutations[m.id := m];
          return Ok(Superseded);
        }
        if m.entity.version == current.version {
          if m.entity != current {
            return Err(VersionConflict);
          }
          mutations := mutations[m.id := m];
          return Ok(Replayed);
        }
      }
      entities := entities[key := m.entity];
      mutations := mutations[m.id := m];
      return Ok(Applied);
    }
  }

  /** What becomes of one delivery. */
  datatype DeliveryFate = Arrives | DiesBeforeAck | Unreachable

  datatype DeliveryOutcome = Gone | Acknowledged(result: ApplyResult) | Lost | Refused

  class DomainPersistence {
    const warehouse: MemoryDomainWarehouse
    var outbox: map<MutationId, Delivery>
    ghost var saved: map<Key, Entity>
    ghost var history: set<Entity>

    ghost function View(): System
      reads this, warehouse
    {
      System(warehouse.View(), outbox, saved, history)
    }

    ghost predicate Valid()
      reads this, warehouse
    {
      Inv(View())
    }

    constructor (w: MemoryDomainWarehouse)
      requires w.View() == EmptyWarehouse
      ensures warehouse == w && View() == EmptySystem && Valid()
    {
      warehouse := w;
      outbox, saved, history := map[], map[], {};
    }

    /** The consistent latest of the warehouse's entity and every pending one. */
    method ReadEntity(key: Key) returns (r: Result<Option<Entity>, Fault>)
      requires Valid()
      ensures Reads(Candidates(View(), key), r)
      ensures r == Ok(SavedFor(View(), key))
    {
      hide Inv, Reads, Candidates;
      var pending := PendingFor(key);
      var known := if key in warehouse.entities then {warehouse.entities[key]} else {};
      CandidatesAre(View(), key, known, pending);
      r := LatestConsistent(known + pending);
      ReadYourWrites(View(), key, r);
    }

    /** Undelivered entities for one key. */
    method PendingFor(key: Key) returns (pending: set<Entity>)
      ensures pending == PendingIn(outbox, outbox.Keys, key)
    {
      hide PendingIn;
      pending := {};
      var todo := outbox.Keys;
      PendingNone(outbox, key);
      assert outbox.Keys - todo == {};
      while todo != {}
        invariant todo <= outbox.Keys && pending == PendingIn(outbox, outbox.Keys - todo, key)
        decreases todo
      {
        var id :| id in todo;
        PendingMore(outbox, outbox.Keys - todo, key, id);
        assert outbox.Keys - (todo - {id}) == (outbox.Keys - todo) + {id};
        todo := todo - {id};
        if outbox[id].mutation.entity.key == key {
          pending := pending + {outbox[id].mutation.entity};
        }
      }
      assert outbox.Keys - todo == outbox.Keys;
    }

    static method LatestConsistent(candidates: set<Entity>) returns (r: Result<Option<Entity>, Fault>)
      ensures Reads(candidates, r)
    {
      if candidates == {} {
        return Ok(None);
      }
      var best :| best in candidates;
      var conflict := best;
      var todo := candidates;
      while todo != {}
        invariant todo <= candidates && best in candidates && conflict in candidates && conflict.version == best.version
        invariant forall e :: e in candidates && e !in todo ==> e.version <= best.version
        invariant conflict == best ==> forall e :: e in candidates && e !in todo && e.version == best.version ==> e == best
        decreases todo
      {
        var e :| e in todo;
        todo := todo - {e};
        if e.version > best.version {
          best, conflict := e, e;
        } else if e.version == best.version && e != best {
          conflict := e;
        }
      }
      if conflict != best {
        assert Latest(candidates, best) && Latest(candidates, conflict);
        return Err(VersionConflict);
      }
      return Ok(Some(best));
    }

    /** Save an entity: bump its revision where needed and stage the delivery. */
    method SaveEntity(entity: Entity) returns (r: Result<Entity, Fault>)
      requires Valid()
      modifies this
      ensures Valid() && Next(old(View()), Save(entity), View())
      ensures r == Revised(SavedFor(old(View()), entity.key), entity)
      ensures r.Ok? ==> SavedFor(View(), entity.key) == Some(r.value)
    {
      hide Inv, Reads, Candidates, Next;
      var current := ReadEntity(entity.key);
      ghost var s := View();
      r := Revised(current.value, entity);
      SaveIsNext(s, entity);
      if r.Err? {
        return;
      }
      var m := MutationOf(r.value);
      if m.id !in outbox {
        outbox := outbox[m.id := Delivery(m, 0)];
      }
      saved, history := saved[r.value.key := r.value], history + {r.value};
    }

    /** Deliver one pending mutation, then acknowledge it. The process may die
        between the two, or the warehouse may be out of reach; the mutation then
        stays pending, in the second case with one more attempt on record. */
    method Deliver(id: MutationId, fate: DeliveryFate) returns (out: DeliveryOutcome)
      requires Valid()
      modifies this`outbox, warehouse
      ensures Valid() && saved == old(saved) && history == old(history)
      ensures forall x :: x in old(warehouse.mutations) ==> x in warehouse.mutations
      ensures id !in old(outbox) ==> out == Gone && outbox == old(outbox) && warehouse.View() == old(warehouse.View())
      ensures id in old(outbox) && fate == Unreachable ==>
                && out == Refused && warehouse.View() == old(warehouse.View())
                && Next(old(View()), Fail(id), View())
      ensures id in old(outbox) && fate != Unreachable ==>
                var applied := Apply(old(warehouse.View()), old(outbox)[id].mutation);
                && applied.Ok? && warehouse.View() == applied.value.0
                && id in warehouse.mutations
                && out == (if fate == Arrives then Acknowledged(applied.value.1) else Lost)
                && outbox == if fate == Arrives then old(outbox) - {id} else old(outbox)
    {
      hide Inv, Apply;
      if id !in outbox {
        return Gone;
      }
      ghost var s := View();
      if fate == Unreachable {
        var failed := outbox[id].(attempts := outbox[id].attempts + 1);
        outbox := outbox[id := failed];
        FailKeepsInv(s, id, View());
        return Refused;
      }
      ApplyNeverRefuses(s, id);
      ApplyForgetsNothing(s.warehouse, s.outbox[id].mutation);
      var applied := warehouse.ApplyMutation(outbox[id].mutation);
      ApplyKeepsInv(s, id, View());
      if fate == DiesBeforeAck {
        return Lost;
      }
      ghost var s' := View();
      outbox := outbox - {id};
      AckKeepsInv(s', id, View());
      return Acknowledged(applied.value);
    }

    /** Deliver everything pending, up to the first failure. Where none fails the
        warehouse is afterwards exactly what was saved. */
    method Flush(fates: MutationId -> DeliveryFate) returns (delivered: nat, failed: Option<MutationId>)
      requires Valid()
      modifies this`outbox, warehouse
      ensures Valid() && saved == old(saved) && outbox.Keys <= old(outbox.Keys)
      ensures delivered + |outbox| == |old(outbox)|
      ensures failed.None? ==> outbox == map[] && warehouse.entities == saved
      ensures failed.None? <==> forall id :: id in old(outbox) ==> fates(id) == Arrives
      ensures failed.Some? ==>
                && failed.value in old(outbox) && fates(failed.value) != Arrives
                && outbox == Untried(old(outbox), outbox.Keys, failed.value, fates(failed.value))
      ensures forall id :: id in old(outbox) && id !in outbox ==> fates(id) == Arrives && id in warehouse.mutations
      ensures failed.Some? && fates(failed.value) == DiesBeforeAck ==> failed.value in warehouse.mutations
    {
      hide Inv, Apply, Next, Untried;
      delivered := 0;
      var todo := outbox.Keys;
      KeysCount(outbox);
      while todo != {}
        invariant Valid() && saved == old(saved) && outbox.Keys == todo <= old(outbox.Keys)
        invariant delivered + |todo| == |old(outbox)|
        invariant forall id :: id in todo ==> outbox[id] == old(outbox)[id]
        invariant forall id :: id in old(outbox) && id !in todo ==> fates(id) == Arrives && id in warehouse.mutations
        decreases todo
      {
        var id :| id in todo;
        ghost var s := View();
        var out := Deliver(id, fates(id));
        if fates(id) != Arrives {
          if fates(id) == Unreachable {
            FailKeepsKeys(s, id, View());
          }
          KeysCount(outbox);
          StoppedAt(old(outbox), s.outbox, outbox, id, fates(id));
          return delivered, Some(id);
        }
        todo := todo - {id};
        delivered := delivered + 1;
      }
      assert outbox == map[];
      DrainedWarehouse(View());
      return delivered, None;
    }

    /** All entities at once agree with reading them one by one. */
    method ReadAll() returns (all: Result<map<Key, Entity>, Fault>)
      requires Valid()
      ensures all == Ok(saved)
    {
      hide Inv, Merged;
      var byKey := warehouse.entities;
      var todo := outbox.Keys;
      ghost var s := View();
      MergeStart(s);
      while todo != {}
        invariant todo <= outbox.Keys && Merged(s, byKey, todo)
        decreases todo
      {
        var id :| id in todo;
        MergeStep(s, byKey, todo, id);
        todo := todo - {id};
        var entity := outbox[id].mutation.entity;
        var key := entity.key;
        if key !in byKey || entity.version > byKey[key].version {
          byKey := byKey[key := entity];
        } else if entity.version == byKey[key].version && entity != byKey[key] {
          return Err(VersionConflict);
        }
      }
      AllSaved(s, byKey);
      return Ok(byKey);
    }
  }

  lemma KeysCount(outbox: map<MutationId, Delivery>)
    ensures |outbox| == |outbox.Keys|
  {
  }

  lemma FailKeepsKeys(s: System, id: MutationId, s': System)
    requires Next(s, Fail(id), s')
    ensures s'.outbox.Keys == s.outbox.Keys && s'.outbox == s.outbox[id := Delivery(s.outbox[id].mutation, s.outbox[id].attempts + 1)]
  {
  }

  /** The deliveries not yet reached, as they were, but for one more attempt on
      record where the warehouse was out of reach. */
  function Untried(outbox: map<MutationId, Delivery>, left: set<MutationId>, failed: MutationId, fate: DeliveryFate): map<MutationId, Delivery> {
    map id | id in outbox && id in left ::
      if id == failed && fate == Unreachable then Delivery(outbox[id].mutation, outbox[id].attempts + 1) else outbox[id]
  }

  lemma StoppedAt(was: map<MutationId, Delivery>, left: map<MutationId, Delivery>, after: map<MutationId, Delivery>,
                  id: MutationId, fate: DeliveryFate)
    requires left.Keys <= was.Keys && (forall x :: x in left ==> left[x] == was[x]) && id in left
    requires after == if fate == Unreachable then left[id := Delivery(left[id].mutation, left[id].attempts + 1)] else left
    ensures after == Untried(was, after.Keys, id, fate)
  {
  }

  lemma ApplyForgetsNothing(w: Warehouse, m: Mutation)
    requires Apply(w, m).Ok?
    ensures forall id :: id in w.mutations ==> id in Apply(w, m).value.0.mutations
  {
  }

  /** One transaction: saves are staged and read back before they commit. */
  class DomainUnitOfWork {
    const store: DomainPersistence
    var working: map<Key, Entity>
    var staged: map<MutationId, Delivery>
    ghost var own: System     // the committed system with this transaction's saves

    ghost predicate Valid()
      reads this, store, store.warehouse
    {
      && store.Valid() && Inv(own)
      && own.warehouse == store.warehouse.View() && own.outbox == store.outbox + staged
      && (forall key :: SavedFor(own, key) == if key in working then Some(working[key]) else SavedFor(store.View(), key))
    }

    constructor (s: DomainPersistence)
      requires s.Valid()
      ensures Valid() && store == s && own == s.View() && working == map[] && staged == map[]
    {
      hide Inv;
      store, working, staged := s, map[], map[];
      own := s.View();
      new;
      assert store.outbox + staged == store.outbox;
    }

    /** A transaction reads its own writes before anyone else can. */
    method GetEntity(key: Key) returns (r: Result<Option<Entity>, Fault>)
      requires Valid()
      ensures r == Ok(SavedFor(own, key))
    {
      hide Inv;
      if key in working {
        return Ok(Some(working[key]));
      }
      r := store.ReadEntity(key);
    }

    /** Stage one save on top of what the transaction already saved. */
    method SaveEntity(entity: Entity) returns (r: Result<Entity, Fault>)
      requires Valid()
      modifies this
      ensures Valid() && Next(old(own), Save(entity), own)
      ensures r == Revised(SavedFor(old(own), entity.key), entity)
    {
      hide Inv, Next, Enqueued;
      var current := GetEntity(entity.key);
      r := Revised(current.value, entity);
      SaveIsNext(own, entity);
      if r.Err? {
        return;
      }
      var m := MutationOf(r.value);
      if m.id !in store.outbox && m.id !in staged {
        staged := staged[m.id := Delivery(m, 0)];
      }
      StagedOutbox(own, store.outbox, old(staged), r.value);
      working := working[r.value.key := r.value];
      own := Enqueued(own, r.value);
    }

    /** Everything staged becomes durable at once. */
    method Commit()
      requires Valid()
      modifies store
      ensures store.View() == own && store.Valid()
    {
      hide Inv;
      store.outbox := store.outbox + staged;
      store.saved, store.history := own.saved, own.history;
    }
  }

  /** What one staged save adds to a transaction's own view of the system. */
  lemma StagedOutbox(own: System, outbox: map<MutationId, Delivery>, staged: map<MutationId, Delivery>, e: Entity)
    requires own.outbox == outbox + staged
    ensures var m := MutationOf(e);
            Enqueued(own, e).outbox ==
              outbox + if m.id !in outbox && m.id !in staged then staged[m.id := Delivery(m, 0)] else staged
    ensures Enqueued(own, e).warehouse == own.warehouse
    ensures forall key :: SavedFor(Enqueued(own, e), key) == if key == e.key then Some(e) else SavedFor(own, key)
  {
  }

  /** Per key the latest of the warehouse and the deliveries already merged. */
  ghost predicate Merged(s: System, byKey: map<Key, Entity>, todo: set<MutationId>) {
    && (forall k :: k in byKey ==> byKey[k].key == k && byKey[k] in s.history)
    && (forall k :: k in s.warehouse.entities ==> k in byKey && s.warehouse.entities[k].version <= byKey[k].version)
    && (forall id :: id in s.outbox && id !in todo ==>
          var e := s.outbox[id].mutation.entity; e.key in byKey && e.version <= byKey[e.key].version)
  }

  lemma MergeStart(s: System)
    requires Inv(s)
    ensures Merged(s, s.warehouse.entities, s.outbox.Keys)
  {
    WarehouseRevisions(s);
    hide Inv;
  }

  /** Merging one more delivery never meets a conflict. */
  lemma MergeStep(s: System, byKey: map<Key, Entity>, todo: set<MutationId>, id: MutationId)
    requires Inv(s) && Merged(s, byKey, todo) && id in todo && id in s.outbox
    ensures var e := s.outbox[id].mutation.entity;
            && (e.key in byKey && e.version == byKey[e.key].version ==> e == byKey[e.key])
            && Merged(s, if e.key !in byKey || e.version > byKey[e.key].version then byKey[e.key := e] else byKey, todo - {id})
  {
    hide Inv;
    var e := s.outbox[id].mutation.entity;
    PendingRevision(s, id);
    if e.key in byKey && e.version == byKey[e.key].version {
      RevisionsAgree(s, e, byKey[e.key]);
    }
    MergeGrows(s, byKey, todo, id);
  }

  lemma MergeGrows(s: System, byKey: map<Key, Entity>, todo: set<MutationId>, id: MutationId)
    requires Merged(s, byKey, todo) && id in s.outbox && s.outbox[id].mutation.entity in s.history
    ensures var e := s.outbox[id].mutation.entity;
            Merged(s, if e.key !in byKey || e.version > byKey[e.key].version then byKey[e.key := e] else byKey, todo - {id})
  {
  }

  function PendingIn(outbox: map<MutationId, Delivery>, ids: set<MutationId>, key: Key): set<Entity> {
    set id | id in ids && id in outbox && outbox[id].mutation.entity.key == key :: outbox[id].mutation.entity
  }

  lemma PendingNone(outbox: map<MutationId, Delivery>, key: Key)
    ensures PendingIn(outbox, {}, key) == {}
  {
  }

  lemma PendingMore(outbox: map<MutationId, Delivery>, ids: set<MutationId>, key: Key, id: MutationId)
    requires id in outbox
    ensures var e := outbox[id].mutation.entity;
            PendingIn(outbox, ids + {id}, key) == PendingIn(outbox, ids, key) + if e.key == key then {e} else {}
  {
  }

  lemma CandidatesAre(s: System, key: Key, known: set<Entity>, pending: set<Entity>)
    requires known == if key in s.warehouse.entities then {s.warehouse.entities[key]} else {}
    requires pending == PendingIn(s.outbox, s.outbox.Keys, key)
    ensures known + pending == Candidates(s, key)
  {
    assert PendingIn(s.outbox, s.outbox.Keys, key) == Pending(s, key);
  }

  /** A save that is not stale takes exactly the step of the model. */
  lemma SaveIsNext(s: System, e: Entity)
    requires Inv(s)
    ensures Revised(SavedFor(s, e.key), e).Err? ==> Next(s, Save(e), s)
    ensures Revised(SavedFor(s, e.key), e).Ok? ==>
              var r := Revised(SavedFor(s, e.key), e).value;
              r.key == e.key && Next(s, Save(e), Enqueued(s, r)) && Inv(Enqueued(s, r))
  {
    hide Inv;
    if Revised(SavedFor(s, e.key), e).Ok? {
      FreshRevision(s, e);
      SaveKeepsInv(s, e, Enqueued(s, Revised(SavedFor(s, e.key), e).value));
    }
  }

  lemma WarehouseRevisions(s: System)
    requires Inv(s)
    ensures forall k :: k in s.warehouse.entities ==> s.warehouse.entities[k].key == k && s.warehouse.entities[k] in s.history
  {
    hide Versioned, Covered;
  }

  lemma PendingRevision(s: System, id: MutationId)
    requires Inv(s) && id in s.outbox
    ensures s.outbox[id].mutation.entity in s.history
  {
    hide Versioned, Covered;
  }

  lemma RevisionsAgree(s: System, e: Entity, f: Entity)
    requires Inv(s) && e in s.history && f in s.history && e.key == f.key && e.version == f.version
    ensures e == f
  {
    hide Derived, Covered;
  }

  lemma AllSaved(s: System, byKey: map<Key, Entity>)
    requires Inv(s) && Merged(s, byKey, {})
    ensures byKey == s.saved
  {
    hide Inv, Merged;
    forall k | k in s.saved ensures k in byKey && byKey[k] == s.saved[k] {
      SavedCovers(s, byKey, k);
    }
    forall k | k in byKey ensures k in s.saved {
      MergedSaved(s, byKey, k);
    }
  }

  lemma MergedSaved(s: System, byKey: map<Key, Entity>, k: Key)
    requires Inv(s) && Merged(s, byKey, {}) && k in byKey
    ensures k in s.saved
  {
    assert byKey[k] in s.history;
    hide Derived, Covered;
  }

  lemma SavedCovers(s: System, byKey: map<Key, Entity>, k: Key)
    requires Inv(s) && Merged(s, byKey, {}) && k in s.saved
    ensures k in byKey && byKey[k] == s.saved[k]
  {
    var id := MutationOf(s.saved[k]).id;
    if id in s.outbox { DeliverySound(s, id); }
    assert k in byKey && s.saved[k].version <= byKey[k].version;
    assert byKey[k] in s.history;
    hide Derived, Covered;
  }
}
