/**
 The domain warehouse, its outbox and the entity view over both: mutations are
 applied idempotently and monotonically by version, and readers always see the
 last saved entity however far delivery has got.
 */
module DomainStore {
  import opened Outcomes

  datatype Key = Key(entityType: string, id: string)

  datatype Entity = Entity(key: Key, state: string, attributes: map<string, string>, version: int)

  /** Derived from the entity version by the domain facade; callers of the outbox
      may choose their own. */
  datatype MutationId = EntityVersion(key: Key, version: int) | Named(name: string)

  datatype Mutation = Mutation(id: MutationId, entity: Entity)

  datatype Delivery = Delivery(mutation: Mutation, attempts: nat)

  datatype Warehouse = Warehouse(entities: map<Key, Entity>, mutations: map<MutationId, Mutation>)

  const EmptyWarehouse: Warehouse := Warehouse(map[], map[])

  datatype ApplyResult = Applied | Replayed | Superseded

  datatype Fault = IdentityConflict | VersionConflict | StaleWrite

  // ---------------------------------------------------------------- the warehouse

  function Noted(w: Warehouse, m: Mutation): Warehouse {
    w.(mutations := w.mutations[m.id := m])
  }

  /** Apply one mutation, monotonically by entity version. */
  function Apply(w: Warehouse, m: Mutation): Result<(Warehouse, ApplyResult), Fault> {
    if m.id in w.mutations then
      if w.mutations[m.id] != m then Err(IdentityConflict) else Ok((w, Replayed))
    else
      var key := m.entity.key;
      if key in w.entities && m.entity.version < w.entities[key].version then Ok((Noted(w, m), Superseded))
      else if key in w.entities && m.entity.version == w.entities[key].version then
        if m.entity != w.entities[key] then Err(VersionConflict) else Ok((Noted(w, m), Replayed))
      else Ok((Noted(w, m).(entities := w.entities[key := m.entity]), Applied))
  }

  function ApplyAll(w: Warehouse, ms: seq<Mutation>): Result<Warehouse, Fault> {
    if ms == [] then Ok(w)
    else
      var before := ApplyAll(w, ms[..|ms| - 1]);
      if before.Err? then before
      else
        var r := Apply(before.value, ms[|ms| - 1]);
        if r.Err? then Err(r.error) else Ok(r.value.0)
  }

  /** One id names one mutation, one version has one content. */
  ghost predicate Consistent(ms: set<Mutation>) {
    forall m, n :: m in ms && n in ms ==>
      && (m.id == n.id ==> m == n)
      && (m.entity.key == n.entity.key && m.entity.version == n.entity.version ==> m.entity == n.entity)
  }

  /** The warehouse holds these mutations and, per key, their latest entity. */
  ghost predicate Reflects(w: Warehouse, ms: set<Mutation>) {
    Notes(w, ms) && HoldsLatest(w, ms)
  }

  ghost predicate Notes(w: Warehouse, ms: set<Mutation>) {
    && (forall m :: m in ms ==> m.id in w.mutations && w.mutations[m.id] == m)
    && (forall id :: id in w.mutations ==> w.mutations[id].id == id && w.mutations[id] in ms)
  }

  ghost predicate CarriedBy(ms: set<Mutation>, e: Entity) {
    exists m :: m in ms && m.entity == e
  }

  ghost predicate HoldsLatest(w: Warehouse, ms: set<Mutation>) {
    && (forall m :: m in ms ==> m.entity.key in w.entities && m.entity.version <= w.entities[m.entity.key].version)
    && (forall key :: key in w.entities ==> w.entities[key].key == key && CarriedBy(ms, w.entities[key]))
  }

  lemma NotesMore(w: Warehouse, w': Warehouse, ms: set<Mutation>, m: Mutation)
    requires Notes(w, ms) && m.id !in w.mutations && w'.mutations == w.mutations[m.id := m]
    ensures Notes(w', ms + {m})
  {
  }

  lemma NotedAlready(w: Warehouse, ms: set<Mutation>, m: Mutation)
    requires Notes(w, ms) && Consistent(ms + {m}) && m.id in w.mutations
    ensures w.mutations[m.id] == m && ms + {m} == ms
  {
    assert m in ms + {m} && w.mutations[m.id] in ms + {m};
  }

  /** A consistent mutation is never refused and is reflected afterwards. */
  lemma ApplyReflects(w: Warehouse, ms: set<Mutation>, m: Mutation)
    requires Reflects(w, ms) && Consistent(ms + {m})
    ensures Apply(w, m).Ok? && Reflects(Apply(w, m).value.0, ms + {m})
  {
    hide HoldsLatest, Consistent, Notes;
    if m.id in w.mutations {
      NotedAlready(w, ms, m);
    } else {
      ApplyHoldsLatest(w, ms, m);
      NotesMore(w, Apply(w, m).value.0, ms, m);
    }
  }

  lemma CarriedByMore(ms: set<Mutation>, m: Mutation, e: Entity)
    requires CarriedBy(ms, e) || m.entity == e
    ensures CarriedBy(ms + {m}, e)
  {
    if CarriedBy(ms, e) {
      var n :| n in ms && n.entity == e;
      assert n in ms + {m};
    } else {
      assert m in ms + {m};
    }
  }

  /** A version both sides hold has one content. */
  lemma SameVersion(ms: set<Mutation>, m: Mutation, e: Entity)
    requires CarriedBy(ms, e) && Consistent(ms + {m}) && m.entity.key == e.key && m.entity.version == e.version
    ensures m.entity == e
  {
    var n :| n in ms && n.entity == e;
    assert m in ms + {m} && n in ms + {m};
  }

  lemma HoldsLatestAfter(w: Warehouse, w': Warehouse, ms: set<Mutation>, m: Mutation)
    requires HoldsLatest(w, ms)
    requires if m.entity.key in w.entities && m.entity.version <= w.entities[m.entity.key].version then w'.entities == w.entities
             else w'.entities == w.entities[m.entity.key := m.entity]
    ensures HoldsLatest(w', ms + {m})
  {
    hide CarriedBy;
    forall k | k in w'.entities ensures CarriedBy(ms + {m}, w'.entities[k]) {
      CarriedByMore(ms, m, w'.entities[k]);
    }
  }

  lemma ApplyHoldsLatest(w: Warehouse, ms: set<Mutation>, m: Mutation)
    requires HoldsLatest(w, ms) && Consistent(ms + {m}) && m.id !in w.mutations
    ensures Apply(w, m).Ok? && HoldsLatest(Apply(w, m).value.0, ms + {m})
  {
    var key := m.entity.key;
    hide Consistent, CarriedBy;
    if key in w.entities && w.entities[key].version == m.entity.version {
      SameVersion(ms, m, w.entities[key]);
    }
    hide HoldsLatest;
    HoldsLatestAfter(w, Apply(w, m).value.0, ms, m);
  }

  lemma ElemsSplit(ms: seq<Mutation>)
    requires ms != [] && Consistent(Elems(ms))
    ensures var front := ms[..|ms| - 1];
            Elems(ms) == Elems(front) + {ms[|ms| - 1]} && Consistent(Elems(front))
  {
    assert ms == ms[..|ms| - 1] + [ms[|ms| - 1]];
  }

  lemma {:induction false} ApplyAllReflects(ms: seq<Mutation>)
    requires Consistent(Elems(ms))
    ensures ApplyAll(EmptyWarehouse, ms).Ok? && Reflects(ApplyAll(EmptyWarehouse, ms).value, Elems(ms))
  {
    if ms != [] {
      ElemsSplit(ms);
      hide Reflects, Consistent, Elems, Apply;
      var front, last := ms[..|ms| - 1], ms[|ms| - 1];
      ApplyAllReflects(front);
      ApplyReflects(ApplyAll(EmptyWarehouse, front).value, Elems(front), last);
    }
  }

  lemma ReflectsUnique(v: Warehouse, w: Warehouse, ms: set<Mutation>)
    requires Reflects(v, ms) && Reflects(w, ms) && Consistent(ms)
    ensures v == w
  {
    SameMutations(v, w, ms);
    forall key | key in v.entities ensures key in w.entities && v.entities[key] == w.entities[key] {
      SameEntity(v, w, ms, key);
    }
    forall key | key in w.entities ensures key in v.entities {
      SameEntity(w, v, ms, key);
    }
    hide Reflects, Consistent;
    assert v.entities == w.entities;
  }

  lemma SameMutations(v: Warehouse, w: Warehouse, ms: set<Mutation>)
    requires Reflects(v, ms) && Reflects(w, ms)
    ensures v.mutations == w.mutations
  {
    forall id | id in v.mutations ensures id in w.mutations && w.mutations[id] == v.mutations[id] {
      assert v.mutations[id] in ms;
    }
    forall id | id in w.mutations ensures id in v.mutations {
      assert w.mutations[id] in ms;
    }
  }

  lemma SameEntity(v: Warehouse, w: Warehouse, ms: set<Mutation>, key: Key)
    requires Reflects(v, ms) && Reflects(w, ms) && Consistent(ms) && key in v.entities
    ensures key in w.entities && v.entities[key] == w.entities[key]
  {
    hide Notes;
    assert CarriedBy(ms, v.entities[key]);
    var m :| m in ms && m.entity == v.entities[key];
    assert CarriedBy(ms, w.entities[key]);
    var n :| n in ms && n.entity == w.entities[key];
    hide CarriedBy;
  }

  /** Any order and any duplication of consistent mutations converges: nothing is
      refused and the outcome depends on the set of mutations alone. */
  lemma Convergence(ms: seq<Mutation>, ns: seq<Mutation>)
    requires Elems(ms) == Elems(ns) && Consistent(Elems(ms))
    ensures ApplyAll(EmptyWarehouse, ms).Ok? && ApplyAll(EmptyWarehouse, ns) == ApplyAll(EmptyWarehouse, ms)
  {
    ApplyAllReflects(ms);
    ApplyAllReflects(ns);
    hide Reflects, Consistent, Elems;
    ReflectsUnique(ApplyAll(EmptyWarehouse, ms).value, ApplyAll(EmptyWarehouse, ns).value, Elems(ms));
  }

  /** What it converges to: per key, the entity of the highest version. */
  lemma ConvergesToLatest(ms: seq<Mutation>, m: Mutation)
    requires Consistent(Elems(ms)) && m in ms
    requires forall n :: n in ms && n.entity.key == m.entity.key ==> n.entity.version <= m.entity.version
    ensures ApplyAll(EmptyWarehouse, ms).Ok?
    ensures var w := ApplyAll(EmptyWarehouse, ms).value; m.entity.key in w.entities && w.entities[m.entity.key] == m.entity
  {
    ApplyAllReflects(ms);
    var w := ApplyAll(EmptyWarehouse, ms).value;
    assert m in Elems(ms);
    assert CarriedBy(Elems(ms), w.entities[m.entity.key]);
    var n :| n in Elems(ms) && n.entity == w.entities[m.entity.key];
    hide CarriedBy, Notes;
  }

  // ---------------------------------------------------------- outbox and the view

  /** Committed state of both stores, with what was ever saved. */
  datatype System = System(
    warehouse: Warehouse,
    outbox: map<MutationId, Delivery>,
    saved: map<Key, Entity>,     // the last entity saved per key
    history: set<Entity>)        // every entity revision ever saved

  const EmptySystem: System := System(EmptyWarehouse, map[], map[], {})

  function Pending(s: System, key: Key): set<Entity> {
    set id | id in s.outbox && s.outbox[id].mutation.entity.key == key :: s.outbox[id].mutation.entity
  }

  /** Entities a reader chooses from: the warehouse's and every undelivered one. */
  function Candidates(s: System, key: Key): set<Entity> {
    (if key in s.warehouse.entities then {s.warehouse.entities[key]} else {}) + Pending(s, key)
  }

  ghost predicate Latest(candidates: set<Entity>, e: Entity) {
    e in candidates && forall f :: f in candidates ==> f.version <= e.version
  }

  /** What reading the entity returns, or that it raises. */
  ghost predicate Reads(candidates: set<Entity>, r: Result<Option<Entity>, Fault>) {
    match r
    case Ok(None) => candidates == {}
    case Ok(Some(e)) => Latest(candidates, e) && forall f :: Latest(candidates, f) ==> f == e
    case Err(fault) => fault == VersionConflict && exists e, f :: Latest(candidates, e) && Latest(candidates, f) && e != f
  }

  function MutationOf(e: Entity): Mutation {
    Mutation(EntityVersion(e.key, e.version), e)
  }

  /** The revision that saving `e` over `current` persists. */
  function Revised(current: Option<Entity>, e: Entity): Result<Entity, Fault> {
    if current.None? || e == current.value then Ok(e)
    else if e.version < current.value.version then Err(StaleWrite)
    else if e.version == current.value.version then Ok(e.(version := e.version + 1))
    else Ok(e)
  }

  function SavedFor(s: System, key: Key): Option<Entity> {
    if key in s.saved then Some(s.saved[key]) else None
  }

  /** The system after a committed save of revision `e`. */
  function Enqueued(s: System, e: Entity): System {
    var m := MutationOf(e);
    s.(outbox := if m.id in s.outbox then s.outbox else s.outbox[m.id := Delivery(m, 0)],
       saved := s.saved[e.key := e], history := s.history + {e})
  }

  datatype Op =
    | Save(entity: Entity)
    | ApplyOnly(id: MutationId)      // the warehouse applied it, the process died before the ACK
    | Ack(id: MutationId)            // only after the warehouse applied it
    | Fail(id: MutationId)           // the warehouse was unreachable

  ghost predicate Next(s: System, op: Op, s': System) {
    match op
    case Save(e) =>
      (match Revised(SavedFor(s, e.key), e)
       case Err(_) => s' == s
       case Ok(revised) =>
         if MutationOf(revised).id in s.outbox && s.outbox[MutationOf(revised).id].mutation != MutationOf(revised) then s' == s
         else s' == Enqueued(s, revised))
    case ApplyOnly(id) =>
      id in s.outbox && Apply(s.warehouse, s.outbox[id].mutation).Ok?
      && s' == s.(warehouse := Apply(s.warehouse, s.outbox[id].mutation).value.0)
    case Ack(id) =>
      id in s.outbox && id in s.warehouse.mutations && s' == s.(outbox := s.outbox - {id})
    case Fail(id) =>
      id in s.outbox && s' == s.(outbox := s.outbox[id := s.outbox[id].(attempts := s.outbox[id].attempts + 1)])
  }

  /** Revisions are unique per version and bounded by the last saved one. */
  ghost predicate Versioned(s: System) {
    && (forall e :: e in s.history ==> e.key in s.saved && e.version <= s.saved[e.key].version)
    && (forall e, f :: e in s.history && f in s.history && e.key == f.key && e.version == f.version ==> e == f)
    && (forall key :: key in s.saved ==> s.saved[key].key == key && s.saved[key] in s.history)
  }

  /** Both stores hold only saved revisions, under their derived ids. */
  ghost predicate Derived(s: System) {
    && (forall id :: id in s.outbox ==> s.outbox[id].mutation.entity in s.history
                                        && s.outbox[id].mutation == MutationOf(s.outbox[id].mutation.entity) && id == s.outbox[id].mutation.id)
    && (forall id :: id in s.warehouse.mutations ==>
          s.warehouse.mutations[id] == MutationOf(s.warehouse.mutations[id].entity) && id == s.warehouse.mutations[id].id
          && s.warehouse.mutations[id].entity in s.history)
    && (forall key :: key in s.warehouse.entities ==> s.warehouse.entities[key].key == key && s.warehouse.entities[key] in s.history)
  }

  /** Nothing saved is lost: it is undelivered, or the warehouse is that far. */
  ghost predicate Covered(s: System) {
    && (forall id :: id in s.warehouse.mutations ==>
          var e := s.warehouse.mutations[id].entity;
          e.key in s.warehouse.entities && e.version <= s.warehouse.entities[e.key].version)
    && (forall key :: key in s.saved ==>
          || MutationOf(s.saved[key]).id in s.outbox
          || (key in s.warehouse.entities && s.warehouse.entities[key] == s.saved[key]))
  }

  ghost predicate Inv(s: System) {
    Versioned(s) && Derived(s) && Covered(s)
  }

  // ------------------------------------------------------------- read your writes

  /** The last saved entity is among the candidates and above all others. */
  lemma SavedIsLatest(s: System, key: Key)
    requires Inv(s)
    ensures key in s.saved ==> Latest(Candidates(s, key), s.saved[key])
                               && forall e :: Latest(Candidates(s, key), e) ==> e == s.saved[key]
    ensures key !in s.saved ==> Candidates(s, key) == {}
  {
    CandidatesAreRevisions(s, key);
    if key in s.saved {
      var id := MutationOf(s.saved[key]).id;
      PendingSaved(s, key);
    }
    hide Derived, Candidates, Covered;
  }

  lemma CandidatesAreRevisions(s: System, key: Key)
    requires Derived(s)
    ensures forall e :: e in Candidates(s, key) ==> e in s.history && e.key == key
  {
  }

  lemma PendingSaved(s: System, key: Key)
    requires Inv(s) && key in s.saved
    ensures s.saved[key] in Candidates(s, key)
  {
    var id := MutationOf(s.saved[key]).id;
    if id in s.outbox {
      var e := s.outbox[id].mutation.entity;
      assert s.outbox[id].mutation == MutationOf(e) && MutationOf(e).id == id;
      assert e.key == key && e.version == s.saved[key].version;
      assert e == s.saved[key];
      assert e in Pending(s, key);
    }
    hide Covered, Derived;
  }

  /** Readers get exactly the last saved entity, never a conflict. */
  lemma ReadYourWrites(s: System, key: Key, r: Result<Option<Entity>, Fault>)
    requires Inv(s)
    ensures Reads(Candidates(s, key), r) <==> r == Ok(SavedFor(s, key))
  {
    hide Inv, Candidates, Latest, Reads;
    SavedIsLatest(s, key);
    ReadsExact(Candidates(s, key), SavedFor(s, key), r);
  }

  /** Reading returns the one latest candidate. */
  lemma ReadsExact(candidates: set<Entity>, latest: Option<Entity>, r: Result<Option<Entity>, Fault>)
    requires latest.None? ==> candidates == {}
    requires latest.Some? ==> Latest(candidates, latest.value) && forall e :: Latest(candidates, e) ==> e == latest.value
    ensures Reads(candidates, r) <==> r == Ok(latest)
  {
  }

  lemma FreshRevision(s: System, e: Entity)
    requires Inv(s) && Revised(SavedFor(s, e.key), e).Ok?
    ensures var r := Revised(SavedFor(s, e.key), e).value;
            && r.key == e.key
            && (e.key in s.saved ==> r == s.saved[e.key] || r.version > s.saved[e.key].version)
            && (MutationOf(r).id in s.outbox ==> s.outbox[MutationOf(r).id].mutation == MutationOf(r))
  {
    var r := Revised(SavedFor(s, e.key), e).value;
    var id := MutationOf(r).id;
    if id in s.outbox {
      var f := s.outbox[id].mutation.entity;
      assert s.outbox[id].mutation == MutationOf(f) && f in s.history;
      assert f.key == r.key && f.version == r.version;
    }
    hide Covered;
  }

  lemma EnqueuedVersioned(s: System, r: Entity)
    requires Versioned(s) && (r.key in s.saved ==> r == s.saved[r.key] || r.version > s.saved[r.key].version)
    ensures Versioned(Enqueued(s, r))
  {
    hide Versioned;
    var s' := Enqueued(s, r);
    SavedNamed(s);
    forall e | e in s'.history ensures e.key in s'.saved && e.version <= s'.saved[e.key].version {
      if e in s.history { RevisionBound(s, e); }
    }
    forall e, f | e in s'.history && f in s'.history && e.key == f.key && e.version == f.version ensures e == f {
      SameRevision(s, r, e, f);
    }
    EnqueuedVersionedParts(s', s.saved, r);
  }

  lemma RevisionBound(s: System, e: Entity)
    requires Versioned(s) && e in s.history
    ensures e.key in s.saved && e.version <= s.saved[e.key].version
  {
  }

  lemma EnqueuedVersionedParts(s': System, saved: map<Key, Entity>, r: Entity)
    requires forall e :: e in s'.history ==> e.key in s'.saved && e.version <= s'.saved[e.key].version
    requires forall e, f :: e in s'.history && f in s'.history && e.key == f.key && e.version == f.version ==> e == f
    requires s'.saved == saved[r.key := r] && r in s'.history
    requires forall key :: key in saved ==> saved[key].key == key && saved[key] in s'.history
    ensures Versioned(s')
  {
  }

  lemma SavedNamed(s: System)
    requires Versioned(s)
    ensures forall key :: key in s.saved ==> s.saved[key].key == key && s.saved[key] in s.history
  {
  }

  lemma SameRevision(s: System, r: Entity, e: Entity, f: Entity)
    requires Versioned(s) && (r.key in s.saved ==> r == s.saved[r.key] || r.version > s.saved[r.key].version)
    requires e in s.history + {r} && f in s.history + {r} && e.key == f.key && e.version == f.version
    ensures e == f
  {
  }

  lemma EnqueuedDerived(s: System, r: Entity)
    requires Derived(s)
    ensures Derived(Enqueued(s, r))
  {
  }

  lemma EnqueuedCovered(s: System, r: Entity)
    requires Covered(s) && Derived(s)
    ensures Covered(Enqueued(s, r))
  {
    var s' := Enqueued(s, r);
    forall key | key in s'.saved
      ensures MutationOf(s'.saved[key]).id in s'.outbox || (key in s'.warehouse.entities && s'.warehouse.entities[key] == s'.saved[key])
    {
      if key != r.key { assert s'.saved[key] == s.saved[key]; }
    }
    hide Derived;
  }

  /** A committed save is never refused for identity, keeps the invariant and
      becomes what readers see. */
  lemma SaveKeepsInv(s: System, e: Entity, s': System)
    requires Inv(s) && Next(s, Save(e), s')
    ensures Inv(s')
    ensures Revised(SavedFor(s, e.key), e).Ok? ==> s' == Enqueued(s, Revised(SavedFor(s, e.key), e).value)
    ensures Revised(SavedFor(s, e.key), e).Err? ==> s' == s
  {
    hide Versioned, Derived, Covered;
    if Revised(SavedFor(s, e.key), e).Ok? {
      var r := Revised(SavedFor(s, e.key), e).value;
      FreshRevision(s, e);
      EnqueuedVersioned(s, r);
      EnqueuedDerived(s, r);
      EnqueuedCovered(s, r);
    }
  }

  /** The warehouse never refuses a mutation this facade prepared. */
  lemma ApplyNeverRefuses(s: System, id: MutationId)
    requires Inv(s) && id in s.outbox
    ensures Apply(s.warehouse, s.outbox[id].mutation).Ok?
  {
    var m := s.outbox[id].mutation;
    assert m == MutationOf(m.entity) && m.entity in s.history && m.id == id;
    if id in s.warehouse.mutations {
      var n := s.warehouse.mutations[id];
      assert n == MutationOf(n.entity) && n.entity in s.history;
      assert n.entity == m.entity;
    }
    hide Covered;
  }

  /** What applying the delivery did to the warehouse. */
  ghost predicate AppliedTo(w: Warehouse, m: Mutation, w': Warehouse) {
    && w'.mutations == w.mutations[m.id := m]
    && if m.entity.key in w.entities && m.entity.version <= w.entities[m.entity.key].version then w'.entities == w.entities
       else w'.entities == w.entities[m.entity.key := m.entity]
  }

  lemma DeliveryApplied(s: System, id: MutationId)
    requires Covered(s) && id in s.outbox && Apply(s.warehouse, s.outbox[id].mutation).Ok?
    ensures AppliedTo(s.warehouse, s.outbox[id].mutation, Apply(s.warehouse, s.outbox[id].mutation).value.0)
  {
    var w, m := s.warehouse, s.outbox[id].mutation;
    if m.id in w.mutations {
      assert w.mutations[m.id] == m;
      assert m.entity.key in w.entities && m.entity.version <= w.entities[m.entity.key].version;
      hide Covered;
      assert w.mutations[m.id := m] == w.mutations;
    } else {
      hide Covered;
    }
  }

  lemma DeliverySound(s: System, id: MutationId)
    requires Derived(s) && id in s.outbox
    ensures var m := s.outbox[id].mutation; m == MutationOf(m.entity) && m.entity in s.history && m.id == id
  {
  }

  lemma AppliedDerived(s: System, m: Mutation, s': System)
    requires Derived(s) && m == MutationOf(m.entity) && m.entity in s.history
    requires s' == s.(warehouse := s'.warehouse) && AppliedTo(s.warehouse, m, s'.warehouse)
    ensures Derived(s')
  {
  }

  lemma AppliedCovered(s: System, m: Mutation, s': System)
    requires Versioned(s) && Covered(s) && m.entity in s.history
    requires s' == s.(warehouse := s'.warehouse) && AppliedTo(s.warehouse, m, s'.warehouse)
    ensures Covered(s')
  {
    var w, w' := s.warehouse, s'.warehouse;
    assert m.entity.version <= s.saved[m.entity.key].version;
    hide Versioned;
    forall id | id in w'.mutations
      ensures var e := w'.mutations[id].entity; e.key in w'.entities && e.version <= w'.entities[e.key].version
    {
      if id != m.id { assert id in w.mutations && w'.mutations[id] == w.mutations[id]; }
    }
  }

  lemma ApplyKeepsInv(s: System, id: MutationId, s': System)
    requires Inv(s) && Next(s, ApplyOnly(id), s')
    ensures Inv(s') && id in s'.warehouse.mutations
  {
    hide Versioned, Derived, Covered, Apply;
    var m := s.outbox[id].mutation;
    DeliveryApplied(s, id);
    DeliverySound(s, id);
    AppliedDerived(s, m, s');
    AppliedCovered(s, m, s');
    VersionedSame(s, s');
  }

  /** An applied delivery is no longer needed to know what was saved. */
  lemma AckCovered(s: System, id: MutationId, key: Key)
    requires Inv(s) && id in s.outbox && id in s.warehouse.mutations && key in s.saved && MutationOf(s.saved[key]).id == id
    ensures key in s.warehouse.entities && s.warehouse.entities[key] == s.saved[key]
  {
    DeliverySound(s, id);
    var n := s.warehouse.mutations[id];
    assert n == MutationOf(n.entity) && n.entity in s.history && n.id == id;
    assert n.entity.key == key && n.entity.version == s.saved[key].version;
    assert s.warehouse.entities[key] in s.history;
    hide Derived;
  }

  lemma AckedDerived(s: System, id: MutationId, s': System)
    requires Derived(s) && s' == s.(outbox := s.outbox - {id})
    ensures Derived(s')
  {
  }

  lemma AckedCovered(s: System, id: MutationId, s': System)
    requires Covered(s) && s' == s.(outbox := s.outbox - {id})
    requires forall key :: key in s.saved && MutationOf(s.saved[key]).id == id ==>
               key in s.warehouse.entities && s.warehouse.entities[key] == s.saved[key]
    ensures Covered(s')
  {
  }

  lemma AckKeepsInv(s: System, id: MutationId, s': System)
    requires Inv(s) && Next(s, Ack(id), s')
    ensures Inv(s')
  {
    hide Versioned, Derived, Covered;
    forall key | key in s.saved && MutationOf(s.saved[key]).id == id
      ensures key in s.warehouse.entities && s.warehouse.entities[key] == s.saved[key]
    {
      AckCovered(s, id, key);
    }
    AckedDerived(s, id, s');
    AckedCovered(s, id, s');
    VersionedSame(s, s');
  }

  lemma FailedDerived(s: System, id: MutationId, d: Delivery)
    requires Derived(s) && id in s.outbox && d.mutation == s.outbox[id].mutation
    ensures Derived(s.(outbox := s.outbox[id := d]))
  {
  }

  lemma FailedCovered(s: System, id: MutationId, d: Delivery)
    requires Covered(s) && id in s.outbox
    ensures Covered(s.(outbox := s.outbox[id := d]))
  {
  }

  lemma FailKeepsInv(s: System, id: MutationId, s': System)
    requires Inv(s) && Next(s, Fail(id), s')
    ensures Inv(s')
  {
    hide Versioned, Derived, Covered;
    FailedDerived(s, id, s'.outbox[id]);
    FailedCovered(s, id, s'.outbox[id]);
    VersionedSame(s, s');
  }

  lemma VersionedSame(s: System, s': System)
    requires Versioned(s) && s'.saved == s.saved && s'.history == s.history
    ensures Versioned(s')
  {
  }

  lemma NextKeepsInv(s: System, op: Op, s': System)
    requires Inv(s) && Next(s, op, s')
    ensures Inv(s')
  {
    match op
    case Save(e) => SaveKeepsInv(s, e, s'); hide Inv, Next;
    case ApplyOnly(id) => ApplyKeepsInv(s, id, s'); hide Inv, Next;
    case Ack(id) => AckKeepsInv(s, id, s'); hide Inv, Next;
    case Fail(id) => FailKeepsInv(s, id, s'); hide Inv, Next;
  }

  /** Delivery, in whatever steps and with whatever deaths, never changes what any
      reader sees. */
  lemma DeliveryIsInvisible(s: System, op: Op, s': System, key: Key, r: Result<Option<Entity>, Fault>)
    requires Inv(s) && Next(s, op, s') && !op.Save?
    ensures Reads(Candidates(s', key), r) <==> Reads(Candidates(s, key), r)
  {
    hide Inv, Reads, Candidates, Next;
    NextKeepsInv(s, op, s');
    OtherSavesKeep(s, op, s', key);
    ReadYourWrites(s, key, r);
    ReadYourWrites(s', key, r);
  }

  ghost predicate Run(states: seq<System>, ops: seq<Op>) {
    && |states| == |ops| + 1 && states[0] == EmptySystem
    && forall i {:trigger ops[i]} :: 0 <= i < |ops| ==> Next(states[i], ops[i], states[i + 1])
  }

  lemma {:induction false} ReachableInv(states: seq<System>, ops: seq<Op>, i: nat)
    requires Run(states, ops) && i < |states|
    ensures Inv(states[i])
  {
    if i > 0 {
      ReachableInv(states, ops, i - 1);
      assert Next(states[i - 1], ops[i - 1], states[i]);
      hide Inv, Next, Run;
      NextKeepsInv(states[i - 1], ops[i - 1], states[i]);
    }
  }

  /** What a save makes current, case by case: a first save, and one that brings a
      higher version, is taken as it is; the same entity again changes nothing; a
      change under the current version goes one version up; an older one is refused. */
  lemma SaveExactly(states: seq<System>, ops: seq<Op>, i: nat, e: Entity)
    requires Run(states, ops) && i < |ops| && ops[i] == Save(e)
    ensures var s, s' := states[i], states[i + 1];
            && (e.key !in s.saved || e.version > s.saved[e.key].version ==> s'.saved == s.saved[e.key := e])
            && (e.key in s.saved && e == s.saved[e.key] ==> s'.saved == s.saved)
            && (e.key in s.saved && e != s.saved[e.key] && e.version == s.saved[e.key].version ==>
                  s'.saved == s.saved[e.key := Entity(e.key, e.state, e.attributes, e.version + 1)])
            && (e.key in s.saved && e.version < s.saved[e.key].version ==> s' == s)
    ensures states[i + 1].warehouse == states[i].warehouse
    ensures var s, s' := states[i], states[i + 1];
            s'.saved != s.saved ==>
              && e.key in s'.saved
              && var id := EntityVersion(e.key, s'.saved[e.key].version);
                 && id in s'.outbox && s'.outbox[id].mutation == Mutation(id, s'.saved[e.key])
                 && forall x :: x != id ==> (x in s'.outbox <==> x in s.outbox) && (x in s.outbox ==> s'.outbox[x] == s.outbox[x])
  {
    ReachableInv(states, ops, i);
    assert Next(states[i], ops[i], states[i + 1]);
    hide Run, Inv, Next;
    SaveKeepsInv(states[i], e, states[i + 1]);
    if Revised(SavedFor(states[i], e.key), e).Ok? {
      var r := Revised(SavedFor(states[i], e.key), e).value;
      FreshRevision(states[i], e);
      EnqueuedDelivery(states[i], r);
      SavedCases(states[i], e);
    } else {
      RefusedCase(states[i], e);
    }
    hide Revised, Enqueued;
  }

  lemma SavedCases(s: System, e: Entity)
    requires Revised(SavedFor(s, e.key), e).Ok? && (e.key in s.saved ==> s.saved[e.key].key == e.key)
    ensures var saved := Enqueued(s, Revised(SavedFor(s, e.key), e).value).saved;
            && (e.key !in s.saved || e.version > s.saved[e.key].version ==> saved == s.saved[e.key := e])
            && (e.key in s.saved && e == s.saved[e.key] ==> saved == s.saved)
            && (e.key in s.saved && e != s.saved[e.key] && e.version == s.saved[e.key].version ==>
                  saved == s.saved[e.key := Entity(e.key, e.state, e.attributes, e.version + 1)])
            && !(e.key in s.saved && e.version < s.saved[e.key].version)
            && e.key in saved && saved[e.key] == Revised(SavedFor(s, e.key), e).value
  {
  }

  lemma RefusedCase(s: System, e: Entity)
    requires Revised(SavedFor(s, e.key), e).Err?
    ensures e.key in s.saved && e != s.saved[e.key] && e.version < s.saved[e.key].version
  {
  }

  lemma EnqueuedDelivery(s: System, r: Entity)
    requires MutationOf(r).id in s.outbox ==> s.outbox[MutationOf(r).id].mutation == MutationOf(r)
    ensures var s', id := Enqueued(s, r), EntityVersion(r.key, r.version);
            && s'.warehouse == s.warehouse && id in s'.outbox && s'.outbox[id].mutation == Mutation(id, r)
            && forall x :: x != id ==> (x in s'.outbox <==> x in s.outbox) && (x in s.outbox ==> s'.outbox[x] == s.outbox[x])
  {
  }

  /** At every point of every run, readers see the last save of that key. */
  lemma {:induction false} ReadersSeeLastSave(states: seq<System>, ops: seq<Op>, i: nat, j: nat, e: Entity)
    requires Run(states, ops) && i < j < |states| && ops[i] == Save(e) && Revised(SavedFor(states[i], e.key), e).Ok?
    requires forall k :: i < k < j && ops[k].Save? ==> ops[k].entity.key != e.key
    ensures Reads(Candidates(states[j], e.key), Ok(Some(Revised(SavedFor(states[i], e.key), e).value)))
  {
    ReachableInv(states, ops, j);
    SavedPersists(states, ops, i, j, e);
    hide Inv, Reads, Candidates;
    ReadYourWrites(states[j], e.key, Ok(Some(Revised(SavedFor(states[i], e.key), e).value)));
  }

  lemma {:induction false} SavedPersists(states: seq<System>, ops: seq<Op>, i: nat, j: nat, e: Entity)
    requires Run(states, ops) && i < j < |states| && ops[i] == Save(e) && Revised(SavedFor(states[i], e.key), e).Ok?
    requires forall k :: i < k < j && ops[k].Save? ==> ops[k].entity.key != e.key
    ensures SavedFor(states[j], e.key) == Some(Revised(SavedFor(states[i], e.key), e).value)
    decreases j
  {
    hide Inv, Versioned, Derived, Covered;
    ReachableInv(states, ops, j - 1);
    assert Next(states[j - 1], ops[j - 1], states[j]);
    hide Next;
    if j == i + 1 {
      SaveKeepsInv(states[i], e, states[j]);
      FreshRevision(states[i], e);
    } else {
      SavedPersists(states, ops, i, j - 1, e);
      OtherSavesKeep(states[j - 1], ops[j - 1], states[j], e.key);
    }
  }

  lemma OtherSavesKeep(s: System, op: Op, s': System, key: Key)
    requires Next(s, op, s') && (op.Save? ==> op.entity.key != key)
    ensures SavedFor(s', key) == SavedFor(s, key)
  {
    hide Apply;
  }

  /** Once the outbox is empty the warehouse holds exactly what was saved. */
  lemma DrainedWarehouse(s: System)
    requires Inv(s) && s.outbox == map[]
    ensures s.warehouse.entities == s.saved
  {
    forall key | key in s.warehouse.entities ensures key in s.saved {
      assert s.warehouse.entities[key] in s.history;
    }
  }

  /** At every point of every run readers get exactly the last saved entity. */
  lemma ReadersNeverConflict(states: seq<System>, ops: seq<Op>, i: nat, key: Key, r: Result<Option<Entity>, Fault>)
    requires Run(states, ops) && i < |states|
    ensures Reads(Candidates(states[i], key), r) <==> r == Ok(SavedFor(states[i], key))
  {
    ReachableInv(states, ops, i);
    hide Run, Inv, Reads, Candidates;
    ReadYourWrites(states[i], key, r);
  }

  /** At every point of every run the warehouse takes whatever is pending. */
  lemma DeliveryNeverRefused(states: seq<System>, ops: seq<Op>, i: nat, id: MutationId)
    requires Run(states, ops) && i < |states| && id in states[i].outbox
    ensures Apply(states[i].warehouse, states[i].outbox[id].mutation).Ok?
  {
    ReachableInv(states, ops, i);
    hide Run, Inv, Apply;
    ApplyNeverRefuses(states[i], id);
  }
}
