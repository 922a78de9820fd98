/** The manager that keeps one durable FIFO store, as it updates its records. */
module DurableStoreManagers {
  import opened Outcomes
  import opened DurableStores

  class DurableStoreManager {
    const cap: Option<nat>
    var items: map<string, Item>
    var intents: map<string, PutIntent>
    var requests: map<string, GetRequest>
    var receipts: map<string, Receipt>
    var backend: Backend              // ephemeral: lost when the process dies
    ghost var putLog: seq<string>
    ghost var getLog: seq<string>
    ghost var bodies: map<string, Body>
    ghost var stored: nat
    ghost var taken: nat

    function Records(): Durable
      reads this
    {
      Durable(items, intents, requests, receipts)
    }

    ghost function View(): State
      reads this
    {
      State(Records(), backend, putLog, getLog, bodies, stored, taken)
    }

    constructor (capacity: Option<nat>)
      ensures View() == Empty && cap == capacity
    {
      cap := capacity;
      items, intents, requests, receipts := map[], map[], map[], map[];
      backend := Down;
      putLog, getLog, bodies, stored, taken := [], [], map[], 0, 0;
    }

    /** The largest number in a set, or the floor where all are below it. */
    static method Highest(numbers: set<nat>, floor: nat) returns (top: nat)
      ensures top >= floor && (forall x :: x in numbers ==> x <= top) && (top == floor || top in numbers)
    {
      top := floor;
      var todo := numbers;
      while todo != {}
        invariant todo <= numbers && top >= floor && (top == floor || top in numbers)
        invariant forall x :: x in numbers && x !in todo ==> x <= top
        decreases todo
      {
        var x :| x in todo;
        todo := todo - {x};
        if x > top {
          top := x;
        }
      }
    }

    /** Next number of the one counter all puts and gets share. */
    method TakeNumber(foreign: nat) returns (n: nat)
      ensures NextSequence(Records(), foreign, n)
    {
      var top := Highest(Sequences(Records()), foreign);
      return top + 1;
    }

    /** Put a new item: the intent commits before the backend hears of it. */
    method Put(id: string, body: Body, at: int, foreign: nat) returns (r: Result<PutIntent, Fault>)
      requires backend.Up? && (id in putLog ==> id in items || id in intents)
      modifies this
      ensures Next(old(View()), DoPut(id, body, at, foreign), View(), cap)
      ensures r.Err? <==> old(id in items || id in intents)
      ensures r.Ok? ==> id in intents && intents[id] == r.value && backend.Up?
    {
      if id in items || id in intents {
        return Err(Duplicate);
      }
      var n := TakeNumber(foreign);
      hide NextSequence, Sequences;
      var intent := PutIntent(id, body.value, body.priority, at, n);
      intents := intents[id := intent];
      backend := backend.(puts := backend.puts + [id]);
      putLog, bodies := putLog + [id], bodies[id := body];
      assert View() == IssuePut(old(View()), id, body, at, n);
      return Ok(intent);
    }

    /** Make sure an item was put exactly once, whatever happened to it since. */
    method EnsurePut(id: string, body: Body, at: int, foreign: nat) returns (r: Result<Option<Item>, Fault>)
      requires backend.Up? && Inv(View(), cap)
      modifies this
      ensures Next(old(View()), DoEnsurePut(id, body, at, foreign), View(), cap)
      ensures old(id in items || Consumed(Records(), id)) && r.Ok? ==> r.value.Some? && r.value.value.id == id && r.value.value.value == body.value
      ensures old(id !in items && !Consumed(Records(), id)) ==> r.Err? || r.value.None?
      ensures id in old(items) ==> (r.Err? <==> old(items)[id].value != body.value) && (r.Ok? ==> r.value == Some(old(items)[id]))
      ensures id !in old(items) ==>
                forall q :: q in old(receipts) && old(receipts)[q].item.id == id ==>
                  (r.Err? <==> old(receipts)[q].item.value != body.value) && (r.Ok? ==> r.value == Some(old(receipts)[q].item))
      ensures id !in old(items) && (forall q :: q in old(receipts) ==> old(receipts)[q].item.id != id) ==>
                && (r.Err? <==> id in old(intents) && (old(intents)[id].value != body.value || old(intents)[id].priority != body.priority))
                && (id !in old(intents) ==> id in intents && intents[id].value == body.value && intents[id].priority == body.priority)
    {
      hide Inv;
      if id in items {
        ItemsAreNamed(View(), cap, id);
        return if items[id].value == body.value then Ok(Some(items[id])) else Err(IdentityConflict);
      }
      if Consumed(Records(), id) {
        var request :| request in receipts && receipts[request].item.id == id;
        var item := receipts[request].item;
        OnlyReceipt(View(), cap, id);
        return if item.value == body.value then Ok(Some(item)) else Err(IdentityConflict);
      }
      if id in intents {
        var pending := intents[id];
        return if pending.value == body.value && pending.priority == body.priority then Ok(None) else Err(IdentityConflict);
      }
      FreshId(View(), cap, id);
      ghost var s := View();
      var put := Put(id, body, at, foreign);
      SamePut(s, id, body, at, foreign, View(), cap);
      return Ok(None);
    }

    /** Ask for the next item: the request commits before the backend hears of it. */
    method Get(request: string, at: int, foreign: nat) returns (r: Result<GetRequest, Fault>)
      requires backend.Up?
      modifies this
      ensures Next(old(View()), DoGet(request, at, foreign), View(), cap)
      ensures r.Err? <==> old(request in requests || request in receipts)
    {
      if request in requests || request in receipts {
        return Err(Duplicate);
      }
      var n := TakeNumber(foreign);
      hide NextSequence, Sequences;
      var pending := GetRequest(request, at, n);
      requests := requests[request := pending];
      backend := backend.(gets := backend.gets + [request]);
      getLog := getLog + [request];
      assert View() == IssueGet(old(View()), request, at, n);
      return Ok(pending);
    }

    /** Commit a put whose callback arrived; repeats return the stored item. */
    method CommitStored(id: string) returns (item: Option<Item>)
      modifies this`items, this`intents
      ensures Records() == CommitPut(old(Records()), id)
      ensures item.Some? <==> id in items
      ensures item.Some? ==> item.value == items[id]
    {
      if id in items {
        return Some(items[id]);
      }
      if id !in intents {
        return None;
      }
      var intent := intents[id];
      intents := intents - {id};
      items := items[id := Issued(intent)];
      return Some(items[id]);
    }

    /** Commit a selection whose callback arrived; a committed receipt is final. */
    method CommitReceived(request: string, id: string, at: int) returns (r: Result<Receipt, Fault>)
      modifies this`items, this`intents, this`requests, this`receipts
      ensures var out := CommitGet(old(Records()), request, id, at);
              && (r.Err? <==> out.Err?) && Records() == (if out.Ok? then out.value else old(Records()))
              && (r.Ok? ==> request in receipts && r.value == receipts[request])
    {
      if request in receipts {
        return Ok(receipts[request]);
      }
      if request !in requests {
        return Err(UnknownRequest);
      }
      if id !in items && id !in intents {
        return Err(UnknownItem);
      }
      var item := if id in items then items[id] else Issued(intents[id]);
      var receipt := Receipt(request, item, at, requests[request].sequence);
      items, intents := items - {id}, intents - {id};
      receipts, requests := receipts[request := receipt], requests - {request};
      return Ok(receipt);
    }

    /** The backend delivers its oldest callback. */
    method Deliver(at: int)
      requires backend.Up? && backend.callbacks != [] && Delivered(View(), at).Ok?
      modifies this
      ensures View() == Delivered(old(View()), at).value
    {
      var first := backend.callbacks[0];
      backend := backend.(callbacks := backend.callbacks[1..]);
      ghost var before := Records();
      match first {
        case Stored(id) =>
          var item := CommitStored(id);
          if Records() != before { stored := stored + 1; }
        case Received(request, id) =>
          var r := CommitReceived(request, id, at);
          if Records() != before { taken := taken + 1; }
      }
    }

    /** Keys of a table of numbers, in ascending order. */
    static method Sorted(table: map<string, nat>) returns (ids: seq<string>)
      ensures Ordered(ids, table.Keys, table)
    {
      ids := [];
      var todo := table.Keys;
      while todo != {}
        invariant todo <= table.Keys
        invariant Ordered(ids, table.Keys - todo, table)
        invariant forall x, y :: x in ids && y in todo ==> table[x] <= table[y]
        decreases todo
      {
        var first :| first in todo;
        var rest := todo - {first};
        while rest != {}
          invariant rest <= todo && first in todo
          invariant forall y :: y in todo && y !in rest ==> table[first] <= table[y]
          decreases rest
        {
          var x :| x in rest;
          rest := rest - {x};
          if table[x] < table[first] {
            first := x;
          }
        }
        SortedAppend(ids, table.Keys - todo, first, table);
        assert table.Keys - (todo - {first}) == (table.Keys - todo) + {first};
        ids, todo := ids + [first], todo - {first};
      }
      assert table.Keys - todo == table.Keys;
    }

    /** Recreate the backend from durable records. */
    method RebuildBackend() returns (r: Result<nat, Fault>)
      modifies this
      ensures Next(old(View()), Rebuild, View(), cap)
      ensures r.Ok? <==> Fits(cap, |items|)
      ensures r.Ok? ==> r.value == |backend.contents| + |backend.puts| + |backend.gets|
    {
      if !Fits(cap, |items|) {
        return Err(OverCapacity);
      }
      hide Ordered;
      var d := Records();
      var contents := Sorted(ItemOrder(d));
      var puts := Sorted(IntentOrder(d));
      var gets := Sorted(RequestOrder(d));
      assert ItemOrder(d).Keys == items.Keys && IntentOrder(d).Keys == intents.Keys && RequestOrder(d).Keys == requests.Keys;
      backend := Up(contents, puts, gets, []);
      assert Restored(d, backend);
      return Ok(|contents| + |puts| + |gets|);
    }
  }

  lemma SortedAppend(ids: seq<string>, keys: set<string>, x: string, table: map<string, nat>)
    requires Ordered(ids, keys, table) && x !in keys && x in table && forall y :: y in ids ==> table[y] <= table[x]
    ensures Ordered(ids + [x], keys + {x}, table)
  {
  }

  /** An item is in one receipt at most. */
  lemma OnlyReceipt(s: State, cap: Option<nat>, id: string)
    requires Inv(s, cap)
    ensures forall q, r ::
              (q in s.durable.receipts && r in s.durable.receipts
               && s.durable.receipts[q].item.id == id && s.durable.receipts[r].item.id == id) ==> q == r
  {
    hide Sequenced, Granted, Partition, Paired;
    ConsumedByPosition(s, id);
    assert forall q :: q in s.durable.receipts && s.durable.receipts[q].item.id == id ==> Consumed(s.durable, id);
  }

  lemma ItemsAreNamed(s: State, cap: Option<nat>, id: string)
    requires Inv(s, cap) && id in s.durable.items
    ensures s.durable.items[id].id == id
  {
    hide Partition, Sequenced, Granted;
    assert ItemAt(s.bodies, id, s.durable.items[id]);
  }

  lemma FreshId(s: State, cap: Option<nat>, id: string)
    requires Inv(s, cap) && id !in s.durable.items && id !in s.durable.intents && !Consumed(s.durable, id)
    ensures id !in s.putLog
  {
    hide Partition, Paired, Sequenced, Granted;
    EnsurePutIsFresh(s, id);
  }

  lemma SamePut(s: State, id: string, body: Body, at: int, foreign: nat, s': State, cap: Option<nat>)
    requires Next(s, DoPut(id, body, at, foreign), s', cap)
    requires id !in s.durable.items && id !in s.durable.intents && !Consumed(s.durable, id)
    ensures Next(s, DoEnsurePut(id, body, at, foreign), s', cap)
  {
    hide NextSequence, IssuePut;
  }
}
