/**
 A durable container: a level that only committed operations move, behind an
 ephemeral backend that decides when each operation is feasible.
 */
module Containers {
  import opened Outcomes

  datatype Operation = Put | Get

  datatype Intent = Intent(id: string, operation: Operation, amount: real, requestedAt: int, sequence: nat)

  datatype OpResult = OpResult(
    id: string, operation: Operation, amount: real, completedAt: int, before: real, after: real, sequence: nat)

  datatype Durable = Durable(level: real, intents: map<string, Intent>, results: map<string, OpResult>)

  /** The backend's own level runs ahead of the durable one by the callbacks it
      has not delivered yet; they arrive in the order it granted them. */
  datatype Backend = Down | Up(level: real, waiting: set<string>, callbacks: seq<string>)

  /** `log` is the history of committed requests, oldest first. */
  datatype State = State(durable: Durable, backend: Backend, log: seq<string>)

  datatype Definition = Definition(capacity: real, initial: real)

  predicate ValidDefinition(c: Definition) {
    c.capacity > 0.0 && 0.0 <= c.initial <= c.capacity
  }

  datatype Fault = Duplicate | UnknownIntent | Infeasible | InvalidAmount | InconsistentRecords

  function Moved(level: real, operation: Operation, amount: real): real {
    if operation == Put then level + amount else level - amount
  }

  // ----------------------------------------------------------------------- steps

  /** Commit an operation the backend completed; a repeat changes nothing. */
  function Commit(c: Definition, d: Durable, id: string, at: int): Result<Durable, Fault> {
    if id in d.results then Ok(d)
    else if id !in d.intents then Err(UnknownIntent)
    else
      var i := d.intents[id];
      var after := Moved(d.level, i.operation, i.amount);
      if after < 0.0 || after > c.capacity then Err(Infeasible)
      else Ok(Durable(after, d.intents - {id},
                      d.results[id := OpResult(id, i.operation, i.amount, at, d.level, after, i.sequence)]))
  }

  function Requested(s: State, i: Intent): State
    requires s.backend.Up?
  {
    s.(durable := s.durable.(intents := s.durable.intents[i.id := i]),
       backend := s.backend.(waiting := s.backend.waiting + {i.id}))
  }

  /** The backend completes an operation that its level allows. */
  predicate CanGrant(c: Definition, s: State, id: string) {
    && s.backend.Up? && id in s.backend.waiting && id in s.durable.intents
    && var i := s.durable.intents[id]; 0.0 <= Moved(s.backend.level, i.operation, i.amount) <= c.capacity
  }

  function Granted(s: State, id: string): State
    requires s.backend.Up? && id in s.durable.intents
  {
    var i := s.durable.intents[id];
    s.(backend := Up(Moved(s.backend.level, i.operation, i.amount), s.backend.waiting - {id}, s.backend.callbacks + [id]))
  }

  /** Deliver the oldest callback. */
  function Delivered(c: Definition, s: State, at: int): Result<State, Fault>
    requires s.backend.Up? && s.backend.callbacks != []
  {
    var id := s.backend.callbacks[0];
    match Commit(c, s.durable, id, at)
    case Err(e) => Err(e)
    case Ok(d) => Ok(State(d, s.backend.(callbacks := s.backend.callbacks[1..]), if d == s.durable then s.log else s.log + [id]))
  }

  function Rebuilt(d: Durable): Backend {
    Up(d.level, d.intents.Keys, [])
  }

  /** What a rebuild insists on. */
  predicate ValidRebuild(c: Definition, d: Durable) {
    && d.level <= c.capacity
    && (forall id :: id in d.intents ==> id !in d.results)
    && (forall id :: id in d.results ==>
          && d.results[id].after == Moved(d.results[id].before, d.results[id].operation, d.results[id].amount)
          && 0.0 <= d.results[id].after <= c.capacity)
  }

  datatype Op =
    | DoRequest(intent: Intent)
    | Grant(id: string)
    | Fire(at: int)
    | Crash
    | Rebuild

  ghost predicate Next(c: Definition, s: State, op: Op, s': State) {
    match op
    case DoRequest(i) =>
      s.backend.Up? && i.amount > 0.0 &&
      s' == if i.id in s.durable.intents || i.id in s.durable.results then s else Requested(s, i)
    case Grant(id) => CanGrant(c, s, id) && s' == Granted(s, id)
    case Fire(at) => s.backend.Up? && s.backend.callbacks != [] && Delivered(c, s, at).Ok? && s' == Delivered(c, s, at).value
    case Crash => s' == s.(backend := Down)
    case Rebuild => s' == if ValidRebuild(c, s.durable) then s.(backend := Rebuilt(s.durable)) else s
  }

  function Start(c: Definition): State {
    State(Durable(c.initial, map[], map[]), Down, [])
  }

  ghost predicate Run(c: Definition, states: seq<State>, ops: seq<Op>) {
    && |states| == |ops| + 1 && states[0] == Start(c)
    && forall i {:trigger ops[i]} :: 0 <= i < |ops| ==> Next(c, states[i], ops[i], states[i + 1])
  }

  // ------------------------------------------------------------------- conservation

  /** Level after the logged operations, from their committed amounts. */
  function Balance(initial: real, log: seq<string>, results: map<string, OpResult>): real
    requires forall id :: id in log ==> id in results
  {
    if log == [] then initial
    else
      var last := log[|log| - 1];
      Moved(Balance(initial, log[..|log| - 1], results), results[last].operation, results[last].amount)
  }

  lemma {:induction false} BalanceIgnoresOthers(initial: real, log: seq<string>, results: map<string, OpResult>, results': map<string, OpResult>)
    requires forall id :: id in log ==> id in results && id in results' && results'[id] == results[id]
    ensures Balance(initial, log, results') == Balance(initial, log, results)
  {
    if log != [] {
      BalanceIgnoresOthers(initial, log[..|log| - 1], results, results');
    }
  }

  /** What the logged results of one operation add up to. */
  function Total(operation: Operation, log: seq<string>, results: map<string, OpResult>): real
    requires forall id :: id in log ==> id in results
  {
    if log == [] then 0.0
    else
      var last := log[|log| - 1];
      Total(operation, log[..|log| - 1], results) + if results[last].operation == operation then results[last].amount else 0.0
  }

  lemma {:induction false} BalanceIsTotals(initial: real, log: seq<string>, results: map<string, OpResult>)
    requires forall id :: id in log ==> id in results
    ensures Balance(initial, log, results) == initial + Total(Put, log, results) - Total(Get, log, results)
  {
    if log != [] {
      BalanceIsTotals(initial, log[..|log| - 1], results);
    }
  }

  /** The log lists every committed request once, and each result's levels chain
      on from the one before it. */
  ghost predicate Chained(c: Definition, level: real, results: map<string, OpResult>, log: seq<string>) {
    && (forall id :: id in results <==> id in log)
    && (forall i, j :: 0 <= i < j < |log| ==> log[i] != log[j])
    && (forall i :: 0 <= i < |log| ==> Linked(c, results, log, i))
    && level == (if log == [] then c.initial else results[log[|log| - 1]].after)
  }

  /** The i-th result starts from the level the one before it left. */
  ghost predicate Linked(c: Definition, results: map<string, OpResult>, log: seq<string>, i: int)
    requires 0 <= i < |log| && forall id :: id in log ==> id in results
  {
    var r := results[log[i]];
    && r.before == (if i == 0 then c.initial else results[log[i - 1]].after)
    && r.after == Moved(r.before, r.operation, r.amount) && 0.0 <= r.after <= c.capacity
  }

  /** Chained results add up: nothing is created or lost. */
  lemma {:induction false} ChainConserves(c: Definition, level: real, results: map<string, OpResult>, log: seq<string>, n: nat)
    requires Chained(c, level, results, log) && n <= |log|
    ensures Balance(c.initial, log[..n], results) == if n == 0 then c.initial else results[log[n - 1]].after
  {
    if n > 0 {
      ChainConserves(c, level, results, log, n - 1);
      assert log[..n][..n - 1] == log[..n - 1];
      assert Linked(c, results, log, n - 1);
    }
  }

  /** Delivering these callbacks keeps the level feasible all the way to `end`. */
  ghost predicate Feasible(c: Definition, level: real, callbacks: seq<string>, intents: map<string, Intent>, end: real)
    decreases |callbacks|
  {
    && 0.0 <= level <= c.capacity
    && if callbacks == [] then level == end
       else
         && callbacks[0] in intents
         && Feasible(c, Moved(level, intents[callbacks[0]].operation, intents[callbacks[0]].amount), callbacks[1..], intents, end)
  }

  ghost predicate Synchronized(c: Definition, s: State) {
    s.backend.Up? ==>
      && Feasible(c, s.durable.level, s.backend.callbacks, s.durable.intents, s.backend.level)
      && (forall i, j :: 0 <= i < j < |s.backend.callbacks| ==> s.backend.callbacks[i] != s.backend.callbacks[j])
      && (forall id :: id in s.backend.callbacks ==> id !in s.backend.waiting)
  }

  ghost predicate Inv(c: Definition, s: State) {
    && Chained(c, s.durable.level, s.durable.results, s.log)
    && 0.0 <= s.durable.level <= c.capacity
    && (forall id :: id in s.durable.intents ==> id !in s.durable.results)
    && Synchronized(c, s)
  }

  // ------------------------------------------------------------------- preservation

  lemma {:induction false} FeasibleAppend(c: Definition, level: real, callbacks: seq<string>, intents: map<string, Intent>, end: real, id: string)
    requires Feasible(c, level, callbacks, intents, end) && id in intents
    requires 0.0 <= Moved(end, intents[id].operation, intents[id].amount) <= c.capacity
    ensures Feasible(c, level, callbacks + [id], intents, Moved(end, intents[id].operation, intents[id].amount))
    decreases |callbacks|
  {
    if callbacks == [] {
      assert [id][1..] == [];
    } else {
      assert (callbacks + [id])[1..] == callbacks[1..] + [id];
      FeasibleAppend(c, Moved(level, intents[callbacks[0]].operation, intents[callbacks[0]].amount), callbacks[1..], intents, end, id);
    }
  }

  /** Other intents may come and go. */
  lemma {:induction false} FeasibleOtherIntents(c: Definition, level: real, callbacks: seq<string>, intents: map<string, Intent>, intents': map<string, Intent>, end: real)
    requires Feasible(c, level, callbacks, intents, end)
    requires forall id :: id in callbacks && id in intents ==> id in intents' && intents'[id] == intents[id]
    ensures Feasible(c, level, callbacks, intents', end)
    decreases |callbacks|
  {
    if callbacks != [] {
      FeasibleOtherIntents(c, Moved(level, intents[callbacks[0]].operation, intents[callbacks[0]].amount), callbacks[1..], intents, intents', end);
    }
  }

  lemma RequestKeepsInv(c: Definition, s: State, i: Intent)
    requires Inv(c, s) && s.backend.Up? && i.id !in s.durable.intents && i.id !in s.durable.results
    ensures Inv(c, Requested(s, i))
  {
    var s' := Requested(s, i);
    CallbacksPending(c, s.durable.level, s.backend.callbacks, s.durable.intents, s.backend.level);
    FeasibleOtherIntents(c, s.durable.level, s.backend.callbacks, s.durable.intents, s'.durable.intents, s.backend.level);
    hide Feasible;
  }

  lemma {:induction false} CallbacksPending(c: Definition, level: real, callbacks: seq<string>, intents: map<string, Intent>, end: real)
    requires Feasible(c, level, callbacks, intents, end)
    ensures forall id :: id in callbacks ==> id in intents
    decreases |callbacks|
  {
    if callbacks != [] {
      CallbacksPending(c, Moved(level, intents[callbacks[0]].operation, intents[callbacks[0]].amount), callbacks[1..], intents, end);
    }
  }

  lemma GrantKeepsInv(c: Definition, s: State, id: string)
    requires Inv(c, s) && CanGrant(c, s, id)
    ensures Inv(c, Granted(s, id))
  {
    FeasibleAppend(c, s.durable.level, s.backend.callbacks, s.durable.intents, s.backend.level, id);
    hide Feasible, Chained;
  }

  /** Committing the next feasible operation extends the chain. */
  lemma CommitChains(c: Definition, d: Durable, log: seq<string>, id: string, at: int)
    requires Chained(c, d.level, d.results, log) && id in d.intents && id !in d.results
    requires 0.0 <= Moved(d.level, d.intents[id].operation, d.intents[id].amount) <= c.capacity
    ensures Commit(c, d, id, at).Ok?
    ensures var d' := Commit(c, d, id, at).value; Chained(c, d'.level, d'.results, log + [id])
  {
    var d' := Commit(c, d, id, at).value;
    var longer := log + [id];
    assert id !in log;
    forall x ensures x in d'.results <==> x in longer {
    }
    forall i | 0 <= i < |longer| ensures Linked(c, d'.results, longer, i) {
      if i < |log| { assert Linked(c, d.results, log, i); }
    }
  }

  /** A completed operation is always feasible durably: the commit never raises. */
  lemma FireKeepsInv(c: Definition, s: State, at: int)
    requires Inv(c, s) && s.backend.Up? && s.backend.callbacks != []
    ensures Delivered(c, s, at).Ok? && Inv(c, Delivered(c, s, at).value)
  {
    var id := s.backend.callbacks[0];
    var rest := s.backend.callbacks[1..];
    var next := Moved(s.durable.level, s.durable.intents[id].operation, s.durable.intents[id].amount);
    NextLevelFeasible(c, next, rest, s.durable.intents, s.backend.level);
    CommitChains(c, s.durable, s.log, id, at);
    var s' := Delivered(c, s, at).value;
    assert id in s'.durable.results && id !in s.durable.results;
    assert id !in rest;
    FeasibleOtherIntents(c, next, rest, s.durable.intents, s'.durable.intents, s.backend.level);
    hide Feasible, Chained;
  }

  lemma NextLevelFeasible(c: Definition, level: real, callbacks: seq<string>, intents: map<string, Intent>, end: real)
    requires Feasible(c, level, callbacks, intents, end)
    ensures 0.0 <= level <= c.capacity
  {
  }

  lemma RebuildKeepsInv(c: Definition, s: State)
    requires Inv(c, s)
    ensures Inv(c, s.(backend := Rebuilt(s.durable)))
  {
    hide Chained;
  }

  lemma NextKeepsInv(c: Definition, s: State, op: Op, s': State)
    requires Inv(c, s) && Next(c, s, op, s')
    ensures Inv(c, s')
  {
    hide Inv, ValidRebuild, CanGrant;
    match op
    case DoRequest(i) => if s' != s { RequestKeepsInv(c, s, i); }
    case Grant(id) => GrantKeepsInv(c, s, id);
    case Fire(at) => FireKeepsInv(c, s, at);
    case Crash => CrashKeepsInv(c, s);
    case Rebuild => RebuildKeepsInv(c, s);
  }

  lemma CrashKeepsInv(c: Definition, s: State)
    requires Inv(c, s)
    ensures Inv(c, s.(backend := Down))
  {
    hide Chained;
  }

  /** The invariant holds at every point of every run. */
  lemma {:induction false} ReachableInv(c: Definition, states: seq<State>, ops: seq<Op>, i: nat)
    requires ValidDefinition(c) && Run(c, states, ops) && i < |states|
    ensures Inv(c, states[i])
  {
    if i > 0 {
      ReachableInv(c, states, ops, i - 1);
      assert Next(c, states[i - 1], ops[i - 1], states[i]);
      hide Inv, Next, Run;
      NextKeepsInv(c, states[i - 1], ops[i - 1], states[i]);
    }
  }

  /** At every crash point the durable level is the initial level plus the amounts of
      the committed puts minus those of the committed gets, each counted once; it
      stays within capacity, and a rebuild accepts. */
  lemma LevelConserved(c: Definition, states: seq<State>, ops: seq<Op>, i: nat)
    requires ValidDefinition(c) && Run(c, states, ops) && i < |states|
    ensures var s := states[i];
            && 0.0 <= s.durable.level <= c.capacity
            && (forall id :: id in s.log <==> id in s.durable.results)
            && (forall j, k :: 0 <= j < k < |s.log| ==> s.log[j] != s.log[k])
            && s.durable.level == c.initial + Total(Put, s.log, s.durable.results) - Total(Get, s.log, s.durable.results)
            && s.durable.level == Balance(c.initial, s.log, s.durable.results)
            && ValidRebuild(c, s.durable)
  {
    ReachableInv(c, states, ops, i);
    hide Run, Feasible;
    var s := states[i];
    ChainConserves(c, s.durable.level, s.durable.results, s.log, |s.log|);
    assert s.log[..|s.log|] == s.log;
    BalanceIsTotals(c.initial, s.log, s.durable.results);
    forall id | id in s.durable.results
      ensures s.durable.results[id].after == Moved(s.durable.results[id].before, s.durable.results[id].operation, s.durable.results[id].amount)
      ensures 0.0 <= s.durable.results[id].after <= c.capacity
    {
      var k :| 0 <= k < |s.log| && s.log[k] == id;
      assert Linked(c, s.durable.results, s.log, k);
    }
  }

  /** The level after one operation of this amount. */
  ghost predicate Shifts(operation: Operation, amount: real, before: real, after: real) {
    && (operation == Put ==> after == before + amount)
    && (operation == Get ==> after == before - amount)
  }

  /** A pending operation commits exactly when the level it leads to is within
      bounds, and moves the level by its own amount in its own direction. */
  lemma CommitExactly(c: Definition, d: Durable, id: string, at: int)
    requires id in d.intents && id !in d.results
    ensures var i := d.intents[id];
            Commit(c, d, id, at).Ok? <==> exists after :: Shifts(i.operation, i.amount, d.level, after) && 0.0 <= after <= c.capacity
    ensures Commit(c, d, id, at).Ok? ==>
              var i, d' := d.intents[id], Commit(c, d, id, at).value;
              && Shifts(i.operation, i.amount, d.level, d'.level) && d'.intents == d.intents - {id}
              && d'.results == d.results[id := OpResult(id, i.operation, i.amount, at, d.level, d'.level, i.sequence)]
  {
    var i := d.intents[id];
    assert Shifts(i.operation, i.amount, d.level, if i.operation == Put then d.level + i.amount else d.level - i.amount);
  }

  /** A waiting put is granted exactly when it fits, a waiting get exactly when the
      level covers it. */
  lemma GrantExactly(c: Definition, s: State, id: string)
    requires s.backend.Up? && id in s.durable.intents && s.durable.intents[id].amount > 0.0 && 0.0 <= s.backend.level <= c.capacity
    ensures var i := s.durable.intents[id];
            CanGrant(c, s, id) <==>
              && id in s.backend.waiting
              && if i.operation == Put then s.backend.level + i.amount <= c.capacity else i.amount <= s.backend.level
    ensures Shifts(s.durable.intents[id].operation, s.durable.intents[id].amount, s.backend.level, Granted(s, id).backend.level)
  {
  }

  /** Some earlier step asked for this operation, of this amount, under this id. */
  ghost predicate Asked(ops: seq<Op>, n: nat, id: string, operation: Operation, amount: real) {
    exists j :: 0 <= j < n && j < |ops| && Asks(ops[j], id, operation, amount)
  }

  ghost predicate Asks(op: Op, id: string, operation: Operation, amount: real) {
    op.DoRequest? && op.intent.id == id && op.intent.operation == operation && op.intent.amount == amount
  }

  ghost predicate AllAsked(s: State, ops: seq<Op>, n: nat) {
    && (forall id :: id in s.durable.intents ==> Asked(ops, n, id, s.durable.intents[id].operation, s.durable.intents[id].amount))
    && (forall id :: id in s.durable.results ==> Asked(ops, n, id, s.durable.results[id].operation, s.durable.results[id].amount))
  }

  /** At every point of every run what is committed is what was asked for. */
  lemma {:induction false} AsRequested(c: Definition, states: seq<State>, ops: seq<Op>, i: nat)
    requires Run(c, states, ops) && i < |states|
    ensures AllAsked(states[i], ops, i)
  {
    hide Next, Asked;
    if i > 0 {
      AsRequested(c, states, ops, i - 1);
      assert Next(c, states[i - 1], ops[i - 1], states[i]);
      hide Run;
      StillAsked(c, states[i - 1], ops, i - 1, states[i]);
    }
  }

  lemma StillAsked(c: Definition, s: State, ops: seq<Op>, n: nat, s': State)
    requires n < |ops| && Next(c, s, ops[n], s') && AllAsked(s, ops, n)
    ensures AllAsked(s', ops, n + 1)
  {
    hide CanGrant, ValidRebuild, Asks;
    forall id, operation, amount | Asked(ops, n, id, operation, amount) ensures Asked(ops, n + 1, id, operation, amount) { }
    if ops[n].DoRequest? {
      var i := ops[n].intent;
      assert Asks(ops[n], i.id, i.operation, i.amount) by { AsksItself(ops[n]); }
      assert Asked(ops, n + 1, i.id, i.operation, i.amount);
    }
    hide Asked;
  }

  lemma AsksItself(op: Op)
    requires op.DoRequest?
    ensures Asks(op, op.intent.id, op.intent.operation, op.intent.amount)
  {
  }

  /** The backend never runs ahead of what it has still to report. */
  lemma LevelsMeet(c: Definition, s: State)
    requires Inv(c, s) && s.backend.Up? && s.backend.callbacks == []
    ensures s.backend.level == s.durable.level
  {
    hide Chained;
  }

  /** At every point of every run. */
  lemma RefinesBackend(c: Definition, states: seq<State>, ops: seq<Op>, i: nat)
    requires ValidDefinition(c) && Run(c, states, ops) && i < |states|
    requires states[i].backend.Up? && states[i].backend.callbacks == []
    ensures states[i].backend.level == states[i].durable.level
  {
    ReachableInv(c, states, ops, i);
    hide Run, Inv;
    LevelsMeet(c, states[i]);
  }

  /** At every point of every run the next completed operation can be committed. */
  lemma CommitNeverRaises(c: Definition, states: seq<State>, ops: seq<Op>, i: nat, at: int)
    requires ValidDefinition(c) && Run(c, states, ops) && i < |states|
    requires states[i].backend.Up? && states[i].backend.callbacks != []
    ensures Delivered(c, states[i], at).Ok?
  {
    ReachableInv(c, states, ops, i);
    hide Run, Inv, Delivered;
    FireKeepsInv(c, states[i], at);
  }

  // ------------------------------------------------------------------ the manager

  class DurableContainerManager {
    const definition: Definition
    var level: real
    var intents: map<string, Intent>
    var results: map<string, OpResult>
    var backend: Backend              // ephemeral: lost when the process dies
    ghost var log: seq<string>

    function Records(): Durable
      reads this
    {
      Durable(level, intents, results)
    }

    ghost function View(): State
      reads this
    {
      State(Records(), backend, log)
    }

    constructor (c: Definition)
      ensures View() == Start(c) && definition == c
    {
      definition := c;
      level, intents, results, backend, log := c.initial, map[], map[], Down, [];
    }

    method RequestOperation(id: string, operation: Operation, amount: real, at: int, foreign: nat) returns (r: Result<Intent, Fault>)
      requires backend.Up?
      modifies this
      ensures r.Err? ==> View() == old(View())
      ensures r.Err? <==> amount <= 0.0 || old(id in intents || id in results)
      ensures r.Ok? ==> r.value.id == id && r.value.operation == operation && r.value.amount == amount && View() == Requested(old(View()), r.value)
      ensures r.Ok? ==> r.value.sequence > foreign && forall x :: x in old(intents) ==> old(intents)[x].sequence < r.value.sequence
      ensures r.Ok? ==> forall x :: x in old(results) ==> old(results)[x].sequence < r.value.sequence
    {
      if amount <= 0.0 {
        return Err(InvalidAmount);
      }
      if id in intents || id in results {
        return Err(Duplicate);
      }
      var top := foreign;
      var numbers := (set x | x in intents :: intents[x].sequence) + (set x | x in results :: results[x].sequence);
      var todo := numbers;
      while todo != {}
        invariant todo <= numbers && top >= foreign
        invariant forall x :: x in numbers && x !in todo ==> x <= top
        decreases todo
      {
        var x :| x in todo;
        todo := todo - {x};
        if x > top {
          top := x;
        }
      }
      forall x | x in intents ensures intents[x].sequence < top + 1 {
        assert intents[x].sequence in numbers;
      }
      forall x | x in results ensures results[x].sequence < top + 1 {
        assert results[x].sequence in numbers;
      }
      var intent := Intent(id, operation, amount, at, top + 1);
      intents := intents[id := intent];
      backend := backend.(waiting := backend.waiting + {id});
      return Ok(intent);
    }

    /** Commit one completed operation: level, result and intent move together. */
    method CommitOperation(id: string, at: int) returns (r: Result<OpResult, Fault>)
      modifies this`level, this`intents, this`results
      ensures var out := Commit(definition, old(Records()), id, at);
              && (r.Err? <==> out.Err?) && Records() == (if out.Ok? then out.value else old(Records()))
              && (r.Ok? ==> id in results && r.value == results[id])
      ensures r.Ok? && id !in old(results) ==>
                && id in old(intents) && Shifts(old(intents)[id].operation, old(intents)[id].amount, old(level), level)
                && r.value == OpResult(id, old(intents)[id].operation, old(intents)[id].amount, at, old(level), level, old(intents)[id].sequence)
    {
      if id in results {
        return Ok(results[id]);
      }
      if id !in intents {
        return Err(UnknownIntent);
      }
      var intent := intents[id];
      var after := Moved(level, intent.operation, intent.amount);
      if after < 0.0 || after > definition.capacity {
        return Err(Infeasible);
      }
      var result := OpResult(id, intent.operation, intent.amount, at, level, after, intent.sequence);
      level := after;
      results := results[id := result];
      intents := intents - {id};
      return Ok(result);
    }

    /** The backend delivers its oldest callback; this never raises. */
    method Deliver(at: int)
      requires Inv(definition, View()) && backend.Up? && backend.callbacks != []
      modifies this
      ensures Delivered(definition, old(View()), at).Ok? && View() == Delivered(definition, old(View()), at).value
      ensures Inv(definition, View())
    {
      FireKeepsInv(definition, View(), at);
      hide Inv;
      var id := backend.callbacks[0];
      ghost var before := Records();
      backend := backend.(callbacks := backend.callbacks[1..]);
      var r := CommitOperation(id, at);
      if Records() != before { log := log + [id]; }
    }

    /** Recreate the backend at the durable level with every pending operation. */
    method RebuildBackend() returns (accepted: bool)
      modifies this`backend
      ensures accepted <==> ValidRebuild(definition, Records())
      ensures accepted <==>
                && level <= definition.capacity && intents.Keys !! results.Keys
                && forall id :: id in results ==>
                     Shifts(results[id].operation, results[id].amount, results[id].before, results[id].after)
                     && 0.0 <= results[id].after <= definition.capacity
      ensures backend == if accepted then Rebuilt(Records()) else old(backend)
    {
      accepted := ValidRebuild(definition, Records());
      if accepted {
        backend := Up(level, intents.Keys, []);
      }
    }
  }
}
