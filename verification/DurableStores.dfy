/**
 A durable FIFO store behind an ephemeral backend. Put intents, items, get
 requests and receipts are durable; the backend's contents, its two waiting
 queues and its undelivered callbacks are lost in a crash and rebuilt.
 */
module DurableStores {
  import opened Outcomes

  datatype Item = Item(id: string, value: string, priority: int, sequence: nat)

  datatype PutIntent = PutIntent(id: string, value: string, priority: int, requestedAt: int, sequence: nat)

  datatype GetRequest = GetRequest(id: string, requestedAt: int, sequence: nat)

  datatype Receipt = Receipt(requestId: string, item: Item, completedAt: int, sequence: nat)

  datatype Durable = Durable(
    items: map<string, Item>,
    intents: map<string, PutIntent>,
    requests: map<string, GetRequest>,
    receipts: map<string, Receipt>)

  /** Delivered by the backend in the order it granted the operations. */
  datatype Callback = Stored(item: string) | Received(request: string, item: string)

  datatype Backend =
    | Down
    | Up(contents: seq<string>, puts: seq<string>, gets: seq<string>, callbacks: seq<Callback>)

  datatype Body = Body(value: string, priority: int)

  /** The system with its issue history: which puts and gets were ever issued, in
      order, and how many of each have committed. */
  datatype State = State(
    durable: Durable,
    backend: Backend,
    putLog: seq<string>,
    getLog: seq<string>,
    bodies: map<string, Body>,
    stored: nat,
    taken: nat)

  datatype Fault = UnknownRequest | UnknownItem | Duplicate | IdentityConflict | OverCapacity

  // -------------------------------------------------------- durable transactions

  function Issued(intent: PutIntent): Item {
    Item(intent.id, intent.value, intent.priority, intent.sequence)
  }

  /** A put whose callback fired becomes an item; a repeat changes nothing. */
  function CommitPut(d: Durable, id: string): Durable {
    if id in d.items || id !in d.intents then d
    else d.(intents := d.intents - {id}, items := d.items[id := Issued(d.intents[id])])
  }

  /** A get whose callback fired consumes the item it was given, whether or not
      that item's own put has committed yet. */
  function CommitGet(d: Durable, request: string, id: string, at: int): Result<Durable, Fault> {
    if request in d.receipts then Ok(d)
    else if request !in d.requests then Err(UnknownRequest)
    else if id !in d.items && id !in d.intents then Err(UnknownItem)
    else
      var item := if id in d.items then d.items[id] else Issued(d.intents[id]);
      var receipt := Receipt(request, item, at, d.requests[request].sequence);
      Ok(d.(items := d.items - {id}, intents := d.intents - {id},
            receipts := d.receipts[request := receipt], requests := d.requests - {request}))
  }

  /** What a committed get writes: the item it was given leaves the store, its
      request is answered, and the receipt keeps item, time and the request's number. */
  lemma CommitGetWrites(d: Durable, request: string, id: string, at: int)
    requires request !in d.receipts
    ensures CommitGet(d, request, id, at).Ok? <==> request in d.requests && (id in d.items || id in d.intents)
    ensures CommitGet(d, request, id, at).Ok? ==>
              var d' := CommitGet(d, request, id, at).value;
              && d'.items == d.items - {id} && d'.intents == d.intents - {id} && d'.requests == d.requests - {request}
              && d'.receipts.Keys == d.receipts.Keys + {request} && (forall r :: r in d.receipts ==> d'.receipts[r] == d.receipts[r])
              && var r := d'.receipts[request];
                 && r.requestId == request && r.completedAt == at && r.sequence == d.requests[request].sequence
                 && (id in d.items ==> r.item == d.items[id])
                 && (id !in d.items ==> r.item == Item(d.intents[id].id, d.intents[id].value, d.intents[id].priority, d.intents[id].sequence))
  {
  }

  predicate Consumed(d: Durable, id: string) {
    exists r :: r in d.receipts && d.receipts[r].item.id == id
  }

  /** Sequence numbers in use; those inside receipts' items are not looked at. */
  function Sequences(d: Durable): set<nat> {
    (set id | id in d.items :: d.items[id].sequence) +
    (set id | id in d.intents :: d.intents[id].sequence) +
    (set r | r in d.requests :: d.requests[r].sequence) +
    (set r | r in d.receipts :: d.receipts[r].sequence)
  }

  /** One above everything in use here and, up to `foreign`, in other stores. */
  predicate NextSequence(d: Durable, foreign: nat, n: nat) {
    && n > foreign && (forall x :: x in Sequences(d) ==> x < n)
    && (n == foreign + 1 || n - 1 in Sequences(d))
  }

  // ------------------------------------------------------------------- the steps

  datatype Op =
    | DoPut(putId: string, body: Body, at: int, foreign: nat)
    | DoEnsurePut(putId: string, body: Body, at: int, foreign: nat)
    | DoGet(request: string, at: int, foreign: nat)
    | GrantPut
    | GrantGet
    | Fire(at: int)
    | Crash
    | Rebuild

  /** The intent is made durable, then handed to the backend. */
  function IssuePut(s: State, id: string, body: Body, at: int, n: nat): State
    requires s.backend.Up?
  {
    var intent := PutIntent(id, body.value, body.priority, at, n);
    s.(durable := s.durable.(intents := s.durable.intents[id := intent]),
       backend := s.backend.(puts := s.backend.puts + [id]),
       putLog := s.putLog + [id], bodies := s.bodies[id := body])
  }

  function IssueGet(s: State, request: string, at: int, n: nat): State
    requires s.backend.Up?
  {
    s.(durable := s.durable.(requests := s.durable.requests[request := GetRequest(request, at, n)]),
       backend := s.backend.(gets := s.backend.gets + [request]),
       getLog := s.getLog + [request])
  }

  /** Stores without a capacity are unbounded. */
  predicate Fits(cap: Option<nat>, count: int) {
    cap.Some? ==> count <= cap.value
  }

  predicate CanGrantPut(s: State, cap: Option<nat>) {
    s.backend.Up? && s.backend.puts != [] && Fits(cap, |s.backend.contents| + 1)
  }

  function AfterGrantPut(s: State): State
    requires s.backend.Up? && s.backend.puts != []
  {
    var b := s.backend;
    s.(backend := Up(b.contents + [b.puts[0]], b.puts[1..], b.gets, b.callbacks + [Stored(b.puts[0])]))
  }

  predicate CanGrantGet(s: State) {
    s.backend.Up? && s.backend.gets != [] && s.backend.contents != []
  }

  function AfterGrantGet(s: State): State
    requires CanGrantGet(s)
  {
    var b := s.backend;
    s.(backend := Up(b.contents[1..], b.puts, b.gets[1..], b.callbacks + [Received(b.gets[0], b.contents[0])]))
  }

  /** Deliver the oldest callback; an error would propagate out of the backend. */
  function Delivered(s: State, at: int): Result<State, Fault>
    requires s.backend.Up? && s.backend.callbacks != []
  {
    var rest := s.(backend := s.backend.(callbacks := s.backend.callbacks[1..]));
    match s.backend.callbacks[0]
    case Stored(id) =>
      Ok(rest.(durable := CommitPut(s.durable, id),
               stored := s.stored + if CommitPut(s.durable, id) == s.durable then 0 else 1))
    case Received(request, id) =>
      match CommitGet(s.durable, request, id, at)
      case Err(e) => Err(e)
      case Ok(d) => Ok(rest.(durable := d, taken := s.taken + if d == s.durable then 0 else 1))
  }

  /** `ids` lists exactly these keys, by ascending sequence number. */
  ghost predicate Ordered(ids: seq<string>, keys: set<string>, sequence: map<string, nat>) {
    && (forall i, j :: 0 <= i < j < |ids| ==> ids[i] != ids[j])
    && (forall x :: x in ids <==> x in keys)
    && (forall x :: x in keys ==> x in sequence)
    && (forall i, j :: 0 <= i < j < |ids| ==> sequence[ids[i]] <= sequence[ids[j]])
  }

  function ItemOrder(d: Durable): map<string, nat> { map id | id in d.items :: d.items[id].sequence }

  function IntentOrder(d: Durable): map<string, nat> { map id | id in d.intents :: d.intents[id].sequence }

  function RequestOrder(d: Durable): map<string, nat> { map r | r in d.requests :: d.requests[r].sequence }

  /** What a new backend holds after the durable records are fed to it. */
  ghost predicate Restored(d: Durable, b: Backend) {
    && b.Up? && b.callbacks == []
    && Ordered(b.contents, d.items.Keys, ItemOrder(d))
    && Ordered(b.puts, d.intents.Keys, IntentOrder(d))
    && Ordered(b.gets, d.requests.Keys, RequestOrder(d))
  }

  ghost predicate Next(s: State, op: Op, s': State, cap: Option<nat>) {
    match op
    case DoPut(id, body, at, foreign) =>
      s.backend.Up? &&
      if id in s.durable.items || id in s.durable.intents then s' == s
      else
        && id !in s.putLog       // callers of the plain put never reuse an id
        && exists n :: NextSequence(s.durable, foreign, n) && s' == IssuePut(s, id, body, at, n)
    case DoEnsurePut(id, body, at, foreign) =>
      s.backend.Up? &&
      if id in s.durable.items || Consumed(s.durable, id) || id in s.durable.intents then s' == s
      else exists n :: NextSequence(s.durable, foreign, n) && s' == IssuePut(s, id, body, at, n)
    case DoGet(request, at, foreign) =>
      s.backend.Up? &&
      if request in s.durable.requests || request in s.durable.receipts then s' == s
      else exists n :: NextSequence(s.durable, foreign, n) && s' == IssueGet(s, request, at, n)
    case GrantPut => CanGrantPut(s, cap) && s' == AfterGrantPut(s)
    case GrantGet => CanGrantGet(s) && s' == AfterGrantGet(s)
    case Fire(at) => s.backend.Up? && s.backend.callbacks != [] && Delivered(s, at).Ok? && s' == Delivered(s, at).value
    case Crash => s' == s.(backend := Down)
    case Rebuild =>
      if !Fits(cap, |s.durable.items|) then s' == s
      else Restored(s.durable, s'.backend) && s' == s.(backend := s'.backend)
  }

  const Empty: State := State(Durable(map[], map[], map[], map[]), Down, [], [], map[], 0, 0)

  ghost predicate Run(states: seq<State>, ops: seq<Op>, cap: Option<nat>) {
    && |states| == |ops| + 1 && states[0] == Empty
    && forall i {:trigger ops[i]} :: 0 <= i < |ops| ==> Next(states[i], ops[i], states[i + 1], cap)
  }

  // ----------------------------------------------------------------- the invariant

  /** Puts commit in issue order, gets consume in issue order. */
  ghost predicate Partition(s: State) {
    && s.taken <= s.stored <= |s.putLog| && s.taken <= |s.getLog|
    && Distinct(s.putLog) && Distinct(s.getLog)
    && s.durable.receipts.Keys == Elems(s.getLog[..s.taken])
    && s.durable.requests.Keys == Elems(s.getLog[s.taken..])
    && s.durable.items.Keys == Elems(s.putLog[s.taken..s.stored])
    && s.durable.intents.Keys == Elems(s.putLog[s.stored..])
  }

  ghost predicate ItemAt(bodies: map<string, Body>, id: string, item: Item) {
    item.id == id && id in bodies && item.value == bodies[id].value && item.priority == bodies[id].priority
  }

  /** The k-th get ever issued received the k-th item ever put, as it was put. */
  ghost predicate Paired(s: State) {
    && s.taken <= |s.putLog| && s.taken <= |s.getLog|
    && (forall k :: 0 <= k < s.taken ==>
          s.getLog[k] in s.durable.receipts && s.durable.receipts[s.getLog[k]].requestId == s.getLog[k]
          && ItemAt(s.bodies, s.putLog[k], s.durable.receipts[s.getLog[k]].item))
    && (forall id :: id in s.durable.items ==> ItemAt(s.bodies, id, s.durable.items[id]))
    && (forall id :: id in s.durable.intents ==> ItemAt(s.bodies, id, Issued(s.durable.intents[id])))
  }

  /** Sequence number of a live put or get. */
  function PutSequence(d: Durable, id: string): nat {
    if id in d.items then d.items[id].sequence else if id in d.intents then d.intents[id].sequence else 0
  }

  function GetSequence(d: Durable, r: string): nat {
    if r in d.requests then d.requests[r].sequence else 0
  }

  /** Among live records, sequence numbers follow the issue order. */
  ghost predicate Sequenced(s: State) {
    && (forall i, j :: s.taken <= i < j < |s.putLog| ==> PutSequence(s.durable, s.putLog[i]) < PutSequence(s.durable, s.putLog[j]))
    && (forall i, j :: s.taken <= i < j < |s.getLog| ==> GetSequence(s.durable, s.getLog[i]) < GetSequence(s.durable, s.getLog[j]))
  }

  /** Delivering these callbacks takes the committed counts (m, n) to (a, b),
      and at every point the durable items fit the capacity. */
  ghost predicate Pending(callbacks: seq<Callback>, putLog: seq<string>, getLog: seq<string>, m: nat, n: nat, a: nat, b: nat, cap: Option<nat>)
    decreases |callbacks|
  {
    && m <= a <= |putLog| && n <= b <= |getLog| && n <= m && b <= a && Fits(cap, m - n)
    && if callbacks == [] then m == a && n == b
       else match callbacks[0]
            case Stored(id) => m < a && id == putLog[m] && Pending(callbacks[1..], putLog, getLog, m + 1, n, a, b, cap)
            case Received(r, id) =>
              n < b && n < m && r == getLog[n] && id == putLog[n] && Pending(callbacks[1..], putLog, getLog, m, n + 1, a, b, cap)
  }

  /** The backend has granted the first `a` puts and `b` gets. */
  ghost predicate Granted(s: State, a: nat, b: nat, cap: Option<nat>) {
    && s.backend.Up?
    && Pending(s.backend.callbacks, s.putLog, s.getLog, s.stored, s.taken, a, b, cap)
    && s.backend.contents == s.putLog[b..a]
    && s.backend.puts == s.putLog[a..]
    && s.backend.gets == s.getLog[b..]
  }

  ghost predicate Inv(s: State, cap: Option<nat>) {
    && Partition(s) && Paired(s) && Sequenced(s)
    && Fits(cap, s.stored - s.taken)
    && (s.backend.Up? ==> exists a, b :: Granted(s, a, b, cap))
  }

  // ------------------------------------------------------------ pending callbacks

  lemma {:induction false} PendingAfterPut(callbacks: seq<Callback>, putLog: seq<string>, getLog: seq<string>,
                                           m: nat, n: nat, a: nat, b: nat, cap: Option<nat>)
    requires Pending(callbacks, putLog, getLog, m, n, a, b, cap) && a < |putLog| && Fits(cap, a + 1 - b)
    ensures Pending(callbacks + [Stored(putLog[a])], putLog, getLog, m, n, a + 1, b, cap)
    decreases |callbacks|
  {
    var longer := callbacks + [Stored(putLog[a])];
    if callbacks == [] {
      assert longer[1..] == [];
    } else {
      assert longer[1..] == callbacks[1..] + [Stored(putLog[a])];
      match callbacks[0]
      case Stored(_) => PendingAfterPut(callbacks[1..], putLog, getLog, m + 1, n, a, b, cap);
      case Received(_, _) => PendingAfterPut(callbacks[1..], putLog, getLog, m, n + 1, a, b, cap);
    }
  }

  lemma {:induction false} PendingAfterGet(callbacks: seq<Callback>, putLog: seq<string>, getLog: seq<string>,
                                           m: nat, n: nat, a: nat, b: nat, cap: Option<nat>)
    requires Pending(callbacks, putLog, getLog, m, n, a, b, cap) && b < a && b < |getLog|
    ensures Pending(callbacks + [Received(getLog[b], putLog[b])], putLog, getLog, m, n, a, b + 1, cap)
    decreases |callbacks|
  {
    var longer := callbacks + [Received(getLog[b], putLog[b])];
    if callbacks == [] {
      assert longer[1..] == [];
    } else {
      assert longer[1..] == callbacks[1..] + [Received(getLog[b], putLog[b])];
      match callbacks[0]
      case Stored(_) => PendingAfterGet(callbacks[1..], putLog, getLog, m + 1, n, a, b, cap);
      case Received(_, _) => PendingAfterGet(callbacks[1..], putLog, getLog, m, n + 1, a, b, cap);
    }
  }

  /** New issues do not disturb what is already granted. */
  lemma {:induction false} PendingLogsGrow(callbacks: seq<Callback>, putLog: seq<string>, getLog: seq<string>,
                                           putLog': seq<string>, getLog': seq<string>,
                                           m: nat, n: nat, a: nat, b: nat, cap: Option<nat>)
    requires Pending(callbacks, putLog, getLog, m, n, a, b, cap) && putLog <= putLog' && getLog <= getLog'
    ensures Pending(callbacks, putLog', getLog', m, n, a, b, cap)
    decreases |callbacks|
  {
    if callbacks != [] {
      match callbacks[0]
      case Stored(_) => PendingLogsGrow(callbacks[1..], putLog, getLog, putLog', getLog', m + 1, n, a, b, cap);
      case Received(_, _) => PendingLogsGrow(callbacks[1..], putLog, getLog, putLog', getLog', m, n + 1, a, b, cap);
    }
  }

  // ---------------------------------------------------------- sequences as sets

  lemma ElemsAppend(xs: seq<string>, x: string)
    ensures Elems(xs + [x]) == Elems(xs) + {x}
  {
  }

  lemma ElemsHead(xs: seq<string>)
    requires xs != [] && Distinct(xs)
    ensures Elems(xs[1..]) == Elems(xs) - {xs[0]}
  {
    assert xs == [xs[0]] + xs[1..];
    forall x | x in xs[1..] ensures x in xs && x != xs[0] {
      var i :| 0 <= i < |xs[1..]| && xs[1..][i] == x;
      assert xs[i + 1] == x;
    }
  }

  lemma {:induction false} ElemsCard(xs: seq<string>)
    requires Distinct(xs)
    ensures |Elems(xs)| == |xs|
  {
    if xs == [] {
      assert Elems(xs) == {};
    } else {
      ElemsHead(xs);
      ElemsCard(xs[1..]);
      assert Elems(xs) == Elems(xs[1..]) + {xs[0]};
    }
  }

  lemma SliceDistinct(xs: seq<string>, i: nat, j: nat)
    requires Distinct(xs) && i <= j <= |xs|
    ensures Distinct(xs[i..j]) && Distinct(xs[i..])
  {
  }

  /** Different stretches of a log without repetition share nothing. */
  lemma StretchesDisjoint(xs: seq<string>, i: nat, j: nat)
    requires Distinct(xs) && i <= j <= |xs|
    ensures Elems(xs[..i]) !! Elems(xs[i..j]) && Elems(xs[..i]) !! Elems(xs[j..]) && Elems(xs[i..j]) !! Elems(xs[j..])
    ensures Elems(xs) == Elems(xs[..i]) + Elems(xs[i..j]) + Elems(xs[j..])
  {
    assert xs == xs[..i] + xs[i..j] + xs[j..];
  }

  /** Any listing of a log's live stretch by ascending sequence is that stretch. */
  lemma {:induction false} OrderedIsLog(ids: seq<string>, log: seq<string>, sequence: map<string, nat>)
    requires Ordered(ids, Elems(log), sequence) && Distinct(log)
    requires forall i, j :: 0 <= i < j < |log| ==> sequence[log[i]] < sequence[log[j]]
    ensures ids == log
  {
    assert Elems(ids) == Elems(log);
    ElemsCard(ids);
    ElemsCard(log);
    if ids != [] {
      OrderedTail(ids, log, sequence);
      OrderedIsLog(ids[1..], log[1..], sequence);
      assert ids == [ids[0]] + ids[1..] && log == [log[0]] + log[1..];
    }
  }

  lemma OrderedTail(ids: seq<string>, log: seq<string>, sequence: map<string, nat>)
    requires Ordered(ids, Elems(log), sequence) && Distinct(log) && ids != [] && log != []
    requires forall i, j :: 0 <= i < j < |log| ==> sequence[log[i]] < sequence[log[j]]
    ensures ids[0] == log[0] && Ordered(ids[1..], Elems(log[1..]), sequence)
  {
    assert Elems(ids) == Elems(log);
    assert log[0] in Elems(log) && ids[0] in ids;
    var i :| 0 <= i < |ids| && ids[i] == log[0];
    var j :| 0 <= j < |log| && log[j] == ids[0];
    ElemsHead(ids);
    ElemsHead(log);
    assert forall x :: x in ids[1..] <==> x in Elems(ids[1..]);
  }

  // ---------------------------------------------------------- steps keep the rest

  lemma SequenceKnown(s: State, x: string)
    requires Partition(s)
    ensures x in s.putLog[s.taken..] ==> x in s.durable.items || x in s.durable.intents
    ensures x in s.getLog[s.taken..] ==> x in s.durable.requests
    ensures x in s.putLog[s.taken..] ==> PutSequence(s.durable, x) in Sequences(s.durable)
    ensures x in s.getLog[s.taken..] ==> GetSequence(s.durable, x) in Sequences(s.durable)
  {
    hide Distinct;
    assert s.putLog[s.taken..] == s.putLog[s.taken..s.stored] + s.putLog[s.stored..];
    if x in s.putLog[s.taken..] {
      assert x in Elems(s.putLog[s.taken..s.stored]) || x in Elems(s.putLog[s.stored..]);
    }
    if x in s.getLog[s.taken..] {
      assert x in Elems(s.getLog[s.taken..]);
    }
  }

  /** A put is logged exactly when it is pending, stored or consumed. */
  lemma LoggedPut(s: State, id: string)
    requires Partition(s)
    ensures id in s.putLog <==> id in s.putLog[..s.taken] || id in s.durable.items || id in s.durable.intents
  {
    hide Distinct;
    assert s.putLog == s.putLog[..s.taken] + s.putLog[s.taken..s.stored] + s.putLog[s.stored..];
    assert id in s.durable.items <==> id in Elems(s.putLog[s.taken..s.stored]);
    assert id in s.durable.intents <==> id in Elems(s.putLog[s.stored..]);
  }

  /** A get is logged exactly when it is pending or answered. */
  lemma LoggedGet(s: State, request: string)
    requires Partition(s)
    ensures request in s.getLog <==> request in s.durable.requests || request in s.durable.receipts
  {
    hide Distinct;
    assert s.getLog == s.getLog[..s.taken] + s.getLog[s.taken..];
    assert request in s.durable.receipts <==> request in Elems(s.getLog[..s.taken]);
    assert request in s.durable.requests <==> request in Elems(s.getLog[s.taken..]);
  }

  lemma PutPartition(s: State, id: string, body: Body, at: int, n: nat)
    requires Partition(s) && s.backend.Up? && id !in s.putLog
    ensures Partition(IssuePut(s, id, body, at, n))
  {
    var s' := IssuePut(s, id, body, at, n);
    assert s'.putLog[s.stored..] == s.putLog[s.stored..] + [id];
    assert s'.putLog[s.taken..s.stored] == s.putLog[s.taken..s.stored];
    ElemsAppend(s.putLog[s.stored..], id);
  }

  lemma PutPaired(s: State, id: string, body: Body, at: int, n: nat)
    requires Partition(s) && Paired(s) && s.backend.Up? && id !in s.putLog
    ensures Paired(IssuePut(s, id, body, at, n))
  {
    var s' := IssuePut(s, id, body, at, n);
    forall x | x in s.durable.items ensures ItemAt(s'.bodies, x, s.durable.items[x]) {
      assert x in Elems(s.putLog[s.taken..s.stored]);
      assert x in s.putLog;
    }
    forall x | x in s.durable.intents ensures x in s.putLog {
      assert x in Elems(s.putLog[s.stored..]);
    }
  }

  lemma PutSequenceKept(s: State, id: string, body: Body, at: int, foreign: nat, n: nat, i: nat)
    requires Partition(s) && s.backend.Up? && id !in s.putLog && NextSequence(s.durable, foreign, n)
    requires s.taken <= i < |s.putLog|
    ensures PutSequence(IssuePut(s, id, body, at, n).durable, s.putLog[i]) == PutSequence(s.durable, s.putLog[i]) < n
  {
    hide Partition, Sequences;
    assert s.putLog[s.taken..][i - s.taken] == s.putLog[i];
    SequenceKnown(s, s.putLog[i]);
  }

  lemma PutSequenceNew(s: State, id: string, body: Body, at: int, n: nat)
    requires Partition(s) && s.backend.Up? && id !in s.putLog
    ensures PutSequence(IssuePut(s, id, body, at, n).durable, id) == n
  {
    hide Partition;
    LoggedPut(s, id);
  }

  lemma PutSequenced(s: State, id: string, body: Body, at: int, foreign: nat, n: nat)
    requires Partition(s) && Sequenced(s) && s.backend.Up? && id !in s.putLog && NextSequence(s.durable, foreign, n)
    ensures Sequenced(IssuePut(s, id, body, at, n))
  {
    hide Partition, NextSequence, PutSequence;
    var s' := IssuePut(s, id, body, at, n);
    forall i | s.taken <= i < |s.putLog|
      ensures s'.putLog[i] == s.putLog[i] && PutSequence(s'.durable, s.putLog[i]) == PutSequence(s.durable, s.putLog[i]) < n
    {
      PutSequenceKept(s, id, body, at, foreign, n, i);
    }
    PutSequenceNew(s, id, body, at, n);
  }

  lemma PutKeepsInv(s: State, id: string, body: Body, at: int, foreign: nat, n: nat, cap: Option<nat>)
    requires Inv(s, cap) && s.backend.Up? && id !in s.putLog && NextSequence(s.durable, foreign, n)
    ensures Inv(IssuePut(s, id, body, at, n), cap)
  {
    hide Partition, Paired, Sequenced, NextSequence, Sequences;
    var s' := IssuePut(s, id, body, at, n);
    PutPartition(s, id, body, at, n);
    PutPaired(s, id, body, at, n);
    PutSequenced(s, id, body, at, foreign, n);
    var a: nat, b: nat :| Granted(s, a, b, cap);
    PendingLogsGrow(s.backend.callbacks, s.putLog, s.getLog, s'.putLog, s'.getLog, s.stored, s.taken, a, b, cap);
    assert s'.backend.puts == s'.putLog[a..];
    assert Granted(s', a, b, cap);
  }

  lemma GetPartition(s: State, request: string, at: int, n: nat)
    requires Partition(s) && s.backend.Up? && request !in s.getLog
    ensures Partition(IssueGet(s, request, at, n))
  {
    var s' := IssueGet(s, request, at, n);
    assert s'.getLog[s.taken..] == s.getLog[s.taken..] + [request];
    assert s'.getLog[..s.taken] == s.getLog[..s.taken];
    ElemsAppend(s.getLog[s.taken..], request);
  }

  lemma GetSequenceKept(s: State, request: string, at: int, foreign: nat, n: nat, i: nat)
    requires Partition(s) && s.backend.Up? && request !in s.getLog && NextSequence(s.durable, foreign, n)
    requires s.taken <= i < |s.getLog|
    ensures GetSequence(IssueGet(s, request, at, n).durable, s.getLog[i]) == GetSequence(s.durable, s.getLog[i]) < n
  {
    hide Partition, Sequences;
    assert s.getLog[s.taken..][i - s.taken] == s.getLog[i];
    SequenceKnown(s, s.getLog[i]);
  }

  lemma GetSequenced(s: State, request: string, at: int, foreign: nat, n: nat)
    requires Partition(s) && Sequenced(s) && s.backend.Up? && request !in s.getLog && NextSequence(s.durable, foreign, n)
    ensures Sequenced(IssueGet(s, request, at, n))
  {
    var s' := IssueGet(s, request, at, n);
    assert GetSequence(s'.durable, request) == n;
    hide Partition, NextSequence, GetSequence;
    forall i | s.taken <= i < |s.getLog|
      ensures s'.getLog[i] == s.getLog[i] && GetSequence(s'.durable, s.getLog[i]) == GetSequence(s.durable, s.getLog[i]) < n
    {
      GetSequenceKept(s, request, at, foreign, n, i);
    }
  }

  lemma GetKeepsInv(s: State, request: string, at: int, foreign: nat, n: nat, cap: Option<nat>)
    requires Inv(s, cap) && s.backend.Up? && NextSequence(s.durable, foreign, n)
    requires request !in s.durable.requests && request !in s.durable.receipts
    ensures Inv(IssueGet(s, request, at, n), cap)
  {
    hide Partition, Sequenced, NextSequence, Sequences;
    var s' := IssueGet(s, request, at, n);
    LoggedGet(s, request);
    GetPartition(s, request, at, n);
    GetSequenced(s, request, at, foreign, n);
    var a: nat, b: nat :| Granted(s, a, b, cap);
    PendingLogsGrow(s.backend.callbacks, s.putLog, s.getLog, s'.putLog, s'.getLog, s.stored, s.taken, a, b, cap);
    assert s'.backend.gets == s'.getLog[b..];
    assert Granted(s', a, b, cap);
  }

  /** An id that is nowhere durable was never put, so ensuring it is a fresh put. */
  lemma EnsurePutIsFresh(s: State, id: string)
    requires Partition(s) && Paired(s)
    requires id !in s.durable.items && id !in s.durable.intents && !Consumed(s.durable, id)
    ensures id !in s.putLog
  {
    LoggedPut(s, id);
    forall k | 0 <= k < s.taken ensures s.putLog[k] != id {
      assert s.getLog[k] in s.durable.receipts;
      assert ItemAt(s.bodies, s.putLog[k], s.durable.receipts[s.getLog[k]].item);
    }
  }

  lemma GrantPutKeepsInv(s: State, cap: Option<nat>)
    requires Inv(s, cap) && CanGrantPut(s, cap)
    ensures Inv(AfterGrantPut(s), cap)
  {
    hide Partition, Paired, Sequenced;
    var s' := AfterGrantPut(s);
    assert Paired(s') && Partition(s') && Sequenced(s') by { Unaffected(s, s'); }
    var a: nat, b: nat :| Granted(s, a, b, cap);
    assert s.backend.puts[0] == s.putLog[a];
    PendingAfterPut(s.backend.callbacks, s.putLog, s.getLog, s.stored, s.taken, a, b, cap);
    assert s'.backend.contents == s.putLog[b..a + 1];
    assert s'.backend.puts == s.putLog[a + 1..];
    assert Granted(s', a + 1, b, cap);
  }

  lemma GrantGetKeepsInv(s: State, cap: Option<nat>)
    requires Inv(s, cap) && CanGrantGet(s)
    ensures Inv(AfterGrantGet(s), cap)
  {
    hide Partition, Paired, Sequenced;
    var s' := AfterGrantGet(s);
    assert Paired(s') && Partition(s') && Sequenced(s') by { Unaffected(s, s'); }
    var a: nat, b: nat :| Granted(s, a, b, cap);
    assert s.backend.gets[0] == s.getLog[b] && s.backend.contents[0] == s.putLog[b];
    PendingAfterGet(s.backend.callbacks, s.putLog, s.getLog, s.stored, s.taken, a, b, cap);
    assert s'.backend.contents == s.putLog[b + 1..a];
    assert s'.backend.gets == s.getLog[b + 1..];
    assert Granted(s', a, b + 1, cap);
  }

  /** What the backend does is invisible in the durable records. */
  lemma Unaffected(s: State, s': State)
    requires Partition(s) && Paired(s) && Sequenced(s) && s' == s.(backend := s'.backend)
    ensures Partition(s') && Paired(s') && Sequenced(s')
  {
  }

  // -------------------------------------------------------------------- callbacks

  /** The oldest undelivered put is still a durable intent. */
  lemma NextStored(s: State)
    requires Partition(s) && s.stored < |s.putLog|
    ensures s.putLog[s.stored] in s.durable.intents && s.putLog[s.stored] !in s.durable.items
  {
    var id := s.putLog[s.stored];
    assert s.putLog[s.stored..][0] == id;
    assert id in Elems(s.putLog[s.stored..]);
    StretchesDisjoint(s.putLog, s.taken, s.stored);
  }

  /** Moving the boundary between two stretches of a log moves one element. */
  lemma BoundaryMoves(log: seq<string>, n: nat, m: nat)
    requires Distinct(log) && n <= m < |log|
    ensures Elems(log[m + 1..]) == Elems(log[m..]) - {log[m]}
    ensures Elems(log[n..m + 1]) == Elems(log[n..m]) + {log[m]}
  {
    var rest := log[m..];
    SliceDistinct(log, m, m);
    ElemsHead(rest);
    ElemsAppend(log[n..m], log[m]);
    hide Elems;
    assert rest[1..] == log[m + 1..];
    assert log[n..m + 1] == log[n..m] + [log[m]];
  }

  lemma StoredPartition(s: State)
    requires Partition(s) && s.stored < |s.putLog|
    ensures Partition(s.(durable := CommitPut(s.durable, s.putLog[s.stored]), stored := s.stored + 1))
  {
    hide Elems, Distinct;
    NextStored(s);
    BoundaryMoves(s.putLog, s.taken, s.stored);
  }

  lemma StoredPaired(s: State)
    requires Partition(s) && Paired(s) && s.stored < |s.putLog|
    ensures Paired(s.(durable := CommitPut(s.durable, s.putLog[s.stored]), stored := s.stored + 1))
  {
    NextStored(s);
    hide Partition, ItemAt;
  }

  lemma StoredKeepsNumbers(s: State, x: string)
    requires Partition(s) && s.stored < |s.putLog|
    ensures PutSequence(CommitPut(s.durable, s.putLog[s.stored]), x) == PutSequence(s.durable, x)
    ensures GetSequence(CommitPut(s.durable, s.putLog[s.stored]), x) == GetSequence(s.durable, x)
  {
    NextStored(s);
    hide Partition;
  }

  lemma StoredSequenced(s: State)
    requires Partition(s) && Sequenced(s) && s.stored < |s.putLog|
    ensures Sequenced(s.(durable := CommitPut(s.durable, s.putLog[s.stored]), stored := s.stored + 1))
  {
    hide Partition, PutSequence, GetSequence, CommitPut;
    var d' := CommitPut(s.durable, s.putLog[s.stored]);
    forall x ensures PutSequence(d', x) == PutSequence(s.durable, x) && GetSequence(d', x) == GetSequence(s.durable, x) {
      StoredKeepsNumbers(s, x);
    }
  }

  /** The oldest undelivered selection finds its request pending and its item
      committed: the commit cannot raise. */
  lemma NextReceived(s: State)
    requires Partition(s) && s.taken < s.stored && s.taken < |s.getLog|
    ensures s.getLog[s.taken] in s.durable.requests && s.getLog[s.taken] !in s.durable.receipts
    ensures s.putLog[s.taken] in s.durable.items && s.putLog[s.taken] !in s.durable.intents
  {
    assert s.getLog[s.taken..][0] == s.getLog[s.taken];
    assert s.getLog[s.taken] in Elems(s.getLog[s.taken..]);
    StretchesDisjoint(s.getLog, s.taken, s.taken);
    assert s.putLog[s.taken..s.stored][0] == s.putLog[s.taken];
    assert s.putLog[s.taken] in Elems(s.putLog[s.taken..s.stored]);
    StretchesDisjoint(s.putLog, s.taken, s.stored);
  }

  ghost predicate Takes(s: State, at: int, s': State) {
    && s.taken < s.stored && s.taken < |s.getLog| && s.stored <= |s.putLog|
    && CommitGet(s.durable, s.getLog[s.taken], s.putLog[s.taken], at).Ok?
    && s' == s.(durable := CommitGet(s.durable, s.getLog[s.taken], s.putLog[s.taken], at).value, taken := s.taken + 1)
  }

  lemma TakenPartition(s: State, at: int, s': State)
    requires Partition(s) && Takes(s, at, s')
    ensures Partition(s')
  {
    NextReceived(s);
    var id, r := s.putLog[s.taken], s.getLog[s.taken];
    var live, waiting := s.putLog[s.taken..s.stored], s.getLog[s.taken..];
    SliceDistinct(s.putLog, s.taken, s.stored);
    SliceDistinct(s.getLog, s.taken, s.taken);
    ElemsHead(live);
    assert live[1..] == s.putLog[s.taken + 1..s.stored];
    ElemsHead(waiting);
    assert waiting[1..] == s.getLog[s.taken + 1..];
    ElemsAppend(s.getLog[..s.taken], r);
    assert s.getLog[..s.taken + 1] == s.getLog[..s.taken] + [r];
  }

  lemma TakenPaired(s: State, at: int, s': State)
    requires Partition(s) && Paired(s) && Takes(s, at, s')
    ensures Paired(s')
  {
    NextReceived(s);
    EarlierReceiptsKept(s);
    hide Partition, ItemAt;
    var id, r := s.putLog[s.taken], s.getLog[s.taken];
    assert s'.durable.receipts[r].item == s.durable.items[id];
  }

  /** The request answered next is none of those answered before. */
  lemma EarlierReceiptsKept(s: State)
    requires Partition(s) && s.taken < |s.getLog|
    ensures forall k :: 0 <= k < s.taken ==> s.getLog[k] != s.getLog[s.taken]
  {
  }

  lemma TakenKeepsNumbers(s: State, at: int, s': State, x: string)
    requires Partition(s) && Takes(s, at, s')
    ensures x != s.putLog[s.taken] ==> PutSequence(s'.durable, x) == PutSequence(s.durable, x)
    ensures x != s.getLog[s.taken] ==> GetSequence(s'.durable, x) == GetSequence(s.durable, x)
  {
    NextReceived(s);
    hide Partition;
  }

  lemma TakenSequenced(s: State, at: int, s': State)
    requires Partition(s) && Sequenced(s) && Takes(s, at, s')
    ensures Sequenced(s')
  {
    assert Distinct(s.putLog) && Distinct(s.getLog) && s'.putLog == s.putLog && s'.getLog == s.getLog && s'.taken == s.taken + 1;
    forall i | s'.taken <= i < |s.putLog| ensures PutSequence(s'.durable, s.putLog[i]) == PutSequence(s.durable, s.putLog[i]) {
      TakenKeepsNumbers(s, at, s', s.putLog[i]);
    }
    forall i | s'.taken <= i < |s.getLog| ensures GetSequence(s'.durable, s.getLog[i]) == GetSequence(s.durable, s.getLog[i]) {
      TakenKeepsNumbers(s, at, s', s.getLog[i]);
    }
    hide Partition, Takes, PutSequence, GetSequence;
  }

  /** Delivering a callback always succeeds and keeps the invariant. */
  lemma FireKeepsInv(s: State, at: int, cap: Option<nat>)
    requires Inv(s, cap) && s.backend.Up? && s.backend.callbacks != []
    ensures Delivered(s, at).Ok? && Inv(Delivered(s, at).value, cap)
  {
    hide Partition, Paired, Sequenced;
    var a: nat, b: nat :| Granted(s, a, b, cap);
    match s.backend.callbacks[0]
    case Stored(id) =>
      NextStored(s);
      StoredPartition(s);
      StoredPaired(s);
      StoredSequenced(s);
      var t := s.(durable := CommitPut(s.durable, id), stored := s.stored + 1);
      var s' := Delivered(s, at).value;
      assert id in s'.durable.items;
      assert s' == t.(backend := s'.backend);
      Unaffected(t, s');
      assert Granted(s', a, b, cap);
    case Received(r, id) =>
      NextReceived(s);
      var d := CommitGet(s.durable, r, id, at).value;
      var t := s.(durable := d, taken := s.taken + 1);
      TakenPartition(s, at, t);
      TakenPaired(s, at, t);
      TakenSequenced(s, at, t);
      var s' := Delivered(s, at).value;
      assert r in d.receipts;
      assert s' == t.(backend := s'.backend);
      Unaffected(t, s');
      assert Granted(s', a, b, cap);
  }

  // ------------------------------------------------------------- crash and rebuild

  /** The durable items never outnumber the capacity, so a rebuild is accepted. */
  lemma ItemsFit(s: State, cap: Option<nat>)
    requires Inv(s, cap)
    ensures |s.durable.items| == s.stored - s.taken && Fits(cap, |s.durable.items|)
  {
    SliceDistinct(s.putLog, s.taken, s.stored);
    ElemsCard(s.putLog[s.taken..s.stored]);
    assert |s.durable.items| == |s.durable.items.Keys|;
  }

  /** Sorting by sequence number recovers the issue order. */
  lemma RestoredInOrder(s: State, b: Backend)
    requires Partition(s) && Sequenced(s) && Restored(s.durable, b)
    ensures b.contents == s.putLog[s.taken..s.stored]
    ensures b.puts == s.putLog[s.stored..]
    ensures b.gets == s.getLog[s.taken..]
  {
    NextStoredOnly(s);
    SliceDistinct(s.putLog, s.taken, s.stored);
    SliceDistinct(s.putLog, s.stored, s.stored);
    SliceDistinct(s.getLog, s.taken, s.taken);
    ContentsRestored(s, b);
    PutsRestored(s, b);
    GetsRestored(s, b);
  }

  lemma NextStoredOnly(s: State)
    requires Partition(s)
    ensures s.durable.items.Keys !! s.durable.intents.Keys
  {
    StretchesDisjoint(s.putLog, s.taken, s.stored);
  }

  lemma ContentsRestored(s: State, b: Backend)
    requires Partition(s) && Sequenced(s) && Restored(s.durable, b) && Distinct(s.putLog[s.taken..s.stored])
    ensures b.contents == s.putLog[s.taken..s.stored]
  {
    hide Ordered, Distinct;
    var log := s.putLog[s.taken..s.stored];
    forall i | 0 <= i < |log| ensures log[i] in s.durable.items && log[i] == s.putLog[s.taken + i] {
      assert log[i] in Elems(log);
    }
    OrderedIsLog(b.contents, log, ItemOrder(s.durable));
  }

  lemma PutsRestored(s: State, b: Backend)
    requires Partition(s) && Sequenced(s) && Restored(s.durable, b) && Distinct(s.putLog[s.stored..])
    requires s.durable.items.Keys !! s.durable.intents.Keys
    ensures b.puts == s.putLog[s.stored..]
  {
    hide Ordered, Distinct;
    var log := s.putLog[s.stored..];
    forall i | 0 <= i < |log| ensures log[i] in s.durable.intents && log[i] !in s.durable.items && log[i] == s.putLog[s.stored + i] {
      assert log[i] in Elems(log);
    }
    OrderedIsLog(b.puts, log, IntentOrder(s.durable));
  }

  lemma GetsRestored(s: State, b: Backend)
    requires Partition(s) && Sequenced(s) && Restored(s.durable, b) && Distinct(s.getLog[s.taken..])
    ensures b.gets == s.getLog[s.taken..]
  {
    hide Ordered, Distinct;
    var log := s.getLog[s.taken..];
    forall i | 0 <= i < |log| ensures log[i] in s.durable.requests && log[i] == s.getLog[s.taken + i] {
      assert log[i] in Elems(log);
    }
    OrderedIsLog(b.gets, log, RequestOrder(s.durable));
  }

  lemma RebuildKeepsInv(s: State, s': State, cap: Option<nat>)
    requires Inv(s, cap) && Restored(s.durable, s'.backend) && s' == s.(backend := s'.backend)
    ensures Inv(s', cap)
  {
    hide Restored, Paired;
    RestoredInOrder(s, s'.backend);
    assert s'.backend.Up? && s'.backend.callbacks == [] by { assert Restored(s.durable, s'.backend); RestoredIsUp(s.durable, s'.backend); }
    assert Granted(s', s.stored, s.taken, cap);
    PairedUnaffected(s, s');
  }

  lemma RestoredIsUp(d: Durable, b: Backend)
    requires Restored(d, b)
    ensures b.Up? && b.callbacks == []
  {
  }

  lemma PairedUnaffected(s: State, s': State)
    requires Paired(s) && s' == s.(backend := s'.backend)
    ensures Paired(s')
  {
  }

  // --------------------------------------------------------------- every run

  lemma NextKeepsInv(s: State, op: Op, s': State, cap: Option<nat>)
    requires Inv(s, cap) && Next(s, op, s', cap)
    ensures Inv(s', cap)
  {
    hide Inv, Partition, Paired, Sequenced, NextSequence, Restored, Consumed;
    match op
    case DoPut(id, body, at, foreign) =>
      if s' != s {
        var n: nat :| NextSequence(s.durable, foreign, n) && s' == IssuePut(s, id, body, at, n);
        PutKeepsInv(s, id, body, at, foreign, n, cap);
      }
    case DoEnsurePut(id, body, at, foreign) =>
      if s' != s {
        var n: nat :| NextSequence(s.durable, foreign, n) && s' == IssuePut(s, id, body, at, n);
        EnsurePutKeepsInv(s, id, body, at, foreign, n, cap);
      }
    case DoGet(request, at, foreign) =>
      if s' != s {
        var n: nat :| NextSequence(s.durable, foreign, n) && s' == IssueGet(s, request, at, n);
        GetKeepsInv(s, request, at, foreign, n, cap);
      }
    case GrantPut => GrantPutKeepsInv(s, cap);
    case GrantGet => GrantGetKeepsInv(s, cap);
    case Fire(at) => FireKeepsInv(s, at, cap);
    case Crash => CrashKeepsInv(s, cap);
    case Rebuild => if s' != s { RebuildKeepsInv(s, s', cap); }
  }

  lemma EnsurePutKeepsInv(s: State, id: string, body: Body, at: int, foreign: nat, n: nat, cap: Option<nat>)
    requires Inv(s, cap) && s.backend.Up? && NextSequence(s.durable, foreign, n)
    requires id !in s.durable.items && id !in s.durable.intents && !Consumed(s.durable, id)
    ensures Inv(IssuePut(s, id, body, at, n), cap)
  {
    hide Partition, Paired, Sequenced, NextSequence, Consumed;
    EnsurePutIsFresh(s, id);
    PutKeepsInv(s, id, body, at, foreign, n, cap);
  }

  lemma CrashKeepsInv(s: State, cap: Option<nat>)
    requires Inv(s, cap)
    ensures Inv(s.(backend := Down), cap)
  {
    hide Partition, Paired, Sequenced;
    Unaffected(s, s.(backend := Down));
  }

  /** The invariant holds at every point of every run. */
  lemma {:induction false} ReachableInv(states: seq<State>, ops: seq<Op>, cap: Option<nat>, i: nat)
    requires Run(states, ops, cap) && i < |states|
    ensures Inv(states[i], cap)
  {
    if i == 0 {
    } else {
      ReachableInv(states, ops, cap, i - 1);
      hide Inv, Next;
      assert Next(states[i - 1], ops[i - 1], states[i], cap);
      NextKeepsInv(states[i - 1], ops[i - 1], states[i], cap);
    }
  }

  // ---------------------------------------------------------------- the guarantees

  /** The k-th get ever issued can only ever receive the k-th item ever put,
      with the value and priority it was put with. */
  lemma FifoPairing(states: seq<State>, ops: seq<Op>, cap: Option<nat>, i: nat, k: nat)
    requires Run(states, ops, cap) && i < |states|
    requires k < |states[i].getLog| && states[i].getLog[k] in states[i].durable.receipts
    ensures var s := states[i];
            && k < |s.putLog|
            && ItemAt(s.bodies, s.putLog[k], s.durable.receipts[s.getLog[k]].item)
  {
    ReachableInv(states, ops, cap, i);
    hide Run, Sequenced, Pending, Granted;
    var s := states[i];
    assert s.getLog[k] in Elems(s.getLog[..s.taken]);
    var j :| 0 <= j < s.taken && s.getLog[..s.taken][j] == s.getLog[k];
    assert j == k;
  }

  /** The item is in exactly one of intent, stored or consumed. */
  ghost predicate ExactlyOnce(d: Durable, id: string) {
    || (id in d.intents && id !in d.items && !Consumed(d, id))
    || (id !in d.intents && id in d.items && !Consumed(d, id))
    || (id !in d.intents && id !in d.items && ConsumedOnce(d, id))
  }

  ghost predicate ConsumedOnce(d: Durable, id: string) {
    && Consumed(d, id)
    && forall q, r :: q in d.receipts && r in d.receipts && d.receipts[q].item.id == id && d.receipts[r].item.id == id ==> q == r
  }

  /** A receipt's place in the get log is its item's place in the put log. */
  lemma ReceiptPosition(s: State, r: string) returns (k: nat)
    requires Partition(s) && Paired(s) && r in s.durable.receipts
    ensures k < s.taken && s.getLog[k] == r && s.putLog[k] == s.durable.receipts[r].item.id
  {
    hide Distinct;
    assert r in Elems(s.getLog[..s.taken]);
    k :| 0 <= k < s.taken && s.getLog[..s.taken][k] == r;
    assert ItemAt(s.bodies, s.putLog[k], s.durable.receipts[s.getLog[k]].item);
  }

  /** Which receipt consumed an item follows from its position in the log. */
  lemma ConsumedByPosition(s: State, id: string)
    requires Partition(s) && Paired(s)
    ensures Consumed(s.durable, id) <==> id in s.putLog[..s.taken]
    ensures Consumed(s.durable, id) ==> ConsumedOnce(s.durable, id)
  {
    if Consumed(s.durable, id) {
      ConsumedByOne(s, id);
      var r :| r in s.durable.receipts && s.durable.receipts[r].item.id == id;
      var k := ReceiptPosition(s, r);
      assert s.putLog[..s.taken][k] == id;
    }
    hide Partition, Elems;
    if id in s.putLog[..s.taken] {
      var k :| 0 <= k < s.taken && s.putLog[..s.taken][k] == id;
      assert ItemAt(s.bodies, s.putLog[k], s.durable.receipts[s.getLog[k]].item);
    }
  }

  lemma ConsumedByOne(s: State, id: string)
    requires Partition(s) && Paired(s) && Consumed(s.durable, id)
    ensures ConsumedOnce(s.durable, id)
  {
    hide Paired, Elems;
    forall q, r | q in s.durable.receipts && r in s.durable.receipts
                  && s.durable.receipts[q].item.id == id && s.durable.receipts[r].item.id == id
      ensures q == r
    {
      var i := ReceiptPosition(s, q);
      var j := ReceiptPosition(s, r);
      assert s.putLog[i] == s.putLog[j];
    }
  }

  /** Every item ever put is in exactly one place, every other in none. */
  lemma InOnePlace(s: State, cap: Option<nat>, id: string)
    requires Inv(s, cap)
    ensures id in s.putLog ==> ExactlyOnce(s.durable, id)
    ensures id !in s.putLog ==> id !in s.durable.intents && id !in s.durable.items && !Consumed(s.durable, id)
  {
    hide Sequenced, Paired;
    LoggedPut(s, id);
    ConsumedByPosition(s, id);
    StretchesDisjoint(s.putLog, s.taken, s.stored);
    assert id in s.putLog[..s.taken] <==> id in Elems(s.putLog[..s.taken]);
  }

  /** At every point of every run. */
  lemma ItemInOnePlace(states: seq<State>, ops: seq<Op>, cap: Option<nat>, i: nat, id: string)
    requires Run(states, ops, cap) && i < |states|
    ensures id in states[i].putLog ==> ExactlyOnce(states[i].durable, id)
    ensures var d := states[i].durable;
            id !in states[i].putLog ==> id !in d.intents && id !in d.items && !Consumed(d, id)
  {
    ReachableInv(states, ops, cap, i);
    hide Run, Inv;
    hide ExactlyOnce, Consumed;
    InOnePlace(states[i], cap, id);
  }

  /** At every point of every run the oldest callback can be committed. */
  lemma CommitNeverRaises(states: seq<State>, ops: seq<Op>, cap: Option<nat>, i: nat, at: int)
    requires Run(states, ops, cap) && i < |states| && states[i].backend.Up? && states[i].backend.callbacks != []
    ensures Delivered(states[i], at).Ok?
  {
    ReachableInv(states, ops, cap, i);
    hide Run, Inv, Delivered;
    FireKeepsInv(states[i], at, cap);
  }

  /** Where the plain put's own check is blind: a consumed id passes it. The id
      stays in one place exactly when it was never put before. */
  lemma PlainPutNeedsFreshIds(s: State, cap: Option<nat>, id: string, body: Body, at: int, n: nat)
    requires Inv(s, cap) && s.backend.Up? && id !in s.durable.items && id !in s.durable.intents
    ensures ExactlyOnce(IssuePut(s, id, body, at, n).durable, id) <==> id !in s.putLog
  {
    InOnePlace(s, cap, id);
    hide Partition, Paired, Sequenced, Granted;
    var d := IssuePut(s, id, body, at, n).durable;
    assert d.receipts == s.durable.receipts;
    assert Consumed(d, id) <==> Consumed(s.durable, id);
  }

  /** Nothing left for the backend to do. */
  predicate Quiescent(s: State, cap: Option<nat>) {
    s.backend.Up? && s.backend.callbacks == [] && !CanGrantPut(s, cap) && !CanGrantGet(s)
  }

  function Min(x: int, y: int): int { if x <= y then x else y }

  /** Where the run comes to rest depends on the issue history alone. */
  lemma QuiescentCounts(s: State, cap: Option<nat>)
    requires Inv(s, cap) && Quiescent(s, cap) && (cap.Some? ==> cap.value > 0)
    ensures s.taken == Min(|s.putLog|, |s.getLog|)
    ensures s.stored == if cap.Some? then Min(|s.putLog|, s.taken + cap.value) else |s.putLog|
  {
    hide Partition, Paired, Sequenced;
    var a: nat, b: nat :| Granted(s, a, b, cap);
    assert a == s.stored && b == s.taken;
    assert |s.backend.contents| == a - b && |s.backend.puts| == |s.putLog| - a && |s.backend.gets| == |s.getLog| - b;
  }

  /** However crashes, rebuilds and callbacks fell in two runs with one issue
      history, at rest their durable records agree. */
  lemma SameAtRest(s: State, t: State, cap: Option<nat>)
    requires Inv(s, cap) && Inv(t, cap) && Quiescent(s, cap) && Quiescent(t, cap) && (cap.Some? ==> cap.value > 0)
    requires s.putLog == t.putLog && s.getLog == t.getLog && s.bodies == t.bodies
    ensures s.durable.items.Keys == t.durable.items.Keys && s.durable.intents.Keys == t.durable.intents.Keys
    ensures s.durable.requests.Keys == t.durable.requests.Keys && s.durable.receipts.Keys == t.durable.receipts.Keys
    ensures forall r :: r in s.durable.receipts ==>
              var x, y := s.durable.receipts[r].item, t.durable.receipts[r].item;
              x.id == y.id && x.value == y.value && x.priority == y.priority
  {
    hide Sequenced, Partition, Paired, Granted;
    QuiescentCounts(s, cap);
    QuiescentCounts(t, cap);
    SameKeys(s, t);
    forall r | r in s.durable.receipts
      ensures var x, y := s.durable.receipts[r].item, t.durable.receipts[r].item;
              x.id == y.id && x.value == y.value && x.priority == y.priority
    {
      SameReceipt(s, t, r);
    }
  }

  /** Two runs with one issue history, with whatever crashes, rebuilds and callback
      timing in between: at rest their durable records agree. */
  lemma RestartEquivalence(states: seq<State>, ops: seq<Op>, i: nat, states': seq<State>, ops': seq<Op>, i': nat, cap: Option<nat>)
    requires Run(states, ops, cap) && i < |states| && Run(states', ops', cap) && i' < |states'|
    requires Quiescent(states[i], cap) && Quiescent(states'[i'], cap) && (cap.Some? ==> cap.value > 0)
    requires states[i].putLog == states'[i'].putLog && states[i].getLog == states'[i'].getLog && states[i].bodies == states'[i'].bodies
    ensures var d, d' := states[i].durable, states'[i'].durable;
            && d.items.Keys == d'.items.Keys && d.intents.Keys == d'.intents.Keys
            && d.requests.Keys == d'.requests.Keys && d.receipts.Keys == d'.receipts.Keys
            && forall r :: r in d.receipts ==>
                 && d.receipts[r].item.id == d'.receipts[r].item.id
                 && d.receipts[r].item.value == d'.receipts[r].item.value
                 && d.receipts[r].item.priority == d'.receipts[r].item.priority
  {
    ReachableInv(states, ops, cap, i);
    ReachableInv(states', ops', cap, i');
    hide Run, Inv, Quiescent;
    SameAtRest(states[i], states'[i'], cap);
  }

  lemma SameKeys(s: State, t: State)
    requires Partition(s) && Partition(t) && s.putLog == t.putLog && s.getLog == t.getLog
    requires s.stored == t.stored && s.taken == t.taken
    ensures s.durable.items.Keys == t.durable.items.Keys && s.durable.intents.Keys == t.durable.intents.Keys
    ensures s.durable.requests.Keys == t.durable.requests.Keys && s.durable.receipts.Keys == t.durable.receipts.Keys
  {
    hide Distinct;
  }

  lemma SameReceipt(s: State, t: State, r: string)
    requires Partition(s) && Paired(s) && Paired(t) && r in s.durable.receipts
    requires s.taken == t.taken && s.putLog == t.putLog && s.getLog == t.getLog && s.bodies == t.bodies
    ensures r in t.durable.receipts
    ensures var x, y := s.durable.receipts[r].item, t.durable.receipts[r].item;
            x.id == y.id && x.value == y.value && x.priority == y.priority
  {
    hide Distinct;
    assert r in Elems(s.getLog[..s.taken]);
    var k :| 0 <= k < s.taken && s.getLog[..s.taken][k] == r;
    assert ItemAt(s.bodies, s.putLog[k], s.durable.receipts[s.getLog[k]].item);
    assert ItemAt(t.bodies, t.putLog[k], t.durable.receipts[t.getLog[k]].item);
  }

  /** A rebuild is always accepted, and hands out what was still in store in its
      original order. */
  lemma RebuildAlwaysWorks(states: seq<State>, ops: seq<Op>, cap: Option<nat>, i: nat)
    requires Run(states, ops, cap) && i < |ops| && ops[i] == Rebuild
    ensures var s, s' := states[i], states[i + 1];
            && Fits(cap, |s.durable.items|)
            && s.taken <= s.stored <= |s.putLog| && s.taken <= |s.getLog|
            && s'.backend == Up(s.putLog[s.taken..s.stored], s.putLog[s.stored..], s.getLog[s.taken..], [])
  {
    ReachableInv(states, ops, cap, i);
    assert Next(states[i], ops[i], states[i + 1], cap);
    hide Run;
    ItemsFit(states[i], cap);
    RestoredInOrder(states[i], states[i + 1].backend);
    RestoredIsUp(states[i].durable, states[i + 1].backend);
  }

  // ------------------------------------------------------ when a number is fresh

  /** Numbers inside the items that receipts carry: nobody looks at them. */
  function ReceiptNumbers(d: Durable): set<nat> {
    set r | r in d.receipts :: d.receipts[r].item.sequence
  }

  function AllNumbers(d: Durable): set<nat> {
    Sequences(d) + ReceiptNumbers(d)
  }

  /** Numbers of the puts and gets that one step issued. */
  function NewNumbers(d: Durable, d': Durable): set<nat> {
    (set id | id in d'.intents && id !in d.intents :: d'.intents[id].sequence) +
    (set r | r in d'.requests && r !in d.requests :: d'.requests[r].sequence)
  }

  /** Every number issued by the first i steps. */
  function EverIssued(states: seq<State>, i: nat): set<nat>
    requires i < |states|
  {
    if i == 0 then {} else EverIssued(states, i - 1) + NewNumbers(states[i - 1].durable, states[i].durable)
  }

  lemma PutNumbers(d: Durable, intent: PutIntent)
    requires intent.id !in d.intents
    ensures var d' := d.(intents := d.intents[intent.id := intent]);
            NewNumbers(d, d') == {intent.sequence} && AllNumbers(d') == AllNumbers(d) + {intent.sequence}
  {
    var d' := d.(intents := d.intents[intent.id := intent]);
    assert intent.id in d'.intents;
    forall id | id in d.intents ensures d'.intents[id] == d.intents[id] { }
    assert (set id | id in d'.intents :: d'.intents[id].sequence) == (set id | id in d.intents :: d.intents[id].sequence) + {intent.sequence};
  }

  lemma GetNumbers(d: Durable, request: GetRequest)
    requires request.id !in d.requests
    ensures var d' := d.(requests := d.requests[request.id := request]);
            NewNumbers(d, d') == {request.sequence} && AllNumbers(d') == AllNumbers(d) + {request.sequence}
  {
    var d' := d.(requests := d.requests[request.id := request]);
    assert request.id in d'.requests;
    forall r | r in d.requests ensures d'.requests[r] == d.requests[r] { }
    assert (set r | r in d'.requests :: d'.requests[r].sequence) == (set r | r in d.requests :: d.requests[r].sequence) + {request.sequence};
  }

  /** A committed put hands its number from the intent to the item. */
  lemma StoredNumbers(d: Durable, id: string)
    requires d.items.Keys !! d.intents.Keys
    ensures NewNumbers(d, CommitPut(d, id)) == {} && AllNumbers(CommitPut(d, id)) == AllNumbers(d)
  {
    var d' := CommitPut(d, id);
    if d' != d {
      var n := d.intents[id].sequence;
      assert id in d'.items && d'.items[id].sequence == n;
      assert forall x :: x in d.items ==> x in d'.items && d'.items[x] == d.items[x];
      assert (set x | x in d'.items :: d'.items[x].sequence) == (set x | x in d.items :: d.items[x].sequence) + {n};
      assert forall x :: x in d.intents && x != id ==> x in d'.intents;
      assert (set x | x in d.intents :: d.intents[x].sequence) == (set x | x in d'.intents :: d'.intents[x].sequence) + {n};
    }
  }

  /** A committed get hands the item's number, and its own, to the receipt. */
  lemma TakenNumbers(d: Durable, request: string, id: string, at: int)
    requires d.items.Keys !! d.intents.Keys && CommitGet(d, request, id, at).Ok?
    ensures var d' := CommitGet(d, request, id, at).value;
            NewNumbers(d, d') == {} && AllNumbers(d') == AllNumbers(d)
  {
    var d' := CommitGet(d, request, id, at).value;
    if request !in d.receipts {
      forall x ensures x in AllNumbers(d') <==> x in AllNumbers(d) {
        if x in AllNumbers(d) {
          NumberKept(d, request, id, at, x);
        }
        if x in AllNumbers(d') {
          NoNumberAppears(d, request, id, at, x);
        }
      }
    }
    hide AllNumbers;
  }

  lemma NumberKept(d: Durable, request: string, id: string, at: int, x: nat)
    requires d.items.Keys !! d.intents.Keys && CommitGet(d, request, id, at).Ok? && request !in d.receipts && x in AllNumbers(d)
    ensures x in AllNumbers(CommitGet(d, request, id, at).value)
  {
    var d' := CommitGet(d, request, id, at).value;
    assert request in d'.receipts;
    if k :| k in d.items && d.items[k].sequence == x {
      assert k == id || k in d'.items;
    } else if k :| k in d.intents && d.intents[k].sequence == x {
      assert k == id || k in d'.intents;
    } else if r :| r in d.requests && d.requests[r].sequence == x {
      assert r == request || r in d'.requests;
    } else if r :| r in d.receipts && d.receipts[r].sequence == x {
      assert r in d'.receipts && d'.receipts[r] == d.receipts[r];
    } else {
      var r :| r in d.receipts && d.receipts[r].item.sequence == x;
      assert r in d'.receipts && d'.receipts[r] == d.receipts[r];
    }
  }

  lemma NoNumberAppears(d: Durable, request: string, id: string, at: int, x: nat)
    requires CommitGet(d, request, id, at).Ok? && request !in d.receipts && x in AllNumbers(CommitGet(d, request, id, at).value)
    ensures x in AllNumbers(d)
  {
    var d' := CommitGet(d, request, id, at).value;
    if k :| k in d'.items && d'.items[k].sequence == x {
      assert k in d.items;
    } else if k :| k in d'.intents && d'.intents[k].sequence == x {
      assert k in d.intents;
    } else if r :| r in d'.requests && d'.requests[r].sequence == x {
      assert r in d.requests;
    } else if r :| r in d'.receipts && d'.receipts[r].sequence == x {
      assert r in d.receipts || r in d.requests;
    } else {
      var r :| r in d'.receipts && d'.receipts[r].item.sequence == x;
      assert r in d.receipts || (id in d.items && x == d.items[id].sequence) || (id in d.intents && x == d.intents[id].sequence);
    }
  }

  lemma OnePlaceEach(s: State)
    requires Partition(s)
    ensures s.durable.items.Keys !! s.durable.intents.Keys
  {
    StretchesDisjoint(s.putLog, s.taken, s.stored);
  }

  /** No step loses a number from the records. */
  lemma StepNumbers(s: State, op: Op, s': State, cap: Option<nat>)
    requires Inv(s, cap) && Next(s, op, s', cap)
    ensures AllNumbers(s'.durable) == AllNumbers(s.durable) + NewNumbers(s.durable, s'.durable)
  {
    OnePlaceEach(s);
    hide Inv, Partition, NextSequence, Restored, Consumed, AllNumbers, NewNumbers, CommitPut, CommitGet, AfterGrantPut, AfterGrantGet;
    NothingNew(s.durable);
    match op
    case DoPut(id, body, at, foreign) =>
      if s' != s {
        var n: nat :| NextSequence(s.durable, foreign, n) && s' == IssuePut(s, id, body, at, n);
        PutNumbers(s.durable, PutIntent(id, body.value, body.priority, at, n));
      }
    case DoEnsurePut(id, body, at, foreign) =>
      if s' != s {
        var n: nat :| NextSequence(s.durable, foreign, n) && s' == IssuePut(s, id, body, at, n);
        PutNumbers(s.durable, PutIntent(id, body.value, body.priority, at, n));
      }
    case DoGet(request, at, foreign) =>
      if s' != s {
        var n: nat :| NextSequence(s.durable, foreign, n) && s' == IssueGet(s, request, at, n);
        GetNumbers(s.durable, GetRequest(request, at, n));
      }
    case Fire(at) =>
      match s.backend.callbacks[0] {
        case Stored(id) => StoredNumbers(s.durable, id);
        case Received(request, id) => TakenNumbers(s.durable, request, id, at);
      }
    case _ => SameRecords(s, op, s', cap);
  }

  lemma SameRecords(s: State, op: Op, s': State, cap: Option<nat>)
    requires Next(s, op, s', cap) && op in {GrantPut, GrantGet, Crash, Rebuild}
    ensures s'.durable == s.durable
  {
    hide NextSequence, Restored, Delivered;
  }

  lemma NothingNew(d: Durable)
    ensures NewNumbers(d, d) == {}
  {
  }

  lemma NoNumbers()
    ensures AllNumbers(Empty.durable) == {}
  {
  }

  /** At every point of every run, the numbers ever issued are those in the
      records, the items inside receipts included. */
  lemma {:induction false} IssuedNumbers(states: seq<State>, ops: seq<Op>, cap: Option<nat>, i: nat)
    requires Run(states, ops, cap) && i < |states|
    ensures EverIssued(states, i) == AllNumbers(states[i].durable)
  {
    hide Inv, Next, NewNumbers, AllNumbers;
    if i == 0 {
      NoNumbers();
    } else {
      IssuedNumbers(states, ops, cap, i - 1);
      ReachableInv(states, ops, cap, i - 1);
      assert Next(states[i - 1], ops[i - 1], states[i], cap);
      hide Run;
      StepNumbers(states[i - 1], ops[i - 1], states[i], cap);
    }
  }

  /** At every point of every run, the next number lies above every number ever
      issued if and only if no receipt's item carries one that is not below it. */
  lemma NumberIsFresh(states: seq<State>, ops: seq<Op>, cap: Option<nat>, i: nat, foreign: nat, n: nat)
    requires Run(states, ops, cap) && i < |states| && NextSequence(states[i].durable, foreign, n)
    ensures (forall x :: x in EverIssued(states, i) ==> x < n)
            <==> forall r :: r in states[i].durable.receipts ==> states[i].durable.receipts[r].item.sequence < n
  {
    IssuedNumbers(states, ops, cap, i);
    hide Run, Sequences;
    forall r | r in states[i].durable.receipts ensures states[i].durable.receipts[r].item.sequence in EverIssued(states, i) { }
  }

  /** One store of a family that draws its numbers from one counter: a run of its
      own, and the point it has reached while the others went on. */
  datatype Member = Member(states: seq<State>, ops: seq<Op>, cap: Option<nat>, at: nat)
  {
    ghost predicate Reached() {
      Run(states, ops, cap) && at < |states|
    }

    function Records(): Durable {
      if at < |states| then states[at].durable else Empty.durable
    }

    function Issued(): set<nat> {
      if at < |states| then EverIssued(states, at) else {}
    }
  }

  /** The number is above everything this member ever issued exactly when it is
      above what the counter reads and what its receipts' items carry. */
  lemma AboveMember(m: Member, n: nat)
    requires m.Reached() && forall x :: x in Sequences(m.Records()) ==> x < n
    ensures (forall x :: x in m.Issued() ==> x < n)
            <==> forall r :: r in m.Records().receipts ==> m.Records().receipts[r].item.sequence < n
  {
    IssuedNumbers(m.states, m.ops, m.cap, m.at);
    hide Run, Sequences;
    var d := m.Records();
    forall r | r in d.receipts ensures d.receipts[r].item.sequence in m.Issued() { }
  }

  /** However the runs of a family of stores interleave: the next number of any of
      them is above every number any of them ever issued if and only if no
      receipt's item in the family carries one that is not below it. */
  lemma NumberIsFreshInFamily(family: seq<Member>, a: nat, foreign: nat, n: nat)
    requires a < |family| && forall j :: 0 <= j < |family| ==> family[j].Reached()
    requires forall j, x :: 0 <= j < |family| && j != a && x in Sequences(family[j].Records()) ==> x <= foreign
    requires NextSequence(family[a].Records(), foreign, n)
    ensures (forall j, x :: 0 <= j < |family| && x in family[j].Issued() ==> x < n)
            <==> forall j, r :: 0 <= j < |family| && r in family[j].Records().receipts ==>
                   family[j].Records().receipts[r].item.sequence < n
  {
    hide Sequences, Member.Issued, Run;
    forall j | 0 <= j < |family|
      ensures (forall x :: x in family[j].Issued() ==> x < n)
              <==> forall r :: r in family[j].Records().receipts ==> family[j].Records().receipts[r].item.sequence < n
    {
      forall x | x in Sequences(family[j].Records()) ensures x < n {
        assert j != a ==> x <= foreign;
      }
      assert family[j].Reached();
      AboveMember(family[j], n);
    }
  }

  // ------------------------------------------------------- a number issued twice

  /** A get waits before the item is put, and consumes it at once. */
  function ReuseOps(request: string, id: string, body: Body, at: int): seq<Op> {
    [Rebuild, DoGet(request, at, 0), DoPut(id, body, at, 0), GrantPut, GrantGet, Fire(at), Fire(at)]
  }

  function ReuseDurable(request: string, id: string, body: Body, at: int, i: nat): Durable {
    var intent := PutIntent(id, body.value, body.priority, at, 2);
    var waiting := map[request := GetRequest(request, at, 1)];
    if i <= 1 then Durable(map[], map[], map[], map[])
    else if i == 2 then Durable(map[], map[], waiting, map[])
    else if i <= 5 then Durable(map[], map[id := intent], waiting, map[])
    else if i == 6 then Durable(map[id := Issued(intent)], map[], waiting, map[])
    else Durable(map[], map[], map[], map[request := Receipt(request, Issued(intent), at, 1)])
  }

  function ReuseBackend(request: string, id: string, i: nat): Backend {
    if i == 0 then Down
    else if i == 1 then Up([], [], [], [])
    else if i == 2 then Up([], [], [request], [])
    else if i == 3 then Up([], [id], [request], [])
    else if i == 4 then Up([id], [], [request], [Stored(id)])
    else if i == 5 then Up([], [], [], [Stored(id), Received(request, id)])
    else if i == 6 then Up([], [], [], [Received(request, id)])
    else Up([], [], [], [])
  }

  function ReuseState(request: string, id: string, body: Body, at: int, i: nat): State {
    State(ReuseDurable(request, id, body, at, i), ReuseBackend(request, id, i),
          if i <= 2 then [] else [id], if i <= 1 then [] else [request], if i <= 2 then map[] else map[id := body],
          if i <= 5 then 0 else 1, if i <= 6 then 0 else 1)
  }

  lemma ReuseIssues(request: string, id: string, body: Body, at: int, cap: Option<nat>, i: nat)
    requires 1 <= i <= 2
    ensures Next(ReuseState(request, id, body, at, i), ReuseOps(request, id, body, at)[i], ReuseState(request, id, body, at, i + 1), cap)
  {
    var s, s' := ReuseState(request, id, body, at, i), ReuseState(request, id, body, at, i + 1);
    hide ReuseOps;
    if i == 1 {
      assert NextSequence(s.durable, 0, 1);
      assert s'.getLog == s.getLog + [request] && s'.backend.gets == s.backend.gets + [request];
      assert s'.durable.requests == s.durable.requests[request := GetRequest(request, at, 1)];
      assert s' == IssueGet(s, request, at, 1);
    } else {
      assert request in s.durable.requests && s.durable.requests[request].sequence == 1;
      assert Sequences(s.durable) == {1};
      assert NextSequence(s.durable, 0, 2);
      assert s'.putLog == s.putLog + [id] && s'.backend.puts == s.backend.puts + [id];
      assert s'.bodies == s.bodies[id := body];
      assert s'.durable.intents == s.durable.intents[id := PutIntent(id, body.value, body.priority, at, 2)];
      assert s' == IssuePut(s, id, body, at, 2);
    }
  }

  lemma ReuseGrants(request: string, id: string, body: Body, at: int, cap: Option<nat>, i: nat)
    requires 3 <= i <= 4 && Fits(cap, 1)
    ensures Next(ReuseState(request, id, body, at, i), ReuseOps(request, id, body, at)[i], ReuseState(request, id, body, at, i + 1), cap)
  {
    var s, s' := ReuseState(request, id, body, at, i), ReuseState(request, id, body, at, i + 1);
    if i == 3 {
      assert s'.backend == AfterGrantPut(s).backend;
      assert s' == AfterGrantPut(s);
    } else {
      assert s'.backend == AfterGrantGet(s).backend;
      assert s' == AfterGrantGet(s);
    }
  }

  lemma ReuseFires(request: string, id: string, body: Body, at: int, cap: Option<nat>, i: nat)
    requires 5 <= i <= 6
    ensures Next(ReuseState(request, id, body, at, i), ReuseOps(request, id, body, at)[i], ReuseState(request, id, body, at, i + 1), cap)
  {
    var s, s' := ReuseState(request, id, body, at, i), ReuseState(request, id, body, at, i + 1);
    assert s'.backend.callbacks == s.backend.callbacks[1..];
    if i == 5 {
      assert s'.durable == CommitPut(s.durable, id) && id in s'.durable.items;
    } else {
      assert s'.durable.items == s.durable.items - {id} && s'.durable.intents == s.durable.intents - {id};
      assert s'.durable.requests == s.durable.requests - {request} && request in s'.durable.receipts;
      assert s'.durable == CommitGet(s.durable, request, id, at).value;
    }
  }

  function ReuseStates(request: string, id: string, body: Body, at: int): seq<State> {
    seq(8, i requires 0 <= i < 8 => ReuseState(request, id, body, at, i))
  }

  lemma ReuseRuns(request: string, id: string, body: Body, at: int, cap: Option<nat>)
    requires Fits(cap, 1)
    ensures Run(ReuseStates(request, id, body, at), ReuseOps(request, id, body, at), cap)
  {
    var states := ReuseStates(request, id, body, at);
    var ops := ReuseOps(request, id, body, at);
    hide Next, ReuseState;
    forall i | 0 <= i < 7 ensures Next(states[i], ops[i], states[i + 1], cap) {
      if i == 0 {
        ReuseStarts(request, id, body, at, cap);
      } else if i <= 2 {
        ReuseIssues(request, id, body, at, cap, i);
      } else if i <= 4 {
        ReuseGrants(request, id, body, at, cap, i);
      } else {
        ReuseFires(request, id, body, at, cap, i);
      }
    }
    ReuseStarts(request, id, body, at, cap);
  }

  lemma ReuseStarts(request: string, id: string, body: Body, at: int, cap: Option<nat>)
    ensures ReuseState(request, id, body, at, 0) == Empty
    ensures Next(ReuseState(request, id, body, at, 0), Rebuild, ReuseState(request, id, body, at, 1), cap)
  {
    var s, s' := ReuseState(request, id, body, at, 0), ReuseState(request, id, body, at, 1);
    assert Restored(s.durable, s'.backend);
  }

  /** A number given to a put is given again once an older get has consumed its
      item: a run that ends where 2 was issued and is the next number. */
  lemma SequencesAreReused(request: string, id: string, body: Body, at: int, cap: Option<nat>)
    requires Fits(cap, 1)
    ensures var states := ReuseStates(request, id, body, at);
            && Run(states, ReuseOps(request, id, body, at), cap)
            && 2 in EverIssued(states, 7) && NextSequence(states[7].durable, 0, 2)
  {
    var states := ReuseStates(request, id, body, at);
    ReuseRuns(request, id, body, at, cap);
    IssuedNumbers(states, ReuseOps(request, id, body, at), cap, 7);
    hide Run, EverIssued, ReuseDurable, AllNumbers, NextSequence;
    ReuseEnds(request, id, body, at);
  }

  lemma ReuseEnds(request: string, id: string, body: Body, at: int)
    ensures var d := ReuseDurable(request, id, body, at, 7);
            2 in AllNumbers(d) && NextSequence(d, 0, 2)
  {
    var d := ReuseDurable(request, id, body, at, 7);
    assert request in d.receipts && d.receipts[request].item.sequence == 2 && d.receipts[request].sequence == 1;
    assert Sequences(d) == {1};
  }
}
