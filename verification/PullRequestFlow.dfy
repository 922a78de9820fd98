/**
 Multi-server first-come-first-served review of pull requests: each request
 passes through CI, then one or more reviews separated by author rework.
 Times are exact; the random draws are functions of request and cycle.
 */
module PullRequestFlow {
  import opened Outcomes

  datatype Case = Case(id: string, openedAt: real)

  /** The draws: review and rework durations, and how many reviews a request
      takes before one does not ask for rework. */
  datatype Draws = Draws(
    service: (string, nat) -> real,
    revision: (string, nat) -> real,
    reviews: string -> nat)

  datatype Config = Config(
    reviewers: nat,
    ciTime: real,
    draws: Draws,
    caseRank: string -> nat,   // how request identities sort
    actorRank: nat -> nat)     // how reviewer identities sort

  ghost predicate ValidConfig(c: Config) {
    && c.reviewers >= 1 && c.ciTime > 0.0
    && (forall pr, n :: c.draws.service(pr, n) > 0.0)
    && (forall pr, n :: c.draws.revision(pr, n) > 0.0)
    && (forall pr :: c.draws.reviews(pr) >= 1)
  }

  datatype Ready = Ready(at: real, cycle: nat)

  datatype Category = Processing | Queue | Coordination | Rework

  datatype ItemEvent = ItemEvent(pr: string, start: real, end: real, category: Category)

  /** One review, on both the request's ledger and its reviewer's. */
  datatype Review = Review(pr: string, cycle: nat, reviewer: nat, ready: real, start: real, end: real)

  datatype Flow = Flow(
    completedAt: map<string, real>,
    cycles: map<string, nat>,
    items: seq<ItemEvent>,
    reviews: seq<Review>)

  datatype Refusal = NoCases | DuplicateCases

  // --------------------------------------------------------------- what is claimed

  predicate BusyAt(reviews: seq<Review>, r: nat, t: real) {
    exists i :: 0 <= i < |reviews| && reviews[i].reviewer == r && reviews[i].start <= t < reviews[i].end
  }

  /** Reviews start in the order they became ready. */
  ghost predicate FirstComeFirstServed(reviews: seq<Review>) {
    forall i, j :: 0 <= i < j < |reviews| ==> reviews[i].ready <= reviews[j].ready && reviews[i].start <= reviews[j].start
  }

  ghost predicate OneAtATime(reviews: seq<Review>) {
    forall i, j :: 0 <= i < j < |reviews| && reviews[i].reviewer == reviews[j].reviewer ==> reviews[i].end <= reviews[j].start
  }

  /** While a request waits for a review, every reviewer is reviewing. */
  ghost predicate WorkConserving(reviews: seq<Review>, reviewers: nat) {
    forall j, t, r :: 0 <= j < |reviews| && reviews[j].ready <= t < reviews[j].start && 0 <= r < reviewers ==> BusyAt(reviews, r, t)
  }

  function ItemsOf(items: seq<ItemEvent>, pr: string): seq<ItemEvent> {
    if items == [] then []
    else
      var last := items[|items| - 1];
      ItemsOf(items[..|items| - 1], pr) + if last.pr == pr then [last] else []
  }

  /** The events follow one another without gap or overlap from a to b. */
  ghost predicate Tiles(items: seq<ItemEvent>, a: real, b: real) {
    if items == [] then a == b
    else
      var last := items[|items| - 1];
      last.end == b && last.start <= last.end && Tiles(items[..|items| - 1], a, last.start)
  }

  function Durations(items: seq<ItemEvent>): real {
    if items == [] then 0.0
    else Durations(items[..|items| - 1]) + (items[|items| - 1].end - items[|items| - 1].start)
  }

  /** Tiled events account for the whole span. */
  lemma {:induction false} TiledDurations(items: seq<ItemEvent>, a: real, b: real)
    requires Tiles(items, a, b)
    ensures Durations(items) == b - a && a <= b
  {
    if items != [] {
      TiledDurations(items[..|items| - 1], a, items[|items| - 1].start);
    }
  }

  lemma ItemsOfAppend(items: seq<ItemEvent>, e: ItemEvent, pr: string)
    ensures ItemsOf(items + [e], pr) == ItemsOf(items, pr) + if e.pr == pr then [e] else []
  {
    assert (items + [e])[..|items|] == items;
  }

  /** One more adjacent event extends its own request's tiling and no other. */
  lemma TilesAppend(items: seq<ItemEvent>, e: ItemEvent, pr: string, a: real, b: real)
    requires Tiles(ItemsOf(items, pr), a, b) && (e.pr == pr ==> e.start == b && e.start <= e.end)
    ensures Tiles(ItemsOf(items + [e], pr), a, if e.pr == pr then e.end else b)
  {
    ItemsOfAppend(items, e, pr);
    var was := ItemsOf(items, pr);
    if e.pr == pr {
      assert (was + [e])[..|was|] == was && (was + [e])[|was|] == e;
    } else {
      assert was + [] == was;
    }
  }

  // ------------------------------------------------- one request's own history

  /** The reviews of one request, in the order they were dispatched. */
  function ReviewsOf(reviews: seq<Review>, pr: string): seq<Review> {
    if reviews == [] then []
    else
      var last := reviews[|reviews| - 1];
      ReviewsOf(reviews[..|reviews| - 1], pr) + if last.pr == pr then [last] else []
  }

  /** When a request is next ready: after CI, or after the rework of its last review. */
  function ReadyAfter(mine: seq<Review>, c: Config, pr: string, began: real): real {
    if mine == [] then began + c.ciTime
    else mine[|mine| - 1].end + c.draws.revision(pr, mine[|mine| - 1].cycle)
  }

  /** The review that comes after `before`: the next cycle, ready at its time, with
      the drawn duration, by a reviewer there is. */
  ghost predicate Follows(v: Review, before: seq<Review>, c: Config, pr: string, began: real) {
    && v.pr == pr && v.cycle == |before| && v.reviewer < c.reviewers
    && v.ready == ReadyAfter(before, c, pr, began) <= v.start
    && v.end == v.start + c.draws.service(pr, v.cycle)
  }

  ghost predicate Reviewed(mine: seq<Review>, c: Config, pr: string, began: real) {
    forall n :: 0 <= n < |mine| ==> Follows(mine[n], mine[..n], c, pr, began)
  }

  /** The item events of one request: CI, then those of each of its reviews. */
  function EventsOf(mine: seq<Review>, c: Config, pr: string, began: real): seq<ItemEvent> {
    if mine == [] then [ItemEvent(pr, began, began + c.ciTime, Processing)]
    else EventsOf(mine[..|mine| - 1], c, pr, began) + NewItems(mine[|mine| - 1], c)
  }

  /** Both ledgers agree on the request. */
  ghost predicate Recorded(reviews: seq<Review>, items: seq<ItemEvent>, c: Config, pr: string, began: real) {
    var mine := ReviewsOf(reviews, pr);
    Reviewed(mine, c, pr, began) && ItemsOf(items, pr) == EventsOf(mine, c, pr, began)
  }

  /** And the request stands where its last review left it. */
  ghost predicate Accounted(s: Sim, c: Config, pr: string, began: real) {
    var mine := ReviewsOf(s.flow.reviews, pr);
    && Recorded(s.flow.reviews, s.flow.items, c, pr, began)
    && (pr in s.queue ==> s.queue[pr] == Ready(ReadyAfter(mine, c, pr, began), |mine|))
    && (pr in s.flow.completedAt ==>
          |mine| == c.draws.reviews(pr) && mine != [] && s.flow.completedAt[pr] == mine[|mine| - 1].end)
  }

  /** The request had its drawn reviews, one after the other, and its item events
      are what they led to. */
  ghost predicate Served(flow: Flow, c: Config, k: Case) {
    var mine := ReviewsOf(flow.reviews, k.id);
    && |mine| == c.draws.reviews(k.id) && mine != [] && Recorded(flow.reviews, flow.items, c, k.id, k.openedAt)
    && k.id in flow.completedAt && flow.completedAt[k.id] == mine[|mine| - 1].end
    && k.id in flow.cycles && flow.cycles[k.id] == |mine|
  }

  /** Nothing in the ledgers is about anyone else. */
  ghost predicate OnlyAbout(flow: Flow, ids: set<string>) {
    && (forall v :: v in flow.reviews ==> v.pr in ids)
    && (forall e :: e in flow.items ==> e.pr in ids)
  }

  /** A request waits only while every reviewer is reviewing. */
  ghost predicate WaitsOnlyForReviewers(flow: Flow, reviewers: nat) {
    forall e, t, r :: e in flow.items && e.category == Queue && e.start <= t < e.end && 0 <= r < reviewers ==> BusyAt(flow.reviews, r, t)
  }

  lemma ReviewsOfAppend(reviews: seq<Review>, v: Review, pr: string)
    ensures ReviewsOf(reviews + [v], pr) == ReviewsOf(reviews, pr) + if v.pr == pr then [v] else []
  {
    assert (reviews + [v])[..|reviews|] == reviews;
  }

  lemma {:induction false} ItemsOfConcat(items: seq<ItemEvent>, more: seq<ItemEvent>, of: string, pr: string)
    requires forall e :: e in more ==> e.pr == of
    ensures ItemsOf(items + more, pr) == ItemsOf(items, pr) + if pr == of then more else []
  {
    hide ItemsOf;
    var was := ItemsOf(items, pr);
    if more == [] {
      assert items + more == items && was + [] == was;
    } else {
      var front, last := more[..|more| - 1], more[|more| - 1];
      ItemsOfConcat(items, front, of, pr);
      ItemsOfAppend(items + front, last, pr);
      assert more == front + [last];
      assert items + more == items + front + [last];
      assert pr == of ==> was + front + [last] == was + more;
      assert was + [] + [] == was;
    }
  }

  lemma ReviewedGrows(mine: seq<Review>, v: Review, c: Config, pr: string, began: real)
    requires Reviewed(mine, c, pr, began) && Follows(v, mine, c, pr, began)
    ensures Reviewed(mine + [v], c, pr, began)
  {
    var longer := mine + [v];
    forall n | 0 <= n < |longer| ensures Follows(longer[n], longer[..n], c, pr, began) {
      assert longer[..n] == mine[..n];
      assert mine[..|mine|] == mine;
    }
  }

  lemma {:induction false} ReviewsOfOwn(reviews: seq<Review>, pr: string, v: Review)
    requires v in ReviewsOf(reviews, pr)
    ensures v in reviews && v.pr == pr
  {
    if v !in ReviewsOf(reviews[..|reviews| - 1], pr) {
      assert v == reviews[|reviews| - 1];
    } else {
      ReviewsOfOwn(reviews[..|reviews| - 1], pr, v);
    }
  }

  lemma {:induction false} ItemsOfOwn(items: seq<ItemEvent>, e: ItemEvent)
    requires e in items
    ensures e in ItemsOf(items, e.pr)
  {
    var front, last := items[..|items| - 1], items[|items| - 1];
    assert items == front + [last];
    if e in front {
      ItemsOfOwn(front, e);
    }
  }

  /** A queue event is the wait of one of the request's reviews. */
  lemma {:induction false} QueueIsWait(mine: seq<Review>, c: Config, pr: string, began: real, e: ItemEvent) returns (v: Review)
    requires e in EventsOf(mine, c, pr, began) && e.category == Queue
    ensures v in mine && e.start == v.ready && e.end == v.start
  {
    var front, last := mine[..|mine| - 1], mine[|mine| - 1];
    assert mine == front + [last];
    if e in EventsOf(front, c, pr, began) {
      v := QueueIsWait(front, c, pr, began, e);
    } else {
      v := last;
      assert e in NewItems(last, c);
    }
  }

  /** Time spent in one category. */
  function SpentIn(items: seq<ItemEvent>, category: Category): real {
    if items == [] then 0.0
    else
      var last := items[|items| - 1];
      SpentIn(items[..|items| - 1], category) + if last.category == category then last.end - last.start else 0.0
  }

  function Drawn(draw: (string, nat) -> real, pr: string, n: nat): real {
    if n == 0 then 0.0 else Drawn(draw, pr, n - 1) + draw(pr, n - 1)
  }

  function Waited(mine: seq<Review>): real {
    if mine == [] then 0.0 else Waited(mine[..|mine| - 1]) + (mine[|mine| - 1].start - mine[|mine| - 1].ready)
  }

  lemma SpentOneMore(items: seq<ItemEvent>, e: ItemEvent, category: Category)
    ensures SpentIn(items + [e], category) == SpentIn(items, category) + if e.category == category then e.end - e.start else 0.0
  {
    assert (items + [e])[..|items|] == items;
  }

  /** What one review adds to each category. */
  lemma ReviewSpends(items: seq<ItemEvent>, v: Review, c: Config)
    requires v.ready <= v.start
    ensures var after := items + NewItems(v, c);
            && SpentIn(after, Processing) == SpentIn(items, Processing)
            && SpentIn(after, Queue) == SpentIn(items, Queue) + (v.start - v.ready)
            && SpentIn(after, Coordination) == SpentIn(items, Coordination) + (v.end - v.start)
            && SpentIn(after, Rework) == SpentIn(items, Rework)
                 + if v.cycle + 1 < c.draws.reviews(v.pr) then c.draws.revision(v.pr, v.cycle) else 0.0
  {
    var wait := ItemEvent(v.pr, v.ready, v.start, Queue);
    var review := ItemEvent(v.pr, v.start, v.end, Coordination);
    var rework := ItemEvent(v.pr, v.end, v.end + c.draws.revision(v.pr, v.cycle), Rework);
    var waited := if v.start > v.ready then items + [wait] else items;
    var after := items + NewItems(v, c);
    if v.cycle + 1 < c.draws.reviews(v.pr) {
      assert after == waited + [review] + [rework];
    } else {
      assert after == waited + [review];
    }
    hide SpentIn, NewItems;
    forall k: Category ensures SpentIn(items + [wait], k) == SpentIn(items, k) + if k == Queue then v.start - v.ready else 0.0 {
      SpentOneMore(items, wait, k);
    }
    forall k: Category ensures SpentIn(waited + [review], k) == SpentIn(waited, k) + if k == Coordination then v.end - v.start else 0.0 {
      SpentOneMore(waited, review, k);
    }
    forall k: Category
      ensures SpentIn(waited + [review] + [rework], k)
              == SpentIn(waited + [review], k) + if k == Rework then c.draws.revision(v.pr, v.cycle) else 0.0
    {
      SpentOneMore(waited + [review], rework, k);
    }
  }

  /** Where the time of a request goes: CI, waits, drawn reviews, drawn rework. */
  lemma {:induction false} TimeByCategory(mine: seq<Review>, c: Config, pr: string, began: real)
    requires Reviewed(mine, c, pr, began) && |mine| <= c.draws.reviews(pr)
    ensures var items := EventsOf(mine, c, pr, began);
            && SpentIn(items, Processing) == c.ciTime && SpentIn(items, Queue) == Waited(mine)
            && SpentIn(items, Coordination) == Drawn(c.draws.service, pr, |mine|)
            && SpentIn(items, Rework) == Drawn(c.draws.revision, pr, if |mine| < c.draws.reviews(pr) || mine == [] then |mine| else |mine| - 1)
  {
    if mine == [] {
      OnlyCI(c, pr, began);
    } else {
      var front, v := mine[..|mine| - 1], mine[|mine| - 1];
      assert Follows(v, mine[..|mine| - 1], c, pr, began);
      forall n | 0 <= n < |front| ensures Follows(front[n], front[..n], c, pr, began) {
        assert Follows(mine[n], mine[..n], c, pr, began) && front[..n] == mine[..n];
      }
      TimeByCategory(front, c, pr, began);
      hide Reviewed, NewItems, SpentIn;
      ReviewSpends(EventsOf(front, c, pr, began), v, c);
    }
  }

  lemma OnlyCI(c: Config, pr: string, began: real)
    ensures forall k: Category :: SpentIn(EventsOf([], c, pr, began), k) == if k == Processing then c.ciTime else 0.0
  {
    var ci := ItemEvent(pr, began, began + c.ciTime, Processing);
    assert EventsOf([], c, pr, began) == [] + [ci];
    forall k: Category ensures SpentIn([] + [ci], k) == if k == Processing then c.ciTime else 0.0 {
      SpentOneMore([], ci, k);
    }
  }

  lemma QueueIsBusy(flow: Flow, c: Config, k: Case, e: ItemEvent, t: real, r: nat)
    requires Served(flow, c, k) && WorkConserving(flow.reviews, c.reviewers)
    requires e in flow.items && e.pr == k.id && e.category == Queue && e.start <= t < e.end && r < c.reviewers
    ensures BusyAt(flow.reviews, r, t)
  {
    hide Reviewed, BusyAt, EventsOf, ReviewsOf, ItemsOf, OneAtATime, FirstComeFirstServed;
    ItemsOfOwn(flow.items, e);
    var mine := ReviewsOf(flow.reviews, k.id);
    var v := QueueIsWait(mine, c, k.id, k.openedAt, e);
    ReviewsOfOwn(flow.reviews, k.id, v);
    var j :| 0 <= j < |flow.reviews| && flow.reviews[j] == v;
    assert flow.reviews[j].ready <= t < flow.reviews[j].start;
  }

  // ---------------------------------------------------------------- the invariant

  datatype Sim = Sim(
    queue: map<string, Ready>,       // the heap: one entry per waiting request
    available: seq<real>,            // when each reviewer is next free
    flow: Flow)

  /** Where a request is: its item events tile up to this time. */
  function Reached(s: Sim, pr: string): real {
    if pr in s.queue then s.queue[pr].at else if pr in s.flow.completedAt then s.flow.completedAt[pr] else 0.0
  }

  ghost predicate Placed(s: Sim, c: Config, openings: map<string, real>, pr: string) {
    && (pr in s.queue <==> pr !in s.flow.completedAt)
    && (pr in s.queue ==> s.queue[pr].cycle < c.draws.reviews(pr))
    && (pr in s.flow.cycles <==> pr in s.flow.completedAt)
    && (pr in s.flow.cycles ==> s.flow.cycles[pr] == c.draws.reviews(pr))
    && pr in openings && Tiles(ItemsOf(s.flow.items, pr), openings[pr], Reached(s, pr))
    && Accounted(s, c, pr, openings[pr])
  }

  /** Every reviewer has been busy since `frontier` until it is available. */
  ghost predicate Scheduled(s: Sim, c: Config, frontier: real) {
    && |s.available| == c.reviewers
    && (forall pr :: pr in s.queue ==> frontier <= s.queue[pr].at)
    && (forall i :: 0 <= i < |s.flow.reviews| ==>
          && s.flow.reviews[i].reviewer < |s.available|
          && s.flow.reviews[i].end <= s.available[s.flow.reviews[i].reviewer]
          && s.flow.reviews[i].ready <= frontier)
    && (forall i, r :: 0 <= i < |s.flow.reviews| && 0 <= r < |s.available| ==>
          s.flow.reviews[i].start <= frontier || s.flow.reviews[i].start <= s.available[r])
    && (forall r, t :: 0 <= r < |s.available| && frontier <= t < s.available[r] ==> BusyAt(s.flow.reviews, r, t))
  }

  ghost predicate Fair(s: Sim, c: Config) {
    FirstComeFirstServed(s.flow.reviews) && OneAtATime(s.flow.reviews) && WorkConserving(s.flow.reviews, c.reviewers)
  }

  // ------------------------------------------------------------------- one dispatch

  predicate SoonerReviewer(s: Sim, c: Config, a: nat, b: nat)
    requires a < |s.available| && b < |s.available|
  {
    s.available[a] < s.available[b] || (s.available[a] == s.available[b] && c.actorRank(a) <= c.actorRank(b))
  }

  predicate SoonerCase(s: Sim, c: Config, a: string, b: string)
    requires a in s.queue && b in s.queue
  {
    s.queue[a].at < s.queue[b].at || (s.queue[a].at == s.queue[b].at && c.caseRank(a) <= c.caseRank(b))
  }

  function Max(x: real, y: real): real { if x >= y then x else y }

  function NewReview(s: Sim, c: Config, pr: string, r: nat): Review
    requires pr in s.queue && r < |s.available|
  {
    var e := s.queue[pr];
    var start := Max(e.at, s.available[r]);
    Review(pr, e.cycle, r, e.at, start, start + c.draws.service(pr, e.cycle))
  }

  /** The item events of one dispatch: waiting, review and, unless it passed, rework. */
  function NewItems(v: Review, c: Config): seq<ItemEvent> {
    var wait := if v.start > v.ready then [ItemEvent(v.pr, v.ready, v.start, Queue)] else [];
    var review := [ItemEvent(v.pr, v.start, v.end, Coordination)];
    var rework := if v.cycle + 1 < c.draws.reviews(v.pr)
                  then [ItemEvent(v.pr, v.end, v.end + c.draws.revision(v.pr, v.cycle), Rework)] else [];
    wait + review + rework
  }

  function Dispatched(s: Sim, c: Config, pr: string, r: nat): Sim
    requires pr in s.queue && r < |s.available|
  {
    var v := NewReview(s, c, pr, r);
    var again := v.cycle + 1 < c.draws.reviews(pr);
    Sim(if again then s.queue[pr := Ready(v.end + c.draws.revision(pr, v.cycle), v.cycle + 1)] else s.queue - {pr},
        s.available[r := v.end],
        Flow(if again then s.flow.completedAt else s.flow.completedAt[pr := v.end],
             if again then s.flow.cycles else s.flow.cycles[pr := v.cycle + 1],
             s.flow.items + NewItems(v, c),
             s.flow.reviews + [v]))
  }

  lemma BusyGrows(reviews: seq<Review>, v: Review, r: nat, t: real)
    requires BusyAt(reviews, r, t) || (v.reviewer == r && v.start <= t < v.end)
    ensures BusyAt(reviews + [v], r, t)
  {
    if BusyAt(reviews, r, t) {
      var i :| 0 <= i < |reviews| && reviews[i].reviewer == r && reviews[i].start <= t < reviews[i].end;
      assert (reviews + [v])[i] == reviews[i];
    } else {
      assert (reviews + [v])[|reviews|] == v;
    }
  }

  ghost predicate Chosen(s: Sim, c: Config, pr: string, r: nat) {
    && pr in s.queue && (forall x :: x in s.queue ==> s.queue[pr].at <= s.queue[x].at)
    && r < |s.available| && (forall x :: 0 <= x < |s.available| ==> s.available[r] <= s.available[x])
  }

  /** The wait of the new review is covered by busy reviewers. */
  lemma WaitIsBusy(s: Sim, c: Config, pr: string, r: nat, frontier: real, x: nat, t: real)
    requires Scheduled(s, c, frontier) && Chosen(s, c, pr, r)
    requires x < |s.available| && s.queue[pr].at <= t < NewReview(s, c, pr, r).start
    ensures BusyAt(s.flow.reviews, x, t)
  {
    assert frontier <= t < s.available[r] <= s.available[x];
  }

  lemma DispatchBusy(s: Sim, c: Config, pr: string, r: nat, frontier: real, x: nat, t: real)
    requires Scheduled(s, c, frontier) && Chosen(s, c, pr, r)
    requires x < |s.available| && s.queue[pr].at <= t < (if x == r then NewReview(s, c, pr, r).end else s.available[x])
    ensures BusyAt(s.flow.reviews + [NewReview(s, c, pr, r)], x, t)
  {
    hide BusyAt;
    BusyGrows(s.flow.reviews, NewReview(s, c, pr, r), x, t);
  }

  lemma DispatchScheduled(s: Sim, c: Config, pr: string, r: nat, frontier: real)
    requires ValidConfig(c) && Scheduled(s, c, frontier) && Chosen(s, c, pr, r)
    ensures Scheduled(Dispatched(s, c, pr, r), c, s.queue[pr].at)
  {
    var s' := Dispatched(s, c, pr, r);
    var v := NewReview(s, c, pr, r);
    assert c.draws.service(pr, v.cycle) > 0.0 && c.draws.revision(pr, v.cycle) > 0.0;
    forall x, t | 0 <= x < |s'.available| && s.queue[pr].at <= t < s'.available[x] ensures BusyAt(s'.flow.reviews, x, t) {
      DispatchBusy(s, c, pr, r, frontier, x, t);
    }
    hide BusyAt;
  }

  lemma DispatchFair(s: Sim, c: Config, pr: string, r: nat, frontier: real)
    requires Scheduled(s, c, frontier) && Fair(s, c) && Chosen(s, c, pr, r)
    ensures Fair(Dispatched(s, c, pr, r), c)
  {
    var s' := Dispatched(s, c, pr, r);
    var v := NewReview(s, c, pr, r);
    forall j, t, x | 0 <= j < |s'.flow.reviews| && s'.flow.reviews[j].ready <= t < s'.flow.reviews[j].start && 0 <= x < c.reviewers
      ensures BusyAt(s'.flow.reviews, x, t)
    {
      if j == |s.flow.reviews| {
        WaitIsBusy(s, c, pr, r, frontier, x, t);
      }
      BusyGrows(s.flow.reviews, v, x, t);
    }
    hide BusyAt;
    forall i | 0 <= i < |s.flow.reviews|
      ensures s.flow.reviews[i].ready <= v.ready && s.flow.reviews[i].start <= v.start
    {
      assert s.flow.reviews[i].start <= frontier || s.flow.reviews[i].start <= s.available[r];
    }
  }

  /** The dispatched request's tiling reaches its new place. */
  lemma DispatchTiles(items: seq<ItemEvent>, v: Review, c: Config, x: string, a: real, b: real)
    requires ValidConfig(c) && Tiles(ItemsOf(items, x), a, b) && (x == v.pr ==> b == v.ready)
    requires v.ready <= v.start <= v.end
    ensures var again := v.cycle + 1 < c.draws.reviews(v.pr);
            Tiles(ItemsOf(items + NewItems(v, c), x), a,
                  if x != v.pr then b else if again then v.end + c.draws.revision(v.pr, v.cycle) else v.end)
  {
    var wait := ItemEvent(v.pr, v.ready, v.start, Queue);
    var review := ItemEvent(v.pr, v.start, v.end, Coordination);
    var rework := ItemEvent(v.pr, v.end, v.end + c.draws.revision(v.pr, v.cycle), Rework);
    hide Tiles, ItemsOf;
    var waited := if v.start > v.ready then items + [wait] else items;
    if v.start > v.ready { TilesAppend(items, wait, x, a, b); }
    TilesAppend(waited, review, x, a, if x == v.pr then v.start else b);
    if v.cycle + 1 < c.draws.reviews(v.pr) {
      TilesAppend(waited + [review], rework, x, a, if x == v.pr then v.end else b);
      assert items + NewItems(v, c) == waited + [review] + [rework];
    } else {
      assert items + NewItems(v, c) == waited + [review];
    }
  }

  lemma NewItemsAreOwn(v: Review, c: Config)
    ensures forall e :: e in NewItems(v, c) ==> e.pr == v.pr
  {
  }

  lemma OneMoreReview(mine: seq<Review>, v: Review, c: Config, pr: string, began: real)
    ensures EventsOf(mine + [v], c, pr, began) == EventsOf(mine, c, pr, began) + NewItems(v, c)
    ensures ReadyAfter(mine + [v], c, pr, began) == v.end + c.draws.revision(pr, v.cycle)
  {
    assert (mine + [v])[..|mine|] == mine;
  }

  /** One more review, of this request or another, keeps both ledgers in step. */
  lemma RecordGrows(reviews: seq<Review>, items: seq<ItemEvent>, v: Review, c: Config, x: string, began: real)
    requires Recorded(reviews, items, c, x, began)
    requires x == v.pr ==> Follows(v, ReviewsOf(reviews, x), c, x, began)
    ensures Recorded(reviews + [v], items + NewItems(v, c), c, x, began)
    ensures ReviewsOf(reviews + [v], x) == ReviewsOf(reviews, x) + if x == v.pr then [v] else []
  {
    var mine := ReviewsOf(reviews, x);
    ReviewsOfAppend(reviews, v, x);
    NewItemsAreOwn(v, c);
    ItemsOfConcat(items, NewItems(v, c), v.pr, x);
    hide NewItems, ItemsOf, ReviewsOf, EventsOf, Reviewed, ReadyAfter, Follows;
    if x == v.pr {
      ReviewedGrows(mine, v, c, x, began);
      OneMoreReview(mine, v, c, x, began);
    } else {
      assert mine + [] == mine && ItemsOf(items, x) + [] == ItemsOf(items, x);
    }
  }

  /** Where a dispatch leaves each request. */
  lemma DispatchedShape(s: Sim, c: Config, pr: string, r: nat, x: string)
    requires pr in s.queue && r < |s.available|
    ensures var v, s' := NewReview(s, c, pr, r), Dispatched(s, c, pr, r);
            && s'.flow.reviews == s.flow.reviews + [v] && s'.flow.items == s.flow.items + NewItems(v, c)
            && (x != pr ==>
                  && (x in s'.queue <==> x in s.queue) && (x in s.queue ==> s'.queue[x] == s.queue[x])
                  && (x in s'.flow.completedAt <==> x in s.flow.completedAt)
                  && (x in s.flow.completedAt ==> s'.flow.completedAt[x] == s.flow.completedAt[x]))
            && (v.cycle + 1 < c.draws.reviews(pr) ==>
                  && pr in s'.queue && s'.queue[pr] == Ready(v.end + c.draws.revision(pr, v.cycle), v.cycle + 1)
                  && s'.flow.completedAt == s.flow.completedAt)
            && (v.cycle + 1 >= c.draws.reviews(pr) ==>
                  pr !in s'.queue && pr in s'.flow.completedAt && s'.flow.completedAt[pr] == v.end)
  {
    hide NewItems;
  }

  lemma OtherAccounted(s: Sim, c: Config, pr: string, r: nat, x: string, began: real)
    requires Accounted(s, c, x, began) && pr in s.queue && r < |s.available| && x != pr
    ensures Accounted(Dispatched(s, c, pr, r), c, x, began)
  {
    var v := NewReview(s, c, pr, r);
    assert v.pr == pr;
    hide NewReview;
    DispatchedShape(s, c, pr, r, x);
    RecordGrows(s.flow.reviews, s.flow.items, v, c, x, began);
    var mine := ReviewsOf(s.flow.reviews, x);
    assert mine + [] == mine;
    hide Dispatched, NewItems, Recorded, ReviewsOf, ReadyAfter, Follows;
  }

  lemma OwnAccounted(s: Sim, c: Config, pr: string, r: nat, began: real)
    requires ValidConfig(c) && Accounted(s, c, pr, began) && pr in s.queue && r < |s.available| == c.reviewers
    requires s.queue[pr].cycle < c.draws.reviews(pr) && pr !in s.flow.completedAt
    ensures Accounted(Dispatched(s, c, pr, r), c, pr, began)
  {
    var v := NewReview(s, c, pr, r);
    var mine := ReviewsOf(s.flow.reviews, pr);
    ReviewTakesTime(s, c, pr, r);
    DispatchedShape(s, c, pr, r, pr);
    hide NewReview, Dispatched, NewItems, Recorded, ReviewsOf, ReadyAfter, ValidConfig;
    assert Follows(v, mine, c, pr, began);
    hide Follows;
    RecordGrows(s.flow.reviews, s.flow.items, v, c, pr, began);
    OneMoreReview(mine, v, c, pr, began);
  }

  lemma DispatchAccounted(s: Sim, c: Config, pr: string, r: nat, x: string, began: real)
    requires ValidConfig(c) && Accounted(s, c, x, began) && pr in s.queue && r < |s.available| == c.reviewers
    requires s.queue[pr].cycle < c.draws.reviews(pr) && pr !in s.flow.completedAt
    ensures Accounted(Dispatched(s, c, pr, r), c, x, began)
  {
    hide Accounted, Dispatched, ValidConfig;
    if x == pr {
      OwnAccounted(s, c, pr, r, began);
    } else {
      OtherAccounted(s, c, pr, r, x, began);
    }
  }

  lemma DispatchTiling(s: Sim, c: Config, pr: string, r: nat, x: string, began: real)
    requires ValidConfig(c) && pr in s.queue && r < |s.available| && pr !in s.flow.completedAt
    requires Tiles(ItemsOf(s.flow.items, x), began, Reached(s, x))
    ensures Tiles(ItemsOf(Dispatched(s, c, pr, r).flow.items, x), began, Reached(Dispatched(s, c, pr, r), x))
  {
    var v := NewReview(s, c, pr, r);
    ReviewTakesTime(s, c, pr, r);
    hide Tiles, ItemsOf, NewItems, NewReview, ValidConfig;
    DispatchTiles(s.flow.items, v, c, x, began, Reached(s, x));
    assert Dispatched(s, c, pr, r).flow.items == s.flow.items + NewItems(v, c);
    DispatchReached(s, c, pr, r, x);
    hide Reached;
  }

  lemma DispatchPlaced(s: Sim, c: Config, openings: map<string, real>, pr: string, r: nat, x: string)
    requires ValidConfig(c) && Placed(s, c, openings, x) && pr in s.queue && r < |s.available| == c.reviewers
    requires s.queue[pr].cycle < c.draws.reviews(pr) && pr !in s.flow.completedAt
    ensures Placed(Dispatched(s, c, pr, r), c, openings, x)
  {
    hide Tiles, ItemsOf, NewItems, ValidConfig, Accounted, Reached;
    DispatchAccounted(s, c, pr, r, x, openings[x]);
    DispatchTiling(s, c, pr, r, x, openings[x]);
  }

  lemma DispatchReached(s: Sim, c: Config, pr: string, r: nat, x: string)
    requires pr in s.queue && r < |s.available| && pr !in s.flow.completedAt
    ensures var v := NewReview(s, c, pr, r);
            Reached(Dispatched(s, c, pr, r), x) ==
              if x != pr then Reached(s, x)
              else if v.cycle + 1 < c.draws.reviews(pr) then v.end + c.draws.revision(pr, v.cycle)
              else v.end
  {
    hide NewItems;
  }

  lemma ReviewTakesTime(s: Sim, c: Config, pr: string, r: nat)
    requires ValidConfig(c) && pr in s.queue && r < |s.available|
    ensures var v := NewReview(s, c, pr, r);
            && v.pr == pr && v.cycle == s.queue[pr].cycle && v.ready == s.queue[pr].at
            && v.ready <= v.start < v.end && s.available[r] <= v.start
            && v.end == v.start + c.draws.service(pr, v.cycle) && v.reviewer == r
  {
    assert c.draws.service(pr, s.queue[pr].cycle) > 0.0;
  }

  // -------------------------------------------------------------------- termination

  function Remaining(ids: seq<string>, queue: map<string, Ready>, c: Config): nat {
    if ids == [] then 0
    else Remaining(ids[1..], queue, c) + Left(ids[0], queue, c)
  }

  function Left(pr: string, queue: map<string, Ready>, c: Config): nat {
    if pr in queue && queue[pr].cycle < c.draws.reviews(pr) then c.draws.reviews(pr) - queue[pr].cycle else 0
  }

  lemma {:induction false} RemainingFalls(ids: seq<string>, before: map<string, Ready>, after: map<string, Ready>, pr: string, c: Config)
    requires forall x :: x in ids && x != pr ==> Left(x, after, c) == Left(x, before, c)
    requires Left(pr, after, c) < Left(pr, before, c)
    ensures Remaining(ids, after, c) <= Remaining(ids, before, c)
    ensures pr in ids ==> Remaining(ids, after, c) < Remaining(ids, before, c)
  {
    if ids != [] {
      RemainingFalls(ids[1..], before, after, pr, c);
    }
  }

  lemma RemainingDrops(s: Sim, c: Config, pr: string, r: nat, ids: seq<string>)
    requires pr in s.queue && r < |s.available| && pr in ids && s.queue[pr].cycle < c.draws.reviews(pr)
    ensures Remaining(ids, Dispatched(s, c, pr, r).queue, c) < Remaining(ids, s.queue, c)
  {
    RemainingFalls(ids, s.queue, Dispatched(s, c, pr, r).queue, pr, c);
  }

  // ----------------------------------------------------------------- the simulation

  predicate DistinctIds(cases: seq<Case>) {
    forall i, j :: 0 <= i < j < |cases| ==> cases[i].id != cases[j].id
  }

  function Ids(cases: seq<Case>): seq<string> {
    seq(|cases|, i requires 0 <= i < |cases| => cases[i].id)
  }

  function Idle(c: Config): seq<real> {
    seq(c.reviewers, _ => 0.0)
  }

  method EarliestCase(s: Sim, c: Config) returns (pr: string)
    requires s.queue != map[]
    ensures pr in s.queue && forall x :: x in s.queue ==> SoonerCase(s, c, pr, x)
    ensures forall x :: x in s.queue ==>
              s.queue[pr].at < s.queue[x].at || (s.queue[pr].at == s.queue[x].at && c.caseRank(pr) <= c.caseRank(x))
  {
    var todo := s.queue.Keys;
    pr :| pr in todo;
    while todo != {}
      invariant todo <= s.queue.Keys && pr in s.queue
      invariant forall x :: x in s.queue && x !in todo ==> SoonerCase(s, c, pr, x)
      decreases todo
    {
      var x :| x in todo;
      todo := todo - {x};
      if !SoonerCase(s, c, pr, x) {
        pr := x;
      }
    }
    assert forall x :: x in s.queue ==> SoonerCase(s, c, pr, x);
  }

  method EarliestReviewer(s: Sim, c: Config) returns (r: nat)
    requires c.reviewers >= 1 && |s.available| == c.reviewers
    ensures r < |s.available| && forall x :: 0 <= x < |s.available| ==> SoonerReviewer(s, c, r, x)
    ensures forall x :: 0 <= x < |s.available| ==>
              s.available[r] < s.available[x] || (s.available[r] == s.available[x] && c.actorRank(r) <= c.actorRank(x))
  {
    r := 0;
    for n := 1 to c.reviewers
      invariant r < c.reviewers
      invariant forall x :: 0 <= x < n ==> SoonerReviewer(s, c, r, x)
    {
      if !SoonerReviewer(s, c, r, n) {
        forall x | 0 <= x <= n ensures SoonerReviewer(s, c, n, x) {
          assert x < n ==> SoonerReviewer(s, c, r, x);
        }
        r := n;
      }
    }
    forall x | 0 <= x < |s.available|
      ensures s.available[r] < s.available[x] || (s.available[r] == s.available[x] && c.actorRank(r) <= c.actorRank(x))
    {
      assert SoonerReviewer(s, c, r, x);
    }
  }

  function IdSet(cases: seq<Case>): set<string> {
    set k | k in cases :: k.id
  }

  lemma IdSetGrows(cases: seq<Case>, n: nat)
    requires n < |cases| && DistinctIds(cases)
    ensures IdSet(cases[..n + 1]) == IdSet(cases[..n]) + {cases[n].id} && cases[n].id !in IdSet(cases[..n])
    ensures cases[..n + 1] == cases[..n] + [cases[n]]
    ensures forall k :: k in cases[..n] ==> k.id in IdSet(cases[..n])
  {
    assert cases[..n + 1] == cases[..n] + [cases[n]];
  }

  lemma NoIds()
    ensures IdSet([]) == {}
  {
  }

  lemma NoItems(pr: string)
    ensures ItemsOf([], pr) == []
  {
  }

  /** CI of every request: the heap holds each of them, ready when CI ends. */
  method RunCI(cases: seq<Case>, c: Config) returns (s: Sim, ghost openings: map<string, real>)
    requires ValidConfig(c) && DistinctIds(cases) && forall k :: k in cases ==> k.openedAt >= 0.0
    ensures s.flow.reviews == [] && s.available == Idle(c) && s.flow.completedAt == map[]
    ensures openings.Keys == IdSet(cases) == s.queue.Keys
    ensures forall k :: k in cases ==> k.id in openings && openings[k.id] == k.openedAt
    ensures forall pr :: pr in openings ==> Placed(s, c, openings, pr)
    ensures forall pr :: pr in s.queue ==> s.queue[pr].at >= 0.0
    ensures forall k :: k in cases ==> k.id in s.queue && s.queue[k.id] == Ready(k.openedAt + c.ciTime, 0)
    ensures OnlyAbout(s.flow, IdSet(cases))
  {
    hide Tiles, ItemsOf, Placed, IdSet;
    assert IdSet(cases[..0]) == {} by { NoIds(); }
    forall pr ensures ItemsOf([], pr) == [] { NoItems(pr); }
    s, openings := Sim(map[], Idle(c), Flow(map[], map[], [], [])), map[];
    for n := 0 to |cases|
      invariant s.flow.reviews == [] && s.available == Idle(c) && s.flow.completedAt == map[] && s.flow.cycles == map[]
      invariant openings.Keys == s.queue.Keys == IdSet(cases[..n])
      invariant forall k :: k in cases[..n] ==> k.id in openings && openings[k.id] == k.openedAt
      invariant forall k :: k in cases[..n] ==> k.id in s.queue && s.queue[k.id] == Ready(k.openedAt + c.ciTime, 0)
      invariant OnlyAbout(s.flow, openings.Keys)
      invariant forall pr :: pr in s.queue ==> s.queue[pr].at >= 0.0
      invariant forall pr :: pr in openings ==> Placed(s, c, openings, pr)
      invariant forall pr :: pr !in openings ==> ItemsOf(s.flow.items, pr) == []
    {
      var k := cases[n];
      var e := ItemEvent(k.id, k.openedAt, k.openedAt + c.ciTime, Processing);
      ghost var was, wasOpened := s, openings;
      IdSetGrows(cases, n);
      s := s.(queue := s.queue[k.id := Ready(e.end, 0)], flow := s.flow.(items := s.flow.items + [e]));
      openings := openings[k.id := k.openedAt];
      forall pr | pr in openings ensures Placed(s, c, openings, pr) {
        CIPlaced(was, c, wasOpened, k, pr);
      }
      forall pr | pr !in openings ensures ItemsOf(s.flow.items, pr) == [] {
        ItemsOfAppend(was.flow.items, e, pr);
      }
    }
    assert cases[..|cases|] == cases;
  }

  lemma CIPlaced(s: Sim, c: Config, openings: map<string, real>, k: Case, pr: string)
    requires ValidConfig(c) && k.id !in openings && s.flow.completedAt == map[] && s.flow.cycles == map[] && s.flow.reviews == []
    requires pr != k.id ==> Placed(s, c, openings, pr)
    requires pr == k.id ==> ItemsOf(s.flow.items, pr) == []
    ensures var e := ItemEvent(k.id, k.openedAt, k.openedAt + c.ciTime, Processing);
            Placed(s.(queue := s.queue[k.id := Ready(e.end, 0)], flow := s.flow.(items := s.flow.items + [e])), c, openings[k.id := k.openedAt], pr)
  {
    var e := ItemEvent(k.id, k.openedAt, k.openedAt + c.ciTime, Processing);
    TilesAppend(s.flow.items, e, pr, if pr == k.id then k.openedAt else openings[pr], if pr == k.id then k.openedAt else Reached(s, pr));
    ItemsOfAppend(s.flow.items, e, pr);
    assert ItemsOf(s.flow.items, pr) + [] == ItemsOf(s.flow.items, pr) && [] + [e] == [e];
    hide Tiles, ItemsOf;
  }

  /** Reviews are first come first served, one at a time per reviewer and
      work-conserving; every request has exactly its drawn reviews in the ledger,
      each ready when CI or the rework before it ends, and its item events are CI
      and what those reviews led to, tiling the time from opening to completion. */
  method Simulate(cases: seq<Case>, c: Config) returns (result: Result<Flow, Refusal>)
    requires ValidConfig(c) && forall k :: k in cases ==> k.openedAt >= 0.0
    ensures result.Err? <==> cases == [] || !DistinctIds(cases)
    ensures result.Ok? ==>
              && FirstComeFirstServed(result.value.reviews) && OneAtATime(result.value.reviews)
              && WorkConserving(result.value.reviews, c.reviewers)
    ensures result.Ok? ==> result.value.completedAt.Keys == IdSet(cases) && OnlyAbout(result.value, IdSet(cases))
    ensures result.Ok? ==> forall k :: k in cases ==> Served(result.value, c, k)
    ensures result.Ok? ==> WaitsOnlyForReviewers(result.value, c.reviewers)
    ensures result.Ok? ==> forall k :: k in cases ==>
              var mine := ItemsOf(result.value.items, k.id);
              && SpentIn(mine, Processing) == c.ciTime && SpentIn(mine, Queue) == Waited(ReviewsOf(result.value.reviews, k.id))
              && SpentIn(mine, Coordination) == Drawn(c.draws.service, k.id, c.draws.reviews(k.id))
              && SpentIn(mine, Rework) == Drawn(c.draws.revision, k.id, c.draws.reviews(k.id) - 1)
    ensures result.Ok? ==> forall k :: k in cases ==>
              && k.id in result.value.cycles && result.value.cycles[k.id] == c.draws.reviews(k.id)
              && k.id in result.value.completedAt
              && Tiles(ItemsOf(result.value.items, k.id), k.openedAt, result.value.completedAt[k.id])
              && Durations(ItemsOf(result.value.items, k.id)) == result.value.completedAt[k.id] - k.openedAt
  {
    if cases == [] {
      return Err(NoCases);
    }
    if !DistinctIds(cases) {
      return Err(DuplicateCases);
    }
    var s, openings := RunCI(cases, c);
    CasesListed(cases);
    var done := RunReviews(s, c, openings, Ids(cases));
    hide Tiles, ItemsOf, ReviewsOf, Recorded, FirstComeFirstServed, OneAtATime, WorkConserving, BusyAt;
    forall k | k in cases
      ensures Served(done.flow, c, k)
      ensures k.id in done.flow.completedAt && k.id in done.flow.cycles
      ensures Durations(ItemsOf(done.flow.items, k.id)) == done.flow.completedAt[k.id] - k.openedAt
    {
      assert Placed(done, c, openings, k.id);
      TiledDurations(ItemsOf(done.flow.items, k.id), k.openedAt, done.flow.completedAt[k.id]);
    }
    forall k | k in cases
      ensures var mine := ItemsOf(done.flow.items, k.id);
              && SpentIn(mine, Processing) == c.ciTime && SpentIn(mine, Queue) == Waited(ReviewsOf(done.flow.reviews, k.id))
              && SpentIn(mine, Coordination) == Drawn(c.draws.service, k.id, c.draws.reviews(k.id))
              && SpentIn(mine, Rework) == Drawn(c.draws.revision, k.id, c.draws.reviews(k.id) - 1)
    {
      assert Served(done.flow, c, k);
      ServedTime(done.flow, c, k);
    }
    forall e, t, r | e in done.flow.items && e.category == Queue && e.start <= t < e.end && 0 <= r < c.reviewers
      ensures BusyAt(done.flow.reviews, r, t)
    {
      assert e.pr in IdSet(cases);
      var k :| k in cases && k.id == e.pr;
      assert Served(done.flow, c, k);
      hide Served;
      QueueIsBusy(done.flow, c, k, e, t, r);
    }
    return Ok(done.flow);
  }

  lemma ServedTime(flow: Flow, c: Config, k: Case)
    requires Served(flow, c, k)
    ensures c.draws.reviews(k.id) >= 1
    ensures var mine := ItemsOf(flow.items, k.id);
            && SpentIn(mine, Processing) == c.ciTime && SpentIn(mine, Queue) == Waited(ReviewsOf(flow.reviews, k.id))
            && SpentIn(mine, Coordination) == Drawn(c.draws.service, k.id, c.draws.reviews(k.id))
            && SpentIn(mine, Rework) == Drawn(c.draws.revision, k.id, c.draws.reviews(k.id) - 1)
  {
    hide ReviewsOf, ItemsOf, EventsOf, Reviewed, SpentIn, Drawn, Waited;
    TimeByCategory(ReviewsOf(flow.reviews, k.id), c, k.id, k.openedAt);
  }

  lemma CasesListed(cases: seq<Case>)
    ensures forall k :: k in cases ==> k.id in Ids(cases)
  {
    forall k | k in cases ensures k.id in Ids(cases) {
      var i :| 0 <= i < |cases| && cases[i] == k;
      assert Ids(cases)[i] == k.id;
    }
  }

  /** Serve the heap until every request has passed review. */
  method RunReviews(start: Sim, c: Config, ghost openings: map<string, real>, ghost ids: seq<string>) returns (s: Sim)
    requires ValidConfig(c) && start.flow.reviews == [] && start.available == Idle(c)
    requires forall pr :: pr in start.queue ==> start.queue[pr].at >= 0.0
    requires start.queue.Keys == openings.Keys && start.flow.completedAt.Keys <= openings.Keys
    requires forall pr :: pr in openings ==> pr in ids && Placed(start, c, openings, pr)
    requires OnlyAbout(start.flow, openings.Keys)
    ensures s.queue == map[] && Fair(s, c) && s.flow.completedAt.Keys == openings.Keys && OnlyAbout(s.flow, openings.Keys)
    ensures forall pr :: pr in openings ==> Placed(s, c, openings, pr)
  {
    hide Remaining, Placed, Dispatched, OnlyAbout, BusyAt, FirstComeFirstServed, OneAtATime, WorkConserving;
    s := start;
    ghost var frontier := 0.0;
    StartScheduled(s, c);
    while s.queue != map[]
      invariant Scheduled(s, c, frontier) && Fair(s, c)
      invariant s.queue.Keys <= openings.Keys && s.flow.completedAt.Keys <= openings.Keys && OnlyAbout(s.flow, openings.Keys)
      invariant forall pr :: pr in openings ==> Placed(s, c, openings, pr)
      decreases Remaining(ids, s.queue, c)
    {
      var pr := EarliestCase(s, c);
      var r := EarliestReviewer(s, c);
      DispatchKeeps(s, c, openings, pr, r, frontier, ids);
      frontier := s.queue[pr].at;
      s := Step(s, c, pr, r);
    }
    forall pr | pr in openings ensures pr in s.flow.completedAt {
      PlacedSomewhere(s, c, openings, pr);
    }
  }

  lemma PlacedSomewhere(s: Sim, c: Config, openings: map<string, real>, pr: string)
    requires Placed(s, c, openings, pr)
    ensures pr in s.queue || pr in s.flow.completedAt
  {
  }

  lemma DispatchKeeps(s: Sim, c: Config, openings: map<string, real>, pr: string, r: nat, frontier: real, ids: seq<string>)
    requires ValidConfig(c) && Scheduled(s, c, frontier) && Fair(s, c) && pr in s.queue && r < |s.available| == c.reviewers
    requires forall x :: x in s.queue ==> SoonerCase(s, c, pr, x)
    requires forall x :: 0 <= x < |s.available| ==> SoonerReviewer(s, c, r, x)
    requires s.queue.Keys <= openings.Keys && forall x :: x in openings ==> x in ids && Placed(s, c, openings, x)
    ensures var s' := Dispatched(s, c, pr, r);
            && Scheduled(s', c, s.queue[pr].at) && Fair(s', c)
            && s'.queue.Keys <= openings.Keys && Remaining(ids, s'.queue, c) < Remaining(ids, s.queue, c)
            && (forall x :: x in openings ==> Placed(s', c, openings, x))
            && s'.flow.completedAt.Keys <= s.flow.completedAt.Keys + {pr}
            && (OnlyAbout(s.flow, openings.Keys) ==> OnlyAbout(s'.flow, openings.Keys))
  {
    hide Remaining, NewItems, Tiles, ItemsOf, Scheduled, Fair, OnlyAbout, Accounted, Reached, ValidConfig;
    assert Placed(s, c, openings, pr);
    hide Placed;
    forall x | x in s.queue ensures s.queue[pr].at <= s.queue[x].at {
      assert SoonerCase(s, c, pr, x);
    }
    forall x | 0 <= x < |s.available| ensures s.available[r] <= s.available[x] {
      assert SoonerReviewer(s, c, r, x);
    }
    DispatchScheduled(s, c, pr, r, frontier);
    DispatchFair(s, c, pr, r, frontier);
    EveryonePlaced(s, c, openings, pr, r);
    RemainingDrops(s, c, pr, r, ids);
    DispatchOnlyAbout(s, c, openings.Keys, pr, r);
  }

  lemma EveryonePlaced(s: Sim, c: Config, openings: map<string, real>, pr: string, r: nat)
    requires ValidConfig(c) && pr in s.queue && r < |s.available| == c.reviewers && pr in openings
    requires forall x :: x in openings ==> Placed(s, c, openings, x)
    ensures forall x :: x in openings ==> Placed(Dispatched(s, c, pr, r), c, openings, x)
  {
    hide Dispatched, Tiles, ItemsOf, Accounted, Reached;
    assert Placed(s, c, openings, pr);
    hide Placed;
    forall x | x in openings ensures Placed(Dispatched(s, c, pr, r), c, openings, x) {
      DispatchPlaced(s, c, openings, pr, r, x);
    }
  }

  lemma DispatchOnlyAbout(s: Sim, c: Config, ids: set<string>, pr: string, r: nat)
    requires pr in s.queue && r < |s.available| && pr in ids
    ensures OnlyAbout(s.flow, ids) ==> OnlyAbout(Dispatched(s, c, pr, r).flow, ids)
  {
    NewItemsAreOwn(NewReview(s, c, pr, r), c);
    hide NewItems;
  }

  lemma StartScheduled(s: Sim, c: Config)
    requires s.flow.reviews == [] && s.available == Idle(c)
    requires forall pr :: pr in s.queue ==> s.queue[pr].at >= 0.0
    ensures Scheduled(s, c, 0.0) && Fair(s, c)
  {
  }

  /** Dispatch one request to one reviewer, event by event. */
  method Step(s: Sim, c: Config, pr: string, r: nat) returns (s': Sim)
    requires pr in s.queue && r < |s.available|
    ensures s' == Dispatched(s, c, pr, r)
  {
    var e := s.queue[pr];
    var items := s.flow.items;
    var start := Max(e.at, s.available[r]);
    if start > e.at {
      items := items + [ItemEvent(pr, e.at, start, Queue)];
    }
    var end := start + c.draws.service(pr, e.cycle);
    items := items + [ItemEvent(pr, start, end, Coordination)];
    var reviews := s.flow.reviews + [Review(pr, e.cycle, r, e.at, start, end)];
    var available := s.available[r := end];
    if e.cycle + 1 < c.draws.reviews(pr) {
      var revised := end + c.draws.revision(pr, e.cycle);
      items := items + [ItemEvent(pr, end, revised, Rework)];
      s' := Sim(s.queue[pr := Ready(revised, e.cycle + 1)], available,
                Flow(s.flow.completedAt, s.flow.cycles, items, reviews));
    } else {
      s' := Sim(s.queue - {pr}, available,
                Flow(s.flow.completedAt[pr := end], s.flow.cycles[pr := e.cycle + 1], items, reviews));
    }
    assert items == s.flow.items + NewItems(NewReview(s, c, pr, r), c);
  }
}
