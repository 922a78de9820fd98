/**
 Work in progress from observed traces: a sweep over sorted openings and
 closings finds the peak, and the area under it is the total lead time.
 */
module WipSweep {

  /** One observed item, in progress during [opening, terminal). */
  datatype Trace = Trace(opening: int, terminal: int)

  /** An arrival (+1) or a release (-1). */
  datatype Boundary = Boundary(time: int, delta: int)

  // -------------------------------------------------------------- what is measured

  predicate InProgress(x: Trace, t: int) {
    x.opening <= t < x.terminal
  }

  /** Items in progress at instant t. */
  function CountAt(traces: seq<Trace>, t: int): nat {
    if traces == [] then 0
    else CountAt(traces[..|traces| - 1], t) + if InProgress(traces[|traces| - 1], t) then 1 else 0
  }

  function LeadTimes(traces: seq<Trace>): int {
    if traces == [] then 0
    else LeadTimes(traces[..|traces| - 1]) + (traces[|traces| - 1].terminal - traces[|traces| - 1].opening)
  }

  // -------------------------------------------------------------------- the sweep

  /** Both ends of every trace of positive length. */
  function Boundaries(traces: seq<Trace>): seq<Boundary> {
    if traces == [] then []
    else
      var x := traces[|traces| - 1];
      Boundaries(traces[..|traces| - 1])
      + if x.terminal <= x.opening then [] else [Boundary(x.opening, 1), Boundary(x.terminal, -1)]
  }

  /** Releases at an instant come before arrivals at it. */
  predicate Leq(a: Boundary, b: Boundary) {
    a.time < b.time || (a.time == b.time && a.delta <= b.delta)
  }

  predicate Sorted(bs: seq<Boundary>) {
    forall i, j :: 0 <= i < j < |bs| ==> Leq(bs[i], bs[j])
  }

  function Insert(bs: seq<Boundary>, b: Boundary): (r: seq<Boundary>)
    ensures |r| == |bs| + 1
  {
    if bs == [] || Leq(bs[|bs| - 1], b) then bs + [b]
    else Insert(bs[..|bs| - 1], b) + [bs[|bs| - 1]]
  }

  function Sort(bs: seq<Boundary>): seq<Boundary> {
    if bs == [] then [] else Insert(Sort(bs[..|bs| - 1]), bs[|bs| - 1])
  }

  /** Items in progress after these boundaries. */
  function Sum(bs: seq<Boundary>): int {
    if bs == [] then 0 else Sum(bs[..|bs| - 1]) + bs[|bs| - 1].delta
  }

  function SumUpTo(bs: seq<Boundary>, t: int): int {
    if bs == [] then 0
    else SumUpTo(bs[..|bs| - 1], t) + if bs[|bs| - 1].time <= t then bs[|bs| - 1].delta else 0
  }

  /** Largest running value, from zero. */
  function Peak(bs: seq<Boundary>): int {
    if bs == [] then 0
    else if Peak(bs[..|bs| - 1]) >= Sum(bs) then Peak(bs[..|bs| - 1]) else Sum(bs)
  }

  // --------------------------------------------------------------- sorting is harmless

  lemma {:induction false} InsertSorted(bs: seq<Boundary>, b: Boundary)
    requires Sorted(bs)
    ensures Sorted(Insert(bs, b)) && multiset(Insert(bs, b)) == multiset(bs) + multiset{b}
  {
    if bs != [] && !Leq(bs[|bs| - 1], b) {
      var front, last := bs[..|bs| - 1], bs[|bs| - 1];
      InsertSorted(front, b);
      hide Insert;
      assert bs == front + [last];
      forall i | 0 <= i < |Insert(front, b)| ensures Leq(Insert(front, b)[i], last) {
        assert Insert(front, b)[i] in multiset(front) + multiset{b};
      }
    }
  }

  lemma {:induction false} SortSorted(bs: seq<Boundary>)
    ensures Sorted(Sort(bs)) && multiset(Sort(bs)) == multiset(bs)
  {
    if bs != [] {
      SortSorted(bs[..|bs| - 1]);
      InsertSorted(Sort(bs[..|bs| - 1]), bs[|bs| - 1]);
      assert bs == bs[..|bs| - 1] + [bs[|bs| - 1]];
    }
  }

  function Moment(bs: seq<Boundary>): int {
    if bs == [] then 0 else Moment(bs[..|bs| - 1]) + bs[|bs| - 1].delta * bs[|bs| - 1].time
  }

  lemma {:induction false} InsertKeepsSums(bs: seq<Boundary>, b: Boundary, t: int)
    ensures SumUpTo(Insert(bs, b), t) == SumUpTo(bs, t) + if b.time <= t then b.delta else 0
    ensures Sum(Insert(bs, b)) == Sum(bs) + b.delta
    ensures Moment(Insert(bs, b)) == Moment(bs) + b.delta * b.time
  {
    if bs == [] || Leq(bs[|bs| - 1], b) {
      assert (bs + [b])[..|bs|] == bs;
    } else {
      var front, last := bs[..|bs| - 1], bs[|bs| - 1];
      InsertKeepsSums(front, b, t);
      assert (Insert(front, b) + [last])[..|bs|] == Insert(front, b);
    }
  }

  lemma {:induction false} SortKeepsSums(bs: seq<Boundary>, t: int)
    ensures SumUpTo(Sort(bs), t) == SumUpTo(bs, t) && Sum(Sort(bs)) == Sum(bs) && Moment(Sort(bs)) == Moment(bs)
  {
    if bs != [] {
      SortKeepsSums(bs[..|bs| - 1], t);
      InsertKeepsSums(Sort(bs[..|bs| - 1]), bs[|bs| - 1], t);
    }
  }

  // --------------------------------------------------------------- counting by sweeping

  lemma TwoMore(bs: seq<Boundary>, a: Boundary, b: Boundary, t: int)
    ensures SumUpTo(bs + [a, b], t) == SumUpTo(bs, t) + (if a.time <= t then a.delta else 0) + (if b.time <= t then b.delta else 0)
    ensures Sum(bs + [a, b]) == Sum(bs) + a.delta + b.delta
    ensures Moment(bs + [a, b]) == Moment(bs) + a.delta * a.time + b.delta * b.time
  {
    var more := bs + [a, b];
    assert more[..|more| - 1] == bs + [a];
    assert (bs + [a])[..|bs|] == bs;
  }

  /** Boundaries up to t add up to the items in progress at t. */
  lemma {:induction false} BoundariesCount(traces: seq<Trace>, t: int)
    ensures SumUpTo(Boundaries(traces), t) == CountAt(traces, t) && Sum(Boundaries(traces)) == 0
  {
    if traces != [] {
      var front, x := traces[..|traces| - 1], traces[|traces| - 1];
      BoundariesCount(front, t);
      if x.terminal <= x.opening {
        assert Boundaries(front) + [] == Boundaries(front);
      } else {
        TwoMore(Boundaries(front), Boundary(x.opening, 1), Boundary(x.terminal, -1), t);
      }
    }
  }

  lemma {:induction false} BoundariesMoment(traces: seq<Trace>)
    requires forall x :: x in traces ==> x.opening <= x.terminal
    ensures Moment(Boundaries(traces)) == -LeadTimes(traces)
  {
    if traces != [] {
      var front, x := traces[..|traces| - 1], traces[|traces| - 1];
      BoundariesMoment(front);
      if x.terminal <= x.opening {
        assert Boundaries(front) + [] == Boundaries(front);
      } else {
        TwoMore(Boundaries(front), Boundary(x.opening, 1), Boundary(x.terminal, -1), 0);
      }
    }
  }

  lemma {:induction false} UnitSteps(traces: seq<Trace>)
    ensures forall b :: b in Boundaries(traces) ==> b.delta == 1 || b.delta == -1
  {
    if traces != [] {
      UnitSteps(traces[..|traces| - 1]);
    }
  }

  /** In sorted order, the boundaries up to t are a prefix. */
  lemma {:induction false} UpToIsPrefix(bs: seq<Boundary>, k: nat, t: int)
    requires Sorted(bs) && k <= |bs|
    requires k > 0 ==> bs[k - 1].time <= t
    requires k < |bs| ==> bs[k].time > t
    ensures SumUpTo(bs, t) == Sum(bs[..k])
  {
    if bs != [] {
      var front := bs[..|bs| - 1];
      if k == |bs| {
        assert bs[..k] == bs && front[..k - 1] == front;
        if k > 1 { assert Leq(front[k - 2], bs[k - 1]); }
        UpToIsPrefix(front, k - 1, t);
      } else {
        assert k < |bs| - 1 ==> Leq(bs[k], bs[|bs| - 1]);
        assert front[..k] == bs[..k];
        UpToIsPrefix(front, k, t);
      }
    }
  }

  /** How many boundaries are at or before t. */
  lemma {:induction false} PrefixFor(bs: seq<Boundary>, t: int) returns (k: nat)
    requires Sorted(bs)
    ensures k <= |bs| && SumUpTo(bs, t) == Sum(bs[..k])
  {
    k := 0;
    while k < |bs| && bs[k].time <= t
      invariant k <= |bs| && (k > 0 ==> bs[k - 1].time <= t)
    {
      k := k + 1;
    }
    UpToIsPrefix(bs, k, t);
  }

  lemma {:induction false} PeakBounds(bs: seq<Boundary>, k: nat)
    requires k <= |bs|
    ensures Sum(bs[..k]) <= Peak(bs) && 0 <= Peak(bs)
  {
    if bs != [] {
      if k < |bs| {
        assert bs[..|bs| - 1][..k] == bs[..k];
        PeakBounds(bs[..|bs| - 1], k);
      } else {
        assert bs[..k] == bs;
        PeakBounds(bs[..|bs| - 1], 0);
      }
    }
  }

  lemma {:induction false} PeakReached(bs: seq<Boundary>) returns (k: nat)
    ensures k <= |bs| && Sum(bs[..k]) == Peak(bs)
  {
    k := 0;
    if bs != [] {
      var front := bs[..|bs| - 1];
      k := PeakReached(front);
      assert front[..k] == bs[..k];
      if Peak(front) < Sum(bs) {
        k := |bs|;
        assert bs[..k] == bs;
      }
    }
  }

  lemma PrefixStep(bs: seq<Boundary>, k: nat)
    requires k < |bs|
    ensures Sum(bs[..k + 1]) == Sum(bs[..k]) + bs[k].delta
  {
    assert bs[..k + 1][..k] == bs[..k];
  }

  /** The running value peaks between two instants, not inside one. */
  lemma PeakInstant(bs: seq<Boundary>, k: nat) returns (t: int)
    requires Sorted(bs) && (forall b :: b in bs ==> b.delta == 1 || b.delta == -1)
    requires k <= |bs| && Sum(bs[..k]) == Peak(bs)
    ensures SumUpTo(bs, t) == Peak(bs)
  {
    if k == 0 {
      t := if bs == [] then 0 else bs[0].time - 1;
    } else {
      t := bs[k - 1].time;
      if k < |bs| && bs[k].time == t {
        assert Leq(bs[k - 1], bs[k]) && bs[k] in bs && bs[k - 1] in bs;
        PrefixStep(bs, k);
        PrefixStep(bs, k - 1);
        PeakBounds(bs, k + 1);
        PeakBounds(bs, k - 1);
        assert false;
      } else if k < |bs| {
        assert Leq(bs[k - 1], bs[k]);
      }
    }
    UpToIsPrefix(bs, k, t);
  }

  ghost predicate IsMaximum(traces: seq<Trace>, peak: int) {
    (forall t :: CountAt(traces, t) <= peak) && exists t :: CountAt(traces, t) == peak
  }

  /** The swept peak is the maximum over all instants. */
  lemma PeakIsMaximum(traces: seq<Trace>)
    ensures IsMaximum(traces, Peak(Sort(Boundaries(traces))))
  {
    var bs := Sort(Boundaries(traces));
    SortSorted(Boundaries(traces));
    UnitSteps(traces);
    forall b | b in bs ensures b.delta == 1 || b.delta == -1 {
      assert b in multiset(bs);
    }
    forall t ensures CountAt(traces, t) == SumUpTo(bs, t) && CountAt(traces, t) <= Peak(bs) {
      BoundariesCount(traces, t);
      SortKeepsSums(Boundaries(traces), t);
      var k := PrefixFor(bs, t);
      PeakBounds(bs, k);
    }
    var k := PeakReached(bs);
    var t := PeakInstant(bs, k);
    assert CountAt(traces, t) == Peak(bs);
  }

  /** Sweep the boundaries, keeping the running and the largest value. */
  method PeakWip(traces: seq<Trace>) returns (peak: int)
    ensures IsMaximum(traces, peak)
  {
    var boundaries: seq<Boundary> := [];
    for i := 0 to |traces|
      invariant boundaries == Boundaries(traces[..i])
    {
      assert traces[..i + 1][..i] == traces[..i];
      if traces[i].terminal <= traces[i].opening {
        assert boundaries + [] == boundaries;
        continue;
      }
      boundaries := boundaries + [Boundary(traces[i].opening, 1), Boundary(traces[i].terminal, -1)];
    }
    assert traces[..|traces|] == traces;
    var sorted := Sort(boundaries);
    var active := 0;
    peak := 0;
    for i := 0 to |sorted|
      invariant active == Sum(sorted[..i]) && peak == Peak(sorted[..i])
    {
      assert sorted[..i + 1][..i] == sorted[..i];
      active := active + sorted[i].delta;
      peak := if peak >= active then peak else active;
    }
    assert sorted[..|sorted|] == sorted;
    PeakIsMaximum(traces);
  }

  // ----------------------------------------------------------------- area and mean

  /** Area under the swept count, between consecutive boundaries. */
  function Area(bs: seq<Boundary>): int {
    if |bs| <= 1 then 0
    else Area(bs[..|bs| - 1]) + Sum(bs[..|bs| - 1]) * (bs[|bs| - 1].time - bs[|bs| - 2].time)
  }

  /** Between two boundaries the swept count is the true count throughout. */
  lemma CountBetween(traces: seq<Trace>, i: nat, t: int)
    requires var bs := Sort(Boundaries(traces)); i + 1 < |bs| && bs[i].time <= t < bs[i + 1].time
    ensures CountAt(traces, t) == Sum(Sort(Boundaries(traces))[..i + 1])
  {
    SortSorted(Boundaries(traces));
    BoundariesCount(traces, t);
    SortKeepsSums(Boundaries(traces), t);
    UpToIsPrefix(Sort(Boundaries(traces)), i + 1, t);
  }

  lemma {:induction false} AreaByParts(bs: seq<Boundary>)
    requires bs != []
    ensures Area(bs) == Sum(bs) * bs[|bs| - 1].time - Moment(bs)
  {
    var front, last := bs[..|bs| - 1], bs[|bs| - 1];
    if |bs| == 1 {
      assert front == [];
    } else {
      AreaByParts(front);
      Rearranged(Sum(front), last.delta, last.time, bs[|bs| - 2].time, Moment(front), Area(front));
    }
  }

  lemma Rearranged(s: int, d: int, last: int, before: int, moment: int, area: int)
    requires area == s * before - moment
    ensures area + s * (last - before) == (s + d) * last - (moment + d * last)
  {
  }

  /** The area under the sweep is the sum of lead times behind the mean. */
  lemma AreaIsLeadTime(traces: seq<Trace>)
    requires forall x :: x in traces ==> x.opening <= x.terminal
    ensures Area(Sort(Boundaries(traces))) == LeadTimes(traces)
  {
    var bs := Sort(Boundaries(traces));
    BoundariesCount(traces, 0);
    BoundariesMoment(traces);
    SortKeepsSums(Boundaries(traces), 0);
    if bs != [] {
      AreaByParts(bs);
    }
  }

  lemma Scales(a: int, b: int, x: int, y: int)
    requires a <= b && 0 <= x && 0 <= y && 0 <= b
    ensures a * x <= b * x && b * x <= b * (x + y)
  {
  }

  lemma {:induction false} AreaBounded(bs: seq<Boundary>)
    requires Sorted(bs) && bs != []
    ensures Area(bs) <= Peak(bs) * (bs[|bs| - 1].time - bs[0].time)
  {
    PeakBounds(bs, 0);
    if |bs| > 1 {
      var front := bs[..|bs| - 1];
      AreaBounded(front);
      PeakBounds(bs, |bs| - 1);
      assert Leq(bs[0], bs[|bs| - 2]) || |bs| == 2;
      assert Leq(bs[|bs| - 2], bs[|bs| - 1]);
      var done, step := bs[|bs| - 2].time - bs[0].time, bs[|bs| - 1].time - bs[|bs| - 2].time;
      Scales(Peak(front), Peak(bs), done, 0);
      Scales(Sum(front), Peak(bs), step, 0);
      assert Peak(bs) * (done + step) == Peak(bs) * done + Peak(bs) * step;
    }
  }

  lemma {:induction false} BoundariesWithin(traces: seq<Trace>, start: int, end: int)
    requires forall x :: x in traces ==> start <= x.opening <= x.terminal <= end
    ensures forall b :: b in Boundaries(traces) ==> start <= b.time <= end
  {
    if traces != [] {
      BoundariesWithin(traces[..|traces| - 1], start, end);
    }
  }

  lemma WidensTo(bs: seq<Boundary>, start: int, end: int)
    requires bs != [] && start <= bs[0].time <= bs[|bs| - 1].time <= end && 0 <= Peak(bs)
    ensures Peak(bs) * (bs[|bs| - 1].time - bs[0].time) <= Peak(bs) * (end - start)
  {
    hide Peak;
    var held := bs[|bs| - 1].time - bs[0].time;
    Scales(Peak(bs), Peak(bs), held, end - start - held);
  }

  /** Total lead time is at most the peak held over the whole observation span, so
      the mean work in progress never exceeds the peak. */
  lemma MeanBelowPeak(traces: seq<Trace>, start: int, end: int)
    requires start < end && forall x :: x in traces ==> start <= x.opening <= x.terminal <= end
    ensures LeadTimes(traces) <= Peak(Sort(Boundaries(traces))) * (end - start)
    ensures LeadTimes(traces) as real / (end - start) as real <= Peak(Sort(Boundaries(traces))) as real
  {
    var bs := Sort(Boundaries(traces));
    AreaIsLeadTime(traces);
    SortSorted(Boundaries(traces));
    BoundariesWithin(traces, start, end);
    PeakBounds(bs, 0);
    if bs != [] {
      AreaBounded(bs);
      assert bs[0] in multiset(bs) && bs[|bs| - 1] in multiset(bs);
      assert Leq(bs[0], bs[|bs| - 1]) || |bs| == 1;
      WidensTo(bs, start, end);
    }
    hide Area, LeadTimes, Sort, Boundaries, Sorted;
    Divides(LeadTimes(traces), Peak(bs), end - start);
  }

  lemma Divides(total: int, peak: int, span: int)
    requires span > 0 && total <= peak * span
    ensures total as real / span as real <= peak as real
  {
    assert total as real <= peak as real * span as real;
  }
}
