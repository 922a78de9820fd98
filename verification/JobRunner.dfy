/**
 Recurring simulation jobs: one durable checkpoint, one durable tick counter,
 and a process that may be killed between any two transactions.
 */
module JobRunner {
  import opened Outcomes

  /** A batch derives one trigger per tick from its own. */
  datatype TriggerId = External(name: string) | Child(batch: string, number: nat)

  datatype Status = Ready | Running | Paused | Failed

  datatype Phase = Idle | Advance | Reconcile

  datatype Record = Record(trigger: string, requested: nat, startTick: nat, endTick: nat, runCount: nat)

  datatype Job = Job(
    status: Status,
    phase: Phase,
    nextTick: nat,
    runCount: nat,
    active: Option<TriggerId>,
    lastCompleted: Option<TriggerId>,
    batch: Option<string>,
    total: nat,
    completed: nat,
    records: seq<Record>)

  const Initialized: Job := Job(Ready, Idle, 0, 0, None, None, None, 0, 0, [])

  function Expected(j: Job): TriggerId
    requires j.batch.Some?
  {
    Child(j.batch.value, j.completed + 1)
  }

  /** Ticks of the current trigger that are committed but not yet counted. */
  function Uncounted(j: Job, tick: int): int
    requires j.batch.Some?
  {
    if j.active.None? then (if j.lastCompleted == Some(Expected(j)) then 1 else 0)
    else if j.phase == Advance then tick - j.nextTick
    else 1
  }

  /** Children lo+1, ..., hi of a batch, in order. */
  function Children(batch: string, lo: nat, hi: nat): seq<TriggerId>
    requires lo <= hi
  {
    seq(hi - lo, i requires 0 <= i < hi - lo => Child(batch, lo + i + 1))
  }

  /** What every committed checkpoint satisfies beside its tick counter. */
  ghost predicate CheckpointSound(j: Job, tick: nat) {
    && (j.phase == Idle <==> j.active.None?)
    && (j.phase != Advance ==> j.nextTick == tick)
    && (j.phase == Advance ==> j.nextTick <= tick <= j.nextTick + 1)
    && (j.status == Running ==> j.active.Some?)
    && (j.active.Some? ==> j.lastCompleted != j.active)
    && (j.lastCompleted.Some? || j.phase == Reconcile ==> tick >= 1)
    && (j.batch.Some? ==>
          && j.completed <= j.total && 1 <= j.total && j.status != Paused && j.batch.value != ""
          && (j.active.Some? ==> j.active.value == Expected(j))
          && (j.status == Ready ==> j.active.None?)
          && forall r :: r in j.records ==> r.trigger != j.batch.value)
  }

  /** The log of committed advances matches the counter, and since the current
      batch was claimed it holds exactly the batch's children, once each. */
  ghost predicate LogSound(j: Job, advances: seq<TriggerId>, mark: nat, skipped: nat) {
    && mark <= |advances| && skipped <= 1
    && (j.batch.Some? ==>
          && skipped <= j.completed + Uncounted(j, |advances|) && skipped <= mark
          && advances[mark..] == Children(j.batch.value, skipped, j.completed + Uncounted(j, |advances|)))
  }

  /** Nothing stands in the way of running or recovering this tick. */
  predicate Runnable(j: Job, trigger: TriggerId) {
    && j.status != Paused && (j.batch.Some? ==> trigger == Expected(j))
    && (j.active.Some? ==> j.active.value == trigger)
  }

  lemma ChildrenGrow(batch: string, lo: nat, hi: nat)
    requires lo <= hi
    ensures Children(batch, lo, hi + 1) == Children(batch, lo, hi) + [Child(batch, hi + 1)]
  {
  }

  ghost predicate Sound(j: Job, tick: nat, advances: seq<TriggerId>, mark: nat, skipped: nat) {
    CheckpointSound(j, tick) && |advances| == tick && LogSound(j, advances, mark, skipped)
  }

  // ---------------------------------------------------- checkpoints of one tick

  predicate Unresolved(j: Job) {
    j.active.Some? && j.status in {Running, Failed}
  }

  /** A tick may run only as the batch's next child, while the job is not paused,
      and an unresolved trigger gives way to nobody but its own recovery. */
  predicate ClaimRefused(j: Job, trigger: TriggerId, recover: bool) {
    || (j.batch.Some? && trigger != Expected(j))
    || (j.lastCompleted != Some(trigger) && (j.status == Paused || (Unresolved(j) && !(recover && j.active == Some(trigger)))))
  }

  /** The checkpoint after a tick claim that is allowed. */
  function Claimed(j: Job, trigger: TriggerId): Job {
    if Unresolved(j) then j.(status := Running)
    else j.(status := Running, phase := Advance, active := Some(trigger))
  }

  lemma ClaimedSound(j: Job, trigger: TriggerId, tick: nat, advances: seq<TriggerId>, mark: nat, skipped: nat)
    requires Sound(j, tick, advances, mark, skipped)
    requires j.lastCompleted != Some(trigger) && (j.batch.Some? ==> trigger == Expected(j))
    requires j.status != Paused && (Unresolved(j) ==> j.active == Some(trigger))
    ensures Sound(Claimed(j, trigger), tick, advances, mark, skipped)
  {
    hide Children;
  }

  function Reached(j: Job, tick: nat): Job {
    j.(phase := Reconcile, nextTick := tick)
  }

  lemma ReachedSound(j: Job, tick: nat, advances: seq<TriggerId>, mark: nat, skipped: nat)
    requires Sound(j, tick, advances, mark, skipped) && j.phase == Advance && tick == j.nextTick + 1
    ensures Sound(Reached(j, tick), tick, advances, mark, skipped)
  {
    hide Children;
  }

  function Finalized(j: Job, tick: nat, trigger: TriggerId): Job {
    var runs := if j.runCount + 1 >= tick then j.runCount + 1 else tick;
    j.(status := Ready, phase := Idle, nextTick := tick, runCount := runs, active := None, lastCompleted := Some(trigger))
  }

  lemma FinalizedSound(j: Job, trigger: TriggerId, tick: nat, advances: seq<TriggerId>, mark: nat, skipped: nat)
    requires Sound(j, tick, advances, mark, skipped) && j.phase == Reconcile && j.active == Some(trigger)
    ensures Sound(Finalized(j, tick, trigger), tick, advances, mark, skipped)
  {
    hide Children;
  }

  lemma AdvancedSound(j: Job, trigger: TriggerId, tick: nat, advances: seq<TriggerId>, mark: nat, skipped: nat)
    requires Sound(j, tick, advances, mark, skipped) && j.phase == Advance && j.active == Some(trigger) && j.nextTick == tick
    ensures Sound(j, tick + 1, advances + [trigger], mark, skipped)
  {
    assert (advances + [trigger])[mark..] == advances[mark..] + [trigger];
    if j.batch.Some? {
      ChildrenGrow(j.batch.value, skipped, j.completed);
    }
    hide Children;
  }

  lemma FailedSound(j: Job, tick: nat, advances: seq<TriggerId>, mark: nat, skipped: nat)
    requires Sound(j, tick, advances, mark, skipped) && j.status != Paused
    ensures Sound(j.(status := Failed), tick, advances, mark, skipped)
  {
    hide Children;
  }

  // ------------------------------------------------ whose advance each tick was

  /** Triggers that completed, with their multiplicity; committed advances that
      were dropped with the claim they were made for; and triggers that took such
      an advance for their own. */
  datatype Ledger = Ledger(done: multiset<TriggerId>, abandoned: multiset<TriggerId>, takenOver: multiset<TriggerId>)

  const NothingYet: Ledger := Ledger(multiset{}, multiset{}, multiset{})

  /** The active trigger's tick is committed and the trigger is not completed. */
  predicate Advanced(j: Job, tick: nat) {
    j.active.Some? && (j.phase == Reconcile || (j.phase == Advance && tick > j.nextTick))
  }

  function Owner(j: Job, tick: nat): multiset<TriggerId> {
    if Advanced(j, tick) then multiset{j.active.value} else multiset{}
  }

  /** Every committed advance was for a trigger that completed, for the one that
      is active, or is accounted for as abandoned; every completed trigger has
      its advance, or is accounted for as having taken one over. */
  ghost predicate Credited(j: Job, tick: nat, advances: seq<TriggerId>, l: Ledger) {
    multiset(advances) + l.takenOver == l.done + l.abandoned + Owner(j, tick)
  }

  /** A claim drops the claim of a trigger whose tick is committed: the job was
      paused and resumed after that trigger failed. */
  predicate Abandons(j: Job, tick: nat, trigger: TriggerId) {
    !Unresolved(j) && Advanced(j, tick) && !(j.phase == Advance && j.active == Some(trigger))
  }

  /** The dropped advance passes for the claiming trigger's own. */
  predicate TakesOver(j: Job, tick: nat, trigger: TriggerId) {
    Abandons(j, tick, trigger) && j.phase == Advance
  }

  function AfterClaim(l: Ledger, j: Job, tick: nat, trigger: TriggerId): (after: Ledger)
    ensures after.done == l.done
  {
    if !Abandons(j, tick, trigger) then l
    else l.(abandoned := l.abandoned + multiset{j.active.value},
            takenOver := l.takenOver + if TakesOver(j, tick, trigger) then multiset{trigger} else multiset{})
  }

  /** Recovering a trigger, or claiming where none is active, drops nothing. */
  lemma NothingDropped(j: Job, tick: nat, trigger: TriggerId, l: Ledger)
    ensures j.active.None? || Unresolved(j) ==> AfterClaim(l, j, tick, trigger) == l && (MustAdvance(j, tick) <==> !Advanced(j, tick))
    ensures j.active.None? ==> !Advanced(j, tick)
  {
  }

  function AfterCompletion(l: Ledger, trigger: TriggerId): Ledger {
    l.(done := l.done + multiset{trigger})
  }

  /** A tick that is claimed in this checkpoint and completes has to advance. */
  predicate MustAdvance(j: Job, tick: nat) {
    !(j.active.Some? && j.phase == Advance && tick > j.nextTick) && !(Unresolved(j) && j.phase == Reconcile)
  }

  lemma ClaimCredited(j: Job, trigger: TriggerId, tick: nat, advances: seq<TriggerId>, mark: nat, skipped: nat, l: Ledger)
    requires Sound(j, tick, advances, mark, skipped) && Credited(j, tick, advances, l)
    requires Unresolved(j) ==> j.active == Some(trigger)
    ensures Credited(Claimed(j, trigger), tick, advances, AfterClaim(l, j, tick, trigger))
    ensures MustAdvance(j, tick) <==> !Advanced(Claimed(j, trigger), tick)
    ensures Claimed(j, trigger).phase != Idle
  {
    hide LogSound;
    var log, own := multiset(advances), multiset{trigger};
    if Abandons(j, tick, trigger) {
      assert Owner(j, tick) == multiset{j.active.value};
      if j.phase == Advance {
        assert Owner(Claimed(j, trigger), tick) == own;
        assert log + (l.takenOver + own) == (log + l.takenOver) + own;
        assert l.done + l.abandoned + Owner(j, tick) + own == l.done + (l.abandoned + Owner(j, tick)) + own;
      } else {
        assert Owner(Claimed(j, trigger), tick) == multiset{};
        assert l.takenOver + multiset{} == l.takenOver;
        assert l.done + l.abandoned + Owner(j, tick) == l.done + (l.abandoned + Owner(j, tick)) + multiset{};
      }
    }
  }

  lemma SameOwner(j: Job, next: Job, tick: nat, advances: seq<TriggerId>, l: Ledger)
    requires Credited(j, tick, advances, l) && j.active == next.active && (Advanced(j, tick) <==> Advanced(next, tick))
    ensures Credited(next, tick, advances, l)
  {
  }

  lemma AdvanceCredited(j: Job, trigger: TriggerId, tick: nat, advances: seq<TriggerId>, l: Ledger)
    requires Credited(j, tick, advances, l) && j.phase == Advance && j.active == Some(trigger) && j.nextTick == tick
    ensures Credited(j, tick + 1, advances + [trigger], l)
  {
    var log, own := multiset(advances), multiset{trigger};
    assert multiset(advances + [trigger]) == log + own;
    assert Owner(j, tick + 1) == own && Owner(j, tick) == multiset{};
    assert log + own + l.takenOver == (log + l.takenOver) + own;
  }

  lemma CompletionCredited(j: Job, trigger: TriggerId, tick: nat, advances: seq<TriggerId>, l: Ledger)
    requires Credited(j, tick, advances, l) && j.phase == Reconcile && j.active == Some(trigger)
    ensures Credited(Finalized(j, tick, trigger), tick, advances, AfterCompletion(l, trigger))
  {
    var own := multiset{trigger};
    assert Owner(j, tick) == own && Owner(Finalized(j, tick, trigger), tick) == multiset{};
    assert l.done + l.abandoned + own == (l.done + own) + l.abandoned + multiset{};
  }

  /** Between ticks, a trigger that completed once stands in the log exactly once
      if and only if it dropped as many advances as it took over: none and none,
      unless the job was paused and resumed on a committed tick. */
  lemma ExactlyOnce(j: Job, tick: nat, advances: seq<TriggerId>, l: Ledger, trigger: TriggerId)
    requires Credited(j, tick, advances, l) && j.active.None? && l.done[trigger] == 1
    ensures multiset(advances)[trigger] == 1 <==> l.abandoned[trigger] == l.takenOver[trigger]
  {
    var both := multiset(advances) + l.takenOver;
    assert both[trigger] == (l.done + l.abandoned + Owner(j, tick))[trigger];
  }

  /** Between ticks the log is the completed triggers, each as often as it
      completed, if and only if exactly what was dropped was taken over. */
  lemma LogIsCompletions(j: Job, tick: nat, advances: seq<TriggerId>, l: Ledger)
    requires Credited(j, tick, advances, l) && j.active.None?
    ensures multiset(advances) == l.done <==> l.abandoned == l.takenOver
  {
    var log := multiset(advances);
    assert log + l.takenOver == l.done + l.abandoned;
    if log == l.done {
      assert l.takenOver == (log + l.takenOver) - log == (l.done + l.abandoned) - l.done == l.abandoned;
    }
    if l.abandoned == l.takenOver {
      assert log == (log + l.takenOver) - l.takenOver == (l.done + l.abandoned) - l.abandoned == l.done;
    }
  }

  // --------------------------------------------------- checkpoints of a batch

  /** Pause and resume are refused while a trigger runs or a batch is active. */
  predicate StatusAllowed(j: Job, status: Status) {
    && j.status != Running && j.batch.None?
    && !(status == Ready && j.status == Failed && j.active.Some?)
  }

  lemma StatusSound(j: Job, status: Status, tick: nat, advances: seq<TriggerId>, mark: nat, skipped: nat)
    requires Sound(j, tick, advances, mark, skipped) && StatusAllowed(j, status) && status in {Paused, Ready}
    ensures Sound(j.(status := status), tick, advances, mark, skipped)
  {
    hide Children;
  }

  /** Pausing and resuming a failed direct tick drops its claim. The next trigger
      is then claimed with a tick ahead of its own, exactly when the failed tick
      had been committed but not yet noted. */
  lemma ResumeForgetsFailure(j: Job, other: TriggerId, tick: nat, advances: seq<TriggerId>, mark: nat, skipped: nat)
    requires Sound(j, tick, advances, mark, skipped) && j.status == Failed && j.active.Some? && j.batch.None?
    ensures StatusAllowed(j, Paused) && StatusAllowed(j.(status := Paused), Ready) && !StatusAllowed(j, Ready)
    ensures var next := Claimed(j.(status := Ready), other);
            && next.active == Some(other) && next.phase == Advance
            && (tick > next.nextTick <==> j.phase == Advance && tick == j.nextTick + 1)
  {
    hide LogSound;
  }

  lemma BatchClaimSound(j: Job, trigger: string, n: nat, tick: nat, advances: seq<TriggerId>, mark: nat, skipped: nat)
    requires Sound(j, tick, advances, mark, skipped) && j.batch.None? && n >= 1 && trigger != ""
    requires j.status == Ready && j.phase == Idle && j.active.None? && forall r :: r in j.records ==> r.trigger != trigger
    ensures Sound(j.(batch := Some(trigger), total := n, completed := 0), tick, advances, tick,
                  if j.lastCompleted == Some(Child(trigger, 1)) then 1 else 0)
  {
    assert advances[tick..] == [];
  }

  lemma ProgressSound(j: Job, tick: nat, advances: seq<TriggerId>, mark: nat, skipped: nat)
    requires Sound(j, tick, advances, mark, skipped) && j.batch.Some? && j.completed < j.total
    requires j.lastCompleted == Some(Expected(j)) && j.active.None?
    ensures Sound(j.(completed := j.completed + 1), tick, advances, mark, skipped)
  {
    hide Children;
  }

  function Closed(j: Job, trigger: string, n: nat, startTick: nat): Job {
    j.(batch := None, total := 0, completed := 0,
       records := j.records + [Record(trigger, n, startTick, j.nextTick, j.runCount)])
  }

  lemma ClosedSound(j: Job, trigger: string, n: nat, startTick: nat, tick: nat, advances: seq<TriggerId>, mark: nat, skipped: nat)
    requires Sound(j, tick, advances, mark, skipped) && j.batch == Some(trigger)
    ensures Sound(Closed(j, trigger, n, startTick), tick, advances, mark, skipped)
  {
    hide Children;
  }

  lemma BatchBounds(j: Job, tick: nat, advances: seq<TriggerId>, mark: nat, skipped: nat)
    requires Sound(j, tick, advances, mark, skipped)
    ensures j.batch.Some? ==>
              && j.completed <= j.total && 1 <= j.total
              && j.nextTick - j.completed >= 0 && Uncounted(j, tick) >= 0
              && j.nextTick - j.completed == mark - skipped + (if j.phase == Advance then 0 else Uncounted(j, tick))
    ensures j.active.None? <==> j.phase == Idle
    ensures j.active.None? ==> j.nextTick == tick
    ensures |advances| == tick && mark <= tick
  {
  }

  lemma AppendsChildren(before: seq<TriggerId>, advances: seq<TriggerId>, mark: nat, trigger: string, n: nat)
    requires before <= advances && mark == |before| && advances[mark..] == Children(trigger, 0, n)
    ensures advances == before + Children(trigger, 0, n) && |advances| == |before| + n
  {
    assert advances == advances[..mark] + advances[mark..];
  }

  lemma BatchLog(j: Job, tick: nat, advances: seq<TriggerId>, mark: nat, skipped: nat)
    requires Sound(j, tick, advances, mark, skipped)
    ensures mark <= |advances| && |advances| == tick
    ensures j.batch.Some? ==>
              && skipped <= j.completed + Uncounted(j, tick)
              && advances[mark..] == Children(j.batch.value, skipped, j.completed + Uncounted(j, tick))
  {
    hide Children;
  }

  /** Between children, whatever is active is the next child. */
  lemma ActiveIsChild(j: Job, tick: nat, advances: seq<TriggerId>, mark: nat, skipped: nat)
    requires Sound(j, tick, advances, mark, skipped) && j.batch.Some?
    ensures Runnable(j, Expected(j))
  {
    hide Children;
  }

  lemma FinishedIsIdle(j: Job, tick: nat, advances: seq<TriggerId>, mark: nat, skipped: nat)
    requires Sound(j, tick, advances, mark, skipped) && j.batch.Some? && j.lastCompleted == Some(Expected(j))
    ensures j.active.None?
  {
    hide Children;
  }

  /** Ticks advanced under an exhausted batch by callers who forged the id of a
      child beyond its last. */
  function Overrun(j: Job, tick: int, trigger: string): int {
    if j.batch == Some(trigger) && j.completed == j.total then Uncounted(j, tick) else 0
  }

  /** The log since the claim is exactly the batch's children if and only if the
      claim found none of them done and nobody forged one beyond the last. */
  lemma ExactlyTheChildren(batch: string, skipped: nat, n: nat, extra: nat)
    requires 1 <= n && skipped <= n + extra
    ensures Children(batch, skipped, n + extra) == Children(batch, 0, n) <==> skipped == 0 && extra == 0
  {
    if Children(batch, skipped, n + extra) == Children(batch, 0, n) {
      assert |Children(batch, skipped, n + extra)| == n + extra - skipped == n;
      assert Children(batch, skipped, n + extra)[0] == Child(batch, skipped + 1);
      assert Children(batch, 0, n)[0] == Child(batch, 1);
    }
  }

  lemma NoOverrun(j: Job, tick: int, trigger: string)
    ensures j.batch != Some(trigger) || j.completed != j.total ==> Overrun(j, tick, trigger) == 0
  {
  }

  lemma NonnegativeOverrun(j: Job, tick: nat, advances: seq<TriggerId>, mark: nat, skipped: nat, trigger: string)
    requires Sound(j, tick, advances, mark, skipped)
    ensures Overrun(j, tick, trigger) >= 0
  {
    hide Children;
  }

  /** The checkpoint `resumed` is `before` with the batch claimed. */
  predicate Resumes(before: Job, resumed: Job, trigger: string, n: nat) {
    && resumed.batch == Some(trigger) && resumed.total == n
    && if before.batch == Some(trigger) then resumed == before
       else before.active.None? && resumed == before.(batch := Some(trigger), total := n, completed := 0)
  }

  /** After the children ran, the overrun is what it was before. */
  lemma NothingUncounted(before: Job, beforeTick: int, resumed: Job, done: Job, tick: int, trigger: string, n: nat)
    requires Resumes(before, resumed, trigger, n) && done.batch == Some(trigger) && done.completed == done.total == n && n >= 1
    requires if resumed.completed == n then done == resumed && tick == beforeTick
             else done.active.None? && done.lastCompleted == Some(Child(trigger, n))
    ensures Uncounted(done, tick) == Overrun(done, tick, trigger) == Overrun(before, beforeTick, trigger)
  {
  }

  /** Claiming changes no overrun. */
  lemma SameOverrun(before: Job, resumed: Job, tick: int, trigger: string, n: nat)
    requires Resumes(before, resumed, trigger, n) && n >= 1
    ensures Overrun(resumed, tick, trigger) == Overrun(before, tick, trigger)
  {
  }

  lemma StartTick(before: Job, resumed: Job, tick: nat, trigger: string, n: nat, mark: nat, skipped: nat)
    requires Resumes(before, resumed, trigger, n) && (resumed.active.None? <==> resumed.phase == Idle)
    requires resumed.nextTick - resumed.completed == mark - skipped + (if resumed.phase == Advance then 0 else Uncounted(resumed, tick))
    ensures resumed.nextTick - resumed.completed == mark - skipped <==> StartTickRight(before, trigger)
  {
  }

  /** Resumed while a child was reconciling, or between its completion and its
      being counted, a batch reports a start tick that is one too high. */
  predicate StartTickRight(j: Job, trigger: string) {
    if j.batch == Some(trigger) && j.active.Some? then j.phase == Advance
    else j.lastCompleted != Some(Child(trigger, (if j.batch == Some(trigger) then j.completed else 0) + 1))
  }

  /** How one tick fares when the process is not killed. */
  datatype Fate = Fate(advanceFails: bool, settleFails: bool, reconcileFails: bool, flushFails: bool)

  datatype Outcome = Finished | Died | Raised

  class SimulationJob {
    const ticksPerTrigger: int
    const maxTicks: int
    var job: Job
    var tick: nat                           // durable logical tick of the simulation position
    var life: nat                           // transactions left before the process is killed
    ghost var advances: seq<TriggerId>      // which trigger each committed tick was for
    ghost var mark: nat                     // ticks committed when the last batch was claimed
    ghost var skipped: nat                  // 1 where that batch found its first child done already
    ghost var ledger: Ledger                // whose each committed tick came to be

    ghost predicate Valid()
      reads this
    {
      Sound(job, tick, advances, mark, skipped) && Credited(job, tick, advances, ledger)
    }

    constructor (perTrigger: int, max: int)
      ensures Valid() && job == Initialized && tick == 0 && advances == [] && ledger == NothingYet && ticksPerTrigger == perTrigger && maxTicks == max
    {
      ticksPerTrigger, maxTicks := perTrigger, max;
      job, tick, life := Initialized, 0, 0;
      advances, mark, skipped, ledger := [], 0, 0, NothingYet;
    }

    method Survives() returns (alive: bool)
      modifies this`life
      ensures alive <==> old(life) > 0
      ensures life == if alive then old(life) - 1 else 0
    {
      alive := life > 0;
      if alive { life := life - 1; }
    }

    // ---------------------------------------------------------------- one tick

    /** Nothing a tick does changes the batch bookkeeping. */
    twostate predicate BatchKept()
      reads this
    {
      && job.batch == old(job.batch) && job.total == old(job.total) && job.completed == old(job.completed)
      && job.records == old(job.records) && mark == old(mark) && skipped == old(skipped)
    }

    /** Claim the trigger, or report that it is done or may not run. */
    method ClaimTick(trigger: TriggerId, recover: bool) returns (out: Option<Outcome>)
      requires Valid()
      modifies this`job, this`life, this`ledger
      ensures Valid() && BatchKept()
      ensures ledger == if out.None? then AfterClaim(old(ledger), old(job), tick, trigger) else old(ledger)
      ensures out.None? ==> (Advanced(job, tick) <==> !MustAdvance(old(job), tick)) && job.phase != Idle
      ensures out == Some(Died) ==> old(life) == 0
      ensures out == Some(Finished) ==> job == old(job) && job.lastCompleted == Some(trigger)
      ensures out.Some? && out.value != Finished ==> job == old(job)
      ensures out.None? ==> job == Claimed(old(job), trigger) && old(job.lastCompleted) != Some(trigger)
                            && job.active == Some(trigger) && job.status == Running && old(Unresolved(job) ==> job.active == Some(trigger))
      ensures old(life) > 0 ==> life >= old(life) - 1
      ensures old(life) > 0 ==> (out == Some(Raised) <==> ClaimRefused(old(job), trigger, recover))
      ensures old(life) > 0 ==>
                (out == Some(Raised) <==>
                   || (old(job.batch).Some? && trigger != Child(old(job.batch).value, old(job.completed) + 1))
                   || (old(job.lastCompleted) != Some(trigger)
                       && (old(job.status) == Paused
                           || (old(job.active).Some? && old(job.status) in {Running, Failed} && !(recover && old(job.active) == Some(trigger))))))
      ensures old(life) > 0 && recover && old(Runnable(job, trigger)) ==> out in {None, Some(Finished)}
    {
      hide Sound, Credited, AfterClaim, MustAdvance, Advanced;
      if job.batch.Some? && trigger != Expected(job) {
        return Some(Raised);
      }
      if job.lastCompleted == Some(trigger) {
        var committed := Survives();
        return if committed then Some(Finished) else Some(Died);
      }
      var alive := Survives();
      if !alive {
        return Some(Died);
      }
      if job.status == Paused {
        return Some(Raised);
      }
      if Unresolved(job) && !(recover && job.active == Some(trigger)) {
        return Some(Raised);
      }
      ClaimedSound(job, trigger, tick, advances, mark, skipped);
      ClaimCredited(job, trigger, tick, advances, mark, skipped, ledger);
      ledger := AfterClaim(ledger, job, tick, trigger);
      job := Claimed(job, trigger);
      return None;
    }

    /** The process reports an exception and records the failure. */
    method Fail() returns (out: Outcome)
      requires Valid() && job.status != Paused
      modifies this`job, this`life
      ensures Valid() && BatchKept() && out == (if old(life) > 0 then Raised else Died)
      ensures job == if out == Raised then old(job).(status := Failed) else old(job)
    {
      hide Sound, Credited;
      var alive := Survives();
      if !alive {
        return Died;
      }
      FailedSound(job, tick, advances, mark, skipped);
      SameOwner(job, job.(status := Failed), tick, advances, ledger);
      job := job.(status := Failed);
      return Raised;
    }

    /** Commit one checkpoint of the tick this process owns. */
    method Save(next: Job) returns (saved: bool)
      requires Valid() && Sound(next, tick, advances, mark, skipped)
      requires Credited(next, tick, advances, ledger)
      modifies this`job, this`life
      ensures Valid() && (saved <==> old(life) > 0)
      ensures life == if saved then old(life) - 1 else 0
      ensures job == if saved then next else old(job)
    {
      hide Sound, Credited;
      saved := Survives();
      if saved {
        job := next;
      }
    }

    /** The engine commits the position one tick further, in one transaction. */
    method AdvanceEngine(ghost trigger: TriggerId) returns (advanced: bool)
      requires Valid() && job.phase == Advance && job.active == Some(trigger) && job.nextTick == tick
      modifies this`tick, this`life, this`advances
      ensures Valid() && (advanced <==> old(life) > 0)
      ensures life == if advanced then old(life) - 1 else 0
      ensures tick == old(tick) + if advanced then 1 else 0
      ensures advances == old(advances) + if advanced then [trigger] else []
    {
      hide Sound, Credited;
      advanced := Survives();
      if advanced {
        AdvancedSound(job, trigger, tick, advances, mark, skipped);
        AdvanceCredited(job, trigger, tick, advances, ledger);
        tick := tick + 1;
        advances := advances + [trigger];
      } else {
        assert advances + [] == advances;
      }
    }

    /** Bring the claimed trigger's tick from wherever a previous life left it to
        the reconcile phase: the engine advances at most once per trigger. */
    method ReachReconcile(trigger: TriggerId, fate: Fate) returns (out: Option<Outcome>)
      requires Valid() && job.active == Some(trigger) && job.status == Running
      modifies this`job, this`tick, this`life, this`advances
      ensures Valid() && BatchKept()
      ensures out.Some? ==> out.value != Finished && job.active == Some(trigger) && Unresolved(job) && job.phase != Idle
      ensures job.lastCompleted == old(job.lastCompleted) && job.runCount == old(job.runCount)
      ensures old(Advanced(job, tick)) ==> Advanced(job, tick)
      ensures advances == old(advances) + if Advanced(job, tick) && !old(Advanced(job, tick)) then [trigger] else []
      ensures out.None? ==> job.active == Some(trigger) && job.phase == Reconcile && job.status == Running
      ensures old(job.phase == Reconcile) ==> tick == old(tick)
      ensures old(advances) <= advances && old(tick) <= tick <= old(tick) + 1
      ensures tick == old(tick) + 1 ==> advances == old(advances) + [trigger]
      ensures tick == old(tick) ==> advances == old(advances)
      ensures old(job.phase == Advance) ==> old(tick) <= tick <= old(job.nextTick) + 1
      ensures out.None? && old(job.phase == Advance) ==> tick == old(job.nextTick) + 1
      ensures out.None? ==> advances == old(advances) + if old(Advanced(job, tick)) then [] else [trigger]
      ensures !fate.advanceFails && !fate.settleFails && old(life) >= 3 ==> out.None? && life >= old(life) - 3
    {
      hide LogSound, Credited;
      var saved;
      if job.phase == Advance && tick > job.nextTick {
        SameOwner(job, Reached(job, tick), tick, advances, ledger);
        ReachedSound(job, tick, advances, mark, skipped);
        saved := Save(Reached(job, tick));
        return if saved then None else Some(Died);
      }
      if job.phase != Advance {
        return None;
      }
      assert job.(nextTick := tick) == job;
      saved := Save(job.(nextTick := tick));
      if !saved {
        return Some(Died);
      }
      if fate.advanceFails {
        var failed := Fail();
        return Some(failed);
      }
      var advanced := AdvanceEngine(trigger);
      if !advanced {
        return Some(Died);
      }
      if fate.settleFails {
        var failed := Fail();
        return Some(failed);
      }
      SameOwner(job, Reached(job, tick), tick, advances, ledger);
      ReachedSound(job, tick, advances, mark, skipped);
      saved := Save(Reached(job, tick));
      return if saved then None else Some(Died);
    }

    /** The reconciled tick becomes the last completed one. */
    method CompleteTick(trigger: TriggerId) returns (saved: bool)
      requires Valid() && job.active == Some(trigger) && job.phase == Reconcile && job.status == Running
      modifies this`job, this`life, this`ledger
      ensures Valid() && BatchKept() && (saved <==> old(life) > 0)
      ensures ledger == if saved then AfterCompletion(old(ledger), trigger) else old(ledger)
      ensures life == if saved then old(life) - 1 else 0
      ensures job == if saved then Finalized(old(job), tick, trigger) else old(job)
    {
      hide Sound, Credited, AfterCompletion;
      saved := Survives();
      if saved {
        FinalizedSound(job, trigger, tick, advances, mark, skipped);
        CompletionCredited(job, trigger, tick, advances, ledger);
        ledger := AfterCompletion(ledger, trigger);
        job := Finalized(job, tick, trigger);
      }
    }

    /** The claimed trigger is unresolved, and its tick is committed or not. */
    twostate predicate Underway(trigger: TriggerId)
      reads this
    {
      && job.active == Some(trigger) && Unresolved(job) && job.lastCompleted == old(job.lastCompleted)
      && (Advanced(job, tick) || old(MustAdvance(job, tick)))
      && advances == old(advances) + (if Advanced(job, tick) && old(MustAdvance(job, tick)) then [trigger] else [])
      && ledger == AfterClaim(old(ledger), old(job), old(tick), trigger)
    }

    /** The trigger completed, with an advance of its own or one it found. */
    twostate predicate Completed(trigger: TriggerId)
      reads this
    {
      && job.active.None? && job.lastCompleted == Some(trigger)
      && advances == old(advances) + (if old(MustAdvance(job, tick)) then [trigger] else [])
      && ledger == AfterCompletion(AfterClaim(old(ledger), old(job), old(tick), trigger), trigger)
    }

    /** Run or recover one tick. When it returns, the trigger is the last
        completed one; a trigger that already was changes nothing. A trigger that
        completes for the first time then stands in the log of all lives exactly
        once, if and only if it dropped as many advances as it took over. */
    method RunTick(trigger: TriggerId, recover: bool, fate: Fate) returns (out: Outcome)
      requires Valid()
      modifies this`job, this`tick, this`life, this`advances, this`ledger
      ensures Valid() && BatchKept()
      ensures out == Finished ==> job.lastCompleted == Some(trigger)
      ensures old(advances) <= advances && old(tick) <= tick <= old(tick) + 1
      ensures tick == old(tick) + 1 ==> advances == old(advances) + [trigger]
      ensures out == Finished && old(job.lastCompleted) != Some(trigger) ==> job.active.None? && job.phase == Idle && job.status == Ready
      ensures old(job.lastCompleted) == Some(trigger) ==> job == old(job) && tick == old(tick) && advances == old(advances)
      ensures out == Finished && old(job.lastCompleted) != Some(trigger) ==>
                tick == if old(Unresolved(job) && job.phase == Reconcile) then old(tick) else old(job.nextTick) + 1
      ensures out == Finished && old(job.lastCompleted) != Some(trigger) ==> Completed(trigger)
      ensures out == Finished && old(job.lastCompleted) != Some(trigger) ==>
                job.nextTick == tick && job.runCount == if old(job.runCount) + 1 >= tick then old(job.runCount) + 1 else tick
      ensures out == Finished && old(job.lastCompleted) != Some(trigger) && old(ledger).done[trigger] == 0 ==>
                (multiset(advances)[trigger] == 1 <==> ledger.abandoned[trigger] == ledger.takenOver[trigger])
      ensures old(job.lastCompleted) == Some(trigger) ==> ledger == old(ledger)
      ensures out != Finished ==>
                || (job == old(job) && advances == old(advances) && ledger == old(ledger))
                || Underway(trigger)
                || Completed(trigger)
      ensures Benign(fate) && old(life) >= 5 && recover && old(Runnable(job, trigger)) ==> out == Finished && life >= old(life) - 5
      ensures Benign(fate) && old(life) >= 5 && !old(ClaimRefused(job, trigger, recover)) ==> out == Finished
    {
      hide Sound, Credited, AfterClaim, MustAdvance, Advanced;
      var claimed := ClaimTick(trigger, recover);
      if claimed.Some? {
        return claimed.value;
      }
      out := RunClaimed(trigger, fate);
      if out == Finished && ledger.done[trigger] == 1 {
        ExactlyOnce(job, tick, advances, ledger, trigger);
      }
    }

    /** The claimed tick, from wherever a previous life left it. */
    method RunClaimed(trigger: TriggerId, fate: Fate) returns (out: Outcome)
      requires Valid() && job.active == Some(trigger) && job.status == Running && job.phase != Idle
      modifies this`job, this`tick, this`life, this`advances, this`ledger
      ensures Valid() && BatchKept()
      ensures old(tick) <= tick <= old(tick) + 1
      ensures tick == old(tick) + 1 ==> advances == old(advances) + [trigger]
      ensures tick == old(tick) ==> advances == old(advances)
      ensures out == Finished ==> job.active.None? && job.phase == Idle && job.status == Ready && job.lastCompleted == Some(trigger)
      ensures out == Finished ==> tick == if old(job.phase == Reconcile) then old(tick) else old(job.nextTick) + 1
      ensures out == Finished ==>
                job.nextTick == tick && job.runCount == if old(job.runCount) + 1 >= tick then old(job.runCount) + 1 else tick
      ensures
        || (job.active == Some(trigger) && Unresolved(job) && out != Finished && ledger == old(ledger)
            && job.lastCompleted == old(job.lastCompleted) && (old(Advanced(job, tick)) ==> Advanced(job, tick))
            && advances == old(advances) + (if Advanced(job, tick) && !old(Advanced(job, tick)) then [trigger] else []))
        || (job.active.None? && job.lastCompleted == Some(trigger) && ledger == AfterCompletion(old(ledger), trigger)
            && advances == old(advances) + (if old(Advanced(job, tick)) then [] else [trigger]))
      ensures Benign(fate) && old(life) >= 4 ==> out == Finished && life >= old(life) - 4
    {
      hide Sound, Credited, AfterCompletion;
      var reached := ReachReconcile(trigger, fate);
      if reached.Some? {
        return reached.value;
      }
      if fate.reconcileFails {
        out := Fail();
        return;
      }
      var saved := CompleteTick(trigger);
      if !saved {
        return Died;
      }
      if fate.flushFails {
        out := Fail();
        return;
      }
      return Finished;
    }

    // ------------------------------------------------------------ pause and resume

    method SetStatus(status: Status) returns (ok: bool)
      requires Valid() && status in {Paused, Ready}
      modifies this`job
      ensures Valid() && job == (if ok then old(job).(status := status) else old(job))
      ensures ok <==> StatusAllowed(old(job), status)
      ensures ok <==>
                && old(job.status) != Running && old(job.batch).None?
                && !(status == Ready && old(job.status) == Failed && old(job.active).Some?)
    {
      hide Sound, Credited;
      if !StatusAllowed(job, status) {
        return false;
      }
      StatusSound(job, status, tick, advances, mark, skipped);
      SameOwner(job, job.(status := status), tick, advances, ledger);
      job := job.(status := status);
      return true;
    }

    /** One direct tick over any number of process deaths and failures: once some
        life returns, it has advanced exactly once. */
    method RunTickOverLives(trigger: TriggerId, lives: seq<nat>, fates: nat -> Fate) returns (out: Outcome)
      requires Valid() && job.active.None? && job.lastCompleted != Some(trigger)
      modifies this`job, this`tick, this`life, this`advances, this`ledger
      ensures Valid() && BatchKept()
      ensures out == Finished ==>
                && job.active.None? && job.lastCompleted == Some(trigger) && advances == old(advances) + [trigger]
                && ledger == AfterCompletion(old(ledger), trigger)
    {
      hide Sound, Credited, AfterClaim, AfterCompletion, MustAdvance, Advanced;
      out := Died;
      for k := 0 to |lives|
        invariant Valid() && BatchKept() && out != Finished
        invariant
          || (job.active.None? && job.lastCompleted == old(job.lastCompleted) && advances == old(advances) && ledger == old(ledger))
          || (job.active == Some(trigger) && Unresolved(job) && job.lastCompleted == old(job.lastCompleted) && ledger == old(ledger)
              && advances == old(advances) + if Advanced(job, tick) then [trigger] else [])
          || (job.active.None? && job.lastCompleted == Some(trigger) && advances == old(advances) + [trigger]
              && ledger == AfterCompletion(old(ledger), trigger))
      {
        life := lives[k];
        NothingDropped(job, tick, trigger, ledger);
        out := RunTick(trigger, true, fates(k));
        if out == Finished {
          return;
        }
      }
    }

    /** A failed tick was committed but not noted, and the job is paused and
        resumed: the next trigger returns without an advance of its own. */
    method ResumeAndRun(other: TriggerId)
      requires Valid() && job.status == Failed && job.phase == Advance && tick > job.nextTick && job.batch.None?
      requires job.active.Some? && job.active != Some(other) && job.lastCompleted != Some(other)
      modifies this`job, this`tick, this`life, this`advances, this`ledger
      ensures Valid() && job.lastCompleted == Some(other) && job.active.None?
      ensures advances == old(advances) && ledger.takenOver == old(ledger).takenOver + multiset{other}
    {
      hide Sound, Credited;
      var paused := SetStatus(Paused);
      var resumed := SetStatus(Ready);
      life := 5;
      var out := RunTick(other, false, Fate(false, false, false, false));
      assert out == Finished;
    }

    // -------------------------------------------------------------- whole batches

    /** The number of ticks to run, or None where the request is refused. */
    function Requested(trigger: string, ticks: Option<int>): Option<nat>
      reads this
    {
      if job.batch == Some(trigger) then
        if ticks.Some? && ticks.value != job.total then None else Some(job.total)
      else
        var n := if ticks.Some? then ticks.value else ticksPerTrigger;
        if 1 <= n <= maxTicks then Some(n) else None
    }

    predicate Recorded(trigger: string)
      reads this
    {
      exists r :: r in job.records && r.trigger == trigger
    }

    /** A claim of `trigger` is allowed in this checkpoint. */
    predicate ClaimAllowed(trigger: string, n: nat, recover: bool)
      reads this
    {
      if job.batch.None? then job.status == Ready && job.phase == Idle && job.active.None?
      else job.batch.value == trigger && (recover || job.completed >= n)
    }

    /** Claim or resume the batch. */
    method ClaimBatch(trigger: string, n: nat, recover: bool) returns (out: Option<Outcome>)
      requires Valid() && trigger != "" && n >= 1 && !Recorded(trigger) && (job.batch == Some(trigger) ==> n == job.total)
      modifies this`job, this`life, this`mark, this`skipped
      ensures Valid()
      ensures out.Some? ==> out.value != Finished && job == old(job) && mark == old(mark) && skipped == old(skipped)
      ensures out == Some(Raised) ==> !old(ClaimAllowed(trigger, n, recover))
      ensures out.None? ==> job.batch == Some(trigger) && job.total == n && old(ClaimAllowed(trigger, n, recover))
      ensures out.None? ==> job == old(job).(batch := Some(trigger), total := n, completed := job.completed)
      ensures out.None? && old(job.batch.None?) ==>
                && job.completed == 0 && mark == tick
                && skipped == (if old(job.lastCompleted) == Some(Child(trigger, 1)) then 1 else 0)
      ensures out.None? && old(job.batch.Some?) ==> job.completed == old(job.completed) && mark == old(mark) && skipped == old(skipped)
      ensures old(life) > 0 ==> life >= old(life) - 1 && out != Some(Died)
    {
      hide Sound, Credited;
      var alive := Survives();
      if !alive {
        return Some(Died);
      }
      if job.batch.Some? {
        if job.batch.value != trigger || (!recover && job.completed < n) {
          return Some(Raised);
        }
        return None;
      }
      if !(job.status == Ready && job.phase == Idle && job.active.None?) {
        return Some(Raised);
      }
      SameOwner(job, job.(batch := Some(trigger), total := n, completed := 0), tick, advances, ledger);
      BatchClaimSound(job, trigger, n, tick, advances, mark, skipped);
      mark, skipped := tick, if job.lastCompleted == Some(Child(trigger, 1)) then 1 else 0;
      job := job.(batch := Some(trigger), total := n, completed := 0);
      return None;
    }

    /** Count the child that just completed. */
    method SaveProgress(trigger: string, done: nat) returns (saved: bool)
      requires Valid() && job.batch == Some(trigger) && done == job.completed + 1 <= job.total
      requires job.lastCompleted == Some(Expected(job)) && job.active.None?
      modifies this`job, this`life
      ensures Valid() && (saved <==> old(life) > 0)
      ensures life == if saved then old(life) - 1 else 0
      ensures job == if saved then old(job).(completed := done) else old(job)
    {
      hide Sound, Credited;
      SameOwner(job, job.(completed := done), tick, advances, ledger);
      ProgressSound(job, tick, advances, mark, skipped);
      saved := Save(job.(completed := done));
    }

    /** Close the batch with its permanent record. */
    method FinalizeBatch(trigger: string, n: nat, startTick: nat) returns (saved: bool)
      requires Valid() && job.batch == Some(trigger) && job.completed == n
      modifies this`job, this`life
      ensures Valid() && (saved <==> old(life) > 0)
      ensures saved ==> job == Closed(old(job), trigger, n, startTick)
      ensures !saved ==> job == old(job)
    {
      hide Sound, Credited;
      SameOwner(job, Closed(job, trigger, n, startTick), tick, advances, ledger);
      ClosedSound(job, trigger, n, startTick, tick, advances, mark, skipped);
      saved := Save(Closed(job, trigger, n, startTick));
    }

    /** Run the remaining children of the claimed batch. */
    method RunChildren(trigger: string, n: nat, recover: bool, script: nat -> Fate) returns (out: Outcome)
      requires Valid() && job.batch == Some(trigger) && job.total == n && job.completed <= n
      modifies this`job, this`tick, this`life, this`advances, this`ledger
      ensures Valid() && job.batch == Some(trigger) && job.total == n && job.records == old(job.records)
      ensures old(job.completed) <= job.completed
      ensures old(advances) <= advances && (out == Finished <==> job.completed == n)
      ensures out == Finished && old(job.completed) < n ==> job.active.None? && job.lastCompleted == Some(Child(trigger, n))
      ensures old(job.completed) == n ==> job == old(job) && tick == old(tick) && advances == old(advances) && life == old(life)
      ensures (forall k :: Benign(script(k))) && recover && old(life) >= 6 * (n - old(job.completed)) ==>
                out == Finished && life >= old(life) - 6 * (n - old(job.completed))
    {
      hide Sound, Credited, AfterClaim, AfterCompletion, MustAdvance, Advanced, Underway, Completed, ClaimRefused;
      while job.completed < n
        invariant Valid() && job.batch == Some(trigger) && job.total == n && job.records == old(job.records)
        invariant old(job.completed) <= job.completed <= n && old(advances) <= advances
        invariant old(job.completed) < job.completed ==> job.active.None? && job.lastCompleted == Some(Child(trigger, job.completed))
        invariant old(job.completed) == n ==> job == old(job) && tick == old(tick) && advances == old(advances) && life == old(life)
        invariant (forall k :: Benign(script(k))) && recover && old(life) >= 6 * (n - old(job.completed)) ==>
                    life >= old(life) - 6 * (job.completed - old(job.completed))
        decreases n - job.completed
      {
        var child := Child(trigger, job.completed + 1);
        ActiveIsChild(job, tick, advances, mark, skipped);
        out := RunTick(child, recover, script(job.completed));
        if out != Finished {
          return;
        }
        FinishedIsIdle(job, tick, advances, mark, skipped);
        var saved := SaveProgress(trigger, job.completed + 1);
        if !saved {
          return Died;
        }
      }
      return Finished;
    }

    /** A run that claimed nothing leaves everything as it was. */
    twostate predicate Untouched()
      reads this
    {
      job == old(job) && tick == old(tick) && advances == old(advances) && mark == old(mark) && skipped == old(skipped)
    }

    /** The batch counts from where it was first claimed, in whichever life. */
    twostate predicate CountsFromClaim(trigger: string)
      reads this
    {
      if old(job.batch) == Some(trigger) then mark == old(mark) && skipped == old(skipped)
      else mark == old(tick) && skipped == if old(job.lastCompleted) == Some(Child(trigger, 1)) then 1 else 0
    }

    ghost predicate RecordRight(r: Record, n: nat, trigger: string, startRight: bool)
      reads this`job, this`mark, this`skipped
    {
      && r.trigger == trigger && r.requested == n && r.endTick == job.nextTick && r.runCount == job.runCount
      && (r.startTick == mark - skipped <==> startRight)
    }

    /** The batch is closed: it has its record, and since it was claimed its
        children were advanced, once each and in order, from the first that was
        not done already to the last or to one forged beyond it. */
    twostate predicate Delivered(trigger: string, n: nat)
      reads this
    {
      var extra := Overrun(old(job), old(tick), trigger);
      && job.batch.None? && |job.records| == |old(job.records)| + 1 && job.records[..|old(job.records)|] == old(job.records)
      && RecordRight(job.records[|old(job.records)|], n, trigger, StartTickRight(old(job), trigger))
      && skipped <= n + extra && mark <= |advances| && advances[mark..] == Children(trigger, skipped, n + extra)
    }

    /** Run a trigger in one process life. */
    method RunTrigger(trigger: string, ticks: Option<int>, recover: bool, script: nat -> Fate) returns (out: Outcome)
      requires Valid() && trigger != ""
      modifies this
      ensures Valid()
      ensures old(job.batch) == Some(trigger) && ticks.Some? && ticks.value != old(job.total) ==> out == Raised && Untouched()
      ensures old(job.batch) != Some(trigger) && !(1 <= (if ticks.Some? then ticks.value else ticksPerTrigger) <= maxTicks) ==>
                out == Raised && Untouched()
      ensures (if old(job.batch) == Some(trigger) then ticks.None? || ticks.value == old(job.total)
               else 1 <= (if ticks.Some? then ticks.value else ticksPerTrigger) <= maxTicks) ==>
                ((exists r :: r in old(job.records) && r.trigger == trigger) ==> out == Finished && Untouched())
      ensures out == Finished && !(exists r :: r in old(job.records) && r.trigger == trigger) ==>
                && |job.records| == |old(job.records)| + 1
                && job.records[|old(job.records)|].trigger == trigger
                && job.records[|old(job.records)|].requested ==
                     (if old(job.batch) == Some(trigger) then old(job.total) else if ticks.Some? then ticks.value else ticksPerTrigger)
      ensures old(Requested(trigger, ticks)).None? ==> out == Raised && Untouched()
      ensures old(Requested(trigger, ticks).Some? && Recorded(trigger)) ==> out == Finished && Untouched()
      ensures out == Finished && !old(Recorded(trigger)) ==>
                Delivered(trigger, old(Requested(trigger, ticks)).value) && CountsFromClaim(trigger)
      ensures out == Finished && !old(Recorded(trigger)) ==>
                (advances[mark..] == Children(trigger, 0, old(Requested(trigger, ticks)).value)
                 <==> skipped == 0 && Overrun(old(job), old(tick), trigger) == 0)
      ensures out != Finished ==>
                || Untouched()
                || (job.batch == Some(trigger) && old(job.batch) in {None, Some(trigger)} && CountsFromClaim(trigger)
                    && Some(job.total) == old(Requested(trigger, ticks)) && job.records == old(job.records))
      ensures out != Finished ==> Overrun(job, tick, trigger) in {0, Overrun(old(job), old(tick), trigger)}
      ensures old(advances) <= advances
      ensures (forall k :: Benign(script(k))) && recover && old(Requested(trigger, ticks)).Some? ==>
                old(!Recorded(trigger) && ClaimAllowed(trigger, Requested(trigger, ticks).value, recover)) ==>
                  old(life) >= 6 * old(Requested(trigger, ticks)).value + 2 ==> out == Finished
      ensures (forall k :: Benign(script(k))) && recover && !(exists r :: r in old(job.records) && r.trigger == trigger) ==>
                && (old(job.batch) == Some(trigger) && (ticks.None? || ticks.value == old(job.total)) && old(life) >= 6 * old(job.total) + 2 ==>
                      out == Finished)
                && (old(job.batch).None? && old(job.status) == Ready && old(job.phase) == Idle && old(job.active).None? ==>
                      var n := if ticks.Some? then ticks.value else ticksPerTrigger;
                      1 <= n <= maxTicks && old(life) >= 6 * n + 2 ==> out == Finished)
    {
      hide Sound, Credited, Uncounted, StartTickRight, Overrun, Delivered, CountsFromClaim;
      var requested := Requested(trigger, ticks);
      if requested.None? {
        return Raised;
      }
      if Recorded(trigger) {
        return Finished;
      }
      BatchBounds(job, tick, advances, mark, skipped);
      out := RunUnrecorded(trigger, requested.value, recover, script);
    }

    /** The run itself, for a trigger that has no record yet. */
    method RunUnrecorded(trigger: string, n: nat, recover: bool, script: nat -> Fate) returns (out: Outcome)
      requires Valid() && trigger != "" && n >= 1 && !Recorded(trigger) && (job.batch == Some(trigger) ==> n == job.total)
      modifies this
      ensures Valid() && old(advances) <= advances
      ensures out == Finished ==> Delivered(trigger, n) && CountsFromClaim(trigger)
      ensures out == Finished ==>
                && |job.records| == |old(job.records)| + 1
                && job.records[|old(job.records)|].trigger == trigger && job.records[|old(job.records)|].requested == n
      ensures out == Finished ==>
                (advances[mark..] == Children(trigger, 0, n) <==> skipped == 0 && Overrun(old(job), old(tick), trigger) == 0)
      ensures out != Finished ==>
                || Untouched()
                || (job.batch == Some(trigger) && old(job.batch) in {None, Some(trigger)} && CountsFromClaim(trigger)
                    && job.total == n && job.records == old(job.records))
      ensures out != Finished ==> Overrun(job, tick, trigger) in {0, Overrun(old(job), old(tick), trigger)}
      ensures (forall k :: Benign(script(k))) && recover && old(ClaimAllowed(trigger, n, recover)) && old(life) >= 6 * n + 2 ==> out == Finished
    {
      hide Sound, Credited, Children, Uncounted, StartTickRight, Overrun;
      NoOverrun(job, tick, trigger);
      var claimed := ClaimBatch(trigger, n, recover);
      if claimed.Some? {
        return claimed.value;
      }
      BatchBounds(job, tick, advances, mark, skipped);
      StartTick(old(job), job, tick, trigger, n, mark, skipped);
      SameOverrun(old(job), job, tick, trigger, n);
      out := RunAndClose(trigger, n, job.nextTick - job.completed, recover, script);
    }

    /** Run the rest of a claimed batch and close it. */
    method RunAndClose(trigger: string, n: nat, startTick: nat, recover: bool, script: nat -> Fate) returns (out: Outcome)
      requires Valid() && job.batch == Some(trigger) && job.total == n && job.completed <= n && n >= 1
      modifies this`job, this`tick, this`life, this`advances, this`ledger
      ensures Valid() && old(advances) <= advances
      ensures out == Finished ==>
                && job.batch.None? && job.records == old(job.records) + [Record(trigger, n, startTick, job.nextTick, job.runCount)]
                && var extra := Overrun(old(job), old(tick), trigger);
                   && skipped <= n + extra && mark <= |advances| && advances[mark..] == Children(trigger, skipped, n + extra)
                   && (advances[mark..] == Children(trigger, 0, n) <==> skipped == 0 && extra == 0)
      ensures out != Finished ==>
                && job.batch == Some(trigger) && job.total == n && job.records == old(job.records)
                && Overrun(job, tick, trigger) in {0, Overrun(old(job), old(tick), trigger)}
      ensures (forall k :: Benign(script(k))) && recover && old(life) >= 6 * n + 1 ==> out == Finished
    {
      hide Sound, Credited, Children, Uncounted, Overrun;
      ghost var resumed := job;
      NonnegativeOverrun(job, tick, advances, mark, skipped, trigger);
      out := RunChildren(trigger, n, recover, script);
      if out != Finished {
        NoOverrun(job, tick, trigger);
        return;
      }
      BatchLog(job, tick, advances, mark, skipped);
      NothingUncounted(resumed, old(tick), resumed, job, tick, trigger, n);
      ExactlyTheChildren(trigger, skipped, n, Overrun(resumed, old(tick), trigger));
      var saved := FinalizeBatch(trigger, n, startTick);
      return if saved then Finished else Died;
    }

    /** One occurrence over any number of process deaths. Once some life returns,
        the durable tick is the tick at the claim plus n, each child advanced
        exactly once. */
    method RunOccurrence(trigger: string, n: int, lives: seq<nat>, recover: nat -> bool, scripts: nat -> nat -> Fate) returns (out: Outcome)
      requires Valid() && trigger != "" && 1 <= n <= maxTicks
      requires job.batch.None? && !Recorded(trigger) && job.lastCompleted != Some(Child(trigger, 1))
      modifies this
      ensures Valid()
      ensures out == Finished ==> tick == old(tick) + n && advances == old(advances) + Children(trigger, 0, n) && Recorded(trigger)
    {
      hide Sound, Credited, Children, Uncounted, StartTickRight;
      out := Died;
      BatchBounds(job, tick, advances, mark, skipped);
      for k := 0 to |lives|
        invariant Valid() && out != Finished && job.records == old(job.records)
        invariant job.batch in {None, Some(trigger)}
        invariant job.batch.None? ==> job == old(job) && tick == old(tick) && advances == old(advances)
        invariant job.batch.Some? ==> mark == old(tick) && skipped == 0 && job.total == n && Overrun(job, tick, trigger) == 0
        invariant old(advances) <= advances && |old(advances)| == old(tick)
      {
        life := lives[k];
        out := RunTrigger(trigger, Some(n), recover(k), scripts(k));
        if out == Finished {
          BatchBounds(job, tick, advances, mark, skipped);
          AppendsChildren(old(advances), advances, mark, trigger, n);
          return;
        }
      }
    }

    /** Between its last child and its closing a batch takes one child more: the
        refusal of a tick asks only for the next number. */
    method ForgeChild(trigger: string, n: nat)
      requires Valid() && trigger != "" && n >= 1 && !Recorded(trigger)
      requires job.batch == Some(trigger) && job.completed == job.total == n
      requires job.active.None? && job.lastCompleted == Some(Child(trigger, n))
      modifies this
      ensures Valid() && job.batch.None? && mark == old(mark)
      ensures skipped == old(skipped) && mark <= |advances| && advances[mark..] == Children(trigger, skipped, n + 1)
      ensures |job.records| == |old(job.records)| + 1 && job.records[|old(job.records)|].requested == n
      ensures old(advances) <= advances
    {
      hide Sound, Credited, Children, AfterClaim, MustAdvance;
      var benign := Fate(false, false, false, false);
      ActiveIsChild(job, tick, advances, mark, skipped);
      life := 5;
      var forged := RunTick(Child(trigger, n + 1), true, benign);
      assert Overrun(job, tick, trigger) == 1;
      life := 6 * n + 2;
      var closed := RunTrigger(trigger, None, true, _ => benign);
    }

    /** A batch of n ticks that advances n + 1. */
    method OverrunBatch(trigger: string, n: nat)
      requires Valid() && trigger != "" && 1 <= n <= maxTicks && !Recorded(trigger)
      requires job.batch.None? && job.status == Ready && job.active.None? && job.lastCompleted != Some(Child(trigger, 1))
      modifies this
      ensures Valid() && job.batch.None? && advances == old(advances) + Children(trigger, 0, n + 1)
      ensures |job.records| == |old(job.records)| + 1 && job.records[|old(job.records)|].requested == n
    {
      hide Sound, Credited, Children;
      var benign := Fate(false, false, false, false);
      BatchBounds(job, tick, advances, mark, skipped);
      life := 6 * n + 1;
      var claimed := ClaimBatch(trigger, n, false);
      var ran := RunChildren(trigger, n, true, _ => benign);
      ForgeChild(trigger, n);
      BatchBounds(job, tick, advances, mark, skipped);
      AppendsChildren(old(advances), advances, mark, trigger, n + 1);
    }
  }

  /** A new job whose second trigger completes without ever having advanced. */
  method PauseLosesATick(first: TriggerId, second: TriggerId) returns (j: SimulationJob)
    requires first != second
    ensures fresh(j) && j.Valid() && j.job.lastCompleted == Some(second) && j.job.active.None?
    ensures j.advances == [first] && second !in j.advances && j.tick == 1
  {
    j := new SimulationJob(1, 1);
    j.life := 3;
    var claimed := j.ClaimTick(first, false);
    var advanced := j.AdvanceEngine(first);
    var failed := j.Fail();
    j.ResumeAndRun(second);
  }

  predicate Benign(fate: Fate) {
    !fate.advanceFails && !fate.settleFails && !fate.reconcileFails && !fate.flushFails
  }
}
