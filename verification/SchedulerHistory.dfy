/** The theorems on the scheduler thread in terms of the steps of a run alone: how often a node has been fired, which
    nodes are scheduled, what a pass has done and what is called are read off the steps, and the histories that
    SchedulerSteps keeps are proved to be just that. */
module SchedulerHistory {
  import opened Options
  import opened TaskQueue
  import opened SchedulerSteps

  /** No step strictly between i and k unschedules h. */
  ghost predicate Kept(steps: seq<Step>, i: int, k: int, h: Addr) {
    forall c :: 0 <= c < |steps| && i < c < k ==> steps[c] != Cancel(h)
  }

  lemma KeptPrefix(steps: seq<Step>, i: int, k: int, k': int, h: Addr)
    requires k <= k' && Kept(steps, i, k', h)
    ensures Kept(steps, i, k, h)
  {
  }

  lemma KeptNext(steps: seq<Step>, i: int, k: nat, h: Addr)
    requires k < |steps| && steps[k] != Cancel(h) && Kept(steps, i, k, h)
    ensures Kept(steps, i, k + 1, h)
  {
  }

  /** No step strictly between r and k reads the clock. */
  ghost predicate SamePass(steps: seq<Step>, r: int, k: int) {
    forall i :: 0 <= i < |steps| && r < i < k ==> !steps[i].ReadClock?
  }

  /** The step puts node h back, so that its callback is run. */
  predicate Fires(s: State, a: Step, h: Addr) {
    a.PutBack? && s.pc.Holding? && s.pc.task.handle == h
  }

  // ---------------------------------------------------------- what is scheduled

  /** Node h has been inserted before step k and not been unscheduled since. */
  ghost predicate Inserted(steps: seq<Step>, k: int, h: Addr)
    requires k <= |steps|
  {
    exists i :: 0 <= i < k && steps[i] == Enqueue(h) && Kept(steps, i, k, h)
  }

  lemma InsertedNext(steps: seq<Step>, k: nat, h: Addr)
    requires k < |steps|
    ensures Inserted(steps, k + 1, h) <==>
            steps[k] == Enqueue(h) || (Inserted(steps, k, h) && steps[k] != Cancel(h))
  {
    if steps[k] == Enqueue(h) {
      assert Kept(steps, k, k + 1, h);
    } else if Inserted(steps, k, h) && steps[k] != Cancel(h) {
      var i :| 0 <= i < k && steps[i] == Enqueue(h) && Kept(steps, i, k, h);
      assert Kept(steps, i, k + 1, h);
    }
    if steps[k] != Enqueue(h) && Inserted(steps, k + 1, h) {
      var i :| 0 <= i < k + 1 && steps[i] == Enqueue(h) && Kept(steps, i, k + 1, h);
      KeptPrefix(steps, i, k, k + 1, h);
    }
  }

  lemma {:induction false} LiveIs(states: seq<State>, steps: seq<Step>, k: nat, h: Addr)
    requires Run(states, steps) && k < |states|
    ensures h in states[k].live <==> Inserted(steps, k, h)
  {
    if k > 0 {
      LiveIs(states, steps, k - 1, h);
      InsertedNext(steps, k - 1, h);
    }
  }

  /** In every interleaving, whenever the mutex is free, the queue holds exactly the nodes that have been inserted and
      not been unscheduled since, each once and sorted by time. */
  lemma QueueOfSteps(states: seq<State>, steps: seq<Step>, k: nat)
    requires Run(states, steps) && k < |states|
    requires states[k].pc.Starting? || states[k].pc.Calling? || states[k].pc.Sleeping?
    ensures Sorted(states[k].q) && Distinct(states[k].q)
    ensures forall h :: h in Handles(states[k].q) <==> Inserted(steps, k, h)
  {
    QueueSafety(states, steps, k);
    forall h
      ensures h in states[k].live <==> Inserted(steps, k, h)
    {
      LiveIs(states, steps, k, h);
    }
  }

  // ------------------------------------------------------------------- rate

  /** How often node h is fired by the steps from j below k. */
  function FiredCount(states: seq<State>, steps: seq<Step>, j: nat, k: nat, h: Addr): nat
    requires j <= k <= |steps| <= |states|
    decreases k
  {
    if k == j then 0
    else FiredCount(states, steps, j, k - 1, h) + if Fires(states[k - 1], steps[k - 1], h) then 1 else 0
  }

  /** One of those firings comes a whole interval late. */
  predicate MissedOne(states: seq<State>, steps: seq<Step>, j: nat, k: nat, h: Addr)
    requires j <= k <= |steps| <= |states|
  {
    exists i :: j <= i < k && Fires(states[i], steps[i], h)
                && states[i].pc.now >= states[i].pc.task.next + states[i].pc.task.interval
  }

  lemma MissedSnoc(states: seq<State>, steps: seq<Step>, j: nat, k: nat, h: Addr)
    requires j <= k < |steps| <= |states|
    ensures MissedOne(states, steps, j, k + 1, h) <==>
            || MissedOne(states, steps, j, k, h)
            || (Fires(states[k], steps[k], h)
                && states[k].pc.now >= states[k].pc.task.next + states[k].pc.task.interval)
  {
  }

  lemma RecordStep(s: State, a: Step, h: Addr)
    requires QueueInv(s) && Enabled(s, a) && h in s.records && a != Cancel(h)
    ensures h in Apply(s, a).records
    ensures Apply(s, a).records[h] ==
            if Fires(s, a, h) then FiredOnce(s.pc.task, s.records[h], s.pc.now) else s.records[h]
  {
  }

  /** The record of a node scheduled at step j says what the steps since have done with it. */
  ghost predicate RecordOf(states: seq<State>, steps: seq<Step>, j: nat, k: nat, h: Addr)
    requires j < k < |states| == |steps| + 1 && steps[j].Prepare?
  {
    && h in states[k].records
    && states[k].records[h] == Record(steps[j].clock, steps[j].data, steps[j].interval,
                                      FiredCount(states, steps, j, k, h), MissedOne(states, steps, j, k, h))
  }

  lemma RecordFirst(states: seq<State>, steps: seq<Step>, j: nat, h: Addr)
    requires j < |steps| && |states| == |steps| + 1 && steps[j].Prepare? && steps[j].h == h
    requires Enabled(states[j], steps[j]) && states[j + 1] == Apply(states[j], steps[j])
    ensures RecordOf(states, steps, j, j + 1, h)
  {
    assert FiredCount(states, steps, j, j, h) == 0;
    MissedSnoc(states, steps, j, j, h);
  }

  lemma RecordNext(states: seq<State>, steps: seq<Step>, j: nat, k: nat, h: Addr)
    requires Run(states, steps) && j < k < |steps| && steps[j].Prepare? && RecordOf(states, steps, j, k, h)
    requires steps[k] != Cancel(h)
    ensures RecordOf(states, steps, j, k + 1, h)
  {
    RunKeeps(states, steps, k);
    RecordStep(states[k], steps[k], h);
    MissedSnoc(states, steps, j, k, h);
  }

  lemma {:induction false} RecordIs(states: seq<State>, steps: seq<Step>, j: nat, k: nat, h: Addr)
    requires Run(states, steps) && j < k < |states|
    requires steps[j].Prepare? && steps[j].h == h && Kept(steps, j, k, h)
    ensures RecordOf(states, steps, j, k, h)
    decreases k
  {
    if k - 1 > j {
      KeptPrefix(steps, j, k - 1, k, h);
      RecordIs(states, steps, j, k - 1, h);
      RecordNext(states, steps, j, k - 1, h);
    } else {
      RecordFirst(states, steps, j, h);
    }
  }

  /** x is the node that `a` scheduled, after n firings, the last at `now`: it waits until start + (n + 1) intervals or
      longer, but at most one interval from now, and exactly until then if no firing missed an interval. */
  ghost predicate Paced(x: Task<Addr>, a: Step, n: nat, now: int, missed: bool)
    requires a.Prepare?
  {
    && x.handle == a.h && x.data == a.data && x.interval == a.interval
    && a.clock + (n + 1) * a.interval <= x.next <= now + a.interval
    && (!missed ==> x.next == a.clock + (n + 1) * a.interval)
  }

  lemma PacedIs(a: Step, r: Record, x: Task<Addr>, now: int)
    requires a.Prepare? && r.start == a.clock && r.data == a.data && r.interval == a.interval
    requires x.handle == a.h && x.data == r.data && x.interval == r.interval
    requires r.start + (r.fired + 1) * r.interval <= x.next <= now + r.interval
    requires !r.skipped ==> x.next == r.start + (r.fired + 1) * r.interval
    ensures Paced(x, a, r.fired, now, r.skipped)
  {
  }

  /** For every clock behaviour: let h be scheduled at step j, not be unscheduled since, and be fired by step k, for the
      n-th time. The clock reading is not before start + n intervals, and the node goes back into the queue with what
      it carries, its interval, and its next time in between. */
  lemma RateOfSteps(states: seq<State>, steps: seq<Step>, j: nat, k: nat, h: Addr)
    requires Run(states, steps) && j < k < |steps|
    requires steps[j].Prepare? && steps[j].h == h && Kept(steps, j, k, h) && Fires(states[k], steps[k], h)
    ensures var n, missed := FiredCount(states, steps, j, k + 1, h), MissedOne(states, steps, j, k + 1, h);
            && states[k].pc.now >= steps[j].clock + n * steps[j].interval
            && exists x :: x in states[k + 1].q && Paced(x, steps[j], n, states[k].pc.now, missed)
  {
    KeptNext(steps, j, k, h);
    RecordIs(states, steps, j, k + 1, h);
    RateBound(states, steps, k);
    PacedIs(steps[j], states[k + 1].records[h], RetimeTask(states[k].pc.task, states[k].pc.now), states[k].pc.now);
  }

  // ------------------------------------------------------------------ a pass

  /** Dispatches among the steps from r below k. */
  function Dispatches(steps: seq<Step>, r: nat, k: nat): nat
    requires r <= k <= |steps|
    decreases k
  {
    if k == r then 0 else Dispatches(steps, r, k - 1) + if steps[k - 1].PutBack? then 1 else 0
  }

  /** Insertions by callers among the steps from r below k. */
  function Insertions(steps: seq<Step>, r: nat, k: nat): nat
    requires r <= k <= |steps|
    decreases k
  {
    if k == r then 0 else Insertions(steps, r, k - 1) + if steps[k - 1].Enqueue? then 1 else 0
  }

  lemma LogStep(s: State, a: Step)
    requires Enabled(s, a) && !a.ReadClock?
    ensures var log, log' := s.log, Apply(s, a).log;
            && log'.initial == log.initial
            && log'.made == log.made + (if a.PutBack? then 1 else 0)
            && log'.added == log.added + (if a.Enqueue? then 1 else 0)
  {
  }

  lemma {:induction false} PassLogIs(states: seq<State>, steps: seq<Step>, r: nat, k: nat)
    requires Run(states, steps) && r < k < |states| && steps[r].ReadClock? && SamePass(steps, r, k)
    ensures var log := states[k].log;
            && log.initial == CountUpTo(states[r].q, steps[r].now)
            && log.made == Dispatches(steps, r, k) && log.added == Insertions(steps, r, k)
    decreases k
  {
    var s, a := states[k - 1], steps[k - 1];
    assert states[k] == Apply(s, a) && Enabled(s, a);
    if k - 1 > r {
      PassLogIs(states, steps, r, k - 1);
      LogStep(s, a);
    } else {
      assert Dispatches(steps, r, r) == 0 && Insertions(steps, r, r) == 0;
    }
  }

  lemma PcStep(s: State, a: Step, n: nat)
    requires Enabled(s, a) && !a.ReadClock?
    requires s.pc.Scanning? ==> (s.pc.did <==> n > 0)
    requires s.pc.Calling? ==> n > 0
    ensures var pc, n' := Apply(s, a).pc, if a.PutBack? then n + 1 else n;
            && (InPass(pc) ==> InPass(s.pc) && pc.now == s.pc.now)
            && (pc.Scanning? ==> (pc.did <==> n' > 0))
            && (pc.Calling? ==> n' > 0)
  {
  }

  /** The thread remembers whether the pass has dispatched anything. */
  lemma {:induction false} DidIs(states: seq<State>, steps: seq<Step>, r: nat, k: nat)
    requires Run(states, steps) && r < k < |states| && steps[r].ReadClock? && SamePass(steps, r, k)
    ensures InPass(states[k].pc) ==> states[k].pc.now == steps[r].now
    ensures states[k].pc.Scanning? ==> (states[k].pc.did <==> Dispatches(steps, r, k) > 0)
    ensures states[k].pc.Calling? ==> Dispatches(steps, r, k) > 0
    decreases k
  {
    var s, a := states[k - 1], steps[k - 1];
    assert states[k] == Apply(s, a) && Enabled(s, a);
    if k - 1 > r {
      DidIs(states, steps, r, k - 1);
      PcStep(s, a, Dispatches(steps, r, k - 1));
    } else {
      assert Dispatches(steps, r, r) == 0;
    }
  }

  lemma InPassBefore(s: State, a: Step)
    requires Enabled(s, a) && !a.ReadClock? && InPass(Apply(s, a).pc)
    ensures InPass(s.pc) && Apply(s, a).pc.now == s.pc.now
  {
  }

  lemma SamePassNext(steps: seq<Step>, r: int, k: nat)
    requires k < |steps| && SamePass(steps, r, k) && !steps[k].ReadClock?
    ensures SamePass(steps, r, k + 1)
  {
  }

  /** A thread that is in a pass has read the clock for it. */
  lemma {:induction false} PassStarted(states: seq<State>, steps: seq<Step>, k: nat) returns (r: nat)
    requires Run(states, steps) && k < |states| && InPass(states[k].pc)
    ensures r < k && steps[r] == ReadClock(states[k].pc.now) && SamePass(steps, r, k)
  {
    var s, a := states[k - 1], steps[k - 1];
    assert states[k] == Apply(s, a) && Enabled(s, a);
    if a.ReadClock? {
      r := k - 1;
    } else {
      InPassBefore(s, a);
      r := PassStarted(states, steps, k - 1);
      SamePassNext(steps, r, k - 1);
    }
  }

  /** With positive intervals a pass dispatches at most as often as there were tasks due when it read the clock plus
      insertions since. */
  lemma DispatchesBound(states: seq<State>, steps: seq<Step>, r: nat, k: nat)
    requires Run(states, steps) && r < k < |states| && steps[r].ReadClock? && SamePass(steps, r, k)
    requires InPass(states[k].pc) && forall i :: 0 <= i < |steps| ==> PositiveStep(steps[i])
    ensures Dispatches(steps, r, k) <= CountUpTo(states[r].q, steps[r].now) + Insertions(steps, r, k)
  {
    PassLogIs(states, steps, r, k);
    PassBound(states, steps, k);
  }

  lemma {:induction false} FiredStays(states: seq<State>, steps: seq<Step>, i: nat, k: nat, h: Addr)
    requires Run(states, steps) && i < k < |states|
    requires Fires(states[i], steps[i], h) && SamePass(steps, i, k) && Kept(steps, i, k, h)
    ensures h in states[k].log.fired
    decreases k
  {
    assert states[k] == Apply(states[k - 1], steps[k - 1]);
    if k - 1 > i {
      FiredStays(states, steps, i, k - 1, h);
    }
  }

  /** With positive intervals a pass fires no node twice, unless it is unscheduled in between. */
  lemma FiredOnlyOnce(states: seq<State>, steps: seq<Step>, i: nat, k: nat, h: Addr)
    requires Run(states, steps) && i < k < |steps| && forall l :: 0 <= l < |steps| ==> PositiveStep(steps[l])
    requires Fires(states[i], steps[i], h) && Fires(states[k], steps[k], h) && SamePass(steps, i, k)
    ensures exists c :: i < c < k && steps[c] == Cancel(h)
  {
    if Kept(steps, i, k, h) {
      FiredStays(states, steps, i, k, h);
      PassBound(states, steps, k);
      assert false;
    }
  }

  lemma {:induction false} FiredHappened(states: seq<State>, steps: seq<Step>, r: nat, k: nat, h: Addr) returns (i: nat)
    requires Run(states, steps) && r < k < |states| && steps[r].ReadClock? && SamePass(steps, r, k)
    requires h in states[k].log.fired
    ensures r < i < k && Fires(states[i], steps[i], h)
    decreases k
  {
    var s, a := states[k - 1], steps[k - 1];
    assert states[k] == Apply(s, a) && Enabled(s, a);
    if Fires(s, a, h) {
      i := k - 1;
    } else {
      assert k - 1 > r;
      i := FiredHappened(states, steps, r, k - 1, h);
    }
  }

  lemma {:induction false} DueStays(states: seq<State>, steps: seq<Step>, r: nat, k: nat, t: Task<Addr>)
    requires Run(states, steps) && r < k < |states| && steps[r].ReadClock? && SamePass(steps, r, k)
    requires t in states[r].q && t.next <= steps[r].now && Kept(steps, r, k, t.handle)
    ensures t.handle in states[k].log.due
    decreases k
  {
    assert states[k] == Apply(states[k - 1], steps[k - 1]);
    if k - 1 > r {
      DueStays(states, steps, r, k - 1, t);
    }
  }

  /** For any intervals: a pass that ends has fired every task that was due when it read the clock and has not been
      unscheduled since. */
  lemma DueIsFired(states: seq<State>, steps: seq<Step>, r: nat, k: nat, t: Task<Addr>)
    requires Run(states, steps) && r < k < |steps| && steps[r].ReadClock? && SamePass(steps, r, k)
    requires steps[k].EndPass? || steps[k].FallAsleep?
    requires t in states[r].q && t.next <= steps[r].now && Kept(steps, r, k, t.handle)
    ensures exists i :: r < i < k && Fires(states[i], steps[i], t.handle)
  {
    DueStays(states, steps, r, k, t);
    PassComplete(states, steps, k);
    var i := FiredHappened(states, steps, r, k, t.handle);
  }

  // -------------------------------------------------------- what is called

  /** Step j is the latest pop before k, and it popped t, which was due at now. */
  ghost predicate Popped(states: seq<State>, steps: seq<Step>, j: int, k: int, t: Task<Addr>, now: int)
    requires k <= |steps| <= |states|
  {
    && 0 <= j < k && steps[j] == PopHead
    && states[j].q != [] && states[j].q[0] == t && t.next <= now
    && (forall i :: j < i < k ==> steps[i] != PopHead)
  }

  lemma HoldStep(s: State, a: Step)
    requires Enabled(s, a) && !a.PopHead? && (Apply(s, a).pc.Holding? || Apply(s, a).pc.Calling?)
    ensures !a.ReadClock? && (s.pc.Holding? || s.pc.Calling?)
    ensures Apply(s, a).pc.task == s.pc.task && Apply(s, a).pc.now == s.pc.now
    ensures Apply(s, a).pc.Calling? ==> s.pc.Calling? || a == PutBack
  {
  }

  lemma PoppedNext(states: seq<State>, steps: seq<Step>, j: int, k: nat, t: Task<Addr>, now: int)
    requires k < |steps| <= |states| && Popped(states, steps, j, k, t, now)
    requires steps[k] != PopHead && !steps[k].ReadClock? && SamePass(steps, j, k)
    ensures Popped(states, steps, j, k + 1, t, now) && SamePass(steps, j, k + 1)
  {
  }

  lemma {:induction false} HoldsPopped(states: seq<State>, steps: seq<Step>, k: nat) returns (j: nat)
    requires Run(states, steps) && k < |states| && (states[k].pc.Holding? || states[k].pc.Calling?)
    ensures Popped(states, steps, j, k, states[k].pc.task, states[k].pc.now)
    ensures states[k].pc.Calling? ==> exists i :: j < i < k && steps[i] == PutBack
    ensures SamePass(steps, j, k)
  {
    var s, a := states[k - 1], steps[k - 1];
    assert states[k] == Apply(s, a) && Enabled(s, a);
    if a.PopHead? {
      j := k - 1;
    } else {
      HoldStep(s, a);
      j := HoldsPopped(states, steps, k - 1);
      PoppedNext(states, steps, j, k - 1, s.pc.task, s.pc.now);
    }
  }

  /** In every interleaving, what the thread calls is the task at the head of the queue at its latest pop; that task was
      due at the clock reading of the pass, and its node is back in the queue. */
  lemma CallsHead(states: seq<State>, steps: seq<Step>, k: nat) returns (r: nat, j: nat)
    requires Run(states, steps) && k < |states| && states[k].pc.Calling?
    ensures r < j < k && steps[r].ReadClock? && SamePass(steps, r, k)
    ensures Popped(states, steps, j, k, states[k].pc.task, steps[r].now)
    ensures exists i :: j < i < k && steps[i] == PutBack
  {
    r := PassStarted(states, steps, k);
    j := HoldsPopped(states, steps, k);
    assert Enabled(states[j], steps[j]);
    assert r < j;
  }

  // ------------------------------------------------------------------- sleep

  predicate Wakes(a: Step) {
    a.WakeSignalled? || a.WakeTimedOut? || a.WakeSpuriously?
  }

  lemma SleepStep(s: State, a: Step)
    requires Enabled(s, a) && !a.FallAsleep? && Apply(s, a).pc.Sleeping?
    ensures s.pc.Sleeping? && Apply(s, a).pc.deadline == s.pc.deadline && !Wakes(a)
    ensures Apply(s, a).pc.signalled <==> s.pc.signalled || (a.Enqueue? && HeadChanged(s.q, Apply(s, a).q))
  {
  }

  /** An insertion at one of the steps strictly between j and k has changed the head. */
  ghost predicate HeadChangedSince(states: seq<State>, steps: seq<Step>, j: int, k: int)
    requires k <= |steps| < |states|
  {
    exists i :: 0 <= i && j < i < k && steps[i].Enqueue? && HeadChanged(states[i].q, states[i + 1].q)
  }

  lemma HeadChangedNext(states: seq<State>, steps: seq<Step>, j: int, k: nat)
    requires 0 <= j < k < |steps| < |states|
    ensures HeadChangedSince(states, steps, j, k + 1) <==>
            || HeadChangedSince(states, steps, j, k)
            || (steps[k].Enqueue? && HeadChanged(states[k].q, states[k + 1].q))
  {
  }

  lemma {:induction false} SleepBegan(states: seq<State>, steps: seq<Step>, k: nat) returns (j: nat)
    requires Run(states, steps) && k < |states| && states[k].pc.Sleeping?
    ensures j < k && steps[j] == FallAsleep
    ensures forall i :: j < i <= k ==> states[i].pc.Sleeping?
  {
    var s, a := states[k - 1], steps[k - 1];
    assert states[k] == Apply(s, a) && Enabled(s, a);
    if a.FallAsleep? {
      j := k - 1;
    } else {
      SleepStep(s, a);
      j := SleepBegan(states, steps, k - 1);
    }
  }

  lemma {:induction false} SleepSince(states: seq<State>, steps: seq<Step>, j: nat, k: nat)
    requires Run(states, steps) && j < k < |states| && steps[j] == FallAsleep
    requires forall i :: j < i <= k ==> states[i].pc.Sleeping?
    ensures states[k].pc.deadline == if states[j].q == [] then None else Some(states[j].q[0].next)
    ensures states[k].pc.signalled <==> HeadChangedSince(states, steps, j, k)
    decreases k
  {
    var s, a := states[k - 1], steps[k - 1];
    assert states[k] == Apply(s, a) && Enabled(s, a);
    if k - 1 > j {
      SleepStep(s, a);
      SleepSince(states, steps, j, k - 1);
      HeadChangedNext(states, steps, j, k - 1);
    }
  }

  /** A sleeping thread sleeps until the time the head had when it fell asleep, or for ever if there was none; a signal
      is pending if and only if an insertion has changed the head since; and nothing has woken it since. */
  lemma SleepIs(states: seq<State>, steps: seq<Step>, k: nat) returns (j: nat)
    requires Run(states, steps) && k < |states| && states[k].pc.Sleeping?
    ensures j < k && steps[j] == FallAsleep
    ensures states[k].pc.deadline == if states[j].q == [] then None else Some(states[j].q[0].next)
    ensures states[k].pc.signalled <==> HeadChangedSince(states, steps, j, k)
    ensures forall i :: j < i < k ==> !Wakes(steps[i])
  {
    j := SleepBegan(states, steps, k);
    SleepSince(states, steps, j, k);
    forall i | j < i < k
      ensures !Wakes(steps[i])
    {
      assert states[i + 1].pc.Sleeping?;
      ThreadMoves(states[i], steps[i]);
    }
  }

  // ------------------------------------------------------------------ mutex

  /** The thread has locked the mutex for the first time if and only if it has started. */
  lemma {:induction false} StartedIs(states: seq<State>, steps: seq<Step>, k: nat)
    requires Run(states, steps) && k < |states|
    ensures states[k].pc.Starting? <==> forall i :: 0 <= i < k ==> steps[i] != Start
  {
    if k > 0 {
      var s, a := states[k - 1], steps[k - 1];
      assert states[k] == Apply(s, a) && Enabled(s, a);
      StartedIs(states, steps, k - 1);
    }
  }

  /** In every interleaving callers change the list only before the thread has first locked the mutex, while it runs a
      callback, and while it sleeps; every other change of the list is a pop or a return of the thread's own. */
  lemma ListChanges(states: seq<State>, steps: seq<Step>, k: nat)
    requires Run(states, steps) && k < |steps| && states[k + 1].q != states[k].q
    ensures steps[k].PopHead? || steps[k].PutBack? || steps[k].Enqueue? || steps[k].Cancel?
    ensures steps[k].Enqueue? || steps[k].Cancel? ==>
              states[k].pc.Calling? || states[k].pc.Sleeping? || forall i :: 0 <= i < k ==> steps[i] != Start
  {
    StartedIs(states, steps, k);
    assert states[k + 1] == Apply(states[k], steps[k]) && Enabled(states[k], steps[k]);
  }

  // ---------------------------------------------------------------- progress

  /** When no task is due, the pass is over: the thread goes back to reading the clock if the pass has dispatched
      something, and sleeps if not. */
  lemma ScanProceeds(states: seq<State>, steps: seq<Step>, k: nat) returns (r: nat)
    requires Run(states, steps) && k < |states| && states[k].pc.Scanning?
    ensures r < k && steps[r] == ReadClock(states[k].pc.now) && SamePass(steps, r, k)
    ensures var s, due, n := states[k], HeadDue(states[k].q, states[k].pc.now), Dispatches(steps, r, k);
            && (Enabled(s, PopHead) <==> due)
            && (Enabled(s, EndPass) <==> !due && n > 0)
            && (Enabled(s, FallAsleep) <==> !due && n == 0)
            && (!due && n > 0 ==> Apply(s, EndPass).pc.Top? && Apply(s, EndPass).q == s.q)
            && (!due && n == 0 ==> Apply(s, FallAsleep).pc.Sleeping? && Apply(s, FallAsleep).q == s.q)
  {
    r := PassStarted(states, steps, k);
    DidIs(states, steps, r, k);
  }

  /** In every interleaving the thread can go on: outside of a wait some step of it is enabled. */
  lemma ThreadProceeds(states: seq<State>, steps: seq<Step>, k: nat, clock: int)
    requires Run(states, steps) && k < |states|
    ensures var s := states[k];
            match s.pc
            case Starting => Enabled(s, Start)
            case Top => Enabled(s, ReadClock(clock))
            case Scanning(_, _) => Enabled(s, PopHead) || Enabled(s, EndPass) || Enabled(s, FallAsleep)
            case Holding(_, _) => Enabled(s, PutBack)
            case Calling(_, _) => Enabled(s, Relock)
            case Sleeping(_, signalled) => signalled ==> Enabled(s, WakeSignalled)
  {
    RunKeeps(states, steps, k);
  }

  /** The control flow of the thread: where each of its steps takes it, whatever callers do in between. */
  lemma ThreadMoves(s: State, a: Step)
    requires Enabled(s, a)
    ensures var pc, pc' := s.pc, Apply(s, a).pc;
            match a
            case Start => pc == Starting && pc' == Top
            case ReadClock(now) => pc == Top && pc' == Scanning(now, false)
            case PopHead => pc.Scanning? && s.q != [] && s.q[0].next <= pc.now && pc' == Holding(pc.now, s.q[0])
            case PutBack => pc.Holding? && pc' == Calling(pc.now, pc.task)
            case Relock => pc.Calling? && pc' == Scanning(pc.now, true)
            case EndPass => pc.Scanning? && pc' == Top
            case FallAsleep => pc.Scanning? && pc'.Sleeping? && !pc'.signalled
            case WakeSignalled => pc.Sleeping? && pc.signalled && pc' == Top
            case WakeTimedOut(clock) => pc.Sleeping? && pc.deadline.Some? && clock >= pc.deadline.value && pc' == Top
            case WakeSpuriously => pc.Sleeping? && pc' == Top
            case _ => pc' == pc || (pc.Sleeping? && pc' == pc.(signalled := true))
  {
  }

  /** In every interleaving callers only wait for the mutex: a node at a new address can be filled in at any time, and
      when the mutex is free every filled-in node can be inserted and every scheduled one unscheduled. */
  lemma CallersProceed(states: seq<State>, steps: seq<Step>, k: nat, h: Addr)
    requires Run(states, steps) && k < |states|
    ensures h !in states[k].live && h !in states[k].prepared ==>
              forall data, interval, clock :: Enabled(states[k], Prepare(h, data, interval, clock))
    ensures var pc := states[k].pc;
            pc.Starting? || pc.Calling? || pc.Sleeping? ==>
              && (h in states[k].prepared ==> Enabled(states[k], Enqueue(h)))
              && (h in Handles(states[k].q) ==> Enabled(states[k], Cancel(h)))
  {
    RunKeeps(states, steps, k);
  }
}
