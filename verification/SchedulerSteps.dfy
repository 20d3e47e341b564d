/** The scheduler thread and its callers as one transition system. A step is what one thread does
    while it holds the mutex, or a private action; the thread's own critical section is split so
    that the moment between the removal of a node and its return to the queue is a state. */
module SchedulerSteps {
  import opened Options
  import opened TaskQueue

  type Addr = nat

  /** Where the scheduler thread is. */
  datatype Pc =
    | Starting                                   // not at its first lock yet; clients may already register
    | Top                                        // about to read the clock
    | Scanning(now: int, did: bool)              // at the head of the inner loop
    | Holding(now: int, task: Task<Addr>)        // has popped a node and not put it back
    | Calling(now: int, task: Task<Addr>)        // runs the callback; the task is as it was popped
    | Sleeping(deadline: Option<int>, signalled: bool)

  /** History of a node: the clock reading it was scheduled at, what it carries, how often it was fired,
      and whether it was ever re-timed from the clock ("skip if missed"). SchedulerHistory says what this and
      the other histories are in terms of the steps of a run. */
  datatype Record = Record(start: int, data: Addr, interval: int, fired: nat, skipped: bool)

  /** History of the current pass: tasks due at its start, dispatches made, tasks added since;
      the nodes due at its start, and the nodes fired in it, that have not been unscheduled since. */
  datatype PassLog = PassLog(initial: nat, made: nat, added: nat, due: set<Addr>, fired: set<Addr>)

  datatype State = State(
    q: seq<Task<Addr>>,
    pc: Pc,
    prepared: map<Addr, Task<Addr>>,  // nodes filled in by schedule_ts, not inserted yet
    live: set<Addr>,                  // handles scheduled and not yet unscheduled
    records: map<Addr, Record>,
    log: PassLog)

  datatype Step =
    | Prepare(h: Addr, data: Addr, interval: int, clock: int)
    | Enqueue(h: Addr)
    | Cancel(h: Addr)
    | Start
    | ReadClock(now: int)
    | PopHead
    | PutBack
    | Relock
    | EndPass
    | FallAsleep
    | WakeSignalled
    | WakeTimedOut(clock: int)
    | WakeSpuriously

  ghost predicate Init(s: State) {
    && s.q == [] && s.pc == Starting && s.prepared == map[] && s.live == {} && s.records == map[]
    && s.log == PassLog(0, 0, 0, {}, {})
  }

  /** The mutex is free exactly until the thread first locks it, and while it runs a callback or sleeps. */
  predicate LockFree(s: State) {
    s.pc.Starting? || s.pc.Calling? || s.pc.Sleeping?
  }

  predicate Enabled(s: State, a: Step) {
    match a
    case Prepare(h, _, _, _) => h !in s.live && h !in s.prepared
    case Enqueue(h) => LockFree(s) && h in s.prepared
    case Cancel(h) => LockFree(s) && h in s.live
    case Start => s.pc.Starting?
    case ReadClock(_) => s.pc.Top?
    case PopHead => s.pc.Scanning? && HeadDue(s.q, s.pc.now)
    case PutBack => s.pc.Holding? && s.pc.task.handle in s.records
    case Relock => s.pc.Calling?
    case EndPass => s.pc.Scanning? && !HeadDue(s.q, s.pc.now) && s.pc.did
    case FallAsleep => s.pc.Scanning? && !HeadDue(s.q, s.pc.now) && !s.pc.did
    case WakeSignalled => s.pc.Sleeping? && s.pc.signalled
    case WakeTimedOut(clock) => s.pc.Sleeping? && s.pc.deadline.Some? && clock >= s.pc.deadline.value
    case WakeSpuriously => s.pc.Sleeping?
  }

  /** The first node is another one, or one where there was none. */
  predicate HeadChanged(before: seq<Task<Addr>>, after: seq<Task<Addr>>) {
    if before == [] then after != [] else after == [] || before[0].handle != after[0].handle
  }

  /** schedule_ts signals when the insertion changed the head of the list. */
  function Signal(pc: Pc, before: seq<Task<Addr>>, after: seq<Task<Addr>>): Pc {
    if HeadChanged(before, after) && pc.Sleeping? then pc.(signalled := true) else pc
  }

  /** The nodes due at a clock reading. */
  function DueHandles(q: seq<Task<Addr>>, now: int): set<Addr> {
    set t | t in q && t.next <= now :: t.handle
  }

  function Apply(s: State, a: Step): State
    requires Enabled(s, a)
  {
    match a
    case Prepare(h, data, interval, clock) =>
      s.(prepared := s.prepared[h := Task(h, data, interval, clock + interval)],
         records := s.records[h := Record(clock, data, interval, 0, false)])
    case Enqueue(h) =>
      var q' := Insert(s.q, s.prepared[h]);
      s.(q := q', pc := Signal(s.pc, s.q, q'), prepared := s.prepared - {h}, live := s.live + {h},
         log := s.log.(added := s.log.added + 1))
    case Cancel(h) =>
      s.(q := Remove(s.q, h), live := s.live - {h}, records := s.records - {h},
         log := s.log.(due := s.log.due - {h}, fired := s.log.fired - {h}))
    case Start => s.(pc := Top)
    case ReadClock(now) =>
      s.(pc := Scanning(now, false), log := PassLog(CountUpTo(s.q, now), 0, 0, DueHandles(s.q, now), {}))
    case PopHead =>
      s.(q := s.q[1..], pc := Holding(s.pc.now, s.q[0]))
    case PutBack =>
      var t, now := s.pc.task, s.pc.now;
      var r := s.records[t.handle];
      s.(q := Insert(s.q, RetimeTask(t, now)),
         pc := Calling(now, t),
         records := s.records[t.handle := FiredOnce(t, r, now)],
         log := s.log.(made := s.log.made + 1, fired := s.log.fired + {t.handle}))
    case Relock => s.(pc := Scanning(s.pc.now, true))
    case EndPass => s.(pc := Top)
    case FallAsleep => s.(pc := Sleeping(if s.q == [] then None else Some(s.q[0].next), false))
    case WakeSignalled => s.(pc := Top)
    case WakeTimedOut(_) => s.(pc := Top)
    case WakeSpuriously => s.(pc := Top)
  }

  ghost predicate Run(states: seq<State>, steps: seq<Step>) {
    && |states| == |steps| + 1
    && Init(states[0])
    && forall i :: 0 <= i < |steps| ==> Enabled(states[i], steps[i]) && states[i + 1] == Apply(states[i], steps[i])
  }

  // ------------------------------------------------------------ the list itself

  /** The handle the thread has taken off the queue for the moment. */
  function Held(s: State): set<Addr> {
    if s.pc.Holding? then {s.pc.task.handle} else {}
  }

  /** The queue is sorted, has no handle twice, and holds exactly the handles scheduled and not yet
      unscheduled, save the one in the thread's hands. */
  ghost predicate QueueInv(s: State) {
    && Sorted(s.q) && Distinct(s.q)
    && Handles(s.q) == s.live - Held(s) && Held(s) <= s.live
    && s.prepared.Keys !! s.live
    && (forall h :: h in s.prepared ==> s.prepared[h].handle == h)
    && s.records.Keys == s.live + s.prepared.Keys
  }

  lemma PopKeepsQueue(q: seq<Task<Addr>>)
    requires q != [] && Sorted(q) && Distinct(q)
    ensures Sorted(q[1..]) && Distinct(q[1..])
    ensures Handles(q[1..]) == Handles(q) - {q[0].handle} && q[0].handle in Handles(q)
  {
    assert forall i :: 0 < i < |q| ==> q[i] == q[1..][i - 1];
  }

  lemma QueueInvStep(s: State, a: Step)
    requires QueueInv(s) && Enabled(s, a)
    ensures QueueInv(Apply(s, a))
  {
    match a {
      case Enqueue(h) =>
        InsertSorted(s.q, s.prepared[h]);
        InsertHandles(s.q, s.prepared[h]);
      case Cancel(h) =>
        RemoveKeeps(s.q, h);
      case PopHead =>
        PopKeepsQueue(s.q);
      case PutBack =>
        InsertSorted(s.q, RetimeTask(s.pc.task, s.pc.now));
        InsertHandles(s.q, RetimeTask(s.pc.task, s.pc.now));
      case _ =>
    }
  }

  /** What the thread does under the lock for a due head, in the three steps it takes, is one turn of the inner
      loop, and what it calls is the head; so an undisturbed pass is TaskQueue.Pass. */
  lemma TurnIsDispatch(s: State)
    requires QueueInv(s) && Enabled(s, PopHead)
    ensures Enabled(Apply(s, PopHead), PutBack)
    ensures var s' := Apply(Apply(s, PopHead), PutBack);
            && s'.q == Dispatch(s.q, s.pc.now) && s'.live == s.live
            && s'.pc == Calling(s.pc.now, s.q[0])
            && Apply(s', Relock).pc == Scanning(s.pc.now, true)
  {
    PopKeepsQueue(s.q);
  }

  // ------------------------------------------------------------------- wakeups

  /** No lost and no late wakeup: a thread that sleeps unsignalled has nothing to wait for, or has a
      deadline that is not after the time of the head. */
  ghost predicate WakeInv(s: State) {
    s.pc.Sleeping? && !s.pc.signalled && s.q != [] ==>
      s.pc.deadline.Some? && s.pc.deadline.value <= s.q[0].next
  }

  lemma WakeInvStep(s: State, a: Step)
    requires QueueInv(s) && WakeInv(s) && Enabled(s, a)
    ensures WakeInv(Apply(s, a))
  {
    match a {
      case Enqueue(h) =>
        var x := s.prepared[h];
        if CountUpTo(s.q, x.next) == 0 {
          assert Insert(s.q, x)[0] == x;
          if s.q != [] {
            assert s.q[0].handle in Handles(s.q);
          }
        }
      case Cancel(h) =>
        if Remove(s.q, h) != [] {
          assert s.q[0].next <= Remove(s.q, h)[0].next;
        }
      case _ =>
    }
  }

  // ---------------------------------------------------------------------- rate

  /** A node scheduled at `start` and fired n times is not due before start + (n + 1) intervals, and is due
      exactly then as long as it was never re-timed from the clock. */
  ghost predicate Keeps(t: Task<Addr>, r: Record) {
    && t.data == r.data && t.interval == r.interval
    && t.next >= r.start + (r.fired + 1) * r.interval
    && (!r.skipped ==> t.next == r.start + (r.fired + 1) * r.interval)
  }

  function FiredOnce(t: Task<Addr>, r: Record, now: int): Record {
    r.(fired := r.fired + 1, skipped := r.skipped || now >= t.next + t.interval)
  }

  lemma RetimeKeeps(t: Task<Addr>, r: Record, now: int)
    requires Keeps(t, r) && now >= t.next
    ensures Keeps(RetimeTask(t, now), FiredOnce(t, r, now))
  {
    assert (r.fired + 2) * r.interval == (r.fired + 1) * r.interval + r.interval;
  }

  ghost predicate OnRate(t: Task<Addr>, records: map<Addr, Record>) {
    t.handle in records && Keeps(t, records[t.handle])
  }

  ghost predicate RateInv(s: State) {
    && (forall t :: t in s.q ==> OnRate(t, s.records))
    && (forall h :: h in s.prepared ==> OnRate(s.prepared[h], s.records))
    && (s.pc.Holding? ==> OnRate(s.pc.task, s.records) && s.pc.now >= s.pc.task.next)
  }

  lemma MemberHandle(q: seq<Task<Addr>>, t: Task<Addr>)
    requires t in q
    ensures t.handle in Handles(q)
  {
    var i :| 0 <= i < |q| && q[i] == t;
  }

  /** The records of other handles do not matter. */
  lemma OthersOnRate(q: seq<Task<Addr>>, records: map<Addr, Record>, records': map<Addr, Record>, h: Addr)
    requires forall t :: t in q ==> OnRate(t, records)
    requires h !in Handles(q) && records' - {h} == records - {h}
    ensures forall t :: t in q ==> OnRate(t, records')
  {
    forall t | t in q
      ensures OnRate(t, records')
    {
      MemberHandle(q, t);
      assert t.handle in records - {h} && (records - {h})[t.handle] == records[t.handle];
      assert t.handle in records' - {h} && (records' - {h})[t.handle] == records'[t.handle];
    }
  }

  lemma RateInvPutBack(s: State)
    requires QueueInv(s) && RateInv(s) && Enabled(s, PutBack)
    ensures RateInv(Apply(s, PutBack))
  {
    var s', t := Apply(s, PutBack), s.pc.task;
    RetimeKeeps(t, s.records[t.handle], s.pc.now);
    InsertMembers(s.q, RetimeTask(t, s.pc.now));
    assert s'.records - {t.handle} == s.records - {t.handle};
    OthersOnRate(s.q, s.records, s'.records, t.handle);
  }

  lemma RateInvPrepare(s: State, a: Step)
    requires a.Prepare? && QueueInv(s) && RateInv(s) && Enabled(s, a)
    ensures RateInv(Apply(s, a))
  {
    var s' := Apply(s, a);
    assert s'.records - {a.h} == s.records - {a.h};
    OthersOnRate(s.q, s.records, s'.records, a.h);
  }

  lemma RateInvCancel(s: State, h: Addr)
    requires QueueInv(s) && RateInv(s) && Enabled(s, Cancel(h))
    ensures RateInv(Apply(s, Cancel(h)))
  {
    RemoveMembers(s.q, h);
  }

  lemma RateInvEnqueue(s: State, h: Addr)
    requires QueueInv(s) && RateInv(s) && Enabled(s, Enqueue(h))
    ensures RateInv(Apply(s, Enqueue(h)))
  {
    InsertMembers(s.q, s.prepared[h]);
  }

  lemma RateInvStep(s: State, a: Step)
    requires QueueInv(s) && RateInv(s) && Enabled(s, a)
    ensures RateInv(Apply(s, a))
  {
    match a {
      case Prepare(_, _, _, _) => RateInvPrepare(s, a);
      case Enqueue(h) => RateInvEnqueue(s, h);
      case Cancel(h) => RateInvCancel(s, h);
      case PutBack => RateInvPutBack(s);
      case _ =>
    }
  }

  // -------------------------------------------------------------- one pass

  predicate InPass(pc: Pc) {
    pc.Scanning? || pc.Holding? || pc.Calling?
  }

  ghost predicate AllPositive(s: State) {
    && (forall t :: t in s.q ==> t.interval > 0)
    && (forall h :: h in s.prepared ==> s.prepared[h].interval > 0)
    && (s.pc.Holding? ==> s.pc.task.interval > 0)
  }

  /** The dispatches made and the tasks still due are paid for by the tasks due at the start of the pass
      and those added since; no node fired in this pass is due again in it. */
  ghost predicate PassInv(s: State) {
    && s.log.fired <= s.live
    && (InPass(s.pc) ==>
          && s.log.made + CountUpTo(s.q, s.pc.now) + |Held(s)| <= s.log.initial + s.log.added
          && (forall t :: t in s.q && t.handle in s.log.fired ==> t.next > s.pc.now))
    && (s.pc.Holding? ==> s.pc.task.handle !in s.log.fired)
  }

  predicate PositiveStep(a: Step) {
    a.Prepare? ==> a.interval > 0
  }

  lemma AllPositiveStep(s: State, a: Step)
    requires QueueInv(s) && AllPositive(s) && Enabled(s, a) && PositiveStep(a)
    ensures AllPositive(Apply(s, a))
  {
    match a {
      case Enqueue(h) =>
        InsertMembers(s.q, s.prepared[h]);
      case Cancel(h) =>
        RemoveMembers(s.q, h);
      case PutBack =>
        InsertMembers(s.q, RetimeTask(s.pc.task, s.pc.now));
      case _ =>
    }
  }

  lemma PassInvEnqueue(s: State, h: Addr)
    requires QueueInv(s) && PassInv(s) && Enabled(s, Enqueue(h))
    ensures PassInv(Apply(s, Enqueue(h)))
  {
    var x := s.prepared[h];
    if InPass(s.pc) {
      InsertCount(s.q, x, s.pc.now);
      forall t | t in Insert(s.q, x) && t.handle in s.log.fired
        ensures t.next > s.pc.now
      {
        assert t.handle in s.live;
        InsertMembers(s.q, x);
      }
    }
  }

  lemma PassInvCancel(s: State, h: Addr)
    requires QueueInv(s) && PassInv(s) && Enabled(s, Cancel(h))
    ensures PassInv(Apply(s, Cancel(h)))
  {
    RemoveMembers(s.q, h);
    if InPass(s.pc) {
      RemoveCount(s.q, h, s.pc.now);
    }
  }

  lemma PassInvPopHead(s: State)
    requires QueueInv(s) && PassInv(s) && Enabled(s, PopHead)
    ensures PassInv(Apply(s, PopHead))
  {
    TailDue(s.q, s.pc.now);
    assert s.q[0] in s.q;
  }

  lemma PassInvPutBack(s: State)
    requires QueueInv(s) && AllPositive(s) && PassInv(s) && Enabled(s, PutBack)
    ensures PassInv(Apply(s, PutBack))
  {
    var x, s' := RetimeTask(s.pc.task, s.pc.now), Apply(s, PutBack);
    assert x.next > s.pc.now;
    InsertMembers(s.q, x);
    InsertCount(s.q, x, s.pc.now);
    forall t | t in s'.q && t.handle in s'.log.fired
      ensures t.next > s.pc.now
    {
      if t != x {
        MemberHandle(s.q, t);
      }
    }
  }

  lemma PassInvStep(s: State, a: Step)
    requires QueueInv(s) && AllPositive(s) && PassInv(s) && Enabled(s, a)
    ensures PassInv(Apply(s, a))
  {
    match a {
      case Enqueue(h) => PassInvEnqueue(s, h);
      case Cancel(h) => PassInvCancel(s, h);
      case PopHead => PassInvPopHead(s);
      case PutBack => PassInvPutBack(s);
      case _ =>
    }
  }

  /** A node due at the start of the pass that has not been fired in it is still due, or in the thread's hands. */
  ghost predicate DueInv(s: State) {
    InPass(s.pc) ==>
      && s.log.due <= s.live
      && forall t :: t in s.q && t.handle in s.log.due - s.log.fired ==> t.next <= s.pc.now
  }

  lemma DueInvReadClock(s: State, now: int)
    requires QueueInv(s) && Enabled(s, ReadClock(now))
    ensures DueInv(Apply(s, ReadClock(now)))
  {
    forall t | t in s.q && t.handle in DueHandles(s.q, now)
      ensures t.next <= now
    {
      var u :| u in s.q && u.next <= now && u.handle == t.handle;
      var i, j :| 0 <= i < |s.q| && 0 <= j < |s.q| && s.q[i] == t && s.q[j] == u;
      assert i == j;
    }
    forall h | h in DueHandles(s.q, now)
      ensures h in s.live
    {
      var t :| t in s.q && t.next <= now && t.handle == h;
      MemberHandle(s.q, t);
    }
  }

  lemma DueInvPutBack(s: State)
    requires QueueInv(s) && DueInv(s) && Enabled(s, PutBack)
    ensures DueInv(Apply(s, PutBack))
  {
    InsertMembers(s.q, RetimeTask(s.pc.task, s.pc.now));
  }

  lemma DueInvStep(s: State, a: Step)
    requires QueueInv(s) && DueInv(s) && Enabled(s, a)
    ensures DueInv(Apply(s, a))
  {
    match a {
      case Enqueue(h) => InsertMembers(s.q, s.prepared[h]);
      case Cancel(h) => RemoveMembers(s.q, h);
      case ReadClock(now) => DueInvReadClock(s, now);
      case PutBack => DueInvPutBack(s);
      case _ =>
    }
  }

  // ------------------------------------------------------------------ all runs

  lemma {:induction false} RunKeeps(states: seq<State>, steps: seq<Step>, k: nat)
    requires Run(states, steps) && k < |states|
    ensures QueueInv(states[k]) && WakeInv(states[k]) && RateInv(states[k]) && DueInv(states[k])
  {
    if k > 0 {
      var s, a := states[k - 1], steps[k - 1];
      RunKeeps(states, steps, k - 1);
      QueueInvStep(s, a);
      WakeInvStep(s, a);
      RateInvStep(s, a);
      DueInvStep(s, a);
    }
  }

  /** In every interleaving, whenever the mutex is free the queue is sorted and holds exactly the scheduled
      handles, so unschedule finds its node; a popped node can always be put back. */
  lemma QueueSafety(states: seq<State>, steps: seq<Step>, k: nat)
    requires Run(states, steps) && k < |states|
    ensures Sorted(states[k].q) && Distinct(states[k].q)
    ensures LockFree(states[k]) ==> Handles(states[k].q) == states[k].live
    ensures forall h :: Enabled(states[k], Cancel(h)) ==> IndexOf(states[k].q, h) < |states[k].q|
    ensures states[k].pc.Holding? ==> Enabled(states[k], PutBack) && !LockFree(states[k])
  {
    RunKeeps(states, steps, k);
  }

  /** In every interleaving and for every clock, a sleeping thread can be woken by a signal that is pending
      or by its deadline as soon as the clock reaches the time of the head. */
  lemma NoLateWakeup(states: seq<State>, steps: seq<Step>, k: nat, clock: int)
    requires Run(states, steps) && k < |states|
    requires states[k].pc.Sleeping? && HeadDue(states[k].q, clock)
    ensures Enabled(states[k], WakeSignalled) || Enabled(states[k], WakeTimedOut(clock))
  {
    RunKeeps(states, steps, k);
  }

  /** In every interleaving and for every clock, forward or backward: firing number n of a node happens at a clock
      reading not before start + n intervals; the node then waits until start + (n + 1) intervals or later, and
      exactly until then if it was never re-timed from the clock, but never longer than one interval from the
      clock reading. */
  lemma RateBound(states: seq<State>, steps: seq<Step>, k: nat)
    requires Run(states, steps) && k < |steps| && steps[k].PutBack?
    ensures var t, now, s' := states[k].pc.task, states[k].pc.now, states[k + 1];
            && t.handle in s'.records
            && var r, x := s'.records[t.handle], RetimeTask(t, now);
               && t.interval == r.interval
               && now >= r.start + r.fired * r.interval
               && x in s'.q && x.handle == t.handle && x.data == r.data && x.interval == r.interval
               && x.next >= r.start + (r.fired + 1) * r.interval
               && x.next <= now + r.interval
               && (!r.skipped ==> x.next == r.start + (r.fired + 1) * r.interval)
  {
    RunKeeps(states, steps, k);
    RunKeeps(states, steps, k + 1);
    var s := states[k];
    InsertMembers(s.q, RetimeTask(s.pc.task, s.pc.now));
    RetimeTaskExact(s.pc.task, s.pc.now);
    assert RetimeTask(s.pc.task, s.pc.now) in states[k + 1].q;
  }

  /** With positive intervals a pass makes at most as many dispatches as there were tasks due at its start plus
      tasks added while it runs, even if those are due when they come; and it fires no node twice. */
  lemma {:induction false} PassBound(states: seq<State>, steps: seq<Step>, k: nat)
    requires Run(states, steps) && k < |states|
    requires forall i :: 0 <= i < |steps| ==> PositiveStep(steps[i])
    ensures AllPositive(states[k]) && PassInv(states[k])
    ensures InPass(states[k].pc) ==> states[k].log.made <= states[k].log.initial + states[k].log.added
    ensures states[k].pc.Holding? ==> states[k].pc.task.handle !in states[k].log.fired
  {
    if k > 0 {
      PassBound(states, steps, k - 1);
      RunKeeps(states, steps, k - 1);
      AllPositiveStep(states[k - 1], steps[k - 1]);
      PassInvStep(states[k - 1], steps[k - 1]);
    }
  }

  /** In every interleaving and for any intervals: when a pass ends, it has fired every node that was due at its
      start and has not been unscheduled since. */
  lemma PassComplete(states: seq<State>, steps: seq<Step>, k: nat)
    requires Run(states, steps) && k < |steps| && (steps[k].EndPass? || steps[k].FallAsleep?)
    ensures states[k].log.due <= states[k].log.fired
  {
    RunKeeps(states, steps, k);
    var s := states[k];
    forall h | h in s.log.due
      ensures h in s.log.fired
    {
      assert h in Handles(s.q);
      var i :| 0 <= i < |s.q| && s.q[i].handle == h;
      assert s.q[0].next <= s.q[i].next;
    }
  }
}
