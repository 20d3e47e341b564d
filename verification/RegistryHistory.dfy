/** What the registration operations have done when they are through, in every interleaving with the scheduler thread
    and in terms of the step that began them: which query is registered, with which task, and which nodes go. */
module RegistryHistory {
  import opened Options
  import opened TaskQueue
  import opened RegistryTable
  import opened RegistrySteps
  import Sched = SchedulerSteps

  predicate Begins(a: Step) {
    a.BeginRegister? || a.BeginUnregister? || a.BeginDrop?
  }

  /** Step b began the operation that is under way before step k. */
  ghost predicate Began(steps: seq<Step>, b: int, k: int)
    requires k <= |steps|
  {
    0 <= b < k && Begins(steps[b]) && forall i :: b < i < k ==> !Begins(steps[i])
  }

  /** Node h is scheduled: it carries d and has the given interval. */
  ghost predicate HasTask(s: Sched.State, h: Addr, d: Addr, interval: int) {
    exists t :: (t in s.q || (s.pc.Holding? && t == s.pc.task))
                && t.handle == h && t.data == d && t.interval == interval
  }

  lemma ThreadKeepsTask(s: Sched.State, a: Sched.Step, h: Addr, d: Addr, interval: int)
    requires ThreadStep(a) && Sched.Enabled(s, a) && HasTask(s, h, d, interval)
    ensures HasTask(Sched.Apply(s, a), h, d, interval)
  {
    var s' := Sched.Apply(s, a);
    var t :| (t in s.q || (s.pc.Holding? && t == s.pc.task)) && t.handle == h && t.data == d && t.interval == interval;
    if a.PopHead? {
      assert s.q == [s.q[0]] + s.q[1..];
      assert t in s'.q || t == s'.pc.task;
    } else if a.PutBack? {
      var x := RetimeTask(s.pc.task, s.pc.now);
      InsertMembers(s.q, x);
      var u := if t == s.pc.task then x else t;
      assert u in s'.q;
    } else {
      assert t in s'.q;
    }
  }

  lemma EnqueueGivesTask(s: Sched.State, h: Addr)
    requires Sched.Enabled(s, Sched.Enqueue(h))
    requires s.prepared[h].handle == h
    ensures HasTask(Sched.Apply(s, Sched.Enqueue(h)), h, s.prepared[h].data, s.prepared[h].interval)
  {
    InsertMembers(s.q, s.prepared[h]);
    assert s.prepared[h] in Sched.Apply(s, Sched.Enqueue(h)).q;
  }

  // ---------------------------------------------------------- registration

  /** A registration that a began in state s0 has come to state s. */
  ghost predicate Registering(s0: State, a: Step, s: State) {
    a.BeginRegister? && s.table == WithApp(s0.table, a.app, a.fd) &&
    var i, interval := FindApp(s0.table, a.fd), a.ms * 1_000_000;
    var owner := if i < |s0.table| then s0.table[i].addr else a.app;
    match s.op
    case Preparing(fd, addr, app, query, ms) =>
      fd == a.fd && addr == a.addr && app == owner && query == a.query && ms == interval
    case Enqueueing(fd, n) =>
      && fd == a.fd && n.addr == a.addr && n.app == owner && n.query == a.query
      && n.handler in s.sched.prepared && s.sched.prepared[n.handler].handle == n.handler
      && s.sched.prepared[n.handler].data == a.addr && s.sched.prepared[n.handler].interval == interval
    case Linking(fd, n) =>
      && fd == a.fd && n.addr == a.addr && n.app == owner && n.query == a.query
      && HasTask(s.sched, n.handler, a.addr, interval)
    case _ => false
  }

  lemma RegisteringStep(s0: State, a: Step, s: State, c: Step)
    requires Registering(s0, a, s) && Enabled(s, c) && !c.LinkNode?
    ensures Registering(s0, a, Apply(s, c))
  {
    match c {
      case Thread(b) =>
        if s.op.Linking? {
          ThreadKeepsTask(s.sched, b, s.op.node.handler, a.addr, a.ms * 1_000_000);
        }
      case EnqueueTask =>
        EnqueueGivesTask(s.sched, s.op.node.handler);
      case _ =>
    }
  }

  lemma RegisteringStart(s: State, a: Step)
    requires a.BeginRegister? && Enabled(s, a)
    ensures Registering(s, a, Apply(s, a))
  {
  }

  lemma StaysRegistration(s: State, a: Step)
    requires Enabled(s, a) && !a.BeginRegister? && InRegistration(Apply(s, a).op)
    ensures InRegistration(s.op) && !Begins(a) && !a.LinkNode?
  {
  }

  predicate InRegistration(op: Op) {
    op.Preparing? || op.Enqueueing? || op.Linking?
  }

  /** Step i began the registration that is under way after it, or went on with it. */
  ghost predicate GoesOn(states: seq<State>, steps: seq<Step>, i: nat)
    requires i < |steps| && |states| == |steps| + 1
  {
    InRegistration(states[i + 1].op) ==>
      steps[i].BeginRegister? || (InRegistration(states[i].op) && !Begins(steps[i]) && !steps[i].LinkNode?)
  }

  lemma RegistrationGoesOn(states: seq<State>, steps: seq<Step>, i: nat)
    requires Run(states, steps) && i < |steps|
    ensures GoesOn(states, steps, i)
  {
    assert states[i + 1] == Apply(states[i], steps[i]) && Enabled(states[i], steps[i]);
    if InRegistration(states[i + 1].op) && !steps[i].BeginRegister? {
      StaysRegistration(states[i], steps[i]);
    }
  }

  lemma {:induction false} RegistrationBegan(states: seq<State>, steps: seq<Step>, k: nat) returns (b: nat)
    requires |states| == |steps| + 1 && states[0].op.Idle? && forall i :: 0 <= i < |steps| ==> GoesOn(states, steps, i)
    requires k < |states| && InRegistration(states[k].op)
    ensures Began(steps, b, k) && steps[b].BeginRegister?
    ensures forall i :: b < i < k ==> !steps[i].LinkNode?
  {
    assert GoesOn(states, steps, k - 1);
    if steps[k - 1].BeginRegister? {
      b := k - 1;
    } else {
      b := RegistrationBegan(states, steps, k - 1);
    }
  }

  lemma RegistrationNext(states: seq<State>, steps: seq<Step>, b: nat, k: nat)
    requires Run(states, steps) && b < k < |steps| && !steps[k].LinkNode?
    requires Registering(states[b], steps[b], states[k])
    ensures Registering(states[b], steps[b], states[k + 1])
  {
    assert states[k + 1] == Apply(states[k], steps[k]) && Enabled(states[k], steps[k]);
    RegisteringStep(states[b], steps[b], states[k], steps[k]);
  }

  lemma RegistrationFirst(states: seq<State>, steps: seq<Step>, b: nat)
    requires Run(states, steps) && b < |steps| && steps[b].BeginRegister?
    ensures Registering(states[b], steps[b], states[b + 1])
  {
    assert states[b + 1] == Apply(states[b], steps[b]) && Enabled(states[b], steps[b]);
    RegisteringStart(states[b], steps[b]);
  }

  lemma {:induction false} RegistrationIs(states: seq<State>, steps: seq<Step>, b: nat, k: nat)
    requires Run(states, steps) && b < k < |states| && steps[b].BeginRegister?
    requires forall i :: b < i < k ==> !steps[i].LinkNode?
    ensures Registering(states[b], steps[b], states[k])
    decreases k
  {
    if k - 1 == b {
      RegistrationFirst(states, steps, b);
    } else {
      RegistrationIs(states, steps, b, k - 1);
      RegistrationNext(states, steps, b, k - 1);
    }
  }

  /** In every interleaving, when a registration is through: the query it was begun for is in front of the queries its
      descriptor had, which are otherwise the same, and its node is scheduled with the interval asked for; no
      other descriptor's queries have changed. */
  lemma RegisteredAsAsked(states: seq<State>, steps: seq<Step>, k: nat, g: int) returns (b: nat)
    requires Run(states, steps) && k < |steps| && steps[k].LinkNode?
    ensures Began(steps, b, k) && steps[b].BeginRegister? && states[k + 1].op.Idle?
    ensures var a := steps[b];
            var before, after := Lookup(states[b].table, a.fd), Lookup(states[k + 1].table, a.fd);
            && after.Some? && after.value != [] && after.value[0].query == a.query && after.value[0].addr == a.addr
            && after.value[1..] == (if before.Some? then before.value else [])
            && HasTask(states[k + 1].sched, after.value[0].handler, a.addr, a.ms * 1_000_000)
    ensures g != steps[b].fd ==> Lookup(states[k + 1].table, g) == Lookup(states[b].table, g)
  {
    assert Enabled(states[k], steps[k]) && states[k + 1] == Apply(states[k], steps[k]);
    forall i | 0 <= i < |steps|
      ensures GoesOn(states, steps, i)
    {
      RegistrationGoesOn(states, steps, i);
    }
    b := RegistrationBegan(states, steps, k);
    RegistrationIs(states, steps, b, k);
    RunKeeps(states, steps, b);
    var n, fd := states[k].op.node, steps[b].fd;
    assert states[k + 1].table == Register(states[b].table, fd, n);
    RegisterRefines(states[b].table, fd, n, g);
  }

  // -------------------------------------------------------- unregistration

  /** In every interleaving, when unregister_query calls unschedule: the node it unschedules is that of the newest query
      of the descriptor with the request id it was begun for, and this query alone has left the table. */
  lemma UnregisteredAsAsked(states: seq<State>, steps: seq<Step>, k: nat, g: int) returns (b: nat, j: nat)
    requires Run(states, steps) && k < |steps| && steps[k].CancelTask?
    ensures Began(steps, b, k) && steps[b].BeginUnregister? && states[k + 1].op.Idle?
    ensures var qs := Lookup(states[b].table, steps[b].fd);
            && qs.Some? && j < |qs.value| && qs.value[j].query.reqId == steps[b].reqId
            && (forall i :: 0 <= i < j ==> qs.value[i].query.reqId != steps[b].reqId)
            && Lookup(states[k + 1].table, steps[b].fd) == Some(qs.value[..j] + qs.value[j + 1..])
            && states[k + 1].sched.live == states[k].sched.live - {qs.value[j].handler}
    ensures g != steps[b].fd ==> Lookup(states[k + 1].table, g) == Lookup(states[b].table, g)
  {
    assert Enabled(states[k], steps[k]) && states[k + 1] == Apply(states[k], steps[k]);
    b := UnregistrationIs(states, steps, k);
    RunKeeps(states, steps, b);
    var t, fd, reqId := states[b].table, steps[b].fd, steps[b].reqId;
    UnlinkRefines(t, fd, reqId, g);
    j := FindQuery(Lookup(t, fd).value, reqId);
  }

  ghost predicate Unregistering(s0: State, a: Step, s: State) {
    && a.BeginUnregister? && s.op.Cancelling?
    && Match(s0.table, a.fd, a.reqId) == Some(s.op.node) && s.table == Unlink(s0.table, a.fd, a.reqId)
  }

  lemma {:induction false} UnregistrationIs(states: seq<State>, steps: seq<Step>, k: nat) returns (b: nat)
    requires Run(states, steps) && k < |states| && states[k].op.Cancelling?
    ensures Began(steps, b, k) && Unregistering(states[b], steps[b], states[k])
  {
    var s, a := states[k - 1], steps[k - 1];
    assert states[k] == Apply(s, a) && Enabled(s, a);
    if a.BeginUnregister? {
      b := k - 1;
    } else {
      b := UnregistrationIs(states, steps, k - 1);
    }
  }

  /** unregister_query does nothing if the descriptor has no query with the request id. */
  lemma NothingToUnregister(states: seq<State>, steps: seq<Step>, b: nat)
    requires Run(states, steps) && b < |steps| && steps[b].BeginUnregister?
    requires var qs := Lookup(states[b].table, steps[b].fd);
             qs.None? || forall n :: n in qs.value ==> n.query.reqId != steps[b].reqId
    ensures states[b + 1] == states[b]
  {
    RunKeeps(states, steps, b);
    UnlinkRefines(states[b].table, steps[b].fd, steps[b].reqId, steps[b].fd);
    assert states[b + 1] == Apply(states[b], steps[b]);
  }

  /** unregister_application has unscheduled the first n nodes of the descriptor. */
  ghost predicate DroppedSome(s0: State, a: Step, s: State, n: nat) {
    && a.BeginDrop? && s.op.Dropping? && s.op.fd == a.fd && s.table == Drop(s0.table, a.fd)
    && Lookup(s0.table, a.fd).Some?
    && var qs := Lookup(s0.table, a.fd).value;
       && n <= |qs| && s.op.rest == qs[n..]
       && forall i :: 0 <= i < n ==> qs[i].handler !in s.sched.live
  }

  lemma DroppedStep(s0: State, a: Step, s: State, n: nat, c: Step) returns (n': nat)
    requires DroppedSome(s0, a, s, n) && Enabled(s, c) && !c.EndDrop?
    ensures DroppedSome(s0, a, Apply(s, c), n')
  {
    n' := if c.CancelNext? then n + 1 else n;
    var qs := Lookup(s0.table, a.fd).value;
    if c.CancelNext? {
      assert qs[n..][0] == qs[n] && qs[n..][1..] == qs[n + 1..];
    }
  }

  lemma DropFirst(s: State, a: Step)
    requires Enabled(s, a) && a.BeginDrop? && Apply(s, a).op.Dropping?
    ensures DroppedSome(s, a, Apply(s, a), 0)
  {
    var qs := Lookup(s.table, a.fd).value;
    assert qs[0..] == qs;
  }

  lemma StaysDrop(s: State, a: Step)
    requires Enabled(s, a) && !a.BeginDrop? && Apply(s, a).op.Dropping?
    ensures s.op.Dropping? && !Begins(a) && !a.EndDrop?
  {
  }

  lemma {:induction false} DropIs(states: seq<State>, steps: seq<Step>, k: nat) returns (b: nat, n: nat)
    requires Run(states, steps) && k < |states| && states[k].op.Dropping?
    ensures Began(steps, b, k) && DroppedSome(states[b], steps[b], states[k], n)
  {
    var s, a := states[k - 1], steps[k - 1];
    assert states[k] == Apply(s, a) && Enabled(s, a);
    if a.BeginDrop? {
      DropFirst(s, a);
      b, n := k - 1, 0;
    } else {
      StaysDrop(s, a);
      b, n := DropIs(states, steps, k - 1);
      n := DroppedStep(states[b], steps[b], s, n, a);
    }
  }

  /** In every interleaving, when unregister_application is through: its descriptor is out of the table, the node of
      every query it had is unscheduled, and no other descriptor's queries have changed. */
  lemma DroppedAsAsked(states: seq<State>, steps: seq<Step>, k: nat, g: int) returns (b: nat)
    requires Run(states, steps) && k < |steps| && steps[k].EndDrop?
    ensures Began(steps, b, k) && steps[b].BeginDrop? && Lookup(states[b].table, steps[b].fd).Some?
    ensures Lookup(states[k + 1].table, steps[b].fd).None? && states[k + 1].op.Idle?
    ensures forall n :: n in Lookup(states[b].table, steps[b].fd).value ==> n.handler !in states[k + 1].sched.live
    ensures g != steps[b].fd ==> Lookup(states[k + 1].table, g) == Lookup(states[b].table, g)
  {
    assert Enabled(states[k], steps[k]) && states[k + 1] == Apply(states[k], steps[k]);
    var n;
    b, n := DropIs(states, steps, k);
    RunKeeps(states, steps, b);
    DropRefines(states[b].table, steps[b].fd, g);
    var qs := Lookup(states[b].table, steps[b].fd).value;
    assert |qs[n..]| == 0;
  }

  /** In every interleaving an operation can begin whenever none is under way, with any arguments, and then goes on: the
      only thing it waits for is the scheduler's mutex. */
  lemma OperationsProceed(states: seq<State>, steps: seq<Step>, k: nat, fd: int, query: Query, n: nat, h: Addr)
    requires Run(states, steps) && k < |states|
    requires h !in states[k].sched.live && h !in states[k].sched.prepared
    requires forall i :: 0 <= i < |states[k].table| ==> states[k].table[i].addr != h
    requires forall p :: p in PairBag(states[k].table) ==> p.1 != h
    ensures var s, pc := states[k], states[k].sched.pc;
            var locked := pc.Top? || pc.Scanning? || pc.Holding?;
            match s.op
            case Idle =>
              && Enabled(s, BeginRegister(fd, query, n, h, h))
              && Enabled(s, BeginUnregister(fd, n)) && Enabled(s, BeginDrop(fd))
            case Preparing(_, _, _, _, _) => Enabled(s, PrepareTask(h, fd))
            case Enqueueing(_, _) => !locked ==> Enabled(s, EnqueueTask)
            case Linking(_, _) => Enabled(s, LinkNode)
            case Cancelling(_) => !locked ==> Enabled(s, CancelTask)
            case Dropping(_, rest) => if rest == [] then Enabled(s, EndDrop) else !locked ==> Enabled(s, CancelNext)
  {
    RunKeeps(states, steps, k);
    if Sched.LockFree(states[k].sched) {
      UnregisterProceeds(states, steps, k);
    }
  }

  /** The registration operations hold up no step of the scheduler thread, and each of these is one of the composite. */
  lemma ThreadUnhindered(s: State, a: Sched.Step)
    requires Sched.Enabled(s.sched, a) && !a.Prepare? && !a.Enqueue? && !a.Cancel?
    ensures Enabled(s, Thread(a))
    ensures Apply(s, Thread(a)).sched == Sched.Apply(s.sched, a)
    ensures Apply(s, Thread(a)).table == s.table && Apply(s, Thread(a)).op == s.op
  {
  }

  // ---------------------------------------------------------------- callbacks

  /** In every interleaving, when the scheduler thread is about to run a callback, the query node it passes belongs to a
      registered query, with the very scheduler node that was popped, or is in the hands of the operation under way. */
  lemma CallsRegistered(states: seq<State>, steps: seq<Step>, k: nat)
    requires Run(states, steps) && k < |steps| && steps[k] == Thread(Sched.PutBack)
    ensures states[k].sched.pc.Holding?
    ensures var t, s := states[k].sched.pc.task, states[k + 1];
            && s.sched.pc == Sched.Calling(states[k].sched.pc.now, t)
            && (Registered(s.table, t.handle, t.data) || (t.handle, t.data) in InFlight(s.op))
  {
    var s, s' := states[k], states[k + 1];
    assert Enabled(s, steps[k]) && s' == Apply(s, steps[k]);
    var t := s.sched.pc.task;
    assert (t.handle, t.data) in Scheduled(s.sched);
    ThreadKeepsBindings(s.sched, Sched.PutBack);
    FiresOnlyRegistered(states, steps, k + 1, t.handle, t.data);
  }
}
