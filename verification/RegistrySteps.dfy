/** The registration operations and the scheduler thread as one transition system. An operation holds the
    registration mutex but takes the scheduler's only inside schedule and unschedule, so the scheduler
    thread moves between its parts. Every action on the scheduler is a step of SchedulerSteps. */
module RegistrySteps {
  import opened Options
  import opened TaskQueue
  import opened RegistryTable
  import Sched = SchedulerSteps

  type Addr = Sched.Addr
  type Node = QueryNode<Addr>

  /** Pairs of a scheduler handle and the query node it carries, with multiplicity. */
  type Bag = multiset<(Addr, Addr)>

  /** How far the operation that holds the registration mutex has come. */
  datatype Op =
    | Idle
    | Preparing(fd: int, addr: Addr, app: Addr, query: Query, interval: int)  // calls schedule
    | Enqueueing(fd: int, node: Node)                                      // inside schedule_ts, before the lock
    | Linking(fd: int, node: Node)                                         // schedule has returned
    | Cancelling(node: Node)                                               // unchained, calls unschedule
    | Dropping(fd: int, rest: seq<Node>)                                   // application unchained

  datatype State = State(sched: Sched.State, table: seq<App<Addr>>, op: Op)

  datatype Step =
    | Thread(a: Sched.Step)
    | BeginRegister(fd: int, query: Query, ms: nat, app: Addr, addr: Addr)
    | PrepareTask(h: Addr, clock: int)
    | EnqueueTask
    | LinkNode
    | BeginUnregister(fd: int, reqId: nat)
    | CancelTask
    | BeginDrop(fd: int)
    | CancelNext
    | EndDrop

  predicate ThreadStep(a: Sched.Step) {
    !a.Prepare? && !a.Enqueue? && !a.Cancel?
  }

  /** The binding of a query node that is scheduled but not in the table. */
  ghost function InFlight(op: Op): Bag {
    match op
    case Linking(_, n) => multiset{(n.handler, n.addr)}
    case Cancelling(n) => multiset{(n.handler, n.addr)}
    case Dropping(_, rest) => multiset(Pairs(rest))
    case _ => multiset{}
  }

  /** The bindings of all scheduled nodes, the one in the thread's hands included. */
  ghost function Scheduled(s: Sched.State): Bag {
    multiset(Bindings(s.q)) +
    if s.pc.Holding? then multiset{(s.pc.task.handle, s.pc.task.data)} else multiset{}
  }

  /** addr is the address of none of the bound query nodes. */
  ghost predicate Fresh(b: Bag, addr: Addr) {
    forall p :: p in b ==> p.1 != addr
  }

  ghost predicate Init(s: State) {
    Sched.Init(s.sched) && s.table == [] && s.op == Idle
  }

  ghost predicate Enabled(s: State, a: Step) {
    match a
    case Thread(b) => ThreadStep(b) && Sched.Enabled(s.sched, b)
    case BeginRegister(_, _, _, app, addr) =>
      s.op.Idle? && Fresh(PairBag(s.table), addr) && forall i :: 0 <= i < |s.table| ==> s.table[i].addr != app
    case PrepareTask(h, clock) =>
      s.op.Preparing? && Sched.Enabled(s.sched, Sched.Prepare(h, s.op.addr, s.op.interval, clock))
    case EnqueueTask => s.op.Enqueueing? && Sched.Enabled(s.sched, Sched.Enqueue(s.op.node.handler))
    case LinkNode => s.op.Linking?
    case BeginUnregister(_, _) => s.op.Idle?
    case CancelTask => s.op.Cancelling? && Sched.Enabled(s.sched, Sched.Cancel(s.op.node.handler))
    case BeginDrop(_) => s.op.Idle?
    case CancelNext => s.op.Dropping? && s.op.rest != [] && Sched.Enabled(s.sched, Sched.Cancel(s.op.rest[0].handler))
    case EndDrop => s.op.Dropping? && s.op.rest == []
  }

  ghost function Apply(s: State, a: Step): State
    requires Enabled(s, a)
  {
    match a
    case Thread(b) => s.(sched := Sched.Apply(s.sched, b))
    case BeginRegister(fd, query, ms, app, addr) =>
      var t := WithApp(s.table, app, fd);
      var found := FindApp(s.table, fd) < |s.table|;
      var owner := if found then s.table[FindApp(s.table, fd)].addr else app;
      s.(table := t, op := Preparing(fd, addr, owner, query, ms * 1_000_000))
    case PrepareTask(h, clock) =>
      State(Sched.Apply(s.sched, Sched.Prepare(h, s.op.addr, s.op.interval, clock)), s.table,
            Enqueueing(s.op.fd, QueryNode(s.op.addr, s.op.app, s.op.query, h)))
    case EnqueueTask =>
      State(Sched.Apply(s.sched, Sched.Enqueue(s.op.node.handler)), s.table, Linking(s.op.fd, s.op.node))
    case LinkNode =>
      s.(table := Link(s.table, s.op.fd, s.op.node), op := Idle)
    case BeginUnregister(fd, reqId) =>
      var m := Match(s.table, fd, reqId);
      if m.None? then s else s.(table := Unlink(s.table, fd, reqId), op := Cancelling(m.value))
    case CancelTask =>
      State(Sched.Apply(s.sched, Sched.Cancel(s.op.node.handler)), s.table, Idle)
    case BeginDrop(fd) =>
      var qs := Lookup(s.table, fd);
      if qs.None? then s else s.(table := Drop(s.table, fd), op := Dropping(fd, qs.value))
    case CancelNext =>
      State(Sched.Apply(s.sched, Sched.Cancel(s.op.rest[0].handler)), s.table, s.op.(rest := s.op.rest[1..]))
    case EndDrop => s.(op := Idle)
  }

  ghost predicate Run(states: seq<State>, steps: seq<Step>) {
    && |states| == |steps| + 1
    && Init(states[0])
    && forall i :: 0 <= i < |steps| ==> Enabled(states[i], steps[i]) && states[i + 1] == Apply(states[i], steps[i])
  }

  // ------------------------------------------------ what an action schedules

  lemma ThreadKeepsBindings(s: Sched.State, a: Sched.Step)
    requires ThreadStep(a) && Sched.Enabled(s, a)
    ensures Scheduled(Sched.Apply(s, a)) == Scheduled(s)
    ensures Sched.Apply(s, a).prepared == s.prepared
  {
    if a.PopHead? {
      PopBinds(s.q);
    } else if a.PutBack? {
      InsertBinds(s.q, RetimeTask(s.pc.task, s.pc.now));
    }
  }

  lemma EnqueueBinds(s: Sched.State, h: Addr)
    requires Sched.QueueInv(s) && Sched.Enabled(s, Sched.Enqueue(h))
    ensures Scheduled(Sched.Apply(s, Sched.Enqueue(h))) == Scheduled(s) + multiset{(h, s.prepared[h].data)}
  {
    InsertBinds(s.q, s.prepared[h]);
  }

  lemma CancelBinds(s: Sched.State, h: Addr, d: Addr)
    requires Sched.QueueInv(s) && Sched.Enabled(s, Sched.Cancel(h)) && (h, d) in Scheduled(s)
    ensures Scheduled(s) == Scheduled(Sched.Apply(s, Sched.Cancel(h))) + multiset{(h, d)}
  {
    RemoveBinds(s.q, h, d);
  }

  // ----------------------------------------------------------- conservation

  /** No query node is bound twice. */
  ghost predicate DataDistinct(b: Bag) {
    forall p, r :: p in b && r in b && p.1 == r.1 ==> p == r
  }

  ghost predicate Conserved(b: Bag, t: Bag, op: Op, prepared: map<Addr, Task<Addr>>) {
    && b == t + InFlight(op)
    && DataDistinct(b)
    && prepared.Keys == (if op.Enqueueing? then {op.node.handler} else {})
    && (op.Enqueueing? ==> prepared[op.node.handler].data == op.node.addr && Fresh(b, op.node.addr))
    && (op.Preparing? ==> Fresh(b, op.addr))
  }

  /** The nodes that are scheduled are, with multiplicity, those of the table and the one or those the current
      operation has in its hands; no two of them carry the same query node; the only node that waits
      to be inserted is that of the current registration. */
  ghost predicate BindInv(s: State) {
    Conserved(Scheduled(s.sched), PairBag(s.table), s.op, s.sched.prepared)
  }

  /** Every descriptor has one application, and a query points to the application whose list holds it. */
  ghost predicate TableInv(s: State) {
    && WellFormed(s.table)
    && (s.op.Preparing? ==> OpensApp(s.table, s.op.fd, s.op.app))
    && (s.op.Enqueueing? || s.op.Linking? ==> OpensApp(s.table, s.op.fd, s.op.node.app))
    && (s.op.Dropping? ==> Lookup(s.table, s.op.fd).None?)
  }

  ghost predicate OpensApp(t: seq<App<Addr>>, fd: int, app: Addr) {
    FindApp(t, fd) < |t| && t[FindApp(t, fd)].addr == app
  }

  ghost predicate Inv(s: State) {
    Sched.QueueInv(s.sched) && BindInv(s) && TableInv(s)
  }

  lemma BindInvThread(s: State, a: Step)
    requires a.Thread? && Sched.QueueInv(s.sched) && BindInv(s) && Enabled(s, a)
    ensures BindInv(Apply(s, a))
  {
    ThreadKeepsBindings(s.sched, a.a);
  }

  lemma BindInvBeginRegister(s: State, a: Step)
    requires a.BeginRegister? && Sched.QueueInv(s.sched) && BindInv(s) && Enabled(s, a)
    ensures BindInv(Apply(s, a))
  {
    PairBagWithApp(s.table, a.app, a.fd);
  }

  lemma BindInvPrepareTask(s: State, a: Step)
    requires a.PrepareTask? && Sched.QueueInv(s.sched) && BindInv(s) && Enabled(s, a)
    ensures BindInv(Apply(s, a))
  {
  }

  lemma ConservedAdd(b: Bag, t: Bag, fd: int, n: Node, prepared: map<Addr, Task<Addr>>)
    requires Conserved(b, t, Enqueueing(fd, n), prepared)
    ensures Conserved(b + multiset{(n.handler, n.addr)}, t, Linking(fd, n), prepared - {n.handler})
  {
    var b' := b + multiset{(n.handler, n.addr)};
    assert forall r :: r in b' ==> r in b || r == (n.handler, n.addr);
  }

  lemma BindInvEnqueueTask(s: State, a: Step)
    requires a.EnqueueTask? && Sched.QueueInv(s.sched) && BindInv(s) && Enabled(s, a)
    ensures BindInv(Apply(s, a))
  {
    ConservedAdd(Scheduled(s.sched), PairBag(s.table), s.op.fd, s.op.node, s.sched.prepared);
    EnqueueBinds(s.sched, s.op.node.handler);
  }

  lemma BindInvLinkNode(s: State, a: Step)
    requires a.LinkNode? && BindInv(s) && TableInv(s) && Enabled(s, a)
    ensures BindInv(Apply(s, a))
  {
    PairBagLink(s.table, s.op.fd, s.op.node);
  }

  /** Unchaining nodes moves their bindings from the table into the hands of the operation. */
  lemma ConservedMove(b: Bag, t: Bag, t': Bag, op': Op, prepared: map<Addr, Task<Addr>>)
    requires Conserved(b, t, Idle, prepared) && t == t' + InFlight(op')
    requires !op'.Enqueueing? && !op'.Preparing?
    ensures Conserved(b, t', op', prepared)
  {
  }

  lemma BindInvBeginUnregister(s: State, a: Step)
    requires a.BeginUnregister? && Sched.QueueInv(s.sched) && BindInv(s) && Enabled(s, a)
    ensures BindInv(Apply(s, a))
  {
    var s', m := Apply(s, a), Match(s.table, a.fd, a.reqId);
    if m.Some? {
      var left := PairBag(Unlink(s.table, a.fd, a.reqId));
      assert PairBag(s.table) == left + InFlight(Cancelling(m.value)) by {
        PairBagUnlink(s.table, a.fd, a.reqId);
      }
      ConservedMove(Scheduled(s.sched), PairBag(s.table), left, Cancelling(m.value), s.sched.prepared);
    }
  }

  /** An operation that has the binding p in its hands lets go of it. */
  lemma ConservedDrop(b: Bag, t: Bag, op: Op, op': Op, p: (Addr, Addr), b': Bag)
    requires Conserved(b, t, op, map[]) && b == b' + multiset{p}
    requires InFlight(op) == multiset{p} + InFlight(op')
    requires !op'.Enqueueing? && !op'.Preparing?
    ensures Conserved(b', t, op', map[])
  {
    forall e
      ensures b'[e] == (t + InFlight(op'))[e]
    {
      assert b[e] == (t + (multiset{p} + InFlight(op')))[e] == (b' + multiset{p})[e];
    }
    assert forall e :: e in b' ==> e in b;
  }

  lemma BindInvCancelTask(s: State, a: Step)
    requires a.CancelTask? && Sched.QueueInv(s.sched) && BindInv(s) && Enabled(s, a)
    ensures BindInv(Apply(s, a))
  {
    var n := s.op.node;
    CancelBinds(s.sched, n.handler, n.addr);
    assert s.sched.prepared == map[];
    ConservedDrop(Scheduled(s.sched), PairBag(s.table), s.op, Idle, (n.handler, n.addr), Scheduled(Apply(s, a).sched));
  }

  lemma InFlightNext(fd: int, rest: seq<Node>)
    requires rest != []
    ensures InFlight(Dropping(fd, rest)) ==
            multiset{(rest[0].handler, rest[0].addr)} + InFlight(Dropping(fd, rest[1..]))
  {
    PairsHead(rest);
  }

  lemma BindInvCancelNext(s: State, a: Step)
    requires a.CancelNext? && Sched.QueueInv(s.sched) && BindInv(s) && Enabled(s, a)
    ensures BindInv(Apply(s, a))
  {
    var n, s' := s.op.rest[0], Apply(s, a);
    var p, b, b' := (n.handler, n.addr), Scheduled(s.sched), Scheduled(s'.sched);
    InFlightNext(s.op.fd, s.op.rest);
    assert b == b' + multiset{p} by {
      assert p in InFlight(s.op) && p in b;
      CancelBinds(s.sched, n.handler, n.addr);
    }
    assert s.sched.prepared == map[];
    ConservedDrop(b, PairBag(s.table), s.op, s'.op, p, b');
  }

  lemma BindInvBeginDrop(s: State, a: Step)
    requires a.BeginDrop? && Sched.QueueInv(s.sched) && BindInv(s) && Enabled(s, a)
    ensures BindInv(Apply(s, a))
  {
    var s', qs := Apply(s, a), Lookup(s.table, a.fd);
    if qs.Some? {
      PairBagDrop(s.table, a.fd);
      ConservedMove(Scheduled(s.sched), PairBag(s.table), PairBag(s'.table), Dropping(a.fd, qs.value),
                    s.sched.prepared);
    }
  }

  lemma BindInvEndDrop(s: State, a: Step)
    requires a.EndDrop? && Sched.QueueInv(s.sched) && BindInv(s) && Enabled(s, a)
    ensures BindInv(Apply(s, a))
  {
    assert Pairs(s.op.rest) == [];
  }

  lemma BindInvStep(s: State, a: Step)
    requires Inv(s) && Enabled(s, a)
    ensures BindInv(Apply(s, a))
  {
    match a {
      case Thread(_) => BindInvThread(s, a);
      case BeginRegister(_, _, _, _, _) => BindInvBeginRegister(s, a);
      case PrepareTask(_, _) => BindInvPrepareTask(s, a);
      case EnqueueTask => BindInvEnqueueTask(s, a);
      case LinkNode => BindInvLinkNode(s, a);
      case BeginUnregister(_, _) => BindInvBeginUnregister(s, a);
      case CancelTask => BindInvCancelTask(s, a);
      case BeginDrop(_) => BindInvBeginDrop(s, a);
      case CancelNext => BindInvCancelNext(s, a);
      case EndDrop => BindInvEndDrop(s, a);
    }
  }

  lemma TableInvStep(s: State, a: Step)
    requires TableInv(s) && Enabled(s, a)
    ensures TableInv(Apply(s, a))
  {
    match a {
      case BeginRegister(fd, _, _, app, _) =>
        WellFormedWithApp(s.table, app, fd);
      case LinkNode =>
        WellFormedLink(s.table, s.op.fd, s.op.node);
      case BeginUnregister(fd, reqId) =>
        WellFormedUnlink(s.table, fd, reqId);
      case BeginDrop(fd) =>
        WellFormedDrop(s.table, fd);
        DropRefines(s.table, fd, fd);
      case _ =>
    }
  }

  lemma QueueInvStep(s: State, a: Step)
    requires Inv(s) && Enabled(s, a)
    ensures Sched.QueueInv(Apply(s, a).sched)
  {
    match a {
      case Thread(b) => Sched.QueueInvStep(s.sched, b);
      case PrepareTask(h, clock) => Sched.QueueInvStep(s.sched, Sched.Prepare(h, s.op.addr, s.op.interval, clock));
      case EnqueueTask => Sched.QueueInvStep(s.sched, Sched.Enqueue(s.op.node.handler));
      case CancelTask => Sched.QueueInvStep(s.sched, Sched.Cancel(s.op.node.handler));
      case CancelNext => Sched.QueueInvStep(s.sched, Sched.Cancel(s.op.rest[0].handler));
      case _ =>
    }
  }

  lemma {:induction false} RunKeeps(states: seq<State>, steps: seq<Step>, k: nat)
    requires Run(states, steps) && k < |states|
    ensures Inv(states[k])
  {
    if k > 0 {
      var s, a := states[k - 1], steps[k - 1];
      RunKeeps(states, steps, k - 1);
      QueueInvStep(s, a);
      BindInvStep(s, a);
      TableInvStep(s, a);
    }
  }

  // -------------------------------------------------------------- bijection

  /** n is a node of the list of an application of the table. */
  ghost predicate Registered(t: seq<App<Addr>>, handler: Addr, addr: Addr) {
    exists i, j :: 0 <= i < |t| && 0 <= j < |t[i].queries|
                   && (handler, addr) == (t[i].queries[j].handler, t[i].queries[j].addr)
  }

  lemma BoundMembers(s: State, h: Addr, d: Addr)
    requires BindInv(s)
    ensures (h, d) in Scheduled(s.sched) ==> Registered(s.table, h, d) || (h, d) in InFlight(s.op)
    ensures Registered(s.table, h, d) ==> (h, d) in Scheduled(s.sched)
  {
    PairBagMember(s.table, (h, d));
  }

  lemma BoundOnce(s: State, i: nat, j: nat)
    requires Sched.QueueInv(s.sched) && BindInv(s) && i < j < |s.sched.q|
    ensures s.sched.q[i].handle != s.sched.q[j].handle && s.sched.q[i].data != s.sched.q[j].data
  {
    var b := Bindings(s.sched.q);
    assert b[i] in multiset(b) && b[j] in multiset(b);
    assert b[i] in Scheduled(s.sched) && b[j] in Scheduled(s.sched);
  }

  /** Node h is in the queue and carries d. */
  ghost predicate Queued(q: seq<Task<Addr>>, h: Addr, d: Addr) {
    exists i :: 0 <= i < |q| && q[i].handle == h && q[i].data == d
  }

  lemma QueuedIs(q: seq<Task<Addr>>, h: Addr, d: Addr)
    ensures Queued(q, h, d) <==> (h, d) in Bindings(q)
  {
    if i :| 0 <= i < |q| && q[i].handle == h && q[i].data == d {
      assert Bindings(q)[i] == (h, d);
    }
    if (h, d) in Bindings(q) {
      var i :| 0 <= i < |q| && Bindings(q)[i] == (h, d);
      assert q[i].handle == h && q[i].data == d;
    }
  }

  /** In every interleaving, between registration operations and while the scheduler's mutex is free: each
      query node of each application has exactly one node in the queue, which is its handler and carries it;
      every queued node arises so; and each query points to the application whose list holds it. */
  lemma Bijection(states: seq<State>, steps: seq<Step>, k: nat)
    requires Run(states, steps) && k < |states|
    requires states[k].op.Idle? && Sched.LockFree(states[k].sched)
    ensures multiset(Bindings(states[k].sched.q)) == PairBag(states[k].table)
    ensures forall h: Addr, d: Addr :: Queued(states[k].sched.q, h, d) <==> Registered(states[k].table, h, d)
    ensures forall i, j :: 0 <= i < j < |states[k].sched.q| ==>
                             && states[k].sched.q[i].handle != states[k].sched.q[j].handle
                             && states[k].sched.q[i].data != states[k].sched.q[j].data
    ensures forall i, j :: 0 <= i < |states[k].table| && 0 <= j < |states[k].table[i].queries| ==>
                             states[k].table[i].queries[j].app == states[k].table[i].addr
    ensures forall i, j :: 0 <= i < j < |states[k].table| ==>
                             && states[k].table[i].fd != states[k].table[j].fd
                             && states[k].table[i].addr != states[k].table[j].addr
  {
    RunKeeps(states, steps, k);
    var s := states[k];
    QuietBindings(s);
    forall h: Addr, d: Addr
      ensures Queued(s.sched.q, h, d) <==> Registered(s.table, h, d)
    {
      QuietMembers(s, h, d);
      QueuedIs(s.sched.q, h, d);
    }
    forall i, j | 0 <= i < |s.table| && 0 <= j < |s.table[i].queries|
      ensures s.table[i].queries[j].app == s.table[i].addr
    {
      assert PointBack(s.table[i]);
    }
    forall i, j | 0 <= i < j < |s.sched.q|
      ensures s.sched.q[i].handle != s.sched.q[j].handle && s.sched.q[i].data != s.sched.q[j].data
    {
      BoundOnce(s, i, j);
    }
  }

  lemma QuietBindings(s: State)
    requires BindInv(s) && s.op.Idle? && !s.sched.pc.Holding?
    ensures Scheduled(s.sched) == multiset(Bindings(s.sched.q)) == PairBag(s.table)
  {
  }

  lemma QuietMembers(s: State, h: Addr, d: Addr)
    requires BindInv(s) && s.op.Idle? && !s.sched.pc.Holding?
    ensures (h, d) in Bindings(s.sched.q) <==> Registered(s.table, h, d)
  {
    QuietBindings(s);
    PairBagMember(s.table, (h, d));
    assert (h, d) in Bindings(s.sched.q) <==> (h, d) in multiset(Bindings(s.sched.q));
  }

  /** In every interleaving, while an operation is under way too, the scheduler thread fires only nodes whose
      query node is registered or in the hands of the operation. */
  lemma FiresOnlyRegistered(states: seq<State>, steps: seq<Step>, k: nat, h: Addr, d: Addr)
    requires Run(states, steps) && k < |states|
    requires (h, d) in Scheduled(states[k].sched)
    ensures Registered(states[k].table, h, d) || (h, d) in InFlight(states[k].op)
  {
    RunKeeps(states, steps, k);
    BoundMembers(states[k], h, d);
  }

  /** In every interleaving unschedule finds each handle it is given: an unregistration never waits for
      anything but the scheduler's mutex. */
  lemma UnregisterProceeds(states: seq<State>, steps: seq<Step>, k: nat)
    requires Run(states, steps) && k < |states| && Sched.LockFree(states[k].sched)
    ensures states[k].op.Cancelling? ==> Enabled(states[k], CancelTask)
    ensures states[k].op.Dropping? && states[k].op.rest != [] ==> Enabled(states[k], CancelNext)
  {
    RunKeeps(states, steps, k);
    var s := states[k];
    if s.op.Cancelling? {
      BoundIsLive(s.sched, (s.op.node.handler, s.op.node.addr));
    } else if s.op.Dropping? && s.op.rest != [] {
      PairsHead(s.op.rest);
      BoundIsLive(s.sched, (s.op.rest[0].handler, s.op.rest[0].addr));
    }
  }

  lemma BoundIsLive(s: Sched.State, p: (Addr, Addr))
    requires Sched.QueueInv(s) && p in Scheduled(s)
    ensures p.0 in s.live
  {
    if p in multiset(Bindings(s.q)) {
      var i :| 0 <= i < |s.q| && Bindings(s.q)[i] == p;
      assert s.q[i].handle in Handles(s.q);
    }
  }

  /** In every interleaving, once unregister_application is through with a descriptor and until it is
      registered again, every scheduled node belongs to some other descriptor. */
  lemma DroppedHasNoTasks(states: seq<State>, steps: seq<Step>, k: nat, fd: int, h: Addr, d: Addr)
    requires Run(states, steps) && k < |states|
    requires states[k].op.Idle? && Lookup(states[k].table, fd).None?
    requires (h, d) in Scheduled(states[k].sched)
    ensures exists g :: g != fd && BelongsTo(states[k].table, h, d, g)
    ensures !BelongsTo(states[k].table, h, d, fd)
  {
    FiresOnlyRegistered(states, steps, k, h, d);
    var t := states[k].table;
    var i, j :| 0 <= i < |t| && 0 <= j < |t[i].queries| && (h, d) == (t[i].queries[j].handler, t[i].queries[j].addr);
    assert t[i].fd != fd && BelongsTo(t, h, d, t[i].fd);
  }
}
