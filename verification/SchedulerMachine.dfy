/** The steps of SchedulerSteps carried out on the linked list itself: whatever the interleaving, the list is well
    linked after every step and means the queue that the steps compute. */
module SchedulerMachine {
  import opened Timespec
  import opened TaskQueue
  import opened SchedulerList
  import S = SchedulerSteps

  type Addr = S.Addr

  /** A number of nanoseconds in normal form. */
  function Instant(ns: int): (t: Timespec)
    ensures t.Normal() && t.Total() == ns
  {
    Timespec(ns / NANOS, ns % NANOS)
  }

  /** Which node is at which address, and which object each data address stands for. */
  datatype Memory = Memory(nodes: map<Addr, Node>, objects: map<Addr, object>)

  ghost predicate Injective(m: Memory) {
    forall g, h :: g in m.nodes && h in m.nodes && m.nodes[g] == m.nodes[h] ==> g == h
  }

  predicate Known(t: Task<Addr>, m: Memory) {
    t.handle in m.nodes && t.data in m.objects
  }

  /** A task of the steps, as a task of the list. */
  function Image(t: Task<Addr>, m: Memory): Task<object?>
    requires Known(t, m)
  {
    Task(m.nodes[t.handle], m.objects[t.data], t.interval, t.next)
  }

  ghost predicate Mirrors(q: seq<Task<Addr>>, ts: seq<Task<object?>>, m: Memory) {
    |ts| == |q| && forall i :: 0 <= i < |q| ==> Known(q[i], m) && ts[i] == Image(q[i], m)
  }

  lemma MirrorsCount(q: seq<Task<Addr>>, ts: seq<Task<object?>>, m: Memory, t: int)
    requires Mirrors(q, ts, m)
    ensures CountUpTo(ts, t) == CountUpTo(q, t)
  {
    CountUpToUnique(ts, t, CountUpTo(q, t));
  }

  lemma MirrorsInsert(q: seq<Task<Addr>>, ts: seq<Task<object?>>, m: Memory, x: Task<Addr>)
    requires Mirrors(q, ts, m) && Known(x, m)
    ensures Mirrors(Insert(q, x), Insert(ts, Image(x, m)), m)
  {
    MirrorsCount(q, ts, m, x.next);
    var q', ts' := Insert(q, x), Insert(ts, Image(x, m));
    forall i | 0 <= i < |q'|
      ensures Known(q'[i], m) && ts'[i] == Image(q'[i], m)
    {
      InsertPointwise(q, x, i);
      InsertPointwise(ts, Image(x, m), i);
    }
  }

  lemma MirrorsIndex(q: seq<Task<Addr>>, ts: seq<Task<object?>>, m: Memory, h: Addr)
    requires Mirrors(q, ts, m) && Injective(m) && h in m.nodes
    ensures IndexOf(ts, m.nodes[h]) == IndexOf(q, h)
  {
    var n := IndexOf(q, h);
    forall i | 0 <= i < n
      ensures ts[i].handle != m.nodes[h]
    {
      assert q[i].handle != h;
    }
    assert n < |q| ==> ts[n].handle == m.nodes[h];
    IndexIs(ts, m.nodes[h], n);
  }

  lemma IndexIs<R>(q: seq<Task<R>>, h: R, n: nat)
    requires n <= |q| && (forall i :: 0 <= i < n ==> q[i].handle != h) && (n < |q| ==> q[n].handle == h)
    ensures IndexOf(q, h) == n
  {
  }

  lemma MirrorsRemove(q: seq<Task<Addr>>, ts: seq<Task<object?>>, m: Memory, h: Addr)
    requires Mirrors(q, ts, m) && Injective(m) && h in m.nodes
    ensures Mirrors(Remove(q, h), Remove(ts, m.nodes[h]), m)
  {
    MirrorsIndex(q, ts, m, h);
    var n, q', ts' := IndexOf(q, h), Remove(q, h), Remove(ts, m.nodes[h]);
    if n < |q| {
      forall i | 0 <= i < |q'|
        ensures Known(q'[i], m) && ts'[i] == Image(q'[i], m)
      {
        assert q'[i] == q[if i < n then i else i + 1] && ts'[i] == ts[if i < n then i else i + 1];
      }
    }
  }

  /** Nodes that the queue does not hold do not matter. */
  lemma MirrorsElsewhere(q: seq<Task<Addr>>, ts: seq<Task<object?>>, m: Memory, m': Memory)
    requires Mirrors(q, ts, m) && m'.objects == m.objects
    requires forall h :: h in Handles(q) && h in m.nodes ==> h in m'.nodes && m'.nodes[h] == m.nodes[h]
    ensures Mirrors(q, ts, m')
  {
    forall i | 0 <= i < |q|
      ensures Known(q[i], m') && ts[i] == Image(q[i], m')
    {
      assert q[i].handle in Handles(q);
    }
  }

  /** The nodes of the list are those of the addresses in the queue. */
  lemma SpineMirrors(s: seq<Node>, q: seq<Task<Addr>>, ts: seq<Task<object?>>, m: Memory)
    requires Mirrors(q, ts, m) && Injective(m) && HandlesAre(s, ts)
    ensures forall h :: h in m.nodes ==> (m.nodes[h] in s <==> h in Handles(q))
    ensures forall n :: n in s ==> exists h :: h in m.nodes && m.nodes[h] == n
  {
    forall h | h in m.nodes
      ensures m.nodes[h] in s <==> h in Handles(q)
    {
      if m.nodes[h] in s {
        var i :| 0 <= i < |s| && s[i] == m.nodes[h];
        assert ts[i].handle == m.nodes[q[i].handle];
      }
      if h in Handles(q) {
        var i :| 0 <= i < |q| && q[i].handle == h;
        assert ts[i].handle == s[i];
      }
    }
    forall n | n in s
      ensures exists h :: h in m.nodes && m.nodes[h] == n
    {
      var i :| 0 <= i < |s| && s[i] == n;
      assert ts[i].handle == m.nodes[q[i].handle];
    }
  }

  /** The fields of the node say the task. */
  ghost predicate Shows(node: Node, t: Task<object?>)
    reads node
  {
    node.Timed() && node.AsTask() == t
  }

  /** Every node is in the queue or among d, and no two are the same. */
  ghost predicate Divides(q: seq<Task<Addr>>, d: map<Addr, Task<Addr>>, m: Memory) {
    Injective(m) && Distinct(q) && Handles(q) !! d.Keys && m.nodes.Keys == Handles(q) + d.Keys
  }

  lemma DividesNew(q: seq<Task<Addr>>, d: map<Addr, Task<Addr>>, m: Memory, m': Memory, x: Task<Addr>)
    requires Divides(q, d, m) && x.handle !in m.nodes
    requires x.handle in m'.nodes && m'.nodes == m.nodes[x.handle := m'.nodes[x.handle]]
    requires forall h :: h in m.nodes ==> m.nodes[h] != m'.nodes[x.handle]
    ensures Divides(q, d[x.handle := x], m')
  {
  }

  lemma DividesInsert(q: seq<Task<Addr>>, d: map<Addr, Task<Addr>>, m: Memory, h: Addr)
    requires Divides(q, d, m) && h in d && d[h].handle == h
    ensures Divides(Insert(q, d[h]), d - {h}, m)
  {
    InsertHandles(q, d[h]);
  }

  lemma DividesRemove(q: seq<Task<Addr>>, d: map<Addr, Task<Addr>>, m: Memory, m': Memory, h: Addr)
    requires Divides(q, d, m) && h in Handles(q) && m'.nodes == m.nodes - {h}
    ensures Divides(Remove(q, h), d, m')
  {
    RemoveKeeps(q, h);
  }

  lemma DividesTail(q: seq<Task<Addr>>, d: map<Addr, Task<Addr>>, m: Memory)
    requires Divides(q, d, m) && q != []
    ensures Divides(q[1..], d[q[0].handle := q[0]], m)
  {
    assert forall i :: 0 < i < |q| ==> q[i] == q[1..][i - 1];
    assert forall h :: h in Handles(q) <==> h == q[0].handle || h in Handles(q[1..]);
  }

  /** The tasks that are not in the queue for the moment: not inserted yet, or popped. */
  function Detached(s: S.State): map<Addr, Task<Addr>> {
    if s.pc.Holding? then s.prepared[s.pc.task.handle := s.pc.task] else s.prepared
  }

  lemma DetachedPrepare(s: S.State, a: S.Step)
    requires S.QueueInv(s) && S.Enabled(s, a) && a.Prepare?
    ensures S.Apply(s, a).q == s.q && S.Apply(s, a).pc == s.pc
    ensures Detached(S.Apply(s, a)) == Detached(s)[a.h := Task(a.h, a.data, a.interval, a.clock + a.interval)]
  {
  }

  lemma DetachedPutBack(s: S.State)
    requires S.QueueInv(s) && S.Enabled(s, S.PutBack)
    ensures var t, x, s' := s.pc.task, RetimeTask(s.pc.task, s.pc.now), S.Apply(s, S.PutBack);
            && t.handle in Detached(s) && Detached(s)[t.handle] == t
            && Detached(s') == Detached(s)[t.handle := x] - {t.handle}
            && s'.q == Insert(s.q, x) && !s'.pc.Holding?
  {
  }

  /** The steps that do not touch the list. */
  predicate Idle(a: S.Step) {
    !a.Prepare? && !a.Enqueue? && !a.Cancel? && !a.PopHead? && !a.PutBack?
  }

  lemma DetachedIdle(s: S.State, a: S.Step)
    requires S.Enabled(s, a) && Idle(a)
    ensures Detached(S.Apply(s, a)) == Detached(s)
    ensures S.Apply(s, a).q == s.q && !S.Apply(s, a).pc.Holding?
  {
  }

  class Machine {
    const scheduler: Scheduler
    const objects: map<Addr, object>
    var nodes: map<Addr, Node>     // the nodes allocated and not freed
    var held: Node?                // what the scheduler thread has taken off the list

    ghost function Mem(): Memory
      reads this
    {
      Memory(nodes, objects)
    }

    ghost predicate InQueue(q: seq<Task<Addr>>)
      reads this, scheduler, scheduler.spine
    {
      scheduler.Valid() && Mirrors(q, scheduler.tasks, Mem())
    }

    ghost predicate OffQueue(d: map<Addr, Task<Addr>>)
      reads this, nodes.Values
    {
      forall h :: h in d ==> d[h].handle == h && Known(d[h], Mem()) && Shows(nodes[h], Image(d[h], Mem()))
    }

    /** The nodes are those of the queue q, linked in its order, and those of d. */
    ghost predicate Holds(q: seq<Task<Addr>>, d: map<Addr, Task<Addr>>)
      reads this, scheduler, scheduler.spine, nodes.Values
    {
      InQueue(q) && OffQueue(d) && Divides(q, d, Mem())
    }

    constructor (scheduler: Scheduler, objects: map<Addr, object>)
      requires scheduler.Valid() && scheduler.tasks == []
      ensures Holds([], map[]) && forall s :: S.Init(s) ==> Does(s)
      ensures this.scheduler == scheduler && this.objects == objects && nodes == map[]
    {
      this.scheduler, this.objects := scheduler, objects;
      nodes, held := map[], null;
    }

    lemma SpineInMemory(q: seq<Task<Addr>>, d: map<Addr, Task<Addr>>)
      requires Holds(q, d)
      ensures forall h :: h in nodes ==> (nodes[h] in scheduler.spine <==> h in Handles(q))
      ensures NodeSet(scheduler.spine) <= nodes.Values
    {
      SpineMirrors(scheduler.spine, q, scheduler.tasks, Mem());
    }

    /** The nodes that are off the queue and not touched still say the same. */
    twostate lemma OffQueueFrame(d: map<Addr, Task<Addr>>)
      requires old(OffQueue(d))
      requires forall h :: h in d ==> h in nodes && h in old(nodes) && nodes[h] == old(nodes)[h]
      requires forall h :: h in d && h in old(nodes) ==> unchanged(old(nodes)[h])
      ensures OffQueue(d)
    {
    }

    method FillIn(x: Task<Addr>, clock: int) returns (node: Node)
      requires x.data in objects && x.next == clock + x.interval
      ensures fresh(node) && Shows(node, Task(node, objects[x.data], x.interval, x.next))
    {
      TmIncrExact(Instant(clock), Instant(x.interval));
      node := new Node(objects[x.data], Instant(x.interval), TmIncr(Instant(clock), Instant(x.interval)));
    }

    method Name(h: Addr, node: Node, ghost q: seq<Task<Addr>>, ghost d: map<Addr, Task<Addr>>)
      requires InQueue(q) && OffQueue(d) && h !in nodes
      modifies this`nodes
      ensures InQueue(q) && OffQueue(d) && nodes == old(nodes)[h := node]
    {
      ghost var m := Mem();
      nodes := nodes[h := node];
      MirrorsElsewhere(q, scheduler.tasks, m, Mem());
    }

    method Forget(h: Addr, ghost q: seq<Task<Addr>>, ghost d: map<Addr, Task<Addr>>)
      requires InQueue(q) && OffQueue(d) && h !in Handles(q) && h !in d
      modifies this`nodes
      ensures InQueue(q) && OffQueue(d) && nodes == old(nodes) - {h}
    {
      ghost var m := Mem();
      nodes := nodes - {h};
      MirrorsElsewhere(q, scheduler.tasks, m, Mem());
    }

    method AllocateNode(x: Task<Addr>, clock: int, ghost q: seq<Task<Addr>>, ghost d: map<Addr, Task<Addr>>)
      requires InQueue(q) && OffQueue(d)
      requires x.handle !in nodes && x.data in objects && x.next == clock + x.interval
      modifies this`nodes
      ensures InQueue(q) && OffQueue(d[x.handle := x])
      ensures x.handle in nodes && fresh(nodes[x.handle]) && nodes == old(nodes)[x.handle := nodes[x.handle]]
    {
      var node := FillIn(x, clock);
      assert OffQueue(d);
      Name(x.handle, node, q, d);
    }

    /** A new node, filled in. */
    method Allocate(x: Task<Addr>, clock: int, ghost q: seq<Task<Addr>>, ghost d: map<Addr, Task<Addr>>)
      requires Holds(q, d) && x.handle !in nodes && x.data in objects && x.next == clock + x.interval
      modifies this`nodes
      ensures Holds(q, d[x.handle := x])
      ensures x.handle in nodes && fresh(nodes[x.handle]) && nodes == old(nodes)[x.handle := nodes[x.handle]]
    {
      ghost var m := Mem();
      AllocateNode(x, clock, q, d);
      DividesNew(q, d, m, Mem(), x);
    }

    method LinkNode(h: Addr, ghost q: seq<Task<Addr>>, ghost d: map<Addr, Task<Addr>>) returns (changed: bool)
      requires InQueue(q) && OffQueue(d) && h in d && NodeSet(scheduler.spine) <= nodes.Values
      requires forall g :: g in d ==> g in nodes && nodes[g] !in scheduler.spine
      requires forall g :: g in d && g != h ==> nodes[g] != nodes[h]
      modifies scheduler, nodes.Values
      ensures InQueue(Insert(q, d[h])) && OffQueue(d - {h})
      ensures changed <==> old(scheduler.first) != scheduler.first
    {
      var curFirst := scheduler.first;
      MirrorsInsert(q, scheduler.tasks, Mem(), d[h]);
      scheduler.InsertNode(nodes[h]);
      changed := scheduler.first != curFirst;
      OffQueueFrame(d - {h});
    }

    /** A node that is off the queue is inserted; `changed` says whether the list has another head. */
    method Link(h: Addr, ghost q: seq<Task<Addr>>, ghost d: map<Addr, Task<Addr>>) returns (changed: bool)
      requires Holds(q, d) && h in d
      modifies scheduler, nodes.Values
      ensures Holds(Insert(q, d[h]), d - {h})
      ensures changed <==> old(scheduler.first) != scheduler.first
    {
      SpineInMemory(q, d);
      DividesInsert(q, d, Mem(), h);
      changed := LinkNode(h, q, d);
    }

    method Unlink(h: Addr, ghost q: seq<Task<Addr>>, ghost d: map<Addr, Task<Addr>>)
      requires InQueue(q) && OffQueue(d) && Injective(Mem()) && NodeSet(scheduler.spine) <= nodes.Values
      requires h in nodes && nodes[h] in scheduler.spine
      requires forall g :: g in d ==> g in nodes && nodes[g] !in scheduler.spine
      modifies scheduler, nodes.Values
      ensures InQueue(Remove(q, h)) && OffQueue(d)
    {
      MirrorsRemove(q, scheduler.tasks, Mem(), h);
      scheduler.RemoveNode(nodes[h]);
      OffQueueFrame(d);
    }

    /** A node of the list is unlinked and freed. */
    method Free(h: Addr, ghost q: seq<Task<Addr>>, ghost d: map<Addr, Task<Addr>>)
      requires Holds(q, d) && h in Handles(q)
      modifies this`nodes, scheduler, nodes.Values
      ensures Holds(Remove(q, h), d) && nodes == old(nodes) - {h}
    {
      SpineInMemory(q, d);
      ghost var m := Mem();
      RemoveKeeps(q, h);
      Unlink(h, q, d);
      Forget(h, Remove(q, h), d);
      DividesRemove(q, d, m, Mem(), h);
    }

    method TakeNode(ghost q: seq<Task<Addr>>, ghost d: map<Addr, Task<Addr>>)
      requires InQueue(q) && OffQueue(d) && NodeSet(scheduler.spine) <= nodes.Values && q != []
      requires forall g :: g in d ==> g in nodes && nodes[g] !in scheduler.spine && g != q[0].handle
      modifies this`held, scheduler, nodes.Values
      ensures InQueue(q[1..]) && OffQueue(d[q[0].handle := q[0]])
      ensures q[0].handle in nodes && held == nodes[q[0].handle]
    {
      held := scheduler.Pop();
      OffQueueFrame(d);
    }

    /** The head of the list is taken off it. */
    method TakeHead(ghost q: seq<Task<Addr>>, ghost d: map<Addr, Task<Addr>>)
      requires Holds(q, d) && q != []
      modifies this`held, scheduler, nodes.Values
      ensures Holds(q[1..], d[q[0].handle := q[0]])
      ensures q[0].handle in nodes && held == nodes[q[0].handle]
    {
      SpineInMemory(q, d);
      DividesTail(q, d, Mem());
      assert q[0].handle in Handles(q);
      TakeNode(q, d);
    }

    method RetimeHeld(h: Addr, now: int, ghost q: seq<Task<Addr>>, ghost d: map<Addr, Task<Addr>>)
      requires InQueue(q) && OffQueue(d) && h in d && h in nodes && held == nodes[h] && now >= d[h].next
      requires nodes[h] !in scheduler.spine && forall g :: g in d && g in nodes && g != h ==> nodes[g] != nodes[h]
      modifies held`nextTime
      ensures InQueue(q) && OffQueue(d[h := RetimeTask(d[h], now)])
    {
      TmGeIsOrder(Instant(now), held.nextTime);
      scheduler.RetimeNode(held, Instant(now));
    }

    /** The popped node is re-timed. */
    method Retime(h: Addr, now: int, ghost q: seq<Task<Addr>>, ghost d: map<Addr, Task<Addr>>)
      requires Holds(q, d) && h in d && h in nodes && held == nodes[h] && now >= d[h].next
      modifies nodes.Values
      ensures Holds(q, d[h := RetimeTask(d[h], now)])
    {
      SpineInMemory(q, d);
      RetimeHeld(h, now, q, d);
    }

    /** The list and the other nodes are as the state says. */
    ghost predicate Does(s: S.State)
      reads this, scheduler, scheduler.spine, nodes.Values
    {
      && S.QueueInv(s) && Holds(s.q, Detached(s))
      && (s.pc.Holding? ==>
            s.pc.task.handle in nodes && held == nodes[s.pc.task.handle] && s.pc.now >= s.pc.task.next)
    }

    /** The test of the thread's inner loop. */
    lemma HeadDueIff(s: S.State, now: int)
      requires Does(s)
      ensures (scheduler.first != null && TmGe(Instant(now), scheduler.first.nextTime)) <==> HeadDue(s.q, now)
    {
      scheduler.HeadDueIff(Instant(now));
    }

    lemma FirstMirrors(q: seq<Task<Addr>>)
      requires InQueue(q)
      ensures q == [] <==> scheduler.first == null
      ensures q != [] ==> q[0].handle in nodes && scheduler.first == nodes[q[0].handle]
    {
      assert q != [] ==> scheduler.tasks[0] == scheduler.spine[0].AsTask();
    }

    /** schedule_ts before it takes the lock. */
    method Prepare(a: S.Step, s: S.State)
      requires Does(s) && S.Enabled(s, a) && a.Prepare? && a.data in objects
      modifies this`nodes
      ensures Does(S.Apply(s, a))
      ensures forall n :: n in nodes.Values ==> n in old(nodes.Values) || fresh(n)
    {
      S.QueueInvStep(s, a);
      DetachedPrepare(s, a);
      Allocate(Task(a.h, a.data, a.interval, a.clock + a.interval), a.clock, s.q, Detached(s));
    }

    /** schedule_ts under the lock; it signals if the head of the list is another one now. */
    method Enqueue(a: S.Step, s: S.State) returns (signalled: bool)
      requires Does(s) && S.Enabled(s, a) && a.Enqueue?
      modifies scheduler, nodes.Values
      ensures Does(S.Apply(s, a))
      ensures signalled <==> S.HeadChanged(s.q, S.Apply(s, a).q)
    {
      S.QueueInvStep(s, a);
      FirstMirrors(s.q);
      signalled := Link(a.h, s.q, Detached(s));
      FirstMirrors(Insert(s.q, s.prepared[a.h]));
    }

    /** unschedule, which frees the node. */
    method Cancel(a: S.Step, s: S.State)
      requires Does(s) && S.Enabled(s, a) && a.Cancel?
      modifies this`nodes, scheduler, nodes.Values
      ensures Does(S.Apply(s, a)) && nodes == old(nodes) - {a.h}
    {
      S.QueueInvStep(s, a);
      Free(a.h, s.q, Detached(s));
    }

    /** The pop of the scheduler thread. */
    method PopHead(s: S.State)
      requires Does(s) && S.Enabled(s, S.PopHead)
      modifies this`held, scheduler, nodes.Values
      ensures Does(S.Apply(s, S.PopHead))
    {
      S.QueueInvStep(s, S.PopHead);
      TakeHead(s.q, Detached(s));
    }

    /** The popped node is re-timed and goes back. */
    method PutBack(s: S.State)
      requires Does(s) && S.Enabled(s, S.PutBack)
      modifies scheduler, nodes.Values
      ensures Does(S.Apply(s, S.PutBack))
    {
      S.QueueInvStep(s, S.PutBack);
      DetachedPutBack(s);
      var t, now := s.pc.task, s.pc.now;
      Retime(t.handle, now, s.q, Detached(s));
      var changed := Link(t.handle, s.q, Detached(s)[t.handle := RetimeTask(t, now)]);
    }

    lemma IdleStep(s: S.State, a: S.Step)
      requires Does(s) && S.Enabled(s, a) && Idle(a)
      ensures Does(S.Apply(s, a))
    {
      S.QueueInvStep(s, a);
      DetachedIdle(s, a);
    }

    /** Any step of the transition system, on the list. */
    method Step(a: S.Step, s: S.State)
      requires Does(s) && S.Enabled(s, a) && (a.Prepare? ==> a.data in objects)
      modifies this`nodes, this`held, scheduler, nodes.Values
      ensures Does(S.Apply(s, a))
      ensures forall n :: n in nodes.Values ==> n in old(nodes.Values) || fresh(n)
    {
      match a {
        case Prepare(_, _, _, _) => Prepare(a, s);
        case Enqueue(_) => var signalled := Enqueue(a, s);
        case Cancel(_) => Cancel(a, s);
        case PopHead => PopHead(s);
        case PutBack => PutBack(s);
        case _ => IdleStep(s, a);
      }
    }

    /** Any run: after every interleaving of steps the list is well linked, sorted, and means the queue of the last
        state, and prev and next mirror each other along it. */
    method Execute(start: S.State, steps: seq<S.Step>, ghost states: seq<S.State>)
      requires S.Run(states, steps) && start == states[0] && Does(start)
      requires forall i :: 0 <= i < |steps| && steps[i].Prepare? ==> steps[i].data in objects
      modifies this`nodes, this`held, scheduler, nodes.Values
      ensures Does(states[|steps|])
      ensures Linked(scheduler.first, scheduler.last, scheduler.spine)
      ensures Mirrors(states[|steps|].q, scheduler.tasks, Mem())
    {
      var k, s := 0, start;
      while k < |steps|
        invariant 0 <= k <= |steps| && s == states[k] && Does(s)
        invariant forall n :: n in nodes.Values ==> n in old(nodes.Values) || fresh(n)
      {
        Step(steps[k], s);
        s := S.Apply(s, steps[k]);
        k := k + 1;
      }
    }
  }
}
