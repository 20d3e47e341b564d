/** The scheduler's doubly linked list in place: the nodes, the ends of the list and the
    operations on them. Each operation is proved against its counterpart in TaskQueue. */
module SchedulerList {
  import opened Timespec
  import opened TaskQueue

  class Node {
    var interval: Timespec
    var nextTime: Timespec
    var data: object
    var prev: Node?
    var next: Node?

    constructor (data: object, interval: Timespec, nextTime: Timespec)
      ensures this.data == data && this.interval == interval && this.nextTime == nextTime
    {
      this.data, this.interval, this.nextTime := data, interval, nextTime;
      prev, next := null, null;
    }

    predicate Timed()
      reads this
    {
      interval.Interval() && nextTime.Normal()
    }

    function AsTask(): Task<object?>
      reads this
    {
      Task(this, data, interval.Total(), nextTime.Total())
    }
  }

  /** The node at position i of a spine; null past either end. */
  function At(s: seq<Node>, i: int): Node? {
    if 0 <= i < |s| then s[i] else null
  }

  /** ts is what the nodes of s say, in the same order. */
  ghost predicate Represents(s: seq<Node>, ts: seq<Task<object?>>)
    reads s
  {
    |ts| == |s| && forall i :: 0 <= i < |s| ==> s[i].Timed() && ts[i] == s[i].AsTask()
  }

  function Spliced(s: seq<Node>, node: Node, p: nat): seq<Node>
    requires p <= |s|
  {
    s[..p] + [node] + s[p..]
  }

  lemma SplicedRepresents(s: seq<Node>, ts: seq<Task<object?>>, node: Node)
    requires Represents(s, ts) && node.Timed()
    ensures Represents(Spliced(s, node, CountUpTo(ts, node.nextTime.Total())), Insert(ts, node.AsTask()))
  {
    var p := CountUpTo(ts, node.nextTime.Total());
    var s', ts' := Spliced(s, node, p), Insert(ts, node.AsTask());
    forall i | 0 <= i < |s'|
      ensures s'[i].Timed() && ts'[i] == s'[i].AsTask()
    {
      InsertPointwise(ts, node.AsTask(), i);
    }
  }

  /** f and l are the ends of s, and prev and next mirror each other along it. */
  ghost predicate Linked(f: Node?, l: Node?, s: seq<Node>)
    reads s
  {
    && f == At(s, 0)
    && l == At(s, |s| - 1)
    && (forall i {:trigger s[i].prev} :: 0 <= i < |s| ==> s[i].prev == At(s, i - 1))
    && (forall i {:trigger s[i].next} :: 0 <= i < |s| ==> s[i].next == At(s, i + 1))
    && (forall i, j :: 0 <= i < j < |s| ==> s[i] != s[j])
  }

  /** node stands linked at position p of s, between its neighbours. */
  ghost predicate LinkedIn(s: seq<Node>, node: Node, p: nat)
    requires p <= |s|
    reads s, node
  {
    && node.prev == At(s, p - 1) && node.next == At(s, p)
    && (forall i {:trigger s[i].prev} :: 0 <= i < |s| ==> s[i].prev == if i == p then node else At(s, i - 1))
    && (forall i {:trigger s[i].next} :: 0 <= i < |s| ==> s[i].next == if i == p - 1 then node else At(s, i + 1))
  }

  /** Linking a node in at position p makes the spine that has it there. */
  lemma SplicedLinks(f: Node?, l: Node?, s: seq<Node>, node: Node, p: nat)
    requires p <= |s| && node !in s
    requires f == if p == 0 then node else At(s, 0)
    requires l == if p == |s| then node else At(s, |s| - 1)
    requires LinkedIn(s, node, p)
    requires forall i, j :: 0 <= i < j < |s| ==> s[i] != s[j]
    ensures Linked(f, l, Spliced(s, node, p))
  {
    var s' := Spliced(s, node, p);
    forall i | 0 <= i < |s'|
      ensures s'[i].prev == At(s', i - 1) && s'[i].next == At(s', i + 1)
    {
      SplicedLinkAt(s, node, p, i);
    }
    forall i, j | 0 <= i < j < |s'|
      ensures s'[i] != s'[j]
    {
      SplicedAt(s, node, p, i);
      SplicedAt(s, node, p, j);
    }
  }

  lemma SplicedLinkAt(s: seq<Node>, node: Node, p: nat, i: nat)
    requires p <= |s| && i <= |s| && LinkedIn(s, node, p)
    ensures var s' := Spliced(s, node, p);
            s'[i].prev == At(s', i - 1) && s'[i].next == At(s', i + 1)
  {
    SplicedAt(s, node, p, i - 1);
    SplicedAt(s, node, p, i);
    SplicedAt(s, node, p, i + 1);
  }

  lemma SplicedAt(s: seq<Node>, node: Node, p: nat, i: int)
    requires p <= |s|
    ensures At(Spliced(s, node, p), i) == if i < p then At(s, i) else if i == p then node else At(s, i - 1)
  {
  }

  ghost function NodeSet(s: seq<Node>): set<Node> {
    set n | n in s
  }

  lemma SplicedNodes(s: seq<Node>, node: Node, p: nat)
    requires p <= |s|
    ensures NodeSet(Spliced(s, node, p)) == NodeSet(s) + {node}
  {
    var s' := Spliced(s, node, p);
    assert s'[p] == node;
    forall n | n in s
      ensures n in s'
    {
      var i :| 0 <= i < |s| && s[i] == n;
      assert s'[if i < p then i else i + 1] == n;
    }
  }

  lemma CutNodes(s: seq<Node>, p: nat)
    requires p < |s|
    requires forall i, j :: 0 <= i < j < |s| ==> s[i] != s[j]
    ensures NodeSet(Cut(s, p)) == NodeSet(s) - {s[p]}
  {
    var s' := Cut(s, p);
    forall n | n in s && n != s[p]
      ensures n in s'
    {
      var i :| 0 <= i < |s| && s[i] == n;
      assert s'[if i < p then i else i - 1] == n;
    }
    forall i | 0 <= i < |s'|
      ensures s'[i] in s && s'[i] != s[p]
    {
      assert s'[i] == if i < p then s[i] else s[i + 1];
    }
  }

  function Cut(s: seq<Node>, p: nat): seq<Node>
    requires p < |s|
  {
    s[..p] + s[p + 1..]
  }

  /** Chaining the neighbours of position p makes the spine that lacks it. */
  lemma CutLinks(f: Node?, l: Node?, s: seq<Node>, p: nat)
    requires p < |s|
    requires f == if p == 0 then At(s, 1) else At(s, 0)
    requires l == if p == |s| - 1 then At(s, p - 1) else At(s, |s| - 1)
    requires forall i {:trigger s[i].prev} :: 0 <= i < |s| && i != p ==>
                                                s[i].prev == if i == p + 1 then At(s, p - 1) else At(s, i - 1)
    requires forall i {:trigger s[i].next} :: 0 <= i < |s| && i != p ==>
                                                s[i].next == if i == p - 1 then At(s, p + 1) else At(s, i + 1)
    requires forall i, j :: 0 <= i < j < |s| ==> s[i] != s[j]
    ensures Linked(f, l, Cut(s, p))
  {
    var s' := Cut(s, p);
    forall i | 0 <= i < |s'|
      ensures s'[i].prev == At(s', i - 1) && s'[i].next == At(s', i + 1)
    {
      assert s'[i] == if i < p then s[i] else s[i + 1];
    }
  }

  lemma CutRepresents(s: seq<Node>, ts: seq<Task<object?>>, p: nat)
    requires Represents(s, ts) && p < |s|
    requires forall i, j :: 0 <= i < j < |s| ==> s[i] != s[j]
    ensures Represents(Cut(s, p), Remove(ts, s[p]))
    ensures IndexOf(ts, s[p]) == p
  {
    assert ts[p].handle == s[p];
    var s', ts' := Cut(s, p), Remove(ts, s[p]);
    forall i | 0 <= i < |s'|
      ensures s'[i].Timed() && ts'[i] == s'[i].AsTask()
    {
      assert s'[i] == if i < p then s[i] else s[i + 1];
    }
  }

  lemma CutHead(s: seq<Node>, ts: seq<Task<object?>>)
    requires Represents(s, ts) && s != []
    ensures Cut(s, 0) == s[1..] && Remove(ts, s[0]) == ts[1..]
    ensures Sorted(ts) ==> Sorted(ts[1..])
  {
  }

  ghost predicate HandlesAre(s: seq<Node>, ts: seq<Task<object?>>) {
    |s| == |ts| && forall i :: 0 <= i < |s| ==> ts[i].handle == s[i]
  }

  lemma HandlesOfPrefix(s: seq<Node>, ts: seq<Task<object?>>, c: nat, fired: seq<Node>)
    requires c <= |ts| && HandlesAre(s, ts) && HandlesAre(fired, ts[..c])
    ensures fired == s[..c]
  {
  }

  lemma HandlesExtend(s: seq<Node>, ts: seq<Task<object?>>, node: Node, t: Task<object?>)
    requires HandlesAre(s, ts) && t.handle == node
    ensures HandlesAre(s + [node], ts + [t])
  {
  }

  class Scheduler {
    var first: Node?
    var last: Node?
    ghost var spine: seq<Node>          // the nodes of the list, in order
    ghost var tasks: seq<Task<object?>>  // what the list means

    ghost predicate Valid()
      reads this, spine
    {
      Linked(first, last, spine) && Represents(spine, tasks) && Sorted(tasks)
    }

    constructor ()
      ensures Valid() && tasks == [] && spine == []
    {
      first, last := null, null;
      spine, tasks := [], [];
    }

    lemma HandlesAreSpine()
      requires Valid()
      ensures Distinct(tasks)
      ensures forall n: object? :: n in Handles(tasks) <==> n in spine
    {
      forall n: object? | n in spine
        ensures n in Handles(tasks)
      {
        var i :| 0 <= i < |spine| && spine[i] == n;
        assert tasks[i].handle == n;
      }
    }

    ghost method Adopt(s: seq<Node>, ts: seq<Task<object?>>)
      requires Linked(first, last, s) && Represents(s, ts) && Sorted(ts)
      modifies this`spine, this`tasks
      ensures Valid() && spine == s && tasks == ts
    {
      spine, tasks := s, ts;
    }

    /** The search of insert_node: past every node that is not later than stime. */
    method FindPlace(stime: Timespec) returns (prevNode: Node?, nextNode: Node?, ghost p: nat)
      requires Valid() && stime.Normal()
      ensures p == CountUpTo(tasks, stime.Total())
      ensures p <= |spine|
      ensures nextNode == At(spine, p)
      ensures prevNode == At(spine, p - 1)
    {
      prevNode, nextNode, p := null, first, 0;
      while nextNode != null
        invariant 0 <= p <= |spine|
        invariant nextNode == At(spine, p)
        invariant prevNode == At(spine, p - 1)
        invariant forall i :: 0 <= i < p ==> tasks[i].next <= stime.Total()
        decreases |spine| - p
      {
        TmGeIsOrder(stime, nextNode.nextTime);
        if TmGe(stime, nextNode.nextTime) {
          prevNode := nextNode;
          nextNode := nextNode.next;
          p := p + 1;
        } else {
          break;
        }
      }
      CountUpToUnique(tasks, stime.Total(), p);
    }

    /** The linking of insert_node: between prevNode and nextNode, or at the end. */
    method LinkBetween(prevNode: Node?, nextNode: Node?, node: Node, ghost p: nat)
      requires Linked(first, last, spine) && Represents(spine, tasks) && node !in spine && p <= |spine|
      requires nextNode == At(spine, p) && prevNode == At(spine, p - 1)
      modifies this`first, this`last, NodeSet(spine), node
      ensures spine == old(spine) && tasks == old(tasks)
      ensures Linked(first, last, Spliced(spine, node, p))
      ensures node.AsTask() == old(node.AsTask()) && node.Timed() == old(node.Timed())
      ensures Represents(spine, tasks)
    {
      if nextNode != null {
        node.prev := prevNode;
        node.next := nextNode;
        nextNode.prev := node;
        if prevNode != null {
          prevNode.next := node;
        } else {
          first := node;
        }
      } else {
        node.prev := last;
        if last != null {
          last.next := node;
        }
        last := node;
        node.next := null;
        if first == null {
          first := node;
        }
      }
      SplicedLinks(first, last, spine, node, p);
    }

    method InsertNode(node: Node)
      requires Valid() && node !in spine && node.Timed()
      modifies this, NodeSet(spine), node
      ensures Valid()
      ensures node.AsTask() == old(node.AsTask())
      ensures tasks == Insert(old(tasks), old(node.AsTask()))
      ensures var p := CountUpTo(old(tasks), old(node.nextTime.Total()));
              p <= |old(spine)| && spine == Spliced(old(spine), node, p)
      ensures NodeSet(spine) == NodeSet(old(spine)) + {node}
    {
      var prevNode, nextNode, p := FindPlace(node.nextTime);
      ghost var s, ts := spine, tasks;
      InsertSorted(ts, node.AsTask());
      LinkBetween(prevNode, nextNode, node, p);
      SplicedRepresents(s, ts, node);
      SplicedNodes(s, node, p);
      Adopt(Spliced(s, node, p), Insert(ts, node.AsTask()));
    }

    /** Removal of a node of the list; its own links are left as they were. */
    method RemoveNode(node: Node)
      requires Valid() && node in spine
      modifies this, NodeSet(spine)
      ensures Valid()
      ensures tasks == Remove(old(tasks), node)
      ensures var p := IndexOf(old(tasks), node);
              p < |old(spine)| && old(spine)[p] == node && spine == Cut(old(spine), p)
      ensures NodeSet(spine) == NodeSet(old(spine)) - {node}
      ensures node.prev == old(node.prev) && node.next == old(node.next) && node.AsTask() == old(node.AsTask())
    {
      ghost var s, ts := spine, tasks;
      ghost var p :| 0 <= p < |s| && s[p] == node;
      Unlink(node, p);
      CutRepresents(s, ts, p);
      CutNodes(s, p);
      RemoveKeeps(ts, node);
      Adopt(Cut(s, p), Remove(ts, node));
    }

    method Unlink(node: Node, ghost p: nat)
      requires Linked(first, last, spine) && Represents(spine, tasks)
      requires p < |spine| && spine[p] == node
      modifies this`first, this`last, NodeSet(spine)
      ensures spine == old(spine) && tasks == old(tasks)
      ensures Linked(first, last, Cut(spine, p))
      ensures node.prev == old(node.prev) && node.next == old(node.next)
      ensures Represents(spine, tasks)
      ensures node.AsTask() == old(node.AsTask())
    {
      if node.prev != null {
        node.prev.next := node.next;
      } else {
        first := node.next;
      }
      if node.next != null {
        node.next.prev := node.prev;
      } else {
        last := node.prev;
      }
      CutLinks(first, last, spine, p);
    }

    method UnlinkHead() returns (node: Node)
      requires Linked(first, last, spine) && Represents(spine, tasks) && first != null
      modifies this`first, this`last, NodeSet(spine)
      ensures spine == old(spine) && tasks == old(tasks)
      ensures spine != [] && node == spine[0]
      ensures Linked(first, last, spine[1..]) && Represents(spine, tasks)
    {
      node := first;
      first := first.next;
      if first != null {
        first.prev := null;
      } else {
        last := null;
      }
      CutLinks(first, last, spine, 0);
      CutHead(spine, tasks);
    }

    /** The head of the list, taken off it; null when there is none. */
    method Pop() returns (node: Node?)
      requires Valid()
      modifies this, NodeSet(spine)
      ensures Valid()
      ensures node == At(old(spine), 0)
      ensures old(spine) == [] ==> spine == [] && tasks == []
      ensures old(spine) != [] ==> spine == old(spine)[1..] && |old(tasks)| > 0 && tasks == old(tasks)[1..]
      ensures node != null ==> NodeSet(spine) == NodeSet(old(spine)) - {node}
      ensures node != null ==> node !in spine && node.Timed() && node.AsTask() == old(tasks)[0]
    {
      node := first;
      if first != null {
        HeadNodes();
        node := UnlinkHead();
        Adopt(spine[1..], tasks[1..]);
      }
    }

    lemma HeadNodes()
      requires Valid() && spine != []
      ensures NodeSet(spine[1..]) == NodeSet(spine) - {spine[0]} && spine[0] !in spine[1..]
      ensures Sorted(tasks[1..])
    {
      CutNodes(spine, 0);
      CutHead(spine, tasks);
    }

    /** The spine determines the links. */
    twostate lemma SameLinks()
      requires old(Linked(first, last, spine)) && Linked(first, last, spine) && spine == old(spine)
      ensures first == old(first) && last == old(last)
      ensures forall i {:trigger spine[i].prev} :: 0 <= i < |spine| ==> spine[i].prev == old(spine[i].prev)
      ensures forall i {:trigger spine[i].next} :: 0 <= i < |spine| ==> spine[i].next == old(spine[i].next)
    {
    }

    /** A task added and removed again leaves no trace: the order and every link of the other nodes. */
    method InsertAndRemove(node: Node)
      requires Valid() && node !in spine && node.Timed()
      modifies this, NodeSet(spine), node
      ensures Valid() && spine == old(spine) && tasks == old(tasks)
      ensures first == old(first) && last == old(last)
      ensures forall i {:trigger spine[i].prev} :: 0 <= i < |spine| ==> spine[i].prev == old(spine[i].prev)
      ensures forall i {:trigger spine[i].next} :: 0 <= i < |spine| ==> spine[i].next == old(spine[i].next)
    {
      ghost var s, p := spine, CountUpTo(tasks, node.nextTime.Total());
      assert Remove(Insert(tasks, node.AsTask()), node) == tasks by {
        HandlesAreSpine();
        InsertThenRemove(tasks, node.AsTask());
      }
      InsertNode(node);
      ghost var k := IndexOf(tasks, node);
      RemoveNode(node);
      assert spine == s by {
        CutSpliced(s, node, p, k);
      }
      SameLinks();
    }

    /** schedule_ts: a new node, due one interval after the clock reading taken before the lock;
        `signalled` says whether the scheduler thread is told that the head changed. The interval need not be
        normal, but has to keep times normal. */
    method ScheduleTs(data: object, interval: Timespec, clock: Timespec) returns (node: Node, signalled: bool)
      requires Valid() && interval.Interval() && clock.Normal()
      modifies this, NodeSet(spine)
      ensures Valid() && fresh(node)
      ensures node.data == data
      ensures tasks == Insert(old(tasks), Task(node, data, interval.Total(), clock.Total() + interval.Total()))
      ensures NodeSet(spine) == NodeSet(old(spine)) + {node}
      ensures signalled <==> CountUpTo(old(tasks), clock.Total() + interval.Total()) == 0
    {
      node := FillIn(data, interval, clock);
      signalled := InsertNew(node, Task(node, data, interval.Total(), clock.Total() + interval.Total()));
    }

    /** The part of schedule_ts before the lock. */
    method FillIn(data: object, interval: Timespec, clock: Timespec) returns (node: Node)
      requires interval.Interval() && clock.Normal()
      ensures fresh(node) && node.data == data && node.Timed()
      ensures node.interval == interval && node.nextTime.Total() == clock.Total() + interval.Total()
    {
      TmIncrExact(clock, interval);
      node := new Node(data, interval, TmIncr(clock, interval));
    }

    /** The part of schedule_ts under the lock. */
    method InsertNew(node: Node, ghost x: Task<object?>) returns (signalled: bool)
      requires Valid() && node !in spine && node.Timed() && x == node.AsTask()
      modifies this, NodeSet(spine), node
      ensures Valid()
      ensures node.AsTask() == x && tasks == Insert(old(tasks), x)
      ensures NodeSet(spine) == NodeSet(old(spine)) + {node}
      ensures signalled <==> CountUpTo(old(tasks), x.next) == 0
    {
      var curFirst := first;
      ghost var s, p := spine, CountUpTo(tasks, node.nextTime.Total());
      InsertNode(node);
      assert first == if p == 0 then node else At(s, 0);
      signalled := first != curFirst;
    }

    /** schedule: the interval in milliseconds. Negative ones are accepted as long as they keep times normal. */
    method Schedule(data: object, ms: int, clock: Timespec) returns (node: Node, signalled: bool)
      requires Valid() && clock.Normal() && (ms >= 0 || ms % 1000 == 0)
      modifies this, NodeSet(spine)
      ensures Valid() && fresh(node)
      ensures node.data == data
      ensures tasks == Insert(old(tasks), Task(node, data, ms * 1_000_000, clock.Total() + ms * 1_000_000))
      ensures NodeSet(spine) == NodeSet(old(spine)) + {node}
      ensures signalled <==> CountUpTo(old(tasks), clock.Total() + ms * 1_000_000) == 0
    {
      FromMsExact(ms);
      node, signalled := ScheduleTs(data, FromMs(ms), clock);
    }

    method Unschedule(handler: Node)
      requires Valid() && handler in spine
      modifies this, NodeSet(spine)
      ensures Valid() && tasks == Remove(old(tasks), handler)
      ensures NodeSet(spine) == NodeSet(old(spine)) - {handler}
    {
      RemoveNode(handler);
    }

    /** The re-timing of a popped node. */
    method RetimeNode(node: Node, now: Timespec)
      requires Valid() && node !in spine && node.Timed() && now.Normal() && TmGe(now, node.nextTime)
      modifies node`nextTime
      ensures Valid()
      ensures node.Timed() && node.AsTask() == RetimeTask(old(node.AsTask()), now.Total())
      ensures node.nextTime == Retime(old(node.nextTime), node.interval, now)
    {
      RetimeExact(node.nextTime, node.interval, now);
      node.nextTime := TmIncr(node.nextTime, node.interval);
      if TmGe(now, node.nextTime) {
        node.nextTime := now;
        node.nextTime := TmIncr(node.nextTime, node.interval);
      }
    }

    /** The body of the inner loop of scheduler_run under the lock, on a due head. */
    method DispatchHead(now: Timespec) returns (node: Node)
      requires Valid() && spine != [] && now.Normal() && TmGe(now, spine[0].nextTime)
      modifies this, NodeSet(spine)
      ensures Valid() && |old(tasks)| > 0
      ensures node == old(spine)[0] && tasks == Dispatch(old(tasks), now.Total())
      ensures NodeSet(spine) == NodeSet(old(spine))
    {
      node := Pop();
      RetimeNode(node, now);
      InsertNode(node);
    }

    /** A whole run of the inner loop at one clock reading, with no call in between. */
    method RunPass(now: Timespec) returns (fired: seq<Node>)
      requires Valid() && now.Normal() && DuePositive(tasks, now.Total())
      modifies this, NodeSet(spine)
      ensures Valid()
      ensures var c := CountUpTo(old(tasks), now.Total());
              && c <= |old(spine)| && fired == old(spine)[..c]
              && tasks == InsertRetimed(old(tasks)[c..], old(tasks)[..c], now.Total())
              && !HeadDue(tasks, now.Total())
    {
      fired := [];
      ghost var t, q, s := now.Total(), tasks, spine;
      ghost var popped: seq<Task<object?>> := [];
      PassStart(q, t);
      assert HandlesAre(s, q);
      while first != null && TmGe(now, first.nextTime)
        invariant Valid() && NodeSet(spine) == NodeSet(s)
        invariant HandlesAre(fired, popped)
        invariant PassUnderWay(q, t, CountUpTo(q, t), popped, tasks)
        decreases CountUpTo(q, t) - |popped|
      {
        HeadDueIff(now);
        PassTurn(q, t, CountUpTo(q, t), popped, tasks);
        ghost var head := tasks[0];
        var node := DispatchHead(now);
        HandlesExtend(fired, popped, node, head);
        fired, popped := fired + [node], popped + [head];
      }
      HeadDueIff(now);
      PassOver(q, t, popped, tasks);
      HandlesOfPrefix(s, q, CountUpTo(q, t), fired);
    }

    lemma HeadDueIff(now: Timespec)
      requires Valid() && now.Normal()
      ensures (first != null && TmGe(now, first.nextTime)) <==> HeadDue(tasks, now.Total())
    {
      if first != null {
        TmGeIsOrder(now, first.nextTime);
      }
    }
  }

  lemma CutSpliced(s: seq<Node>, node: Node, p: nat, k: nat)
    requires p <= |s| && node !in s && k <= |s| && Spliced(s, node, p)[k] == node
    ensures Cut(Spliced(s, node, p), k) == s
  {
    assert k == p;
  }
}
