/** The scheduler's queue as a value: a sequence of tasks in the order of the linked list.
    `R` is the type of addresses. Times are nanoseconds (see Timespec.Total). */
module TaskQueue {

  /** A scheduler node without its links. `data` stands for the pair of callback and
      argument that the node carries. */
  datatype Task<R> = Task(handle: R, data: R, interval: int, next: int)

  ghost predicate Sorted<R>(q: seq<Task<R>>) {
    forall i, j :: 0 <= i < j < |q| ==> q[i].next <= q[j].next
  }

  ghost predicate Distinct<R>(q: seq<Task<R>>) {
    forall i, j :: 0 <= i < j < |q| ==> q[i].handle != q[j].handle
  }

  ghost function Handles<R>(q: seq<Task<R>>): set<R> {
    set i | 0 <= i < |q| :: q[i].handle
  }

  // ---------------------------------------------------------------- insertion

  /** The number of leading tasks whose time is at or before t. On a sorted queue this is
      both the place where a task for time t goes and the number of tasks due at time t. */
  function CountUpTo<R>(q: seq<Task<R>>, t: int): (n: nat)
    ensures n <= |q|
    ensures forall i :: 0 <= i < n ==> q[i].next <= t
    ensures n < |q| ==> q[n].next > t
  {
    if q == [] || q[0].next > t then 0 else 1 + CountUpTo(q[1..], t)
  }

  lemma CountUpToUnique<R>(q: seq<Task<R>>, t: int, n: nat)
    requires n <= |q|
    requires forall i :: 0 <= i < n ==> q[i].next <= t
    requires n < |q| ==> q[n].next > t
    ensures CountUpTo(q, t) == n
  {
  }

  /** On a sorted queue the counted tasks are exactly those at or before t. */
  lemma CountUpToSplits<R>(q: seq<Task<R>>, t: int)
    requires Sorted(q)
    ensures forall i :: 0 <= i < |q| ==> (q[i].next <= t <==> i < CountUpTo(q, t))
  {
  }

  lemma CountUpToMonotone<R>(q: seq<Task<R>>, t: int, t': int)
    requires t <= t'
    ensures CountUpTo(q, t) <= CountUpTo(q, t')
  {
  }

  function Insert<R>(q: seq<Task<R>>, x: Task<R>): (q': seq<Task<R>>)
    ensures |q'| == |q| + 1
  {
    var n := CountUpTo(q, x.next);
    q[..n] + [x] + q[n..]
  }

  lemma InsertPointwise<R>(q: seq<Task<R>>, x: Task<R>, i: nat)
    requires i <= |q|
    ensures var n, q' := CountUpTo(q, x.next), Insert(q, x);
            q'[i] == if i < n then q[i] else if i == n then x else q[i - 1]
  {
  }

  lemma SpliceParts<T>(s: seq<T>, x: T, n: nat)
    requires n <= |s|
    ensures var s' := s[..n] + [x] + s[n..];
            s'[n] == x && s'[..n] == s[..n] && s'[n + 1..] == s[n..]
  {
  }

  lemma InsertSorted<R>(q: seq<Task<R>>, x: Task<R>)
    requires Sorted(q)
    ensures Sorted(Insert(q, x))
  {
    var q' := Insert(q, x);
    CountUpToSplits(q, x.next);
    forall i, j | 0 <= i < j < |q'|
      ensures q'[i].next <= q'[j].next
    {
      InsertPointwise(q, x, i);
      InsertPointwise(q, x, j);
    }
  }

  /** Insertion is stable and sorted: the new task stands right after every task whose time is
      not later than its own and before every later one, and nothing else moves. */
  lemma InsertIsStable<R>(q: seq<Task<R>>, x: Task<R>)
    requires Sorted(q)
    ensures Sorted(Insert(q, x))
    ensures var n := CountUpTo(q, x.next);
            && Insert(q, x)[n] == x
            && Insert(q, x)[..n] == q[..n] && Insert(q, x)[n + 1..] == q[n..]
            && (forall i :: 0 <= i < |q| ==> (q[i].next <= x.next <==> i < n))
  {
    InsertSorted(q, x);
    SpliceParts(q, x, CountUpTo(q, x.next));
    CountUpToSplits(q, x.next);
  }

  lemma InsertHandles<R>(q: seq<Task<R>>, x: Task<R>)
    ensures Handles(Insert(q, x)) == Handles(q) + {x.handle}
    ensures Distinct(q) && x.handle !in Handles(q) ==> Distinct(Insert(q, x))
  {
    var n, q' := CountUpTo(q, x.next), Insert(q, x);
    assert q'[n] == x;
    assert forall i :: 0 <= i < n ==> q'[i] == q[i];
    assert forall i :: n <= i < |q| ==> q[i] == q'[i + 1];
    assert forall i :: n < i < |q'| ==> q'[i] == q[i - 1];
  }

  /** A task inserted into a sorted queue is counted among the due ones iff it is due. */
  lemma InsertCount<R>(q: seq<Task<R>>, x: Task<R>, now: int)
    requires Sorted(q)
    ensures CountUpTo(Insert(q, x), now) == CountUpTo(q, now) + if x.next <= now then 1 else 0
  {
    var n, c, q' := CountUpTo(q, x.next), CountUpTo(q, now), Insert(q, x);
    var c' := if x.next <= now then c + 1 else c;
    if x.next <= now {
      CountUpToMonotone(q, x.next, now);
    } else {
      CountUpToMonotone(q, now, x.next);
    }
    forall i | 0 <= i < c'
      ensures q'[i].next <= now
    {
      InsertPointwise(q, x, i);
    }
    if c' < |q'| {
      InsertPointwise(q, x, c');
    }
    CountUpToUnique(q', now, c');
  }

  // ------------------------------------------------------------------ removal

  /** The position of the first task with the given handle, or |q|. */
  function IndexOf<R(==)>(q: seq<Task<R>>, h: R): (n: nat)
    ensures n <= |q|
    ensures forall i :: 0 <= i < n ==> q[i].handle != h
    ensures n < |q| ==> q[n].handle == h
  {
    if q == [] || q[0].handle == h then 0 else 1 + IndexOf(q[1..], h)
  }

  function Remove<R(==)>(q: seq<Task<R>>, h: R): seq<Task<R>> {
    var n := IndexOf(q, h);
    if n < |q| then q[..n] + q[n + 1..] else q
  }

  lemma RemoveAt<R>(q: seq<Task<R>>, h: R, i: nat)
    requires i < |Remove(q, h)|
    ensures var n := IndexOf(q, h); Remove(q, h)[i] == q[if i < n then i else i + 1]
  {
  }

  lemma RemoveHandles<R>(q: seq<Task<R>>, h: R)
    requires Distinct(q)
    ensures Handles(Remove(q, h)) == Handles(q) - {h}
  {
    var n, q' := IndexOf(q, h), Remove(q, h);
    if n < |q| {
      assert forall i :: 0 <= i < n ==> q'[i] == q[i];
      assert forall i :: n < i < |q| ==> q[i] == q'[i - 1];
      forall i | 0 <= i < |q'|
        ensures q'[i].handle in Handles(q) - {h}
      {
        RemoveAt(q, h, i);
      }
    }
  }

  lemma RemoveKeeps<R>(q: seq<Task<R>>, h: R)
    ensures Sorted(q) ==> Sorted(Remove(q, h))
    ensures Distinct(q) ==> Distinct(Remove(q, h))
    ensures Distinct(q) ==> Handles(Remove(q, h)) == Handles(q) - {h}
  {
    var q' := Remove(q, h);
    if Distinct(q) {
      RemoveHandles(q, h);
    }
    forall i, j | 0 <= i < j < |q'|
      ensures Sorted(q) ==> q'[i].next <= q'[j].next
      ensures Distinct(q) ==> q'[i].handle != q'[j].handle
    {
      RemoveAt(q, h, i);
      RemoveAt(q, h, j);
    }
  }

  lemma RemoveCount<R>(q: seq<Task<R>>, h: R, now: int)
    requires Sorted(q)
    ensures CountUpTo(Remove(q, h), now) <= CountUpTo(q, now)
  {
    var c, n, q' := CountUpTo(q, now), IndexOf(q, h), Remove(q, h);
    CountUpToUnique(q', now, if n < c then c - 1 else c);
  }

  /** Inserting a new task and removing it again restores the queue. */
  lemma InsertThenRemove<R>(q: seq<Task<R>>, x: Task<R>)
    requires x.handle !in Handles(q)
    ensures Remove(Insert(q, x), x.handle) == q
  {
    var n, q' := CountUpTo(q, x.next), Insert(q, x);
    assert q'[n] == x;
    assert forall i :: 0 <= i < n ==> q'[i] == q[i] && q[i].handle in Handles(q);
    assert IndexOf(q', x.handle) == n;
  }

  lemma InsertMembers<R>(q: seq<Task<R>>, x: Task<R>)
    ensures forall t :: t in Insert(q, x) <==> t in q || t == x
  {
    var n := CountUpTo(q, x.next);
    assert q == q[..n] + q[n..];
    assert forall t :: t in Insert(q, x) <==> t in q[..n] || t == x || t in q[n..];
  }

  lemma RemoveMembers<R>(q: seq<Task<R>>, h: R)
    requires Distinct(q)
    ensures forall t :: t in Remove(q, h) <==> t in q && t.handle != h
  {
    var n := IndexOf(q, h);
    if n < |q| {
      assert q == q[..n] + [q[n]] + q[n + 1..];
      assert forall t :: t in Remove(q, h) <==> t in q[..n] || t in q[n + 1..];
      forall i | 0 <= i < |q| && i != n
        ensures q[i].handle != h
      {
      }
    }
  }

  /** The handles of hs removed one after the other. */
  function RemoveAll<R(==)>(q: seq<Task<R>>, hs: seq<R>): seq<Task<R>>
    decreases |hs|
  {
    if hs == [] then q else RemoveAll(Remove(q, hs[0]), hs[1..])
  }

  /** The tasks of q that have none of the handles hs, in the order of q. */
  function Others<R(==)>(q: seq<Task<R>>, hs: seq<R>): seq<Task<R>> {
    if q == [] then []
    else (if q[0].handle in hs then [] else [q[0]]) + Others(q[1..], hs)
  }

  lemma {:induction false} OthersOfNone<R>(q: seq<Task<R>>)
    ensures Others(q, []) == q
  {
    if q != [] {
      OthersOfNone(q[1..]);
    }
  }

  lemma {:induction false} OthersAbsent<R>(q: seq<Task<R>>, h: R, hs: seq<R>)
    requires forall i :: 0 <= i < |q| ==> q[i].handle != h
    ensures Others(q, [h] + hs) == Others(q, hs)
  {
    if q != [] {
      OthersAbsent(q[1..], h, hs);
    }
  }

  lemma RemoveFromTail<R>(q: seq<Task<R>>, h: R)
    requires q != [] && q[0].handle != h
    ensures Remove(q, h) == [q[0]] + Remove(q[1..], h)
  {
    var n, rest := IndexOf(q[1..], h), q[1..];
    assert IndexOf(q, h) == n + 1;
    if n < |rest| {
      assert q[..n + 1] == [q[0]] + rest[..n] && q[n + 2..] == rest[n + 1..];
    } else {
      assert q == [q[0]] + rest;
    }
  }

  lemma {:induction false} OthersAfterRemove<R>(q: seq<Task<R>>, h: R, hs: seq<R>)
    requires Distinct(q)
    ensures Others(Remove(q, h), hs) == Others(q, [h] + hs)
  {
    if q == [] {
    } else if q[0].handle == h {
      assert Remove(q, h) == q[1..];
      OthersAbsent(q[1..], h, hs);
    } else {
      RemoveFromTail(q, h);
      assert ([q[0]] + Remove(q[1..], h))[1..] == Remove(q[1..], h);
      OthersAfterRemove(q[1..], h, hs);
    }
  }

  /** Removing handles one by one leaves all other tasks in place and in their relative order. */
  lemma {:induction false} RemoveAllKeepsOthers<R>(q: seq<Task<R>>, hs: seq<R>)
    requires Distinct(q)
    ensures RemoveAll(q, hs) == Others(q, hs)
    decreases |hs|
  {
    if hs == [] {
      OthersOfNone(q);
    } else {
      RemoveKeeps(q, hs[0]);
      RemoveAllKeepsOthers(Remove(q, hs[0]), hs[1..]);
      OthersAfterRemove(q, hs[0], hs[1..]);
      assert [hs[0]] + hs[1..] == hs;
    }
  }

  // ----------------------------------------------------------------- bindings

  /** Which handle carries which data, in queue order. */
  function Bindings<R>(q: seq<Task<R>>): seq<(R, R)> {
    seq(|q|, i requires 0 <= i < |q| => (q[i].handle, q[i].data))
  }

  lemma InsertBinds<R>(q: seq<Task<R>>, x: Task<R>)
    ensures multiset(Bindings(Insert(q, x))) == multiset(Bindings(q)) + multiset{(x.handle, x.data)}
  {
    var n, b := CountUpTo(q, x.next), Bindings(q);
    assert Bindings(Insert(q, x)) == b[..n] + [(x.handle, x.data)] + b[n..];
    assert b == b[..n] + b[n..];
  }

  lemma PopBinds<R>(q: seq<Task<R>>)
    requires q != []
    ensures multiset(Bindings(q)) == multiset{(q[0].handle, q[0].data)} + multiset(Bindings(q[1..]))
  {
    assert Bindings(q) == [(q[0].handle, q[0].data)] + Bindings(q[1..]);
  }

  /** Removing the handle of a binding removes that binding and no other. */
  lemma RemoveBinds<R>(q: seq<Task<R>>, h: R, d: R)
    requires Distinct(q) && (h, d) in Bindings(q)
    ensures multiset(Bindings(q)) == multiset(Bindings(Remove(q, h))) + multiset{(h, d)}
  {
    var n, b := IndexOf(q, h), Bindings(q);
    var k :| 0 <= k < |q| && b[k] == (h, d);
    assert q[k].handle == h;
    assert n == k;
    assert Bindings(Remove(q, h)) == b[..n] + b[n + 1..];
    assert b == b[..n] + [b[n]] + b[n + 1..];
  }

  // ----------------------------------------------------------------- dispatch

  function RetimeTask<R>(x: Task<R>, now: int): Task<R> {
    var advanced := x.next + x.interval;
    x.(next := if now >= advanced then now + x.interval else advanced)
  }

  /** A due task is next due one interval after the time it was due for; only if that has passed too, one
      interval after the clock reading. So it is never put further than one interval past the clock, and past the
      clock at all exactly when its interval is positive. */
  lemma RetimeTaskExact<R>(x: Task<R>, now: int)
    requires now >= x.next
    ensures var y := RetimeTask(x, now);
            && y.handle == x.handle && y.data == x.data && y.interval == x.interval
            && (now < x.next + x.interval ==> y.next == x.next + x.interval)
            && (now >= x.next + x.interval ==> y.next == now + x.interval)
            && y.next <= now + x.interval
            && (now < y.next <==> x.interval > 0)
  {
  }

  predicate HeadDue<R>(q: seq<Task<R>>, now: int) {
    q != [] && now >= q[0].next
  }

  /** One turn of the inner loop of the scheduler thread. */
  function Dispatch<R>(q: seq<Task<R>>, now: int): seq<Task<R>>
    requires q != []
  {
    Insert(q[1..], RetimeTask(q[0], now))
  }

  /** The queue after at most `turns` turns of the inner loop at a fixed clock reading. */
  function Pass<R>(q: seq<Task<R>>, now: int, turns: nat): seq<Task<R>>
    decreases turns
  {
    if turns == 0 || !HeadDue(q, now) then q else Pass(Dispatch(q, now), now, turns - 1)
  }

  /** The tasks fired in those turns, as they were when popped. */
  function Fired<R>(q: seq<Task<R>>, now: int, turns: nat): seq<Task<R>>
    decreases turns
  {
    if turns == 0 || !HeadDue(q, now) then [] else [q[0]] + Fired(Dispatch(q, now), now, turns - 1)
  }

  /** The tasks of xs re-timed and inserted into q, first to last. */
  function InsertRetimed<R>(q: seq<Task<R>>, xs: seq<Task<R>>, now: int): seq<Task<R>>
    decreases |xs|
  {
    if xs == [] then q else InsertRetimed(Insert(q, RetimeTask(xs[0], now)), xs[1..], now)
  }

  ghost predicate DuePositive<R>(q: seq<Task<R>>, now: int) {
    forall i :: 0 <= i < CountUpTo(q, now) ==> q[i].interval > 0
  }

  lemma SpliceBehind<T>(s: seq<T>, x: T, c: nat, n: nat)
    requires c <= n <= |s|
    ensures (s[..n] + [x] + s[n..])[..c] == s[..c]
    ensures (s[..n] + [x] + s[n..])[c..] == s[c..][..n - c] + [x] + s[c..][n - c..]
  {
  }

  lemma SuffixCount<R>(q: seq<Task<R>>, t: int, c: nat)
    requires c <= CountUpTo(q, t)
    ensures CountUpTo(q[c..], t) == CountUpTo(q, t) - c
  {
    CountUpToUnique(q[c..], t, CountUpTo(q, t) - c);
  }

  /** Inserting a task that is not due leaves the due prefix alone and inserts into the rest. */
  lemma InsertBehindDue<R>(q: seq<Task<R>>, x: Task<R>, now: int)
    requires Sorted(q) && x.next > now
    ensures var c := CountUpTo(q, now);
            && CountUpTo(Insert(q, x), now) == c
            && Insert(q, x)[..c] == q[..c]
            && Insert(q, x)[c..] == Insert(q[c..], x)
  {
    InsertCount(q, x, now);
    CountUpToMonotone(q, now, x.next);
    SuffixCount(q, x.next, CountUpTo(q, now));
    SpliceBehind(q, x, CountUpTo(q, now), CountUpTo(q, x.next));
  }

  lemma TailDue<R>(q: seq<Task<R>>, now: int)
    requires Sorted(q) && HeadDue(q, now)
    ensures Sorted(q[1..]) && CountUpTo(q, now) == CountUpTo(q[1..], now) + 1
  {
  }

  lemma TailSlices<T>(s: seq<T>, c: nat)
    requires 1 <= c <= |s|
    ensures s[1..][..c - 1] == s[1..c] && s[1..][c - 1..] == s[c..]
    ensures s[..c] == [s[0]] + s[1..c]
  {
  }

  /** One turn on a queue whose due tasks have positive intervals: the head leaves the due
      prefix and is inserted, re-timed, among the tasks that are not due. */
  lemma DispatchDue<R>(q: seq<Task<R>>, now: int)
    requires Sorted(q) && HeadDue(q, now) && q[0].interval > 0
    ensures var c, q' := CountUpTo(q, now), Dispatch(q, now);
            && c > 0 && CountUpTo(q', now) == c - 1
            && q'[..c - 1] == q[1..c]
            && q'[c - 1..] == Insert(q[c..], RetimeTask(q[0], now))
            && Sorted(q')
            && now < RetimeTask(q[0], now).next <= now + q[0].interval
            && (now >= q[0].next + q[0].interval ==> RetimeTask(q[0], now).next == now + q[0].interval)
  {
    TailDue(q, now);
    RetimeTaskExact(q[0], now);
    var rest, y := q[1..], RetimeTask(q[0], now);
    InsertBehindDue(rest, y, now);
    InsertIsStable(rest, y);
    TailSlices(q, CountUpTo(q, now));
  }

  lemma DispatchKeepsPositive<R>(q: seq<Task<R>>, now: int)
    requires Sorted(q) && HeadDue(q, now) && DuePositive(q, now)
    ensures DuePositive(Dispatch(q, now), now)
  {
    var c := CountUpTo(q, now);
    DispatchDue(q, now);
    forall i | 0 <= i < c - 1
      ensures Dispatch(q, now)[i].interval > 0
    {
      assert Dispatch(q, now)[i] == q[1..c][i] == q[i + 1];
    }
  }

  lemma InsertRetimedUnfolds<R>(q: seq<Task<R>>, c: nat, now: int)
    requires 0 < c <= |q|
    ensures InsertRetimed(q[c..], q[..c], now) == InsertRetimed(Insert(q[c..], RetimeTask(q[0], now)), q[1..c], now)
  {
    assert q[..c][1..] == q[1..c];
  }

  /** A pass over a sorted queue whose due tasks have positive intervals fires exactly the tasks
      due at its start, each once and in queue order; it leaves the others in place, with
      the fired ones re-timed and stably inserted in the order of firing, and then ends. */
  lemma {:induction false} PassFiresDue<R>(q: seq<Task<R>>, now: int)
    requires Sorted(q) && DuePositive(q, now)
    ensures var c := CountUpTo(q, now);
            && Fired(q, now, c) == q[..c]
            && Pass(q, now, c) == InsertRetimed(q[c..], q[..c], now)
            && !HeadDue(Pass(q, now, c), now)
            && Sorted(Pass(q, now, c))
    decreases CountUpTo(q, now)
  {
    var c := CountUpTo(q, now);
    if c > 0 {
      DispatchDue(q, now);
      DispatchKeepsPositive(q, now);
      PassFiresDue(Dispatch(q, now), now);
      TailSlices(q, c);
      InsertRetimedUnfolds(q, c, now);
      PassUnfolds(q, now, c);
    } else {
      assert q[0..] == q;
    }
  }

  /** Part of a pass from q of c turns has been made: `popped` is fired, ts is left. */
  ghost predicate PassUnderWay<R>(q: seq<Task<R>>, now: int, c: nat, popped: seq<Task<R>>, ts: seq<Task<R>>) {
    && |popped| <= c
    && (|popped| == c ==> ts == Pass(q, now, c))
    && Pass(q, now, c) == Pass(ts, now, c - |popped|)
    && Fired(q, now, c) == popped + Fired(ts, now, c - |popped|)
  }

  lemma PassUnfolds<R>(ts: seq<Task<R>>, now: int, turns: nat)
    requires turns > 0 && HeadDue(ts, now)
    ensures Pass(ts, now, turns) == Pass(Dispatch(ts, now), now, turns - 1)
    ensures Fired(ts, now, turns) == [ts[0]] + Fired(Dispatch(ts, now), now, turns - 1)
  {
  }

  lemma AppendAssociates<T>(a: seq<T>, x: T, b: seq<T>)
    ensures a + ([x] + b) == (a + [x]) + b
  {
  }

  lemma PassTurn<R>(q: seq<Task<R>>, now: int, c: nat, popped: seq<Task<R>>, ts: seq<Task<R>>)
    requires PassUnderWay(q, now, c, popped, ts) && HeadDue(ts, now)
    requires !HeadDue(Pass(q, now, c), now)
    ensures |popped| < c
    ensures PassUnderWay(q, now, c, popped + [ts[0]], Dispatch(ts, now))
  {
    PassUnfolds(ts, now, c - |popped|);
    AppendAssociates(popped, ts[0], Fired(Dispatch(ts, now), now, c - |popped| - 1));
  }

  lemma PassStart<R>(q: seq<Task<R>>, now: int)
    requires Sorted(q) && DuePositive(q, now)
    ensures PassUnderWay(q, now, CountUpTo(q, now), [], q)
    ensures !HeadDue(Pass(q, now, CountUpTo(q, now)), now)
  {
    PassFiresDue(q, now);
  }

  lemma PassOver<R>(q: seq<Task<R>>, now: int, popped: seq<Task<R>>, ts: seq<Task<R>>)
    requires Sorted(q) && DuePositive(q, now)
    requires PassUnderWay(q, now, CountUpTo(q, now), popped, ts) && !HeadDue(ts, now)
    ensures popped == q[..CountUpTo(q, now)]
    ensures ts == InsertRetimed(q[CountUpTo(q, now)..], q[..CountUpTo(q, now)], now)
  {
    PassFiresDue(q, now);
  }

  ghost predicate StuckAt<R>(q: seq<Task<R>>, now: int, k: int) {
    0 <= k < |q| && q[k].next <= now && q[k].interval <= 0
  }

  /** A due task whose interval is not positive is still due after a turn. */
  lemma DispatchStuck<R>(q: seq<Task<R>>, now: int, k: int) returns (k': int)
    requires Sorted(q) && StuckAt(q, now, k)
    ensures HeadDue(q, now) && Sorted(Dispatch(q, now)) && StuckAt(Dispatch(q, now), now, k')
  {
    var rest, y := q[1..], RetimeTask(q[0], now);
    InsertIsStable(rest, y);
    var n := CountUpTo(rest, y.next);
    k' := if k == 0 then n else if k - 1 < n then k - 1 else k;
    InsertPointwise(rest, y, k');
    assert q[0].next <= q[k].next;
  }

  lemma {:induction false} PassNeverEnds<R>(q: seq<Task<R>>, now: int, turns: nat, k: int)
    requires Sorted(q) && StuckAt(q, now, k)
    ensures HeadDue(Pass(q, now, turns), now)
    ensures |Fired(q, now, turns)| == turns
    decreases turns
  {
    var k' := DispatchStuck(q, now, k);
    if turns > 0 {
      PassNeverEnds(Dispatch(q, now), now, turns - 1, k');
    }
  }

  ghost predicate PassEnds<R>(q: seq<Task<R>>, now: int) {
    exists turns: nat :: !HeadDue(Pass(q, now, turns), now)
  }

  /** The inner loop, undisturbed, ends if and only if every task due at its start has a
      positive interval. A zero interval is accepted from clients, so it can fail to. */
  lemma PassEndsIff<R>(q: seq<Task<R>>, now: int)
    requires Sorted(q)
    ensures PassEnds(q, now) <==> DuePositive(q, now)
  {
    if DuePositive(q, now) {
      PassFiresDue(q, now);
    } else {
      var k :| 0 <= k < CountUpTo(q, now) && q[k].interval <= 0;
      forall turns: nat
        ensures HeadDue(Pass(q, now, turns), now)
      {
        PassNeverEnds(q, now, turns, k);
      }
    }
  }

  /** Whatever else is queued, from the time a task without a positive interval is due no pass ends any more. */
  lemma StuckNeverEnds<R>(q: seq<Task<R>>, x: Task<R>, now: int)
    requires Sorted(q) && x in q && x.interval <= 0 && x.next <= now
    ensures !PassEnds(q, now)
  {
    var i :| 0 <= i < |q| && q[i] == x;
    CountUpToSplits(q, now);
    PassEndsIff(q, now);
  }

  /** A queue of positive intervals gets a task: its passes end at every clock reading, as they did before, if and
      only if the new interval is positive too. */
  lemma InsertEndsIff<R>(q: seq<Task<R>>, x: Task<R>)
    requires Sorted(q) && forall t :: t in q ==> t.interval > 0
    ensures (forall now :: PassEnds(Insert(q, x), now)) <==> x.interval > 0
  {
    InsertSorted(q, x);
    InsertMembers(q, x);
    if x.interval > 0 {
      forall now
        ensures PassEnds(Insert(q, x), now)
      {
        PassEndsIff(Insert(q, x), now);
      }
    } else {
      StuckNeverEnds(Insert(q, x), x, x.next);
    }
  }
}
