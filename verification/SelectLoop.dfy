/** The dispatch loop of the application manager: which descriptors one turn of the loop visits, and what
    becomes of the managed descriptors and of the registrations. */
module SelectLoop {
  import opened Options
  import opened Timespec
  import opened TaskQueue
  import opened RegistryTable
  import opened InternalData
  import opened SchedulerList
  import opened RegistryList

  // ---------------------------------------------------------------- visiting

  /** The members of s from lo below hi, ascending. */
  function Ascending(s: set<int>, lo: int, hi: int): seq<int>
    decreases hi - lo
  {
    if lo >= hi then []
    else (if lo in s then [lo] else []) + Ascending(s, lo + 1, hi)
  }

  /** The descriptors that a loop from lo below hi visits, if it stops when its count is used up. */
  function Visits(s: set<int>, lo: int, hi: int, count: int): seq<int>
    decreases hi - lo
  {
    if lo >= hi || count <= 0 then []
    else if lo in s then [lo] + Visits(s, lo + 1, hi, count - 1)
    else Visits(s, lo + 1, hi, count)
  }

  /** The loop visits the first members, as many as the count allows. */
  lemma {:induction false} VisitsPrefix(s: set<int>, lo: int, hi: int, count: int)
    ensures var all := Ascending(s, lo, hi);
            Visits(s, lo, hi, count) == all[..if count < 0 then 0 else if count < |all| then count else |all|]
    decreases hi - lo
  {
    if lo < hi && count > 0 {
      VisitsPrefix(s, lo + 1, hi, if lo in s then count - 1 else count);
    }
  }

  lemma {:induction false} AscendingMembers(s: set<int>, lo: int, hi: int)
    ensures forall x :: x in Ascending(s, lo, hi) <==> x in s && lo <= x < hi
    ensures forall i, j :: 0 <= i < j < |Ascending(s, lo, hi)| ==> Ascending(s, lo, hi)[i] < Ascending(s, lo, hi)[j]
    decreases hi - lo
  {
    if lo < hi {
      AscendingMembers(s, lo + 1, hi);
      var rest := Ascending(s, lo + 1, hi);
      forall i | 0 <= i < |rest|
        ensures rest[i] > lo
      {
        assert rest[i] in rest;
      }
    }
  }

  lemma {:induction false} AscendingSize(s: set<int>, lo: int, hi: int)
    requires forall x :: x in s ==> lo <= x < hi
    ensures |Ascending(s, lo, hi)| == |s|
    decreases hi - lo
  {
    if lo >= hi {
      assert s == {};
    } else {
      var r := s - {lo};
      AscendingSize(r, lo + 1, hi);
      AscendingAgree(s, r, lo + 1, hi);
    }
  }

  lemma {:induction false} AscendingAgree(s: set<int>, r: set<int>, lo: int, hi: int)
    requires forall x :: lo <= x < hi ==> (x in s <==> x in r)
    ensures Ascending(s, lo, hi) == Ascending(r, lo, hi)
    decreases hi - lo
  {
    if lo < hi {
      AscendingAgree(s, r, lo + 1, hi);
    }
  }

  /** The two loops of one turn, with the count that is left after the listening socket is dealt with: each
      visits all its descriptors, each once, if and only if the count covers both sets or there is nothing to
      visit. */
  lemma LoopsCompleteIff(rs: set<int>, xs: set<int>, nfds: nat, count: int)
    requires forall x :: x in rs ==> 0 <= x < nfds
    requires forall x :: x in xs ==> 0 <= x < nfds
    ensures var v := Visits(rs, 0, nfds, count);
            var w := Visits(xs, 0, nfds, count - |v|);
            (v == Ascending(rs, 0, nfds) && w == Ascending(xs, 0, nfds))
            <==> (count >= |rs| + |xs| || rs + xs == {})
  {
    var v := Visits(rs, 0, nfds, count);
    VisitsPrefix(rs, 0, nfds, count);
    VisitsPrefix(xs, 0, nfds, count - |v|);
    AscendingSize(rs, 0, nfds);
    AscendingSize(xs, 0, nfds);
    if rs == {} && xs == {} {
      assert rs + xs == {};
    } else {
      assert |rs| + |xs| > 0;
      assert rs + xs != {};
    }
  }

  // ------------------------------------------------------------- the manager

  const MSG_REQUEST := 1
  const MSG_REGISTER := 2
  const MSG_UNREGISTER := 3

  /** What reading from a client gives. A registration also takes a clock reading; a reply is built in a record
      that holds `junk` at first. */
  datatype RawEvent =
    | Failed
    | Closed
    | Message(msgType: nat, ms: nat, query: Query, clock: Timespec, junk: Reply)
  {
    predicate Closes() {
      Failed? || Closed?
    }

    predicate Requests() {
      Message? && msgType == MSG_REQUEST
    }

    predicate Registers() {
      Message? && msgType == MSG_REGISTER
    }

    predicate Valid() {
      (Message? ==> clock.Normal()) && (Requests() ==> ValidQuery(query))
    }
  }

  /** The clock reading of a message is normal, and the engine it asks for exists. */
  type Event = e: RawEvent | e.Valid() witness Failed

  /** Every message is an event whose clock reading is normal and that, if it is a request for a value of an engine,
      names one of the four. */
  lemma MessagesAreEvents(m: RawEvent)
    requires m.Message? ==> 0 <= m.clock.nsec < 1_000_000_000
    requires m.Message? && m.msgType == 1 && m.query.dataId < 7 ==> m.query.engineId < 4
    ensures m.Valid()
  {
  }

  datatype Visit = Visit(fd: int, event: Event)

  /** The event of a visited descriptor; the second loop reads nothing and closes. */
  function EventOf(events: map<int, Event>, fd: int): Event {
    if fd in events then events[fd] else Closed
  }

  function VisitsOf(fds: seq<int>, events: map<int, Event>): seq<Visit> {
    seq(|fds|, i requires 0 <= i < |fds| => Visit(fds[i], EventOf(events, fds[i])))
  }

  /** The managed descriptors are below nfds, and each registered one is a managed client. */
  ghost predicate FdsOk<R>(t: seq<App<R>>, managed: set<int>, nfds: int, listening: int) {
    && listening in managed
    && (forall fd :: fd in managed ==> 0 <= fd < nfds)
    && (forall i :: 0 <= i < |t| ==> t[i].fd in managed && t[i].fd != listening)
  }

  lemma LookupFd<R>(t: seq<App<R>>, fd: int)
    ensures Lookup(t, fd).None? <==> forall i :: 0 <= i < |t| ==> t[i].fd != fd
  {
  }

  lemma FdsOkRegister<R>(t: seq<App<R>>, managed: set<int>, nfds: int, listening: int, fd: int, node: QueryNode<R>)
    requires FdsOk(t, managed, nfds, listening) && fd in managed && fd != listening
    ensures FdsOk(Register(t, fd, node), managed, nfds, listening)
  {
    var w := WithApp(t, node.app, fd);
    forall i | 0 <= i < |w|
      ensures w[i].fd in managed && w[i].fd != listening
    {
      if FindApp(t, fd) == |t| && i > 0 {
        assert w[i] == t[i - 1];
      }
    }
  }

  lemma FdsOkDrop<R>(t: seq<App<R>>, managed: set<int>, nfds: int, listening: int, fd: int)
    requires FdsOk(t, managed, nfds, listening) && fd != listening && DistinctFds(t)
    ensures FdsOk(Drop(t, fd), managed - {fd}, nfds, listening)
    ensures FdsOk(Drop(t, fd), managed, nfds, listening)
  {
    DropRefines(t, fd, fd);
    var i, t' := FindApp(t, fd), Drop(t, fd);
    LookupFd(t', fd);
    if i < |t| {
      assert forall k :: 0 <= k < |t'| ==> t'[k] == t[if k < i then k else k + 1];
    }
  }

  lemma FdsOkManage<R>(t: seq<App<R>>, managed: set<int>, nfds: int, listening: int, newfd: int)
    requires FdsOk(t, managed, nfds, listening) && newfd >= 0
    ensures FdsOk(t, managed + {newfd}, if newfd >= nfds then newfd + 1 else nfds, listening)
  {
  }

  lemma FdsOkUnlink<R>(t: seq<App<R>>, managed: set<int>, nfds: int, listening: int, fd: int, reqId: nat)
    requires FdsOk(t, managed, nfds, listening)
    ensures FdsOk(Unlink(t, fd, reqId), managed, nfds, listening)
  {
  }

  /** The visited descriptors whose visit closes the client: all but those from which a message is read. */
  ghost function ClosedBy(visited: seq<int>, events: map<int, Event>): set<int> {
    set fd | fd in visited && (fd in events ==> !events[fd].Message?)
  }

  lemma ClosedBySnoc(visited: seq<int>, events: map<int, Event>, fd: int)
    ensures ClosedBy(visited + [fd], events) ==
            ClosedBy(visited, events) + if EventOf(events, fd).Closes() then {fd} else {}
  {
  }

  ghost function SetOf(s: seq<int>): set<int> {
    set x | x in s
  }

  /** The queries of all descriptors outside s are the same in both tables. */
  ghost predicate SameOutside<R>(s: set<int>, before: seq<App<R>>, after: seq<App<R>>) {
    forall g :: g !in s ==> Lookup(after, g) == Lookup(before, g)
  }

  function Queries<R>(t: seq<App<R>>, fd: int): seq<QueryNode<R>> {
    if Lookup(t, fd).Some? then Lookup(t, fd).value else []
  }

  /** What the treatment of a readable client does to the queries of its descriptor. */
  ghost predicate TreatedAt<R>(fd: int, e: Event, before: seq<App<R>>, after: seq<App<R>>) {
    match e
    case Failed => Lookup(after, fd).None?
    case Closed => Lookup(after, fd).None?
    case Message(msgType, _, query, _, _) =>
      if msgType == 2 then
        var qs := Queries(after, fd);
        Lookup(after, fd).Some? && qs != [] && qs[0].query == query && qs[1..] == Queries(before, fd)
      else if msgType == 3 then
        var qs := Queries(before, fd);
        var j := FindQuery(qs, query.reqId);
        Lookup(after, fd) == if j == |qs| then Lookup(before, fd) else Some(qs[..j] + qs[j + 1..])
      else Lookup(after, fd) == Lookup(before, fd)
  }

  ghost predicate Treated<R>(fd: int, e: Event, before: seq<App<R>>, after: seq<App<R>>) {
    TreatedAt(fd, e, before, after) && SameOutside({fd}, before, after)
  }

  /** The visited descriptors are treated, each as what is read from it asks; those from which nothing is read are
      dropped; and no other is touched. */
  ghost predicate TreatedAll<R>(visited: seq<int>, events: map<int, Event>, before: seq<App<R>>, after: seq<App<R>>) {
    && (forall x :: x in visited && x in events ==> TreatedAt(x, events[x], before, after))
    && (forall x :: x in visited && x !in events ==> Lookup(after, x).None?)
    && SameOutside(SetOf(visited), before, after)
  }

  lemma TreatedFrame<R>(fd: int, e: Event, t0: seq<App<R>>, t1: seq<App<R>>, t0': seq<App<R>>, t1': seq<App<R>>)
    requires TreatedAt(fd, e, t0, t1)
    requires Lookup(t0', fd) == Lookup(t0, fd) && Lookup(t1', fd) == Lookup(t1, fd)
    ensures TreatedAt(fd, e, t0', t1')
  {
  }

  lemma TreatedSnoc<R>(visited: seq<int>, events: map<int, Event>, fd: int,
                       t0: seq<App<R>>, t1: seq<App<R>>, t2: seq<App<R>>)
    requires TreatedAll(visited, events, t0, t1) && fd !in visited
    requires Treated(fd, EventOf(events, fd), t1, t2)
    ensures TreatedAll(visited + [fd], events, t0, t2)
  {
    assert Lookup(t1, fd) == Lookup(t0, fd);
    forall x | x in visited + [fd] && x in events
      ensures TreatedAt(x, events[x], t0, t2)
    {
      if x == fd {
        TreatedFrame(fd, events[fd], t1, t2, t0, t2);
      } else {
        TreatedFrame(x, events[x], t0, t1, t0, t2);
      }
    }
  }

  lemma TreatedDrop<R>(fd: int, e: Event, before: seq<App<R>>)
    requires DistinctFds(before) && e.Closes()
    ensures Treated(fd, e, before, Drop(before, fd))
  {
    forall g | g != fd
      ensures Lookup(Drop(before, fd), g) == Lookup(before, g)
    {
      DropRefines(before, fd, g);
    }
    DropRefines(before, fd, fd);
  }

  lemma TreatedRegister<R>(fd: int, e: Event, before: seq<App<R>>, node: QueryNode<R>)
    requires DistinctFds(before) && e.Message? && e.msgType == MSG_REGISTER && node.query == e.query
    ensures Treated(fd, e, before, Register(before, fd, node))
  {
    forall g | g != fd
      ensures Lookup(Register(before, fd, node), g) == Lookup(before, g)
    {
      RegisterRefines(before, fd, node, g);
    }
    RegisterRefines(before, fd, node, fd);
  }

  lemma TreatedUnregister<R>(fd: int, e: Event, before: seq<App<R>>)
    requires DistinctFds(before) && e.Message? && e.msgType == MSG_UNREGISTER
    ensures Treated(fd, e, before, Unlink(before, fd, e.query.reqId))
  {
    forall g | g != fd
      ensures Lookup(Unlink(before, fd, e.query.reqId), g) == Lookup(before, g)
    {
      UnlinkRefines(before, fd, e.query.reqId, g);
    }
    UnlinkRefines(before, fd, e.query.reqId, fd);
  }

  // ------------------------------------------------------ visit after visit

  /** A reply and the descriptor it is written to. */
  datatype Sent = Sent(fd: int, reply: Reply)

  /** The registrations, the scheduler's queue, the daemon's data and the replies sent in this turn. */
  datatype Work<R> = Work(table: seq<App<R>>, tasks: seq<Task<R>>, data: IntData, sent: seq<Sent>)

  /** What holds between two visits: queries and tasks correspond one to one. */
  ghost predicate Consistent<R>(w: Work<R>) {
    && WellFormed(w.table) && Sorted(w.tasks) && Distinct(w.tasks)
    && multiset(Bindings(w.tasks)) == PairBag(w.table)
    && Complete(w.data)
  }

  ghost function Dropped<R>(w: Work<R>, fd: int): Work<R> {
    var qs := Lookup(w.table, fd);
    w.(table := Drop(w.table, fd), tasks := if qs.None? then w.tasks else RemoveAll(w.tasks, Handlers(qs.value)))
  }

  ghost function Withdrawn<R>(w: Work<R>, fd: int, reqId: nat): Work<R> {
    var m := Match(w.table, fd, reqId);
    w.(table := Unlink(w.table, fd, reqId), tasks := if m.None? then w.tasks else Remove(w.tasks, m.value.handler))
  }

  /** The task of a query: at the interval the message asks for, first due one interval after the clock reading. */
  function TaskFor<R>(n: QueryNode<R>, e: Event): Task<R>
    requires e.Message?
  {
    Task(n.handler, n.addr, e.ms * 1_000_000, e.clock.Total() + e.ms * 1_000_000)
  }

  ghost function Enrolled<R>(w: Work<R>, fd: int, e: Event, node: QueryNode<R>): Work<R>
    requires e.Message?
  {
    w.(table := Register(w.table, fd, node), tasks := Insert(w.tasks, TaskFor(node, e)))
  }

  lemma EnteredIs<R>(t: seq<App<R>>, q: seq<Task<R>>, t': seq<App<R>>, q': seq<Task<R>>, d: IntData, sent: seq<Sent>,
                     fd: int, e: Event, node: QueryNode<R>, x: Task<R>)
    requires e.Message? && t' == Register(t, fd, node) && q' == Insert(q, x)
    requires x.handle == node.handler && x.data == node.addr
    requires x.interval == e.ms * 1_000_000 && x.next == e.clock.Total() + e.ms * 1_000_000
    ensures Work(t', q', d, sent) == Enrolled(Work(t, q, d, sent), fd, e, node)
  {
  }

  function ReplyTo(v: Visit, d: IntData): seq<Sent>
    requires Complete(d)
  {
    if v.event.Requests() then [Sent(v.fd, Answer(d, v.event.query, v.event.junk))] else []
  }

  /** Everything a visit does. The new node of a registration is in front of the queries of its client. */
  ghost predicate Treats<R>(v: Visit, w: Work<R>, w': Work<R>)
    requires Complete(w.data)
  {
    if v.event.Closes() then
      w' == Dropped(w, v.fd)
    else if v.event.msgType == MSG_REGISTER then
      var qs := Queries(w'.table, v.fd);
      && qs != [] && qs[0].query == v.event.query
      && w' == Enrolled(w, v.fd, v.event, qs[0])
    else if v.event.msgType == MSG_UNREGISTER then
      w' == Withdrawn(w, v.fd, v.event.query.reqId)
    else
      w' == w.(sent := w.sent + ReplyTo(v, w.data))
  }

  lemma DropTreats<R>(w: Work<R>, fd: int, e: Event)
    requires Complete(w.data) && e.Closes()
    ensures Treats(Visit(fd, e), w, Dropped(w, fd))
  {
  }

  lemma WithdrawTreats<R>(w: Work<R>, fd: int, e: Event)
    requires Complete(w.data) && e.Message? && e.msgType == MSG_UNREGISTER
    ensures Treats(Visit(fd, e), w, Withdrawn(w, fd, e.query.reqId))
  {
  }

  lemma RegisterTreats<R>(w: Work<R>, fd: int, e: Event, node: QueryNode<R>)
    requires Complete(w.data) && DistinctFds(w.table) && e.Registers() && node.query == e.query
    ensures Treats(Visit(fd, e), w, Enrolled(w, fd, e, node))
  {
    RegisterRefines(w.table, fd, node, fd);
  }

  /** State number i is consistent, and a visit has led to it. */
  ghost predicate Reached<R>(visits: seq<Visit>, works: seq<Work<R>>, i: nat)
    requires i <= |visits| && |works| == |visits| + 1
  {
    Consistent(works[i]) && (i > 0 ==> Complete(works[i - 1].data) && Treats(visits[i - 1], works[i - 1], works[i]))
  }

  /** The states between the visits: one more than there are visits. */
  ghost predicate Trace<R>(visits: seq<Visit>, works: seq<Work<R>>) {
    |works| == |visits| + 1 && forall i :: 0 <= i <= |visits| ==> Reached(visits, works, i)
  }

  /** The visits to fds lead from w0 through the given states to w. */
  ghost predicate Worked<R>(fds: seq<int>, events: map<int, Event>, w0: Work<R>, works: seq<Work<R>>, w: Work<R>) {
    Trace(VisitsOf(fds, events), works) && works[0] == w0 && works[|fds|] == w
  }

  lemma VisitsOfSnoc(fds: seq<int>, events: map<int, Event>, fd: int)
    ensures VisitsOf(fds + [fd], events) == VisitsOf(fds, events) + [Visit(fd, EventOf(events, fd))]
  {
  }

  /** Traces that meet make one. */
  lemma TraceJoin<R>(vs: seq<Visit>, ws: seq<Work<R>>, us: seq<Visit>, xs: seq<Work<R>>)
    requires Trace(vs, ws) && Trace(us, xs) && ws[|vs|] == xs[0]
    ensures Trace(vs + us, ws + xs[1..])
  {
    var all, works := vs + us, ws + xs[1..];
    forall i | 0 <= i <= |all|
      ensures Reached(all, works, i)
    {
      if i <= |vs| {
        assert Reached(vs, ws, i);
      } else {
        assert Reached(us, xs, i - |vs|);
      }
    }
  }

  lemma TracePrefix<R>(visits: seq<Visit>, works: seq<Work<R>>, n: nat)
    requires Trace(visits, works) && n <= |visits|
    ensures Trace(visits[..n], works[..n + 1])
  {
    var vs, ws := visits[..n], works[..n + 1];
    forall i | 0 <= i <= |vs|
      ensures Reached(vs, ws, i)
    {
      assert Reached(visits, works, i);
    }
  }

  lemma TraceSnoc<R>(visits: seq<Visit>, works: seq<Work<R>>, v: Visit, w: Work<R>)
    requires Trace(visits, works) && Complete(works[|visits|].data) && Treats(v, works[|visits|], w) && Consistent(w)
    ensures Trace(visits + [v], works + [w])
  {
    var last := [works[|visits|], w];
    assert Reached(visits, works, |visits|);
    assert Reached([v], last, 0) && Reached([v], last, 1);
    TraceJoin(visits, works, [v], last);
    assert last[1..] == [w];
  }

  lemma WorkedSnoc<R>(fds: seq<int>, events: map<int, Event>, fd: int,
                      w0: Work<R>, works: seq<Work<R>>, w: Work<R>, w': Work<R>)
    requires Worked(fds, events, w0, works, w)
    requires Complete(w.data) && Treats(Visit(fd, EventOf(events, fd)), w, w') && Consistent(w')
    ensures Worked(fds + [fd], events, w0, works + [w'], w')
  {
    VisitsOfSnoc(fds, events, fd);
    TraceSnoc(VisitsOf(fds, events), works, Visit(fd, EventOf(events, fd)), w');
  }

  lemma TreatsTable<R>(v: Visit, w: Work<R>, w': Work<R>)
    requires Complete(w.data) && Treats(v, w, w') && DistinctFds(w.table)
    ensures Treated(v.fd, v.event, w.table, w'.table)
  {
    if v.event.Closes() {
      TreatedDrop(v.fd, v.event, w.table);
    } else if v.event.msgType == MSG_REGISTER {
      TreatedRegister(v.fd, v.event, w.table, Queries(w'.table, v.fd)[0]);
    } else if v.event.msgType == MSG_UNREGISTER {
      TreatedUnregister(v.fd, v.event, w.table);
    }
  }

  lemma {:induction false} TraceTreats<R>(fds: seq<int>, events: map<int, Event>,
                                          w0: Work<R>, works: seq<Work<R>>, w: Work<R>)
    requires Worked(fds, events, w0, works, w)
    requires forall i, j :: 0 <= i < j < |fds| ==> fds[i] != fds[j]
    ensures TreatedAll(fds, events, w0.table, w.table)
    decreases |fds|
  {
    if fds != [] {
      var n := |fds| - 1;
      VisitsOfSnoc(fds[..n], events, fds[n]);
      assert fds == fds[..n] + [fds[n]];
      TracePrefix(VisitsOf(fds, events), works, n);
      assert VisitsOf(fds, events)[..n] == VisitsOf(fds[..n], events);
      TraceTreats(fds[..n], events, w0, works[..n + 1], works[n]);
      assert Reached(VisitsOf(fds, events), works, n) && Reached(VisitsOf(fds, events), works, n + 1);
      TreatsTable(VisitsOf(fds, events)[n], works[n], works[n + 1]);
      TreatedSnoc(fds[..n], events, fds[n], w0.table, works[n].table, w.table);
    }
  }

  /** The query node that a task carries is in the list of fd. */
  ghost predicate TaskOf<R>(x: Task<R>, w: Work<R>, fd: int) {
    x in w.tasks && exists j :: 0 <= j < |Queries(w.table, fd)|
                                && (x.handle, x.data) == (Queries(w.table, fd)[j].handler, Queries(w.table, fd)[j].addr)
  }

  /** A query that is in the table has a task that carries it. */
  lemma TaskOfQuery<R>(w: Work<R>, fd: int, j: nat) returns (x: Task<R>)
    requires Consistent(w) && j < |Queries(w.table, fd)|
    ensures x in w.tasks && x.handle == Queries(w.table, fd)[j].handler && x.data == Queries(w.table, fd)[j].addr
  {
    var n, i := Queries(w.table, fd)[j], FindApp(w.table, fd);
    assert w.table[i].queries[j] == n;
    PairBagMember(w.table, (n.handler, n.addr));
    assert (n.handler, n.addr) in multiset(Bindings(w.tasks));
    var k :| 0 <= k < |w.tasks| && Bindings(w.tasks)[k] == (n.handler, n.addr);
    x := w.tasks[k];
  }

  lemma {:induction false} RemoveAllMembers<R>(q: seq<Task<R>>, hs: seq<R>)
    requires Distinct(q)
    ensures forall t :: t in RemoveAll(q, hs) ==> t in q
    decreases |hs|
  {
    if hs != [] {
      RemoveMembers(q, hs[0]);
      RemoveKeeps(q, hs[0]);
      RemoveAllMembers(Remove(q, hs[0]), hs[1..]);
    }
  }

  /** A visit adds at most one task to the queue, and when it does it removes none. */
  lemma TreatsMembers<R>(v: Visit, w: Work<R>, w': Work<R>)
    requires Complete(w.data) && Treats(v, w, w') && Distinct(w.tasks)
    ensures (forall t :: t in w'.tasks ==> t in w.tasks) || (forall t :: t in w.tasks ==> t in w'.tasks)
  {
    if v.event.Closes() {
      if Lookup(w.table, v.fd).Some? {
        RemoveAllMembers(w.tasks, Handlers(Lookup(w.table, v.fd).value));
      }
    } else if v.event.msgType == MSG_REGISTER {
      InsertMembers(w.tasks, TaskFor(Queries(w'.table, v.fd)[0], v.event));
    } else if v.event.msgType == MSG_UNREGISTER {
      if Match(w.table, v.fd, v.event.query.reqId).Some? {
        RemoveMembers(w.tasks, Match(w.table, v.fd, v.event.query.reqId).value.handler);
      }
    }
  }

  /** Tasks that are distinct are told apart by their handles. */
  lemma SameHandle<R>(q: seq<Task<R>>, x: Task<R>, y: Task<R>)
    requires Distinct(q) && x in q && y in q && x.handle == y.handle
    ensures x == y
  {
    var i, j :| 0 <= i < |q| && 0 <= j < |q| && q[i] == x && q[j] == y;
    assert i == j;
  }

  /** A visit leaves the tasks of the other clients as they are. */
  lemma TreatsOthers<R>(v: Visit, w: Work<R>, w': Work<R>, x: Task<R>, fd: int)
    requires Consistent(w) && Consistent(w') && Treats(v, w, w') && v.fd != fd && TaskOf(x, w, fd)
    ensures TaskOf(x, w', fd)
  {
    assert Queries(w'.table, fd) == Queries(w.table, fd) by {
      TreatsTable(v, w, w');
    }
    TreatsMembers(v, w, w');
    var j :| 0 <= j < |Queries(w.table, fd)|
             && (x.handle, x.data) == (Queries(w.table, fd)[j].handler, Queries(w.table, fd)[j].addr);
    var y := TaskOfQuery(w', fd, j);
    if y in w.tasks {
      SameHandle(w.tasks, x, y);
    }
  }

  /** From some visit on fd is not visited: its tasks, with their intervals and times, stay to the end. */
  lemma {:induction false} TaskStays<R>(visits: seq<Visit>, works: seq<Work<R>>, i: nat, x: Task<R>, fd: int)
    requires Trace(visits, works) && i <= |visits| && TaskOf(x, works[i], fd)
    requires forall j :: i <= j < |visits| ==> visits[j].fd != fd
    ensures TaskOf(x, works[|visits|], fd)
    decreases |visits| - i
  {
    if i < |visits| {
      assert Reached(visits, works, i) && Reached(visits, works, i + 1);
      TreatsOthers(visits[i], works[i], works[i + 1], x, fd);
      TaskStays(visits, works, i + 1, x, fd);
    }
  }

  lemma VisitStep<R>(visits: seq<Visit>, works: seq<Work<R>>, i: nat)
    requires Trace(visits, works) && i < |visits|
    ensures Consistent(works[i]) && Consistent(works[i + 1]) && Treats(visits[i], works[i], works[i + 1])
  {
    assert Reached(visits, works, i) && Reached(visits, works, i + 1);
  }

  /** The client has registered e's query: it is in front of the queries `before`, and x is its task, at the interval e
      asks for and due one interval after the clock reading. */
  ghost predicate Registered<R>(e: Event, before: seq<QueryNode<R>>, after: seq<QueryNode<R>>, x: Task<R>) {
    && e.Message? && after != [] && after[0].query == e.query && after[1..] == before
    && x.handle == after[0].handler && x.data == after[0].addr
    && x.interval == e.ms * 1_000_000 && x.next == e.clock.Total() + e.ms * 1_000_000
  }

  lemma RegisteredQueued<R>(v: Visit, w: Work<R>, w': Work<R>) returns (x: Task<R>)
    requires Consistent(w) && Consistent(w') && Treats(v, w, w') && v.event.Message? && v.event.msgType == 2
    ensures Registered(v.event, Queries(w.table, v.fd), Queries(w'.table, v.fd), x) && TaskOf(x, w', v.fd)
  {
    TreatsTable(v, w, w');
    x := TaskFor(Queries(w'.table, v.fd)[0], v.event);
    InsertMembers(w.tasks, x);
  }

  /** A client that registers (message type 2) and is not visited again is left with a task for the registered query,
      at the interval it asked for and due one interval after the clock reading. */
  lemma RegisteredOnTime<R>(visits: seq<Visit>, works: seq<Work<R>>, i: nat) returns (x: Task<R>)
    requires Trace(visits, works) && i < |visits| && visits[i].event.Message? && visits[i].event.msgType == 2
    requires forall j :: i < j < |visits| ==> visits[j].fd != visits[i].fd
    ensures var fd := visits[i].fd;
            Registered(visits[i].event, Queries(works[i].table, fd), Queries(works[i + 1].table, fd), x)
    ensures TaskOf(x, works[|visits|], visits[i].fd)
  {
    VisitStep(visits, works, i);
    x := RegisteredQueued(visits[i], works[i], works[i + 1]);
    TaskStays(visits, works, i + 1, x, visits[i].fd);
  }

  /** The interval a client asks for is not checked. If it asks for 0 ms and is not visited again, no pass of the
      scheduler thread ends once the clock has reached the time of the registration. */
  lemma RegisteredForever<R>(visits: seq<Visit>, works: seq<Work<R>>, i: nat, now: int)
    requires Trace(visits, works) && i < |visits|
    requires visits[i].event.Message? && visits[i].event.msgType == 2 && visits[i].event.ms == 0
    requires forall j :: i < j < |visits| ==> visits[j].fd != visits[i].fd
    requires now >= visits[i].event.clock.Total()
    ensures !PassEnds(works[|visits|].tasks, now)
  {
    var x := RegisteredOnTime(visits, works, i);
    assert Reached(visits, works, |visits|);
    StuckNeverEnds(works[|visits|].tasks, x, now);
  }

  /** A registration beside tasks of positive intervals: the passes of the scheduler thread end at every clock
      reading if and only if the client asks for more than 0 ms. */
  lemma RegistrationEndsIff<R>(v: Visit, w: Work<R>, w': Work<R>)
    requires Consistent(w) && Treats(v, w, w') && v.event.Message? && v.event.msgType == 2
    requires forall t :: t in w.tasks ==> t.interval > 0
    ensures (forall now :: PassEnds(w'.tasks, now)) <==> v.event.ms > 0
  {
    InsertEndsIff(w.tasks, TaskFor(Queries(w'.table, v.fd)[0], v.event));
  }

  // ---------------------------------------------------------------- replies

  /** The replies that the visits cause, in order. */
  function Replies(visits: seq<Visit>, d: IntData): seq<Sent>
    requires Complete(d)
    decreases |visits|
  {
    if visits == [] then []
    else Replies(visits[..|visits| - 1], d) + ReplyTo(visits[|visits| - 1], d)
  }

  /** The answers to the requests that are read from the descriptors fds, in order. */
  function Answers(fds: seq<int>, events: map<int, Event>, d: IntData): seq<Sent>
    requires Complete(d)
    decreases |fds|
  {
    if fds == [] then []
    else
      var fd := fds[|fds| - 1];
      Answers(fds[..|fds| - 1], events, d) +
      if fd in events && events[fd].Message? && events[fd].msgType == 1 then
        [Sent(fd, Answer(d, events[fd].query, events[fd].junk))]
      else []
  }

  lemma VisitsOfPrefix(fds: seq<int>, events: map<int, Event>, n: nat)
    requires n <= |fds|
    ensures VisitsOf(fds, events)[..n] == VisitsOf(fds[..n], events)
  {
  }

  lemma {:induction false} RepliesAre(fds: seq<int>, events: map<int, Event>, d: IntData)
    requires Complete(d)
    ensures Replies(VisitsOf(fds, events), d) == Answers(fds, events, d)
    decreases |fds|
  {
    if fds != [] {
      var n := |fds| - 1;
      RepliesAre(fds[..n], events, d);
      VisitsOfPrefix(fds, events, n);
    }
  }

  lemma {:induction false} NoReplies(fds: seq<int>, d: IntData)
    requires Complete(d)
    ensures Replies(VisitsOf(fds, map[]), d) == []
    decreases |fds|
  {
    if fds != [] {
      var n := |fds| - 1;
      NoReplies(fds[..n], d);
      VisitsOfPrefix(fds, map[], n);
    }
  }

  lemma RepliesLast(visits: seq<Visit>, v: Visit, d: IntData)
    requires Complete(d)
    ensures Replies(visits + [v], d) == Replies(visits, d) + ReplyTo(v, d)
  {
    assert (visits + [v])[..|visits|] == visits;
  }

  lemma {:induction false} RepliesJoin(vs: seq<Visit>, us: seq<Visit>, d: IntData)
    requires Complete(d)
    ensures Replies(vs + us, d) == Replies(vs, d) + Replies(us, d)
    decreases |us|
  {
    if us == [] {
      assert vs + us == vs;
    } else {
      var n := |us| - 1;
      RepliesJoin(vs, us[..n], d);
      assert vs + us == (vs + us[..n]) + [us[n]];
      RepliesLast(vs + us[..n], us[n], d);
      SentSnoc(Replies(vs, d), Replies(us[..n], d), ReplyTo(us[n], d));
    }
  }

  lemma TreatsReplies<R>(v: Visit, w: Work<R>, w': Work<R>)
    requires Complete(w.data) && Treats(v, w, w')
    ensures w'.data == w.data && w'.sent == w.sent + ReplyTo(v, w.data)
  {
  }

  lemma SentSnoc(a: seq<Sent>, b: seq<Sent>, c: seq<Sent>)
    ensures a + b + c == a + (b + c)
  {
  }

  /** What a trace has sent: the replies its visits cause, from the data there was at its start. */
  lemma {:induction false} TraceReplies<R>(visits: seq<Visit>, works: seq<Work<R>>)
    requires Trace(visits, works)
    ensures Complete(works[0].data) && works[|visits|].data == works[0].data
    ensures works[|visits|].sent == works[0].sent + Replies(visits, works[0].data)
    decreases |visits|
  {
    assert Reached(visits, works, 0);
    if visits != [] {
      var n := |visits| - 1;
      TracePrefix(visits, works, n);
      TraceReplies(visits[..n], works[..n + 1]);
      assert Reached(visits, works, n) && Reached(visits, works, n + 1);
      TreatsReplies(visits[n], works[n], works[n + 1]);
      SentSnoc(works[0].sent, Replies(visits[..n], works[0].data), ReplyTo(visits[n], works[0].data));
    }
  }

  /** What is sent is exactly the answers to the visited requests, each to the client that asked. */
  lemma {:induction false} RepliesAnswer(visits: seq<Visit>, d: IntData, r: Sent)
    requires Complete(d)
    ensures r in Replies(visits, d) <==>
            exists i :: 0 <= i < |visits| && visits[i].event.Message? && visits[i].event.msgType == 1
                        && r == Sent(visits[i].fd, Answer(d, visits[i].event.query, visits[i].event.junk))
    decreases |visits|
  {
    if visits != [] {
      var n := |visits| - 1;
      RepliesAnswer(visits[..n], d, r);
      assert r in Replies(visits, d) <==> r in Replies(visits[..n], d) || r in ReplyTo(visits[n], d);
      assert forall i :: 0 <= i < n ==> visits[..n][i] == visits[i];
    }
  }

  /** Every task carries a query of some client other than fd. */
  ghost predicate TasksElsewhere<R>(tasks: seq<Task<R>>, t: seq<App<R>>, fd: int) {
    forall k :: 0 <= k < |tasks| ==>
                  && !BelongsTo(t, tasks[k].handle, tasks[k].data, fd)
                  && exists g :: g != fd && BelongsTo(t, tasks[k].handle, tasks[k].data, g)
  }

  /** A descriptor that is not registered has no task. */
  lemma NoTaskLeft<R>(tasks: seq<Task<R>>, t: seq<App<R>>, fd: int)
    requires multiset(Bindings(tasks)) == PairBag(t) && Lookup(t, fd).None?
    ensures TasksElsewhere(tasks, t, fd)
  {
    forall k | 0 <= k < |tasks|
      ensures !BelongsTo(t, tasks[k].handle, tasks[k].data, fd)
      ensures exists g :: g != fd && BelongsTo(t, tasks[k].handle, tasks[k].data, g)
    {
      assert Bindings(tasks)[k] in multiset(Bindings(tasks));
      BoundElsewhere(t, Bindings(tasks)[k], fd);
    }
  }

  ghost predicate GoneFrom<R>(s: set<int>, t: seq<App<R>>) {
    forall x :: x in s ==> Lookup(t, x).None?
  }

  /** What a turn does to the table: a client with an exceptional condition is gone; a readable one is
      otherwise treated as its event asks; nobody else is touched. */
  ghost predicate TurnedOver<R>(read: seq<int>, xfds: set<int>, events: map<int, Event>,
                                before: seq<App<R>>, after: seq<App<R>>) {
    && GoneFrom(xfds, after)
    && (forall x :: x in read && x in events && x !in xfds ==> TreatedAt(x, events[x], before, after))
    && GoneFrom(SetOf(read) - events.Keys, after)
    && SameOutside(SetOf(read) + xfds, before, after)
  }

  lemma TurnOver<R>(read: seq<int>, xfds: set<int>, events: map<int, Event>,
                    t0: seq<App<R>>, t1: seq<App<R>>, t2: seq<App<R>>)
    requires TreatedAll(read, events, t0, t1) && SameOutside(xfds, t1, t2) && GoneFrom(xfds, t2)
    ensures TurnedOver(read, xfds, events, t0, t2)
  {
    forall x | x in read && x in events && x !in xfds
      ensures TreatedAt(x, events[x], t0, t2)
    {
      TreatedFrame(x, events[x], t0, t1, t0, t2);
    }
  }

  /** The descriptors fds, of those in m, have been visited; `managed` are still managed. */
  ghost predicate SoFar<R>(fds: seq<int>, events: map<int, Event>, m: set<int>, managed: set<int>,
                           w0: Work<R>, works: seq<Work<R>>, w: Work<R>) {
    managed == m - ClosedBy(fds, events) && Worked(fds, events, w0, works, w)
  }

  lemma VisitsDistinct(s: set<int>, hi: int, count: int)
    ensures forall i, j :: 0 <= i < j < |Visits(s, 0, hi, count)| ==>
                             Visits(s, 0, hi, count)[i] != Visits(s, 0, hi, count)[j]
  {
    VisitsPrefix(s, 0, hi, count);
    AscendingMembers(s, 0, hi);
  }

  /** One of the two loops: its set, its bound and count, what is read, and what there is at its start. */
  datatype Loop<R> = Loop(s: set<int>, hi: int, count: int, events: map<int, Event>,
                          managed: set<int>, work: Work<R>)
  {
    function All(): seq<int> {
      Visits(s, 0, hi, count)
    }
  }

  /** The loop is at fd and has visited the descriptors `seen`. */
  ghost predicate LoopAt<R>(p: Loop<R>, seen: seq<int>, fd: int, left: int, managed: set<int>,
                            works: seq<Work<R>>, w: Work<R>) {
    && left + |seen| == p.count
    && p.All() == seen + Visits(p.s, fd, p.hi, left)
    && SoFar(seen, p.events, p.managed, managed, p.work, works, w)
  }

  lemma LoopStart<R>(p: Loop<R>)
    requires Consistent(p.work)
    ensures LoopAt(p, [], 0, p.count, p.managed, [p.work], p.work)
  {
  }

  lemma LoopVisit<R>(p: Loop<R>, seen: seq<int>, fd: int, left: int, managed: set<int>,
                     works: seq<Work<R>>, w: Work<R>, w': Work<R>)
    requires LoopAt(p, seen, fd, left, managed, works, w) && fd < p.hi && left > 0 && fd in p.s
    requires Complete(w.data) && Treats(Visit(fd, EventOf(p.events, fd)), w, w') && Consistent(w')
    ensures var closed := if EventOf(p.events, fd).Closes() then {fd} else {};
            LoopAt(p, seen + [fd], fd + 1, left - 1, managed - closed, works + [w'], w')
  {
    assert seen + ([fd] + Visits(p.s, fd + 1, p.hi, left - 1)) == seen + [fd] + Visits(p.s, fd + 1, p.hi, left - 1);
    ClosedBySnoc(seen, p.events, fd);
    WorkedSnoc(seen, p.events, fd, p.work, works, w, w');
  }

  lemma LoopSkip<R>(p: Loop<R>, seen: seq<int>, fd: int, left: int, managed: set<int>,
                    works: seq<Work<R>>, w: Work<R>)
    requires LoopAt(p, seen, fd, left, managed, works, w) && fd < p.hi && left > 0 && fd !in p.s
    ensures LoopAt(p, seen, fd + 1, left, managed, works, w)
  {
  }

  /** The loop has not closed the descriptor it is at. */
  lemma LoopManaged<R>(p: Loop<R>, seen: seq<int>, fd: int, left: int, managed: set<int>,
                       works: seq<Work<R>>, w: Work<R>)
    requires LoopAt(p, seen, fd, left, managed, works, w) && fd < p.hi && left > 0 && fd in p.s
    requires fd in p.managed
    ensures fd in managed
  {
    VisitsDistinct(p.s, p.hi, p.count);
    var n := |seen|;
    assert p.All()[n] == fd;
    assert forall i :: 0 <= i < n ==> seen[i] == p.All()[i];
  }

  lemma LoopEnd<R>(p: Loop<R>, seen: seq<int>, fd: int, left: int, managed: set<int>,
                   works: seq<Work<R>>, w: Work<R>)
    requires LoopAt(p, seen, fd, left, managed, works, w) && (fd >= p.hi || left <= 0)
    ensures seen == p.All() && left == p.count - |seen|
    ensures SoFar(seen, p.events, p.managed, managed, p.work, works, w)
    ensures TreatedAll(seen, p.events, p.work.table, w.table)
    ensures Complete(p.work.data) && w.data == p.work.data
    ensures w.sent == p.work.sent + Answers(seen, p.events, p.work.data)
  {
    assert seen == p.All();
    VisitsDistinct(p.s, p.hi, p.count);
    TraceTreats(seen, p.events, p.work, works, w);
    TraceReplies(VisitsOf(seen, p.events), works);
    RepliesAre(seen, p.events, p.work.data);
  }

  /** What a turn does once a connection has been accepted, if there is one. */
  ghost predicate TurnEffect<R>(read: seq<int>, excepted: seq<int>, xfds: set<int>, events: map<int, Event>,
                                m: set<int>, managed: set<int>, w0: Work<R>, works: seq<Work<R>>, w: Work<R>) {
    && managed == m - ClosedBy(read, events) - xfds
    && TurnedOver(read, xfds, events, w0.table, w.table)
    && Trace(VisitsOf(read, events) + VisitsOf(excepted, map[]), works) && works[0] == w0 && works[|works| - 1] == w
    && Complete(w0.data) && w.sent == w0.sent + Answers(read, events, w0.data)
  }

  /** What the two loops do together. */
  lemma TurnDone<R>(read: seq<int>, excepted: seq<int>, events: map<int, Event>, xfds: set<int>,
                    m: set<int>, m1: set<int>, m2: set<int>,
                    w0: Work<R>, first: seq<Work<R>>, w1: Work<R>, second: seq<Work<R>>, w2: Work<R>)
    requires SoFar(read, events, m, m1, w0, first, w1) && TreatedAll(read, events, w0.table, w1.table)
    requires SoFar(excepted, map[], m1, m2, w1, second, w2) && TreatedAll(excepted, map[], w1.table, w2.table)
    requires SetOf(excepted) == xfds
    ensures TurnEffect(read, excepted, xfds, events, m, m2, w0, first + second[1..], w2)
  {
    forall x | x in xfds
      ensures Lookup(w2.table, x).None?
    {
      assert x in excepted;
    }
    TurnOver(read, xfds, events, w0.table, w1.table, w2.table);
    TraceJoin(VisitsOf(read, events), first, VisitsOf(excepted, map[]), second);
    TraceReplies(VisitsOf(read, events) + VisitsOf(excepted, map[]), first + second[1..]);
    RepliesJoin(VisitsOf(read, events), VisitsOf(excepted, map[]), w0.data);
    RepliesAre(read, events, w0.data);
    NoReplies(excepted, w0.data);
  }

  class AppManager {
    const registry: Registry
    const store: Store
    const listening: int
    var managed: set<int>
    var nfds: int
    var sent: seq<Sent>  // what has been written to the clients

    ghost predicate Valid()
      reads this, registry, registry.apps, Flat(registry.lists), registry.scheduler, registry.scheduler.spine, store
    {
      registry.Valid() && store.Valid() && FdsOk(registry.table, managed, nfds, listening)
    }

    ghost function Current(): Work<object?>
      reads this`sent, registry, registry.scheduler, store, store.engines
    {
      Work(registry.table, registry.scheduler.tasks, store.Value(), sent)
    }

    lemma CurrentConsistent()
      requires Valid()
      ensures Consistent(Current())
    {
      registry.scheduler.HandlesAreSpine();
    }

    /** Registered descriptors are clients that are managed, and those are below nfds. */
    lemma RegisteredManaged(fd: int)
      requires Valid()
      ensures fd in managed ==> 0 <= fd < nfds
      ensures Lookup(registry.table, fd).Some? ==> fd in managed && fd != listening
    {
      LookupFd(registry.table, fd);
    }

    constructor (registry: Registry, store: Store, listening: int)
      requires registry.Valid() && registry.table == [] && store.Valid() && listening >= 0
      ensures Valid() && this.registry == registry && this.store == store && managed == {listening}
    {
      this.registry, this.store, this.listening := registry, store, listening;
      managed := {listening};
      nfds := listening + 1;
      sent := [];
    }

    method Manage(newfd: int)
      requires Valid() && newfd >= 0 && newfd !in managed
      modifies this`managed, this`nfds
      ensures Valid() && registry.Shrunk()
      ensures Current() == old(Current())
      ensures managed == old(managed) + {newfd} && newfd < nfds && old(nfds) <= nfds
    {
      FdsOkManage(registry.table, managed, nfds, listening, newfd);
      managed := managed + {newfd};
      if newfd >= nfds {
        nfds := newfd + 1;
      }
      registry.Frame();
    }

    /** Nothing is left of an earlier client of a descriptor that is not managed: neither a registration nor a task. */
    lemma NothingLeft(fd: int)
      requires Valid() && fd !in managed
      ensures Lookup(registry.table, fd).None?
      ensures TasksElsewhere(registry.scheduler.tasks, registry.table, fd)
    {
      LookupFd(registry.table, fd);
      NoTaskLeft(registry.scheduler.tasks, registry.table, fd);
    }

    /** A new connection; accept returns a descriptor that is not open, so nothing is left of an earlier client. */
    method Accept(newfd: int)
      requires Valid() && newfd >= 0 && newfd !in managed
      modifies this`managed, this`nfds
      ensures Valid() && registry.Shrunk()
      ensures Current() == old(Current())
      ensures managed == old(managed) + {newfd} && newfd < nfds && old(nfds) <= nfds
      ensures Lookup(registry.table, newfd).None?
      ensures TasksElsewhere(registry.scheduler.tasks, registry.table, newfd)
    {
      NothingLeft(newfd);
      Manage(newfd);
    }

    method Unmanage(fd: int)
      requires registry.Valid()
      modifies this`managed
      ensures managed == old(managed) - {fd}
      ensures registry.Valid()
      ensures Current() == old(Current()) && registry.apps == old(registry.apps)
      ensures registry.lists == old(registry.lists) && registry.scheduler.spine == old(registry.scheduler.spine)
    {
      managed := managed - {fd};
      registry.Frame();
    }

    /** Unregistering, closing and forgetting a client. */
    method CloseClient(fd: int)
      requires Valid() && fd != listening
      modifies this`managed, registry, AppSet(registry.apps)
      modifies registry.scheduler, NodeSet(registry.scheduler.spine)
      ensures Valid() && registry.Shrunk()
      ensures managed == old(managed) - {fd}
      ensures Current() == Dropped(old(Current()), fd)
    {
      FdsOkDrop(registry.table, managed, nfds, listening, fd);
      registry.UnregisterApplication(fd);
      Unmanage(fd);
    }

    /** A failed read closes the client twice, which is the same as once. */
    method CloseFailed(fd: int)
      requires Valid() && fd != listening
      modifies this`managed, registry, AppSet(registry.apps)
      modifies registry.scheduler, NodeSet(registry.scheduler.spine)
      ensures Valid() && registry.Shrunk()
      ensures managed == old(managed) - {fd}
      ensures Current() == Dropped(old(Current()), fd)
    {
      DropRefines(registry.table, fd, fd);
      CloseClient(fd);
      CloseClient(fd);
    }

    method EnrolNode(fd: int, e: Event) returns (ghost node: QueryNode<object?>)
      requires registry.Valid() && e.Registers()
      modifies registry, AppSet(registry.apps)
      modifies registry.scheduler, NodeSet(registry.scheduler.spine)
      ensures registry.Valid() && registry.Grown()
      ensures node.query == e.query && Current() == Enrolled(old(Current()), fd, e, node)
    {
      ghost var t, q, d, out := registry.table, registry.scheduler.tasks, store.Value(), sent;
      ghost var x;
      node, x := registry.Enter(fd, e.query, e.ms, e.clock);
      EnteredIs(t, q, registry.table, registry.scheduler.tasks, d, out, fd, e, node, x);
    }

    method Enrol(fd: int, e: Event) returns (ghost node: QueryNode<object?>)
      requires Valid() && fd in managed && fd != listening && e.Registers()
      modifies registry, AppSet(registry.apps)
      modifies registry.scheduler, NodeSet(registry.scheduler.spine)
      ensures Valid() && registry.Grown()
      ensures node.query == e.query && Current() == Enrolled(old(Current()), fd, e, node)
    {
      ghost var t := registry.table;
      node := EnrolNode(fd, e);
      FdsOkRegister(t, managed, nfds, listening, fd, node);
    }

    method Withdraw(fd: int, reqId: nat)
      requires Valid()
      modifies registry, AppSet(registry.apps), Flat(registry.lists)
      modifies registry.scheduler, NodeSet(registry.scheduler.spine)
      ensures Valid() && registry.Shrunk()
      ensures Current() == Withdrawn(old(Current()), fd, reqId)
    {
      FdsOkUnlink(registry.table, managed, nfds, listening, fd, reqId);
      registry.UnregisterQuery(fd, reqId);
    }

    method OnClose(fd: int, e: Event)
      requires Valid() && fd != listening && e.Closes()
      modifies this`managed, registry, AppSet(registry.apps)
      modifies registry.scheduler, NodeSet(registry.scheduler.spine)
      ensures Valid() && registry.Grown()
      ensures managed == old(managed) - {fd} && Treats(Visit(fd, e), old(Current()), Current())
    {
      DropTreats(Current(), fd, e);
      if e.Failed? {
        CloseFailed(fd);
      } else {
        CloseClient(fd);
      }
      registry.ShrunkIsGrown();
    }

    method OnRequest(fd: int, e: Event)
      requires Valid() && e.Requests()
      modifies this`sent
      ensures Valid() && registry.Shrunk()
      ensures Current() == old(Current()).(sent := old(sent) + ReplyTo(Visit(fd, e), old(store.Value())))
    {
      var reply := store.Serve(e.query, e.junk);
      sent := sent + [Sent(fd, reply)];
      registry.Frame();
    }

    /** The treatment of a message. */
    method OnMessage(fd: int, e: Event)
      requires Valid() && fd in managed && fd != listening && e.Message?
      modifies this`sent, registry, AppSet(registry.apps), Flat(registry.lists)
      modifies registry.scheduler, NodeSet(registry.scheduler.spine)
      ensures Valid() && registry.Grown()
      ensures Treats(Visit(fd, e), old(Current()), Current())
    {
      ghost var w := Current();
      if e.msgType == MSG_REQUEST {
        OnRequest(fd, e);
        registry.ShrunkIsGrown();
      } else if e.msgType == MSG_REGISTER {
        ghost var node := Enrol(fd, e);
        RegisterTreats(w, fd, e, node);
      } else if e.msgType == MSG_UNREGISTER {
        WithdrawTreats(w, fd, e);
        Withdraw(fd, e.query.reqId);
        registry.ShrunkIsGrown();
      }
    }

    /** The treatment of a readable client. */
    method OnReadable(fd: int, e: Event)
      requires Valid() && fd in managed && fd != listening
      modifies this`managed, this`sent, registry, AppSet(registry.apps), Flat(registry.lists)
      modifies registry.scheduler, NodeSet(registry.scheduler.spine)
      ensures Valid() && registry.Grown()
      ensures managed == if e.Closes() then old(managed) - {fd} else old(managed)
      ensures Treats(Visit(fd, e), old(Current()), Current())
    {
      if e.Closes() {
        OnClose(fd, e);
      } else {
        OnMessage(fd, e);
      }
    }

    method VisitReadable(fd: int, e: Event, ghost p: Loop<object?>,
                         ghost seen: seq<int>, ghost left: int, ghost works: seq<Work<object?>>)
      returns (ghost works': seq<Work<object?>>)
      requires Valid() && fd != listening && e == EventOf(p.events, fd)
      requires LoopAt(p, seen, fd, left, managed, works, Current())
      requires fd < p.hi && left > 0 && fd in p.s && fd in p.managed
      modifies this`managed, this`sent, registry, AppSet(registry.apps), Flat(registry.lists)
      modifies registry.scheduler, NodeSet(registry.scheduler.spine)
      ensures Valid() && registry.Grown()
      ensures LoopAt(p, seen + [fd], fd + 1, left - 1, managed, works', Current())
    {
      ghost var w, m := Current(), managed;
      LoopManaged(p, seen, fd, left, m, works, w);
      OnReadable(fd, e);
      CurrentConsistent();
      LoopVisit(p, seen, fd, left, m, works, w, Current());
      works' := works + [Current()];
    }

    /** One turn of the first loop, which goes on to the next descriptor. */
    method ReadTurn(fd: int, rfds: set<int>, left: int, events: map<int, Event>,
                    ghost p: Loop<object?>, ghost seen: seq<int>, ghost works: seq<Work<object?>>)
      returns (fd': int, left': int, ghost seen': seq<int>, ghost works': seq<Work<object?>>)
      requires Valid() && p.events == events && p.s == rfds <= p.managed
      requires fd < p.hi && left > 0 && listening !in rfds
      requires LoopAt(p, seen, fd, left, managed, works, Current())
      modifies this`managed, this`sent, registry, AppSet(registry.apps), Flat(registry.lists)
      modifies registry.scheduler, NodeSet(registry.scheduler.spine)
      ensures Valid() && registry.Grown()
      ensures fd' == fd + 1 && LoopAt(p, seen', fd', left', managed, works', Current())
    {
      fd', left', seen', works' := fd + 1, left, seen, works;
      if fd in rfds {
        left', seen' := left - 1, seen + [fd];
        works' := VisitReadable(fd, EventOf(events, fd), p, seen, left, works);
      } else {
        LoopSkip(p, seen, fd, left, managed, works, Current());
      }
    }

    method ReadRun(rfds: set<int>, fdcnt: int, events: map<int, Event>, ghost p: Loop<object?>)
      returns (fd: int, left: int, ghost seen: seq<int>, ghost works: seq<Work<object?>>)
      requires Valid() && rfds <= managed && listening !in rfds
      requires p == Loop(rfds, nfds, fdcnt, events, managed, Current())
      modifies this`managed, this`sent, registry, AppSet(registry.apps), Flat(registry.lists)
      modifies registry.scheduler, NodeSet(registry.scheduler.spine)
      ensures Valid() && registry.Grown() && (fd >= nfds || left <= 0)
      ensures LoopAt(p, seen, fd, left, managed, works, Current())
    {
      fd, left, seen, works := 0, fdcnt, [], [p.work];
      CurrentConsistent();
      LoopStart(p);
      while fd < nfds && left > 0
        invariant Valid() && registry.Grown()
        invariant LoopAt(p, seen, fd, left, managed, works, Current())
        invariant nfds == p.hi
        decreases p.hi - fd
      {
        fd, left, seen, works := ReadTurn(fd, rfds, left, events, p, seen, works);
      }
    }

    /** The first loop: over the descriptors that select reports as readable. */
    method ReadLoop(rfds: set<int>, fdcnt: int, events: map<int, Event>)
      returns (left: int, ghost visited: seq<int>, ghost works: seq<Work<object?>>)
      requires Valid() && rfds <= managed && listening !in rfds
      modifies this`managed, this`sent, registry, AppSet(registry.apps), Flat(registry.lists)
      modifies registry.scheduler, NodeSet(registry.scheduler.spine)
      ensures Valid() && registry.Grown()
      ensures visited == Visits(rfds, 0, nfds, fdcnt) && left == fdcnt - |visited|
      ensures SoFar(visited, events, old(managed), managed, old(Current()), works, Current())
      ensures TreatedAll(visited, events, old(registry.table), registry.table)
      ensures sent == old(sent) + Answers(visited, events, old(store.Value()))
    {
      ghost var p := Loop(rfds, nfds, fdcnt, events, managed, Current());
      var fd;
      fd, left, visited, works := ReadRun(rfds, fdcnt, events, p);
      LoopEnd(p, visited, fd, left, managed, works, Current());
    }

    /** The treatment of a client with an exceptional condition. */
    method VisitExcepted(fd: int, ghost p: Loop<object?>, ghost seen: seq<int>, ghost left: int,
                         ghost works: seq<Work<object?>>)
      returns (ghost works': seq<Work<object?>>)
      requires Valid() && fd != listening && p.events == map[]
      requires LoopAt(p, seen, fd, left, managed, works, Current()) && fd < p.hi && left > 0 && fd in p.s
      modifies this`managed, registry, AppSet(registry.apps)
      modifies registry.scheduler, NodeSet(registry.scheduler.spine)
      ensures Valid() && registry.Grown()
      ensures LoopAt(p, seen + [fd], fd + 1, left - 1, managed, works', Current())
    {
      ghost var w, m := Current(), managed;
      CloseClient(fd);
      registry.ShrunkIsGrown();
      CurrentConsistent();
      LoopVisit(p, seen, fd, left, m, works, w, Current());
      works' := works + [Current()];
    }

    /** One turn of the second loop, which goes on to the next descriptor. */
    method ExceptTurn(fd: int, xfds: set<int>, left: int,
                      ghost p: Loop<object?>, ghost seen: seq<int>, ghost works: seq<Work<object?>>)
      returns (fd': int, left': int, ghost seen': seq<int>, ghost works': seq<Work<object?>>)
      requires Valid() && p.events == map[] && p.s == xfds
      requires fd < p.hi && left > 0 && listening !in xfds
      requires LoopAt(p, seen, fd, left, managed, works, Current())
      modifies this`managed, registry, AppSet(registry.apps)
      modifies registry.scheduler, NodeSet(registry.scheduler.spine)
      ensures Valid() && registry.Grown()
      ensures fd' == fd + 1 && LoopAt(p, seen', fd', left', managed, works', Current())
    {
      fd', left', seen', works' := fd + 1, left, seen, works;
      if fd in xfds {
        left', seen' := left - 1, seen + [fd];
        works' := VisitExcepted(fd, p, seen, left, works);
      } else {
        LoopSkip(p, seen, fd, left, managed, works, Current());
      }
    }

    method ExceptRun(xfds: set<int>, fdcnt: int, ghost p: Loop<object?>)
      returns (fd: int, left: int, ghost seen: seq<int>, ghost works: seq<Work<object?>>)
      requires Valid() && listening !in xfds
      requires p == Loop(xfds, nfds, fdcnt, map[], managed, Current())
      modifies this`managed, registry, AppSet(registry.apps)
      modifies registry.scheduler, NodeSet(registry.scheduler.spine)
      ensures Valid() && registry.Grown() && (fd >= nfds || left <= 0)
      ensures LoopAt(p, seen, fd, left, managed, works, Current())
    {
      fd, left, seen, works := 0, fdcnt, [], [p.work];
      CurrentConsistent();
      LoopStart(p);
      while fd < nfds && left > 0
        invariant Valid() && registry.Grown()
        invariant LoopAt(p, seen, fd, left, managed, works, Current())
        invariant nfds == p.hi
        decreases p.hi - fd
      {
        fd, left, seen, works := ExceptTurn(fd, xfds, left, p, seen, works);
      }
    }

    /** The second loop: over the descriptors with an exceptional condition. */
    method ExceptLoop(xfds: set<int>, fdcnt: int) returns (ghost visited: seq<int>, ghost works: seq<Work<object?>>)
      requires Valid() && listening !in xfds
      modifies this`managed, registry, AppSet(registry.apps)
      modifies registry.scheduler, NodeSet(registry.scheduler.spine)
      ensures Valid() && registry.Grown()
      ensures visited == Visits(xfds, 0, nfds, fdcnt)
      ensures SoFar(visited, map[], old(managed), managed, old(Current()), works, Current())
      ensures TreatedAll(visited, map[], old(registry.table), registry.table)
    {
      ghost var p := Loop(xfds, nfds, fdcnt, map[], managed, Current());
      var fd, left;
      fd, left, visited, works := ExceptRun(xfds, fdcnt, p);
      LoopEnd(p, visited, fd, left, managed, works, Current());
    }

    lemma CompleteLoop(s: set<int>, n: int, count: int)
      requires n >= 0 && count >= |s| && forall x :: x in s ==> 0 <= x < n
      ensures Visits(s, 0, n, count) == Ascending(s, 0, n) && |Ascending(s, 0, n)| == |s|
      ensures SetOf(Ascending(s, 0, n)) == s
    {
      VisitsPrefix(s, 0, n, count);
      AscendingSize(s, 0, n);
      AscendingMembers(s, 0, n);
    }

    /** The two loops with a count that covers both sets. */
    method BothLoops(clients: set<int>, xfds: set<int>, count: int, events: map<int, Event>)
      returns (ghost read: seq<int>, ghost excepted: seq<int>, ghost works: seq<Work<object?>>)
      requires Valid() && clients <= managed && xfds <= managed && listening !in clients && listening !in xfds
      requires count == |clients| + |xfds|
      modifies this`managed, this`sent, registry, AppSet(registry.apps), Flat(registry.lists)
      modifies registry.scheduler, NodeSet(registry.scheduler.spine)
      ensures Valid() && registry.Grown()
      ensures read == Ascending(clients, 0, nfds) && excepted == Ascending(xfds, 0, nfds)
      ensures TurnEffect(read, excepted, xfds, events, old(managed), managed, old(Current()), works, Current())
    {
      CompleteLoop(clients, nfds, count);
      CompleteLoop(xfds, nfds, |xfds|);
      var left;
      ghost var first, second;
      left, read, first := ReadLoop(clients, count, events);
      assert left == |xfds|;
      ghost var m1, w1 := managed, Current();
      excepted, second := ExceptLoop(xfds, left);
      TurnDone(read, excepted, events, xfds, old(managed), m1, managed,
               old(Current()), first, w1, second, Current());
      works := first + second[1..];
    }

    /** Accepts a connection if the listening socket is ready; what is left of the count is for the clients. */
    method AcceptIfReady(rfds: set<int>, fdcnt: int, newfd: int) returns (count: int, clients: set<int>)
      requires Valid() && rfds <= managed
      requires listening in rfds ==> newfd >= 0 && newfd !in managed
      modifies this`managed, this`nfds
      ensures Valid() && registry.Grown() && Current() == old(Current())
      ensures managed == old(managed) + if listening in rfds then {newfd} else {}
      ensures listening in rfds ==>
                Lookup(registry.table, newfd).None? && TasksElsewhere(registry.scheduler.tasks, registry.table, newfd)
      ensures clients == rfds - {listening} && count - |clients| == fdcnt - |rfds|
    {
      count, clients := fdcnt, rfds - {listening};
      if listening in rfds {
        Accept(newfd);
        count := count - 1;
        registry.ShrunkIsGrown();
      } else {
        assert clients == rfds;
      }
    }

    /** One turn of the select loop: rfds, xfds and fdcnt are what select gives, newfd what accept gives when
        the listening socket is ready. Every ready client is visited exactly once per set, in ascending order,
        whether or not a connection was accepted; each visit has exactly its effect on the registrations and on
        the scheduler's queue; every visited request is answered; and exactly the clients that closed, failed or
        have an exceptional condition are forgotten. The process ends (`running` is false) when the listening
        socket itself has an exceptional condition. */
    method Turn(rfds: set<int>, xfds: set<int>, fdcnt: int, newfd: int, events: map<int, Event>)
      returns (running: bool, ghost read: seq<int>, ghost excepted: seq<int>, ghost works: seq<Work<object?>>)
      requires Valid() && rfds <= managed && xfds <= managed && fdcnt == |rfds| + |xfds|
      requires listening in rfds ==> newfd >= 0 && newfd !in managed
      modifies this`managed, this`nfds, this`sent, registry, AppSet(registry.apps), Flat(registry.lists)
      modifies registry.scheduler, NodeSet(registry.scheduler.spine)
      ensures Valid() && registry.Grown()
      ensures running <==> listening !in xfds
      ensures running ==> read == Ascending(rfds - {listening}, 0, nfds) && excepted == Ascending(xfds, 0, nfds)
      ensures running ==> var m := old(managed) + if listening in rfds then {newfd} else {};
                          TurnEffect(read, excepted, xfds, events, m, managed, old(Current()), works, Current())
      ensures !running ==> Current() == old(Current())
    {
      var count, clients := AcceptIfReady(rfds, fdcnt, newfd);
      running, read, excepted, works := listening !in xfds, [], [], [];
      if running {
        read, excepted, works := BothLoops(clients, xfds, count, events);
      }
    }
  }
}
