/** The registration table in place: a linked list of applications, each with a linked list of query nodes,
    tied to the scheduler's list through the handlers. Each operation is proved against its counterpart
    in RegistryTable and TaskQueue. */
module RegistryList {
  import opened Options
  import opened Timespec
  import opened TaskQueue
  import opened RegistryTable
  import opened SchedulerList

  class RegQuery {
    var query: Query
    var app: RegApp
    var handler: Node?
    var next: RegQuery?

    constructor (query: Query, app: RegApp, next: RegQuery?)
      ensures this.query == query && this.app == app && this.next == next && this.handler == null
    {
      this.query, this.app, this.next, handler := query, app, next, null;
    }

    function AsNode(): QueryNode<object?>
      reads this
    {
      QueryNode(this, app, query, handler)
    }
  }

  class RegApp {
    var fd: int
    var queries: RegQuery?
    var next: RegApp?

    constructor (fd: int, next: RegApp?)
      ensures this.fd == fd && this.next == next && this.queries == null
    {
      this.fd, this.next, queries := fd, next, null;
    }
  }

  function QueryAt(s: seq<RegQuery>, j: int): RegQuery? {
    if 0 <= j < |s| then s[j] else null
  }

  function AppAt(s: seq<RegApp>, i: int): RegApp? {
    if 0 <= i < |s| then s[i] else null
  }

  ghost predicate AppChain(f: RegApp?, s: seq<RegApp>)
    reads s
  {
    && f == AppAt(s, 0)
    && (forall i {:trigger s[i].next} :: 0 <= i < |s| ==> s[i].next == AppAt(s, i + 1))
    && (forall i, j :: 0 <= i < j < |s| ==> s[i] != s[j])
  }

  ghost predicate QueryChain(f: RegQuery?, s: seq<RegQuery>)
    reads s
  {
    && f == QueryAt(s, 0)
    && (forall j {:trigger s[j].next} :: 0 <= j < |s| ==> s[j].next == QueryAt(s, j + 1))
    && (forall i, j :: 0 <= i < j < |s| ==> s[i] != s[j])
  }

  /** The nodes of a list, as values; all of them point to app. */
  ghost predicate Nodes(app: RegApp, s: seq<RegQuery>, qs: seq<QueryNode<object?>>)
    reads s
  {
    |qs| == |s| && forall j :: 0 <= j < |s| ==> s[j].app == app && qs[j] == s[j].AsNode()
  }

  /** app, with the list of nodes s, is the entry a of the table. */
  ghost predicate Holds(app: RegApp, s: seq<RegQuery>, a: App<object?>)
    reads app, s
  {
    a.addr == app && a.fd == app.fd && QueryChain(app.queries, s) && Nodes(app, s, a.queries)
  }

  ghost function Flat(lists: seq<seq<RegQuery>>): set<RegQuery> {
    set i, j | 0 <= i < |lists| && 0 <= j < |lists[i]| :: lists[i][j]
  }

  ghost function AppSet(s: seq<RegApp>): set<RegApp> {
    set a | a in s
  }

  lemma FlatCons(lists: seq<seq<RegQuery>>)
    ensures Flat([[]] + lists) == Flat(lists)
  {
    forall q | q in Flat(lists)
      ensures q in Flat([[]] + lists)
    {
      var i, j :| 0 <= i < |lists| && 0 <= j < |lists[i]| && lists[i][j] == q;
      assert ([[]] + lists)[i + 1][j] == q;
    }
  }

  lemma FlatLink(lists: seq<seq<RegQuery>>, i: nat, node: RegQuery)
    requires i < |lists|
    ensures Flat(lists[i := [node] + lists[i]]) <= Flat(lists) + {node}
  {
    var ls := lists[i := [node] + lists[i]];
    forall k, l | 0 <= k < |ls| && 0 <= l < |ls[k]|
      ensures ls[k][l] in Flat(lists) + {node}
    {
      if k == i && l > 0 {
        assert ls[k][l] == lists[i][l - 1];
      } else if k != i {
        assert ls[k][l] == lists[k][l];
      }
    }
  }

  lemma FlatUnlink(lists: seq<seq<RegQuery>>, i: nat, j: nat)
    requires i < |lists| && j < |lists[i]|
    ensures Flat(lists[i := Without(lists[i], j)]) <= Flat(lists)
  {
    var ls := lists[i := Without(lists[i], j)];
    forall k, l | 0 <= k < |ls| && 0 <= l < |ls[k]|
      ensures ls[k][l] in Flat(lists)
    {
      if k == i {
        assert ls[k][l] == lists[i][if l < j then l else l + 1];
      } else {
        assert ls[k][l] == lists[k][l];
      }
    }
  }

  lemma FlatDrop(lists: seq<seq<RegQuery>>, i: nat)
    requires i < |lists|
    ensures Flat(Without(lists, i)) <= Flat(lists)
  {
    var ls := Without(lists, i);
    forall k, l | 0 <= k < |ls| && 0 <= l < |ls[k]|
      ensures ls[k][l] in Flat(lists)
    {
      assert ls[k][l] == lists[if k < i then k else k + 1][l];
    }
  }

  ghost predicate HoldsAll(apps: seq<RegApp>, lists: seq<seq<RegQuery>>, t: seq<App<object?>>)
    reads apps, Flat(lists)
  {
    && |lists| == |apps| == |t|
    && forall i :: 0 <= i < |apps| ==> Holds(apps[i], lists[i], t[i])
  }

  lemma HoldsCons(app: RegApp, apps: seq<RegApp>, lists: seq<seq<RegQuery>>, t: seq<App<object?>>, a: App<object?>)
    requires HoldsAll(apps, lists, t) && Holds(app, [], a)
    ensures HoldsAll([app] + apps, [[]] + lists, [a] + t)
  {
  }

  lemma AppChainCons(f: RegApp?, s: seq<RegApp>, app: RegApp)
    requires AppChain(f, s) && app !in s && app.next == f
    ensures AppChain(app, [app] + s)
  {
    var s' := [app] + s;
    forall i | 0 <= i < |s'|
      ensures s'[i].next == AppAt(s', i + 1)
    {
      if i > 0 {
        assert s'[i] == s[i - 1] && AppAt(s', i + 1) == AppAt(s, i);
      }
    }
  }

  lemma HoldsLink(app: RegApp, s: seq<RegQuery>, a: App<object?>, node: RegQuery)
    requires a.addr == app && a.fd == app.fd && Nodes(app, s, a.queries)
    requires node !in s && node.app == app && app.queries == node && QueryChain(node.next, s)
    ensures Holds(app, [node] + s, a.(queries := [node.AsNode()] + a.queries))
  {
    var s' := [node] + s;
    forall j | 0 <= j < |s'|
      ensures s'[j].next == QueryAt(s', j + 1)
    {
      if j > 0 {
        assert s'[j] == s[j - 1] && QueryAt(s', j + 1) == QueryAt(s, j);
      }
    }
  }

  lemma QueryAtWithout(s: seq<RegQuery>, j: nat, k: int)
    requires j < |s|
    ensures QueryAt(Without(s, j), k) == if k < j then QueryAt(s, k) else QueryAt(s, k + 1)
  {
  }

  /** Leaving position j out of a chain, and out of the entry that describes it. */
  lemma ChainWithout(f: RegQuery?, s: seq<RegQuery>, j: nat)
    requires j < |s|
    requires f == QueryAt(s, if j == 0 then 1 else 0)
    requires forall k {:trigger s[k].next} :: 0 <= k < |s| && k != j ==>
                                                s[k].next == QueryAt(s, if k == j - 1 then j + 1 else k + 1)
    requires forall k, l :: 0 <= k < l < |s| ==> s[k] != s[l]
    ensures QueryChain(f, Without(s, j))
  {
    var s' := Without(s, j);
    QueryAtWithout(s, j, 0);
    forall k | 0 <= k < |s'|
      ensures s'[k].next == QueryAt(s', k + 1)
    {
      QueryAtWithout(s, j, k);
      QueryAtWithout(s, j, k + 1);
    }
    forall k, l | 0 <= k < l < |s'|
      ensures s'[k] != s'[l]
    {
      QueryAtWithout(s, j, k);
      QueryAtWithout(s, j, l);
    }
  }

  lemma NodesWithout(app: RegApp, s: seq<RegQuery>, qs: seq<QueryNode<object?>>, j: nat)
    requires Nodes(app, s, qs) && j < |s|
    ensures Nodes(app, Without(s, j), Without(qs, j))
  {
    var s' := Without(s, j);
    forall k | 0 <= k < |s'|
      ensures s'[k].app == app && Without(qs, j)[k] == s'[k].AsNode()
    {
      assert s'[k] == if k < j then s[k] else s[k + 1];
    }
  }

  lemma AppAtWithout(s: seq<RegApp>, i: nat, k: int)
    requires i < |s|
    ensures AppAt(Without(s, i), k) == if k < i then AppAt(s, k) else AppAt(s, k + 1)
  {
  }

  lemma AppChainWithout(f: RegApp?, s: seq<RegApp>, i: nat)
    requires i < |s|
    requires f == AppAt(s, if i == 0 then 1 else 0)
    requires forall k {:trigger s[k].next} :: 0 <= k < |s| && k != i ==>
                                                s[k].next == AppAt(s, if k == i - 1 then i + 1 else k + 1)
    requires forall k, l :: 0 <= k < l < |s| ==> s[k] != s[l]
    ensures AppChain(f, Without(s, i))
  {
    var s' := Without(s, i);
    AppAtWithout(s, i, 0);
    forall k | 0 <= k < |s'|
      ensures s'[k].next == AppAt(s', k + 1)
    {
      AppAtWithout(s, i, k);
      AppAtWithout(s, i, k + 1);
    }
    forall k, l | 0 <= k < l < |s'|
      ensures s'[k] != s'[l]
    {
      AppAtWithout(s, i, k);
      AppAtWithout(s, i, l);
    }
  }

  lemma HoldsAllWithout(apps: seq<RegApp>, lists: seq<seq<RegQuery>>, t: seq<App<object?>>, i: nat)
    requires HoldsAll(apps, lists, t) && i < |apps|
    ensures HoldsAll(Without(apps, i), Without(lists, i), Without(t, i))
  {
    forall k | 0 <= k < |apps| - 1
      ensures Holds(Without(apps, i)[k], Without(lists, i)[k], Without(t, i)[k])
    {
      assert Holds(apps[if k < i then k else k + 1], lists[if k < i then k else k + 1], t[if k < i then k else k + 1]);
    }
  }

  class Registry {
    const scheduler: Scheduler
    var applications: RegApp?
    ghost var apps: seq<RegApp>              // the applications of the list, in order
    ghost var lists: seq<seq<RegQuery>>      // the query nodes of each
    ghost var table: seq<App<object?>>       // what the two levels mean

    ghost predicate Linked()
      reads this, apps, Flat(lists)
    {
      AppChain(applications, apps) && HoldsAll(apps, lists, table) && WellFormed(table)
    }

    ghost predicate Valid()
      reads this, apps, Flat(lists), scheduler, scheduler.spine
    {
      && Linked()
      && scheduler.Valid()
      && multiset(Bindings(scheduler.tasks)) == PairBag(table)
    }

    constructor (scheduler: Scheduler)
      requires scheduler.Valid() && scheduler.tasks == []
      ensures this.scheduler == scheduler && Valid() && table == []
    {
      this.scheduler := scheduler;
      applications := null;
      apps, lists, table := [], [], [];
      new;
      assert Bindings(scheduler.tasks) == [];
    }

    /** No object has joined the structures. */
    twostate predicate Shrunk()
      reads this, scheduler
    {
      && AppSet(apps) <= AppSet(old(apps)) && Flat(lists) <= Flat(old(lists))
      && NodeSet(scheduler.spine) <= NodeSet(old(scheduler.spine))
    }

    /** Every object that has joined the structures is new. */
    twostate predicate Grown()
      reads this, scheduler
    {
      && (forall a :: a in AppSet(apps) ==> a in AppSet(old(apps)) || fresh(a))
      && (forall q :: q in Flat(lists) ==> q in old(Flat(lists)) || fresh(q))
      && (forall n :: n in NodeSet(scheduler.spine) ==> n in old(NodeSet(scheduler.spine)) || fresh(n))
    }

    twostate lemma ShrunkIsGrown()
      requires Shrunk()
      ensures Grown()
    {
    }

    /** The search for the application of a descriptor, common to the three operations. */
    method Find(fd: int) returns (prev: RegApp?, app: RegApp?, ghost i: nat)
      requires Linked()
      ensures i == FindApp(table, fd)
      ensures app == AppAt(apps, i) && prev == AppAt(apps, i - 1)
      ensures app == null <==> i == |table|
    {
      prev, app, i := null, applications, 0;
      while app != null && app.fd != fd
        invariant i <= |apps| && app == AppAt(apps, i) && prev == AppAt(apps, i - 1)
        invariant forall k :: 0 <= k < i ==> table[k].fd != fd
        decreases |apps| - i
      {
        assert Holds(apps[i], lists[i], table[i]);
        prev := app;
        app := app.next;
        i := i + 1;
      }
      if i < |apps| {
        assert Holds(apps[i], lists[i], table[i]);
      }
      FindAppIs(table, fd, i);
    }

    ghost method Adopt(as': seq<RegApp>, ls: seq<seq<RegQuery>>, t: seq<App<object?>>)
      requires AppChain(applications, as') && HoldsAll(as', ls, t) && WellFormed(t)
      modifies this`apps, this`lists, this`table
      ensures Linked() && apps == as' && lists == ls && table == t
    {
      apps, lists, table := as', ls, t;
    }

    /** A new application in front of the list. */
    method AddApp(fd: int) returns (app: RegApp)
      requires Linked() && FindApp(table, fd) == |table|
      modifies this`applications, this`apps, this`lists, this`table
      ensures Linked() && fresh(app)
      ensures table == WithApp(old(table), app, fd)
      ensures apps == [app] + old(apps) && lists == [[]] + old(lists)
    {
      app := new RegApp(fd, applications);
      forall i | 0 <= i < |table|
        ensures table[i].addr != app
      {
        assert Holds(apps[i], lists[i], table[i]);
      }
      WellFormedWithApp(table, app, fd);
      applications := app;
      AppChainCons(app.next, apps, app);
      HoldsCons(app, apps, lists, table, App(app, fd, []));
      Adopt([app] + apps, [[]] + lists, WithApp(table, app, fd));
    }

    /** A new query node in front of the queries of its application. */
    method Chain(app: RegApp, node: RegQuery, ghost i: nat)
      requires Linked() && i < |apps| && app == apps[i]
      requires node !in Flat(lists) && node.app == app && node.next == app.queries
      modifies app`queries, this`apps, this`lists, this`table
      ensures Linked()
      ensures apps == old(apps) && lists == old(lists)[i := [node] + old(lists)[i]]
      ensures table == old(table)[i := old(table)[i].(queries := [node.AsNode()] + old(table)[i].queries)]
    {
      ghost var s, a := lists[i], table[i];
      ghost var a' := a.(queries := [node.AsNode()] + a.queries);
      assert Holds(app, s, a);
      assert node !in s;
      app.queries := node;
      HoldsLink(app, s, a, node);
      forall k | 0 <= k < |apps| && k != i
        ensures Holds(apps[k], lists[k], table[k])
      {
        assert old(Holds(apps[k], lists[k], table[k]));
      }
      WellFormedSet(table, i, a');
      Adopt(apps, lists[i := [node] + s], table[i := a']);
    }

    /** What a step on the other of the two lists leaves alone. */
    twostate lemma SchedulerFrame()
      requires old(scheduler.Valid()) && unchanged(scheduler) && unchanged(old(scheduler.spine))
      ensures scheduler.Valid()
    {
    }

    twostate lemma LinkedFrame()
      requires old(Linked()) && unchanged(this) && unchanged(old(apps)) && unchanged(old(Flat(lists)))
      ensures Linked()
    {
    }

    /** What a step outside the two structures leaves alone. */
    twostate lemma Frame()
      requires old(Valid()) && unchanged(this) && unchanged(old(apps)) && unchanged(old(Flat(lists)))
      requires unchanged(scheduler) && unchanged(old(scheduler.spine))
      ensures Valid() && Shrunk()
    {
      LinkedFrame();
      SchedulerFrame();
    }

    method FindOrAdd(fd: int) returns (app: RegApp, ghost i: nat)
      requires Valid()
      modifies this`applications, this`apps, this`lists, this`table
      ensures Valid()
      ensures table == WithApp(old(table), app, fd)
      ensures i == FindApp(table, fd) && i < |apps| && app == apps[i]
      ensures fresh(app) || app in AppSet(old(apps))
      ensures AppSet(apps) <= AppSet(old(apps)) + {app} && Flat(lists) == Flat(old(lists))
    {
      var prev, found;
      prev, found, i := Find(fd);
      if found == null {
        FlatCons(lists);
        app := AddApp(fd);
        i := 0;
        SchedulerFrame();
        PairBagWithApp(old(table), app, fd);
      } else {
        app := found;
      }
    }

    /** The call of schedule for a node that is not in the table yet. */
    method ScheduleNode(node: RegQuery, ms: nat, clock: Timespec)
      requires Valid() && clock.Normal() && node !in Flat(lists)
      modifies scheduler, NodeSet(scheduler.spine), node`handler
      ensures Linked() && scheduler.Valid()
      ensures apps == old(apps) && lists == old(lists) && table == old(table)
      ensures node.query == old(node.query) && node.app == old(node.app) && node.next == old(node.next)
      ensures multiset(Bindings(scheduler.tasks)) == PairBag(table) + multiset{(node.handler, node)}
      ensures node.handler != null && fresh(node.handler)
      ensures NodeSet(scheduler.spine) <= NodeSet(old(scheduler.spine)) + {node.handler}
      ensures scheduler.tasks ==
              Insert(old(scheduler.tasks), Task(node.handler, node, ms * 1_000_000, clock.Total() + ms * 1_000_000))
    {
      var handler, signalled := scheduler.Schedule(node, ms, clock);
      label called:
      node.handler := handler;
      SchedulerFrame@called();
      LinkedFrame();
      InsertBinds(old(scheduler.tasks), Task(handler, node, ms * 1_000_000, clock.Total() + ms * 1_000_000));
    }

    method ChainScheduled(app: RegApp, node: RegQuery, ghost i: nat, fd: int)
      requires Linked() && i == FindApp(table, fd) && i < |apps| && app == apps[i]
      requires node !in Flat(lists) && node.app == app && node.next == app.queries
      requires scheduler.Valid()
      requires multiset(Bindings(scheduler.tasks)) == PairBag(table) + multiset{(node.handler, node)}
      modifies app`queries, this`apps, this`lists, this`table
      ensures Valid()
      ensures table == Link(old(table), fd, node.AsNode())
      ensures apps == old(apps) && Flat(lists) <= Flat(old(lists)) + {node}
    {
      FlatLink(lists, i, node);
      ghost var w := table;
      PairBagLink(w, fd, node.AsNode());
      Chain(app, node, i);
      SchedulerFrame();
    }

    /** The part of register_query after the application is known. */
    method AddNode(app: RegApp, ghost i: nat, fd: int, query: Query, ms: nat, clock: Timespec) returns (node: RegQuery)
      requires Valid() && clock.Normal()
      requires i == FindApp(table, fd) && i < |apps| && app == apps[i]
      modifies app`queries, this`apps, this`lists, this`table, scheduler, NodeSet(scheduler.spine)
      ensures Valid() && fresh(node)
      ensures node.query == query && node.app == app
      ensures table == Link(old(table), fd, node.AsNode())
      ensures scheduler.tasks ==
              Insert(old(scheduler.tasks), Task(node.handler, node, ms * 1_000_000, clock.Total() + ms * 1_000_000))
      ensures apps == old(apps) && Flat(lists) <= Flat(old(lists)) + {node}
      ensures node.handler != null && fresh(node.handler)
      ensures NodeSet(scheduler.spine) <= NodeSet(old(scheduler.spine)) + {node.handler}
    {
      node := new RegQuery(query, app, app.queries);
      LinkedFrame();
      SchedulerFrame();
      ScheduleNode(node, ms, clock);
      ChainScheduled(app, node, i, fd);
    }

    /** register_query: finds or adds the application, schedules a new query node, and chains it once its
        handler is known. */
    method RegisterQuery(fd: int, query: Query, ms: nat, clock: Timespec) returns (node: RegQuery)
      requires Valid() && clock.Normal()
      modifies this, AppSet(apps), scheduler, NodeSet(scheduler.spine)
      ensures Valid() && fresh(node) && fresh(node.handler) && (node.app in AppSet(old(apps)) || fresh(node.app))
      ensures AppSet(apps) <= AppSet(old(apps)) + {node.app} && Flat(lists) <= Flat(old(lists)) + {node}
      ensures NodeSet(scheduler.spine) <= NodeSet(old(scheduler.spine)) + {node.handler}
      ensures node.query == query
      ensures table == Register(old(table), fd, node.AsNode())
      ensures scheduler.tasks ==
              Insert(old(scheduler.tasks), Task(node.handler, node, ms * 1_000_000, clock.Total() + ms * 1_000_000))
    {
      ghost var as0, qs0 := AppSet(apps), Flat(lists);
      var app, i := FindOrAdd(fd);
      assert AppSet(apps) <= as0 + {app} && Flat(lists) == qs0;
      node := AddNode(app, i, fd, query, ms, clock);
      assert AppSet(apps) <= as0 + {node.app} && Flat(lists) <= qs0 + {node};
    }

    /** register_query, with the new node and its task as values. */
    method Enter(fd: int, query: Query, ms: nat, clock: Timespec)
      returns (ghost node: QueryNode<object?>, ghost x: Task<object?>)
      requires Valid() && clock.Normal()
      modifies this, AppSet(apps), scheduler, NodeSet(scheduler.spine)
      ensures Valid() && Grown()
      ensures node.query == query && table == Register(old(table), fd, node)
      ensures x.handle == node.handler && x.data == node.addr
      ensures x.interval == ms * 1_000_000 && x.next == clock.Total() + ms * 1_000_000
      ensures scheduler.tasks == Insert(old(scheduler.tasks), x)
    {
      var n := RegisterQuery(fd, query, ms, clock);
      node, x := n.AsNode(), Task(n.handler, n, ms * 1_000_000, clock.Total() + ms * 1_000_000);
    }

    /** The search of unregister_query in the list of one application. */
    method FindNode(app: RegApp, reqId: nat, ghost i: nat) returns (prev: RegQuery?, node: RegQuery?, ghost j: nat)
      requires Linked() && i < |apps| && app == apps[i]
      ensures j == FindQuery(table[i].queries, reqId)
      ensures node == QueryAt(lists[i], j) && prev == QueryAt(lists[i], j - 1)
      ensures node == null <==> j == |lists[i]|
    {
      assert Holds(app, lists[i], table[i]);
      prev, node, j := null, app.queries, 0;
      while node != null && node.query.reqId != reqId
        invariant j <= |lists[i]| && node == QueryAt(lists[i], j) && prev == QueryAt(lists[i], j - 1)
        invariant forall k :: 0 <= k < j ==> table[i].queries[k].query.reqId != reqId
        decreases |lists[i]| - j
      {
        prev := node;
        node := node.next;
        j := j + 1;
      }
      FindQueryIs(table[i].queries, reqId, j);
    }

    /** Unchaining a query node. */
    method Unchain(app: RegApp, prev: RegQuery?, node: RegQuery, ghost i: nat, ghost j: nat)
      requires Linked() && i < |apps| && app == apps[i] && j < |lists[i]|
      requires node == lists[i][j] && prev == QueryAt(lists[i], j - 1)
      modifies app`queries, (if prev == null then {} else {prev}), this`apps, this`lists, this`table
      ensures Linked()
      ensures apps == old(apps) && lists == old(lists)[i := Without(old(lists)[i], j)]
      ensures |old(table)[i].queries| == |old(lists)[i]|
      ensures table == old(table)[i := old(table)[i].(queries := Without(old(table)[i].queries, j))]
      ensures node.AsNode() == old(node.AsNode())
    {
      ghost var s, a := lists[i], table[i];
      ghost var a' := a.(queries := Without(a.queries, j));
      assert Holds(app, s, a);
      if prev != null {
        prev.next := node.next;
      } else {
        app.queries := node.next;
      }
      ChainWithout(app.queries, s, j);
      NodesWithout(app, s, a.queries, j);
      forall k | 0 <= k < |apps| && k != i
        ensures Holds(apps[k], lists[k], table[k])
      {
        assert old(Holds(apps[k], lists[k], table[k]));
        assert forall l :: 0 <= l < |lists[k]| ==> lists[k][l].app == apps[k];
      }
      assert PointBack(a');
      WellFormedSet(table, i, a');
      Adopt(apps, lists[i := Without(s, j)], table[i := a']);
    }

    /** The handler of a registered query is a node of the scheduler's list. */
    lemma HandlerBound(i: nat, j: nat)
      requires Valid() && i < |lists| && j < |lists[i]|
      ensures lists[i][j].handler != null && lists[i][j].handler in scheduler.spine
      ensures (lists[i][j].handler, lists[i][j]) in Bindings(scheduler.tasks)
    {
      assert Holds(apps[i], lists[i], table[i]);
      var n := lists[i][j];
      assert table[i].queries[j] == n.AsNode();
      PairBagMember(table, (n.handler, n));
      assert (n.handler, n) in multiset(Bindings(scheduler.tasks));
      var k :| 0 <= k < |scheduler.tasks| && Bindings(scheduler.tasks)[k] == (n.handler, n as object?);
      assert scheduler.tasks[k] == scheduler.spine[k].AsTask();
    }

    /** The call of unschedule for a node that is out of the table; `rest` are bindings that stay behind. */
    method UnscheduleNode(node: RegQuery, ghost rest: multiset<(object?, object?)>)
      requires Linked() && scheduler.Valid()
      requires node.handler != null && node.handler in scheduler.spine
      requires multiset(Bindings(scheduler.tasks)) == PairBag(table) + rest + multiset{(node.handler, node)}
      modifies scheduler, NodeSet(scheduler.spine)
      ensures Linked() && scheduler.Valid()
      ensures multiset(Bindings(scheduler.tasks)) == PairBag(table) + rest
      ensures scheduler.tasks == Remove(old(scheduler.tasks), node.handler)
      ensures NodeSet(scheduler.spine) == NodeSet(old(scheduler.spine)) - {node.handler}
    {
      assert Distinct(scheduler.tasks) by {
        scheduler.HandlesAreSpine();
      }
      assert (node.handler, node) in multiset(Bindings(scheduler.tasks));
      RemoveBinds<object?>(scheduler.tasks, node.handler, node);
      scheduler.Unschedule(node.handler);
      LinkedFrame();
      BagCancelSame(multiset(Bindings(scheduler.tasks)), PairBag(table) + rest, multiset{(node.handler, node)});
    }

    /** The two searches of unregister_query. */
    method Locate(fd: int, reqId: nat)
      returns (app: RegApp?, prev: RegQuery?, node: RegQuery?, ghost i: nat, ghost j: nat)
      requires Linked()
      ensures node == null <==> Match(table, fd, reqId).None?
      ensures node != null ==>
                && i == FindApp(table, fd) && i < |apps| && app == apps[i]
                && j == FindQuery(table[i].queries, reqId) && j < |lists[i]|
                && node == lists[i][j] && prev == QueryAt(lists[i], j - 1)
                && Match(table, fd, reqId).value == node.AsNode()
      ensures node != null ==> app in AppSet(apps) && (prev != null ==> prev in Flat(lists))
    {
      var prevApp;
      prevApp, app, i := Find(fd);
      prev, node, j := null, null, 0;
      if app != null {
        prev, node, j := FindNode(app, reqId, i);
        assert Holds(app, lists[i], table[i]);
      }
    }

    /** Takes the located query out of the table; its task is still scheduled. */
    method UnchainMatch(app: RegApp, prev: RegQuery?, node: RegQuery,
                        ghost i: nat, ghost j: nat, ghost fd: int, ghost reqId: nat)
      requires Valid()
      requires i == FindApp(table, fd) && i < |apps| && app == apps[i]
      requires j == FindQuery(table[i].queries, reqId) && j < |lists[i]|
      requires node == lists[i][j] && prev == QueryAt(lists[i], j - 1)
      requires Match(table, fd, reqId) == Some(node.AsNode())
      modifies app`queries, (if prev == null then {} else {prev}), this`apps, this`lists, this`table
      ensures Linked() && scheduler.Valid()
      ensures table == Unlink(old(table), fd, reqId)
      ensures node.handler == old(node.handler) && node.handler != null && node.handler in scheduler.spine
      ensures multiset(Bindings(scheduler.tasks)) == PairBag(table) + multiset{} + multiset{(node.handler, node)}
      ensures apps == old(apps) && Flat(lists) <= Flat(old(lists))
    {
      ghost var t' := Unlink(table, fd, reqId);
      assert multiset(Bindings(scheduler.tasks)) == PairBag(t') + multiset{} + multiset{(node.handler, node)} by {
        PairBagUnlink(table, fd, reqId);
      }
      HandlerBound(i, j);
      ghost var ls := lists;
      Unchain(app, prev, node, i, j);
      assert Flat(lists) <= Flat(ls) by {
        FlatUnlink(ls, i, j);
      }
      assert table == t';
      SchedulerFrame();
    }

    /** The part of unregister_query before unschedule. */
    method TakeOut(fd: int, reqId: nat) returns (node: RegQuery?)
      requires Valid()
      modifies this`apps, this`lists, this`table, AppSet(apps), Flat(lists)
      ensures Linked() && scheduler.Valid()
      ensures table == Unlink(old(table), fd, reqId)
      ensures apps == old(apps) && Flat(lists) <= Flat(old(lists))
      ensures node == null ==> Valid() && Match(old(table), fd, reqId).None?
      ensures node != null ==>
                && Match(old(table), fd, reqId).Some? && Match(old(table), fd, reqId).value.handler == node.handler
                && node.handler != null && node.handler in scheduler.spine
                && multiset(Bindings(scheduler.tasks)) == PairBag(table) + multiset{} + multiset{(node.handler, node)}
    {
      var app, prev;
      ghost var i, j;
      app, prev, node, i, j := Locate(fd, reqId);
      if node != null {
        UnchainMatch(app, prev, node, i, j, fd, reqId);
      }
    }

    /** unregister_query: the first query of the application with that request id goes, with its task. */
    method UnregisterQuery(fd: int, reqId: nat)
      requires Valid()
      modifies this, AppSet(apps), Flat(lists), scheduler, NodeSet(scheduler.spine)
      ensures Valid() && Shrunk()
      ensures table == Unlink(old(table), fd, reqId)
      ensures var m := Match(old(table), fd, reqId);
              scheduler.tasks == if m.None? then old(scheduler.tasks) else Remove(old(scheduler.tasks), m.value.handler)
    {
      var node := TakeOut(fd, reqId);
      if node != null {
        UnscheduleNode(node, multiset{});
      }
    }

    /** Unchaining an application, which keeps its own list of queries. */
    method UnchainApp(prev: RegApp?, app: RegApp, ghost i: nat)
      requires Linked() && i < |apps| && app == apps[i] && prev == AppAt(apps, i - 1)
      modifies this`applications, (if prev == null then {} else {prev}), this`apps, this`lists, this`table
      ensures Linked()
      ensures table == Without(old(table), i) && i < |old(lists)| && Holds(app, old(lists)[i], old(table)[i])
      ensures AppSet(apps) <= AppSet(old(apps)) && Flat(lists) <= Flat(old(lists))
    {
      FlatDrop(lists, i);
      ghost var as', ls, t := apps, lists, table;
      if prev != null {
        prev.next := app.next;
      } else {
        applications := app.next;
      }
      AppChainWithout(applications, as', i);
      forall k | 0 <= k < |as'|
        ensures Holds(as'[k], ls[k], t[k])
      {
        assert old(Holds(as'[k], ls[k], t[k]));
      }
      HoldsAllWithout(as', ls, t, i);
      WellFormedDrop(t, t[i].fd);
      FindAppIs(t, t[i].fd, i);
      Adopt(Without(as', i), Without(ls, i), Without(t, i));
    }

    lemma BoundInSpine(handler: Node?, data: object?)
      requires scheduler.Valid() && (handler, data) in multiset(Bindings<object?>(scheduler.tasks))
      ensures handler != null && handler in scheduler.spine
    {
      var k :| 0 <= k < |scheduler.tasks| && Bindings(scheduler.tasks)[k] == (handler as object?, data);
      assert scheduler.tasks[k] == scheduler.spine[k].AsTask();
    }

    lemma RestOfPairs(app: RegApp, s: seq<RegQuery>, a: App<object?>, k: nat)
      requires Holds(app, s, a) && k < |s|
      ensures multiset(Pairs(a.queries[k..])) == multiset(Pairs(a.queries[k + 1..])) + multiset{(s[k].handler, s[k])}
      ensures a.queries[k].handler == s[k].handler
    {
      assert a.queries[k..] == [a.queries[k]] + a.queries[k + 1..];
      PairsHead(a.queries[k..]);
      assert a.queries[k] == s[k].AsNode();
    }

    /** One turn of the loop of unregister_application. */
    method CancelOne(app: RegApp, node: RegQuery, ghost s: seq<RegQuery>, ghost a: App<object?>, ghost k: nat)
      requires Linked() && scheduler.Valid()
      requires Holds(app, s, a) && k < |s| && node == s[k]
      requires multiset(Bindings(scheduler.tasks)) == PairBag(table) + multiset(Pairs(a.queries[k..]))
      modifies scheduler, NodeSet(scheduler.spine)
      ensures Linked() && scheduler.Valid() && Holds(app, s, a)
      ensures multiset(Bindings(scheduler.tasks)) == PairBag(table) + multiset(Pairs(a.queries[k + 1..]))
      ensures NodeSet(scheduler.spine) <= NodeSet(old(scheduler.spine))
      ensures scheduler.tasks == Remove(old(scheduler.tasks), a.queries[k].handler)
    {
      ghost var rest := a.queries[k + 1..];
      RestOfPairs(app, s, a, k);
      BoundInSpine(node.handler, node);
      UnscheduleNode(node, multiset(Pairs(rest)));
    }

    /** The loop of unregister_application over the queries of an application that is out of the table. */
    method CancelAll(app: RegApp, ghost s: seq<RegQuery>, ghost a: App<object?>)
      requires Linked() && scheduler.Valid() && Holds(app, s, a)
      requires multiset(Bindings(scheduler.tasks)) == PairBag(table) + multiset(Pairs(a.queries))
      modifies scheduler, NodeSet(scheduler.spine)
      ensures Valid() && NodeSet(scheduler.spine) <= NodeSet(old(scheduler.spine))
      ensures scheduler.tasks == RemoveAll(old(scheduler.tasks), Handlers(a.queries))
    {
      var node := app.queries;
      ghost var k, hs := 0, Handlers(a.queries);
      assert a.queries[0..] == a.queries && hs[0..] == hs;
      while node != null
        invariant Linked() && scheduler.Valid() && Holds(app, s, a)
        invariant k <= |s| && node == QueryAt(s, k)
        invariant multiset(Bindings(scheduler.tasks)) == PairBag(table) + multiset(Pairs(a.queries[k..]))
        invariant NodeSet(scheduler.spine) <= NodeSet(old(scheduler.spine))
        invariant RemoveAll(scheduler.tasks, hs[k..]) == RemoveAll(old(scheduler.tasks), hs)
        decreases |s| - k
      {
        assert RemoveAll(scheduler.tasks, hs[k..]) == RemoveAll(Remove(scheduler.tasks, hs[k]), hs[k + 1..]) by {
          assert hs[k..][1..] == hs[k + 1..];
        }
        CancelOne(app, node, s, a, k);
        node := node.next;
        k := k + 1;
      }
      assert Pairs(a.queries[k..]) == [];
    }

    /** Takes a found application out of the table; its tasks are still scheduled. */
    method DropEntry(prev: RegApp?, app: RegApp, ghost i: nat, ghost fd: int)
      requires Valid() && i == FindApp(table, fd) && i < |apps| && app == apps[i] && prev == AppAt(apps, i - 1)
      modifies this`applications, (if prev == null then {} else {prev}), this`apps, this`lists, this`table
      ensures Linked() && scheduler.Valid()
      ensures table == Drop(old(table), fd) && Lookup(old(table), fd).Some?
      ensures i < |old(lists)| && i < |old(table)| && Holds(app, old(lists)[i], old(table)[i])
      ensures Lookup(old(table), fd).value == old(table)[i].queries
      ensures multiset(Bindings(scheduler.tasks)) == PairBag(table) + multiset(Pairs(old(table)[i].queries))
      ensures AppSet(apps) <= AppSet(old(apps)) && Flat(lists) <= Flat(old(lists))
    {
      PairBagDrop(table, fd);
      UnchainApp(prev, app, i);
      SchedulerFrame();
    }

    /** unregister_application: the application goes, then its tasks, newest query first. */
    method UnregisterApplication(fd: int)
      requires Valid()
      modifies this, AppSet(apps), scheduler, NodeSet(scheduler.spine)
      ensures Valid() && Shrunk()
      ensures table == Drop(old(table), fd)
      ensures var qs := Lookup(old(table), fd);
              scheduler.tasks == if qs.None? then old(scheduler.tasks)
                                 else RemoveAll(old(scheduler.tasks), Handlers(qs.value))
    {
      var prev, app, i := Find(fd);
      if app != null {
        ghost var s, a := lists[i], table[i];
        DropEntry(prev, app, i, fd);
        CancelAll(app, s, a);
      }
    }
  }
}
