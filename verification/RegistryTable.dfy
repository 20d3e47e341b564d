/** The registration table as a value: the applications, newest first, each with its queries,
    newest first. `R` is the type of addresses. */
module RegistryTable {
  import opened Options

  /** What a client asks for. */
  datatype Query = Query(reqId: nat, engineId: nat, dataId: nat)

  /** A query node: where it is, the application and the scheduler handle it points to. */
  datatype QueryNode<R> = QueryNode(addr: R, app: R, query: Query, handler: R)

  datatype App<R> = App(addr: R, fd: int, queries: seq<QueryNode<R>>)

  // --------------------------------------------------------------- searching

  /** The position of the first application with descriptor fd, or |t|. */
  function FindApp<R>(t: seq<App<R>>, fd: int): (i: nat)
    ensures i <= |t|
    ensures forall k :: 0 <= k < i ==> t[k].fd != fd
    ensures i < |t| ==> t[i].fd == fd
  {
    if t == [] || t[0].fd == fd then 0 else 1 + FindApp(t[1..], fd)
  }

  /** The position of the first query with the given request id, or |qs|. */
  function FindQuery<R>(qs: seq<QueryNode<R>>, reqId: nat): (j: nat)
    ensures j <= |qs|
    ensures forall k :: 0 <= k < j ==> qs[k].query.reqId != reqId
    ensures j < |qs| ==> qs[j].query.reqId == reqId
  {
    if qs == [] || qs[0].query.reqId == reqId then 0 else 1 + FindQuery(qs[1..], reqId)
  }

  /** The table as a map: the queries registered for fd, if it is registered at all. */
  function Lookup<R>(t: seq<App<R>>, fd: int): Option<seq<QueryNode<R>>> {
    var i := FindApp(t, fd);
    if i < |t| then Some(t[i].queries) else None
  }

  ghost predicate DistinctFds<R>(t: seq<App<R>>) {
    forall i, j :: 0 <= i < j < |t| ==> t[i].fd != t[j].fd
  }

  // -------------------------------------------------------------- operations

  /** The table with an entry for fd: an existing one, or a new one in front at address addr. */
  function WithApp<R>(t: seq<App<R>>, addr: R, fd: int): seq<App<R>> {
    if FindApp(t, fd) < |t| then t else [App(addr, fd, [])] + t
  }

  /** Node chained in front of the queries of fd. */
  function Link<R>(t: seq<App<R>>, fd: int, node: QueryNode<R>): seq<App<R>> {
    var i := FindApp(t, fd);
    if i < |t| then t[i := t[i].(queries := [node] + t[i].queries)] else t
  }

  function Register<R>(t: seq<App<R>>, fd: int, node: QueryNode<R>): seq<App<R>> {
    Link(WithApp(t, node.app, fd), fd, node)
  }

  /** The node that unregister_query takes out: the first match in the list of fd. */
  function Match<R>(t: seq<App<R>>, fd: int, reqId: nat): Option<QueryNode<R>> {
    var i := FindApp(t, fd);
    if i < |t| && FindQuery(t[i].queries, reqId) < |t[i].queries|
    then Some(t[i].queries[FindQuery(t[i].queries, reqId)])
    else None
  }

  function Without<T>(s: seq<T>, j: nat): seq<T>
    requires j < |s|
  {
    s[..j] + s[j + 1..]
  }

  function Unlink<R>(t: seq<App<R>>, fd: int, reqId: nat): seq<App<R>> {
    if Match(t, fd, reqId).None? then t
    else
      var i := FindApp(t, fd);
      t[i := t[i].(queries := Without(t[i].queries, FindQuery(t[i].queries, reqId)))]
  }

  function Drop<R>(t: seq<App<R>>, fd: int): seq<App<R>> {
    var i := FindApp(t, fd);
    if i < |t| then Without(t, i) else t
  }

  // ------------------------------------------------- the table refines a map

  lemma FindAppIs<R>(t: seq<App<R>>, fd: int, i: nat)
    requires i <= |t|
    requires forall k :: 0 <= k < i ==> t[k].fd != fd
    requires i < |t| ==> t[i].fd == fd
    ensures FindApp(t, fd) == i
  {
  }

  lemma FindQueryIs<R>(qs: seq<QueryNode<R>>, reqId: nat, j: nat)
    requires j <= |qs|
    requires forall k :: 0 <= k < j ==> qs[k].query.reqId != reqId
    requires j < |qs| ==> qs[j].query.reqId == reqId
    ensures FindQuery(qs, reqId) == j
  {
  }

  lemma FindAppSameFds<R>(t: seq<App<R>>, t': seq<App<R>>, fd: int)
    requires |t| == |t'| && forall k :: 0 <= k < |t| ==> t[k].fd == t'[k].fd
    ensures FindApp(t, fd) == FindApp(t', fd)
  {
    FindAppIs(t', fd, FindApp(t, fd));
  }

  /** register_query prepends to the queries of its descriptor and touches no other descriptor. */
  lemma RegisterRefines<R>(t: seq<App<R>>, fd: int, node: QueryNode<R>, g: int)
    requires DistinctFds(t)
    ensures DistinctFds(Register(t, fd, node))
    ensures Lookup(Register(t, fd, node), fd) ==
            Some([node] + if Lookup(t, fd).Some? then Lookup(t, fd).value else [])
    ensures g != fd ==> Lookup(Register(t, fd, node), g) == Lookup(t, g)
  {
    var w, t' := WithApp(t, node.app, fd), Register(t, fd, node);
    WithAppRefines(t, node.app, fd, g);
    FindAppSameFds(w, t', fd);
    FindAppSameFds(w, t', g);
  }

  lemma WithAppRefines<R>(t: seq<App<R>>, addr: R, fd: int, g: int)
    requires DistinctFds(t)
    ensures DistinctFds(WithApp(t, addr, fd))
    ensures FindApp(WithApp(t, addr, fd), fd) < |WithApp(t, addr, fd)|
    ensures Lookup(WithApp(t, addr, fd), fd) == Some(if Lookup(t, fd).Some? then Lookup(t, fd).value else [])
    ensures g != fd ==> Lookup(WithApp(t, addr, fd), g) == Lookup(t, g)
  {
    var w := WithApp(t, addr, fd);
    if FindApp(t, fd) == |t| {
      assert w[1..] == t;
    }
  }

  /** unregister_query takes out exactly the newest query of its descriptor with that request id, and the
      table does not change when there is none. */
  lemma UnlinkRefines<R>(t: seq<App<R>>, fd: int, reqId: nat, g: int)
    requires DistinctFds(t)
    ensures DistinctFds(Unlink(t, fd, reqId))
    ensures Match(t, fd, reqId).None? <==>
            Lookup(t, fd).None? || forall n :: n in Lookup(t, fd).value ==> n.query.reqId != reqId
    ensures Match(t, fd, reqId).None? ==> Unlink(t, fd, reqId) == t
    ensures Match(t, fd, reqId).Some? ==>
              var qs, j := Lookup(t, fd).value, FindQuery(Lookup(t, fd).value, reqId);
              && j < |qs| && qs[j] == Match(t, fd, reqId).value
              && Lookup(Unlink(t, fd, reqId), fd) == Some(qs[..j] + qs[j + 1..])
    ensures g != fd ==> Lookup(Unlink(t, fd, reqId), g) == Lookup(t, g)
  {
    var t' := Unlink(t, fd, reqId);
    FindAppSameFds(t, t', fd);
    FindAppSameFds(t, t', g);
  }

  /** unregister_application takes its descriptor out of the map, nothing else, and doing it
      twice is doing it once. */
  lemma DropRefines<R>(t: seq<App<R>>, fd: int, g: int)
    requires DistinctFds(t)
    ensures DistinctFds(Drop(t, fd))
    ensures Lookup(Drop(t, fd), fd).None?
    ensures g != fd ==> Lookup(Drop(t, fd), g) == Lookup(t, g)
    ensures Drop(Drop(t, fd), fd) == Drop(t, fd)
  {
    var i, t' := FindApp(t, fd), Drop(t, fd);
    if i < |t| {
      forall k | 0 <= k < |t'|
        ensures t'[k].fd != fd
      {
        assert t'[k] == if k < i then t[k] else t[k + 1];
      }
      FindAppIs(t', fd, |t'|);
      if g != fd {
        var k := FindApp(t, g);
        FindAppIs(t', g, if k < i then k else k - 1);
      }
    }
  }

  // ------------------------------------------------------- pointing back

  ghost predicate DistinctAddrs<R>(t: seq<App<R>>) {
    forall i, j :: 0 <= i < j < |t| ==> t[i].addr != t[j].addr
  }

  /** Every query of the list points to the application that owns the list. */
  ghost predicate PointBack<R>(a: App<R>) {
    forall j :: 0 <= j < |a.queries| ==> a.queries[j].app == a.addr
  }

  ghost predicate WellFormed<R>(t: seq<App<R>>) {
    DistinctFds(t) && DistinctAddrs(t) && forall i :: 0 <= i < |t| ==> PointBack(t[i])
  }

  lemma WellFormedWithApp<R>(t: seq<App<R>>, addr: R, fd: int)
    requires WellFormed(t)
    requires FindApp(t, fd) == |t| ==> forall i :: 0 <= i < |t| ==> t[i].addr != addr
    ensures WellFormed(WithApp(t, addr, fd))
    ensures FindApp(WithApp(t, addr, fd), fd) == if FindApp(t, fd) < |t| then FindApp(t, fd) else 0
  {
    var w := WithApp(t, addr, fd);
    if FindApp(t, fd) == |t| {
      assert forall i :: 0 < i < |w| ==> w[i] == t[i - 1];
    }
  }

  lemma WellFormedSet<R>(t: seq<App<R>>, i: nat, a: App<R>)
    requires WellFormed(t) && i < |t| && a.fd == t[i].fd && a.addr == t[i].addr && PointBack(a)
    ensures WellFormed(t[i := a])
  {
  }

  lemma WellFormedLink<R>(t: seq<App<R>>, fd: int, node: QueryNode<R>)
    requires WellFormed(t) && FindApp(t, fd) < |t| && t[FindApp(t, fd)].addr == node.app
    ensures WellFormed(Link(t, fd, node))
  {
  }

  lemma WellFormedUnlink<R>(t: seq<App<R>>, fd: int, reqId: nat)
    requires WellFormed(t)
    ensures WellFormed(Unlink(t, fd, reqId))
  {
    if Match(t, fd, reqId).Some? {
      var i := FindApp(t, fd);
      var j := FindQuery(t[i].queries, reqId);
      assert PointBack(t[i]);
      assert PointBack(Unlink(t, fd, reqId)[i]);
    }
  }

  lemma WellFormedDrop<R>(t: seq<App<R>>, fd: int)
    requires WellFormed(t)
    ensures WellFormed(Drop(t, fd))
  {
    var i, t' := FindApp(t, fd), Drop(t, fd);
    if i < |t| {
      assert forall k :: 0 <= k < i ==> t'[k] == t[k];
      assert forall k :: i <= k < |t'| ==> t'[k] == t[k + 1];
    }
  }

  // --------------------------------------------------------- handles in use

  /** Which scheduler handle carries which query node, for the queries of one application. */
  function Pairs<R>(qs: seq<QueryNode<R>>): seq<(R, R)> {
    seq(|qs|, i requires 0 <= i < |qs| => (qs[i].handler, qs[i].addr))
  }

  /** The same for the whole table, with multiplicity. */
  ghost function PairBag<R>(t: seq<App<R>>): multiset<(R, R)> {
    if t == [] then multiset{} else multiset(Pairs(t[0].queries)) + PairBag(t[1..])
  }

  lemma WithoutCons<T>(s: seq<T>, i: nat)
    requires 0 < i < |s|
    ensures Without(s, i) == [s[0]] + Without(s[1..], i - 1)
  {
  }

  lemma PairBagCons<R>(a: App<R>, t: seq<App<R>>)
    ensures PairBag([a] + t) == multiset(Pairs(a.queries)) + PairBag(t)
  {
    assert ([a] + t)[1..] == t;
  }

  lemma {:induction false} PairBagSplit<R>(t: seq<App<R>>, i: nat)
    requires i < |t|
    ensures PairBag(t) == multiset(Pairs(t[i].queries)) + PairBag(Without(t, i))
  {
    if i == 0 {
      assert Without(t, 0) == t[1..];
    } else {
      PairBagSplit(t[1..], i - 1);
      WithoutCons(t, i);
      PairBagCons(t[0], Without(t[1..], i - 1));
    }
  }

  lemma PairBagUpdate<R>(t: seq<App<R>>, i: nat, a: App<R>)
    requires i < |t|
    ensures PairBag(t[i := a]) + multiset(Pairs(t[i].queries)) == PairBag(t) + multiset(Pairs(a.queries))
  {
    PairBagSplit(t, i);
    PairBagSplit(t[i := a], i);
    assert Without(t[i := a], i) == Without(t, i);
  }

  lemma PairBagWithApp<R>(t: seq<App<R>>, addr: R, fd: int)
    ensures PairBag(WithApp(t, addr, fd)) == PairBag(t)
  {
    if FindApp(t, fd) == |t| {
      assert WithApp(t, addr, fd)[1..] == t;
    }
  }

  lemma PairBagLink<R>(t: seq<App<R>>, fd: int, node: QueryNode<R>)
    requires FindApp(t, fd) < |t|
    ensures PairBag(Link(t, fd, node)) == PairBag(t) + multiset{(node.handler, node.addr)}
  {
    var i := FindApp(t, fd);
    PairBagUpdate(t, i, t[i].(queries := [node] + t[i].queries));
    assert Pairs([node] + t[i].queries) == [(node.handler, node.addr)] + Pairs(t[i].queries);
  }

  lemma PairBagUnlink<R>(t: seq<App<R>>, fd: int, reqId: nat)
    requires Match(t, fd, reqId).Some?
    ensures var n := Match(t, fd, reqId).value;
            PairBag(t) == PairBag(Unlink(t, fd, reqId)) + multiset{(n.handler, n.addr)}
  {
    var i := FindApp(t, fd);
    var qs := t[i].queries;
    var j := FindQuery(qs, reqId);
    PairBagUpdate(t, i, t[i].(queries := Without(qs, j)));
    PairsWithout(qs, j);
    BagCancel(PairBag(Unlink(t, fd, reqId)), PairBag(t), multiset(Pairs(Without(qs, j))), multiset(Pairs(qs)),
              multiset{(qs[j].handler, qs[j].addr)});
  }

  lemma BagCancel<T>(a: multiset<T>, b: multiset<T>, c: multiset<T>, d: multiset<T>, x: multiset<T>)
    requires a + d == b + c && d == c + x
    ensures b == a + x
  {
    forall e
      ensures b[e] == (a + x)[e]
    {
      assert (a + d)[e] == (b + c)[e];
      assert d[e] == (c + x)[e];
    }
  }

  lemma BagCancelSame<T>(a: multiset<T>, b: multiset<T>, x: multiset<T>)
    requires a + x == b + x
    ensures a == b
  {
    forall e
      ensures a[e] == b[e]
    {
      assert (a + x)[e] == (b + x)[e];
    }
  }

  lemma PairsWithout<R>(qs: seq<QueryNode<R>>, j: nat)
    requires j < |qs|
    ensures multiset(Pairs(qs)) == multiset(Pairs(Without(qs, j))) + multiset{(qs[j].handler, qs[j].addr)}
  {
    var b := Pairs(qs);
    assert Pairs(Without(qs, j)) == b[..j] + b[j + 1..];
    assert b == b[..j] + [b[j]] + b[j + 1..];
  }

  lemma PairBagDrop<R>(t: seq<App<R>>, fd: int)
    requires Lookup(t, fd).Some?
    ensures PairBag(t) == PairBag(Drop(t, fd)) + multiset(Pairs(Lookup(t, fd).value))
  {
    PairBagSplit(t, FindApp(t, fd));
  }

  lemma PairsHead<R>(qs: seq<QueryNode<R>>)
    requires qs != []
    ensures multiset(Pairs(qs)) == multiset{(qs[0].handler, qs[0].addr)} + multiset(Pairs(qs[1..]))
  {
    assert Pairs(qs) == [(qs[0].handler, qs[0].addr)] + Pairs(qs[1..]);
  }

  /** The handlers of the queries, in list order. */
  function Handlers<R>(qs: seq<QueryNode<R>>): seq<R> {
    seq(|qs|, i requires 0 <= i < |qs| => qs[i].handler)
  }

  /** The pairs of the table are those of its nodes. */
  lemma {:induction false} PairBagMember<R>(t: seq<App<R>>, p: (R, R))
    ensures p in PairBag(t) <==>
            exists i, j :: 0 <= i < |t| && 0 <= j < |t[i].queries|
                           && p == (t[i].queries[j].handler, t[i].queries[j].addr)
  {
    if t != [] {
      PairBagMember(t[1..], p);
      if p in multiset(Pairs(t[0].queries)) {
        var j :| 0 <= j < |t[0].queries| && Pairs(t[0].queries)[j] == p;
        assert p == (t[0].queries[j].handler, t[0].queries[j].addr);
      } else if p in PairBag(t[1..]) {
        var i, j :| 0 <= i < |t[1..]| && 0 <= j < |t[1..][i].queries|
                    && p == (t[1..][i].queries[j].handler, t[1..][i].queries[j].addr);
        assert t[i + 1].queries[j] == t[1..][i].queries[j];
      }
      forall i, j | 0 <= i < |t| && 0 <= j < |t[i].queries| && p == (t[i].queries[j].handler, t[i].queries[j].addr)
        ensures p in PairBag(t)
      {
        if i == 0 {
          assert Pairs(t[0].queries)[j] == p;
        } else {
          assert t[1..][i - 1].queries[j] == t[i].queries[j];
        }
      }
    }
  }

  /** The query node is in the list of the application with descriptor fd. */
  ghost predicate BelongsTo<R>(t: seq<App<R>>, handler: R, addr: R, fd: int) {
    exists i, j :: 0 <= i < |t| && 0 <= j < |t[i].queries| && t[i].fd == fd
                   && (handler, addr) == (t[i].queries[j].handler, t[i].queries[j].addr)
  }

  /** What is bound in a table belongs to a descriptor that is registered. */
  lemma BoundElsewhere<R>(t: seq<App<R>>, p: (R, R), fd: int)
    requires p in PairBag(t) && Lookup(t, fd).None?
    ensures exists g :: g != fd && BelongsTo(t, p.0, p.1, g)
    ensures !BelongsTo(t, p.0, p.1, fd)
  {
    PairBagMember(t, p);
    var i, j :| 0 <= i < |t| && 0 <= j < |t[i].queries|
                && p == (t[i].queries[j].handler, t[i].queries[j].addr);
    assert t[i].fd != fd && BelongsTo(t, p.0, p.1, t[i].fd);
  }
}
