/** The packet queue: a ring of slots with two wrapped pointers and a semaphore, proved against
    unbounded counters. */
module PacketRing {
  import opened Options
  import opened InternalData

  // ---------------------------------------------------- wrapped pointers

  /** A counter as a pointer into a ring of n slots: it starts at 0 and goes back to 0 after n - 1. */
  function Wrap(a: nat, n: nat): (p: nat)
    requires n > 0
    ensures p < n
  {
    if a == 0 then 0
    else if Wrap(a - 1, n) + 1 == n then 0
    else Wrap(a - 1, n) + 1
  }

  /** The increment of a pointer modulo the ring size. */
  lemma NextPointer(a: nat, n: nat)
    requires n > 0
    ensures (Wrap(a, n) + 1) % n == Wrap(a + 1, n)
  {
    var p := Wrap(a, n);
    if p + 1 == n {
      assert n % n == 0;
    } else {
      SmallMod(p + 1, n);
    }
  }

  lemma SmallMod(p: nat, n: nat)
    requires p < n
    ensures p % n == p
  {
  }

  /** Counters less than two rings apart, in terms of the distance of their pointers. */
  lemma {:induction false} WrapDistance(a: nat, d: nat, n: nat)
    requires n > 0 && d <= n
    ensures Wrap(a + d, n) == if Wrap(a, n) + d < n then Wrap(a, n) + d else Wrap(a, n) + d - n
    decreases d
  {
    if d > 0 {
      WrapDistance(a, d - 1, n);
    }
  }

  /** The test of next_nqnode_in tells exactly when all slots but one are taken, and the test of
      next_nqnode_out and dispose_last_nqnode exactly when none is. */
  lemma PointerTests(reserved: nat, disposed: nat, n: nat)
    requires n > 0 && disposed <= reserved <= disposed + n - 1
    ensures (Wrap(reserved, n) + 1) % n == Wrap(disposed, n) <==> reserved - disposed == n - 1
    ensures Wrap(disposed, n) == Wrap(reserved, n) <==> reserved == disposed
  {
    NextPointer(reserved, n);
    WrapDistance(disposed, reserved + 1 - disposed, n);
    WrapDistance(disposed, reserved - disposed, n);
  }

  lemma {:induction false} WrapMultiple(a: nat, n: nat) returns (q: nat)
    requires n > 0
    ensures a == q * n + Wrap(a, n)
  {
    if a == 0 {
      q := 0;
    } else {
      q := WrapMultiple(a - 1, n);
      if Wrap(a - 1, n) + 1 == n {
        assert (q + 1) * n == q * n + n;
        q := q + 1;
      }
    }
  }

  lemma MultipleGap(p: nat, q: nat, n: nat)
    requires p < q
    ensures p * n + n <= q * n
  {
    assert q * n == p * n + (q - p) * n;
    assert (q - p) * n >= n by {
      assert (q - p) * n == (q - p - 1) * n + n;
    }
  }

  lemma SameRemainder(q: nat, r: nat, q': nat, r': nat, n: nat)
    requires r < n && r' < n && q * n + r == q' * n + r'
    ensures r == r'
  {
    if q < q' {
      MultipleGap(q, q', n);
    } else if q' < q {
      MultipleGap(q', q, n);
    }
  }

  lemma QuotientAndRemainder(a: nat, n: nat)
    requires n > 0
    ensures a == a / n * n + a % n
  {
  }

  /** The pointer is the counter modulo the ring size. */
  lemma WrapIsMod(a: nat, n: nat)
    requires n > 0
    ensures Wrap(a, n) == a % n
  {
    var q := WrapMultiple(a, n);
    QuotientAndRemainder(a, n);
    SameRemainder(q, Wrap(a, n), a / n, a % n, n);
  }

  // ------------------------------------------------------------ the queue

  /** The slots of `count` consecutive counter values. */
  function Stretch(from: nat, count: nat, n: nat): (w: seq<nat>)
    requires n > 0
    ensures |w| == count
    ensures forall k :: 0 <= k < count ==> w[k] == Wrap(from + k, n)
  {
    if count == 0 then [] else Stretch(from, count - 1, n) + [Wrap(from + count - 1, n)]
  }

  class Queue {
    const size: nat
    const nodes: array<Slot>
    var inPtr: nat
    var outPtr: nat
    var sem: nat
    ghost var reserved: nat   // slots handed out for input so far
    ghost var disposed: nat   // slots given back so far

    ghost predicate Valid()
      reads this
    {
      && size > 0 && nodes.Length == size
      && disposed <= reserved <= disposed + size - 1
      && inPtr == Wrap(reserved, size) && outPtr == Wrap(disposed, size)
    }

    /** The slots handed out and not given back, oldest first. */
    ghost function Window(): (w: seq<nat>)
      requires Valid()
      reads this
      ensures |w| == reserved - disposed
      ensures forall k :: 0 <= k < |w| ==> w[k] == Wrap(disposed + k, size)
    {
      Stretch(disposed, reserved - disposed, size)
    }

    constructor (nodes: array<Slot>)
      requires nodes.Length > 0
      ensures Valid() && this.nodes == nodes && size == nodes.Length && Window() == [] && sem == 0
    {
      this.nodes := nodes;
      size := nodes.Length;
      inPtr, outPtr, sem := 0, 0, 0;
      reserved, disposed := 0, 0;
    }

    /** next_nqnode_in: the next free slot joins the window at its end, and is not in it already; when
        one slot is left there is none. The semaphore is raised in either case. */
    method NextIn() returns (slot: Option<nat>)
      requires Valid()
      modifies this
      ensures Valid() && sem == old(sem) + 1
      ensures slot.None? <==> |old(Window())| == size - 1
      ensures slot.None? ==> Window() == old(Window())
      ensures slot.Some? ==> slot.value < size && slot.value !in old(Window())
      ensures slot.Some? ==> Window() == old(Window()) + [slot.value]
    {
      PointerTests(reserved, disposed, size);
      FreeSlot();
      var nptr := (inPtr + 1) % size;
      if nptr == outPtr {
        slot := None;
      } else {
        slot := Some(inPtr);
        inPtr := nptr;
        NextPointer(reserved, size);
        reserved := reserved + 1;
      }
      sem := sem + 1;
    }

    lemma FreeSlot()
      requires Valid()
      ensures Wrap(reserved, size) !in Window()
    {
      forall k | 0 <= k < |Window()|
        ensures Window()[k] != Wrap(reserved, size)
      {
        WrapDistance(disposed + k, reserved - disposed - k, size);
      }
    }

    /** next_nqnode_out, from the moment its wait on the semaphore ends: the oldest slot of the window, which
        stays in it. */
    method NextOut() returns (slot: Option<nat>)
      requires Valid() && sem > 0
      modifies this`sem
      ensures Valid() && sem == old(sem) - 1 && Window() == old(Window())
      ensures slot == if Window() == [] then None else Some(Window()[0])
    {
      PointerTests(reserved, disposed, size);
      sem := sem - 1;
      if outPtr != inPtr {
        slot := Some(outPtr);
      } else {
        slot := None;
      }
    }

    /** dispose_last_nqnode: the oldest slot leaves the window. */
    method DisposeLast()
      requires Valid()
      modifies this`outPtr, this`disposed
      ensures Valid()
      ensures Window() == if old(Window()) == [] then [] else old(Window())[1..]
    {
      PointerTests(reserved, disposed, size);
      if outPtr != inPtr {
        outPtr := (outPtr + 1) % size;
        NextPointer(disposed, size);
        disposed := disposed + 1;
      }
    }
  }
}
