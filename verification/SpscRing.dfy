/** The single-producer single-consumer ring, used by one thread at a time. */
module SpscRing {

  lemma MultipleIsBig(k: int, n: int)
    requires n > 0 && k != 0
    ensures k * n >= n || k * n <= -n
  {
  }

  /** The remainder is unique. */
  lemma ModOf(a: int, q: int, r: int, n: int)
    requires 0 <= r < n && a == q * n + r
    ensures a % n == r
  {
    var q', r' := a / n, a % n;
    assert a == q' * n + r';
    assert (q - q') * n == r' - r;
    if q != q' {
      MultipleIsBig(q - q', n);
    }
  }

  /** The index wrap: `& kMask` with Capacity a power of two, over at most one lap either way. */
  function Wrap(i: int, capacity: nat): (r: nat)
    requires capacity > 0 && 0 - capacity <= i < 2 * capacity
    ensures r == if i < 0 then i + capacity else if i < capacity then i else i - capacity
  {
    ModOf(i, if i < 0 then -1 else if i < capacity then 0 else 1,
          if i < 0 then i + capacity else if i < capacity then i else i - capacity, capacity);
    i % capacity
  }

  /** The slot of the i-th item behind index `t`. */
  function Slot(t: nat, i: nat, capacity: nat): (r: nat)
    requires t < capacity && i <= capacity
    ensures r < capacity
  {
    Wrap(t + i, capacity)
  }

  // ------------------------------------------------------------------
  // Specification: operations on the queued items
  // ------------------------------------------------------------------

  /** Pushing onto a ring with Capacity - 1 items laps it: head meets tail and nothing is left. */
  function Pushed<T>(items: seq<T>, x: T, capacity: nat): seq<T>
    requires capacity > 0
  {
    if |items| == capacity - 1 then [] else items + [x]
  }

  function Popped<T>(items: seq<T>): seq<T> {
    if items == [] then [] else items[1..]
  }

  datatype Op<T> = Push(x: T) | Pop

  /** Items queued, items pushed so far, and number of pops that found an item. */
  datatype History<T> = History(items: seq<T>, pushes: seq<T>, pops: nat)

  function After<T>(h: History<T>, op: Op<T>, capacity: nat): History<T>
    requires capacity > 0
  {
    match op
    case Push(x) => History(Pushed(h.items, x, capacity), h.pushes + [x], h.pops)
    case Pop => if h.items == [] then h else History(h.items[1..], h.pushes, h.pops + 1)
  }

  function Replay<T>(ops: seq<Op<T>>, capacity: nat): History<T>
    requires capacity > 0
  {
    if ops == [] then History([], [], 0)
    else After(Replay(ops[..|ops| - 1], capacity), ops[|ops| - 1], capacity)
  }

  lemma ModStep(a: int, b: int, n: nat)
    requires n > 0 && 0 <= b < n && a % n == b
    ensures ((a + 1) % n == if b + 1 == n then 0 else b + 1) && ((a - 1) % n == if b == 0 then n - 1 else b - 1)
  {
    var q := a / n;
    assert a == q * n + b;
    assert (q + 1) * n == q * n + n && (q - 1) * n == q * n - n;
    if b + 1 == n {
      ModOf(a + 1, q + 1, 0, n);
    } else {
      ModOf(a + 1, q, b + 1, n);
    }
    if b == 0 {
      ModOf(a - 1, q - 1, n - 1, n);
    } else {
      ModOf(a - 1, q, b - 1, n);
    }
  }

  /**
   * The lapping law: after any mix of pushes and pops the ring holds, in order, exactly the last
   * (pushes - pops) mod Capacity items pushed.
   */
  lemma {:induction false} LappingLaw<T>(ops: seq<Op<T>>, capacity: nat)
    requires capacity > 0
    ensures var h := Replay(ops, capacity);
            var n := (|h.pushes| - h.pops) % capacity;
            n <= |h.pushes| && h.items == h.pushes[|h.pushes| - n..]
  {
    if ops != [] {
      var front := ops[..|ops| - 1];
      LappingLaw(front, capacity);
      var g := Replay(front, capacity);
      var n := (|g.pushes| - g.pops) % capacity;
      assert |g.items| == n;
      ModStep(|g.pushes| - g.pops, n, capacity);
    }
  }

  /** With pushes alone, `pushed mod Capacity` items survive. */
  lemma {:induction false} PushesOnly<T>(ops: seq<Op<T>>, capacity: nat)
    requires capacity > 0 && forall i :: 0 <= i < |ops| ==> ops[i].Push?
    ensures |Replay(ops, capacity).pushes| == |ops| && Replay(ops, capacity).pops == 0
    ensures |Replay(ops, capacity).items| == |ops| % capacity
  {
    if ops != [] {
      PushesOnly(ops[..|ops| - 1], capacity);
    }
    LappingLaw(ops, capacity);
  }

  // ------------------------------------------------------------------
  // The ring itself
  // ------------------------------------------------------------------

  class SpscRing<T(0)> {
    const capacity: nat
    const slots: array<T>
    var head: nat
    var tail: nat
    ghost var contents: seq<T>

    ghost predicate Valid()
      reads this, slots
    {
      && capacity > 0 && slots.Length == capacity
      && head < capacity && tail < capacity
      && |contents| < capacity
      && head == Slot(tail, |contents|, capacity)
      && forall i :: 0 <= i < |contents| ==> contents[i] == slots[Slot(tail, i, capacity)]
    }

    constructor (capacity: nat)
      requires capacity > 0
      ensures Valid() && contents == [] && this.capacity == capacity && fresh(slots)
    {
      this.capacity := capacity;
      slots := new T[capacity];
      head, tail, contents := 0, 0, [];
    }

    /** Pushes one item. The answer is false exactly when the push laps the ring and so empties it. */
    method Push(item: T) returns (ok: bool)
      requires Valid()
      modifies this, slots
      ensures Valid()
      ensures contents == Pushed(old(contents), item, capacity)
      ensures ok <==> |old(contents)| < capacity - 1
      ensures !ok ==> contents == []
    {
      var next := Wrap(head + 1, capacity);
      var dropped := next == tail;
      slots[head] := item;
      head := next;
      contents := Pushed(contents, item, capacity);
      ok := !dropped;
    }

    method Pop() returns (found: bool, out: T)
      requires Valid()
      modifies this
      ensures Valid()
      ensures found <==> old(contents) != []
      ensures found ==> out == old(contents)[0]
      ensures contents == Popped(old(contents))
    {
      out := *;
      found := tail != head;
      if found {
        out := slots[tail];
        tail := Wrap(tail + 1, capacity);
        contents := contents[1..];
      }
    }

    method Size() returns (n: nat)
      requires Valid()
      ensures n == |contents|
    {
      n := Wrap(head - tail, capacity);
    }
  }
}
