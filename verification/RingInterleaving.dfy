/** The ring, loads and stores interleaved at will, memory sequentially consistent. */
module RingInterleaving {
  import opened SpscRing

  datatype Producer<T> =
    | Resting
    | HeadLoaded(x: T, h: nat)
    | TailChecked(x: T, h: nat, dropped: bool)
    | SlotWritten(x: T, h: nat, dropped: bool)

  datatype Consumer<T> =
    | Waiting
    | TailLoaded(t: nat)
    | HeadChecked(t: nat)
    | SlotRead(t: nat, x: T)

  /**
   * `pushed` and `popped` are the values published and taken so far. `lapped` says that some push
   * answered false, `missed` that some pop answered "empty" although a published value was waiting.
   */
  datatype Ring<T> = Ring(slots: seq<T>, head: nat, tail: nat, prod: Producer<T>, cons: Consumer<T>,
                          pushed: seq<T>, popped: seq<T>, lapped: bool, missed: bool)

  datatype Move<T> =
    | StartPush(x: T) | LoadTail | WriteSlot | StoreHead
    | StartPop | LoadHead | ReadSlot | StoreTail

  /** Memory is well-formed: indices in range. */
  predicate Typed<T(!new)>(r: Ring<T>, capacity: nat) {
    && capacity > 0 && |r.slots| == capacity && r.head < capacity && r.tail < capacity
    && (!r.prod.Resting? ==> r.prod.h < capacity)
    && (!r.cons.Waiting? ==> r.cons.t < capacity)
  }

  function Initial<T>(capacity: nat, fill: T): Ring<T> {
    Ring(seq(capacity, i => fill), 0, 0, Resting, Waiting, [], [], false, false)
  }

  /** One atomic step. A push is started only while at most `room` published values are untaken. */
  function Next<T(!new)>(r: Ring<T>, m: Move<T>, capacity: nat, room: int): (n: Ring<T>)
    requires Typed(r, capacity)
    ensures Typed(n, capacity)
  {
    match m
    case StartPush(x) =>
      if r.prod.Resting? && |r.pushed| - |r.popped| <= room then r.(prod := HeadLoaded(x, r.head)) else r
    case LoadTail =>
      if r.prod.HeadLoaded? then r.(prod := TailChecked(r.prod.x, r.prod.h, Wrap(r.prod.h + 1, capacity) == r.tail))
      else r
    case WriteSlot =>
      if r.prod.TailChecked?
      then r.(slots := r.slots[r.prod.h := r.prod.x], prod := SlotWritten(r.prod.x, r.prod.h, r.prod.dropped))
      else r
    case StoreHead =>
      if r.prod.SlotWritten?
      then r.(head := Wrap(r.prod.h + 1, capacity), pushed := r.pushed + [r.prod.x],
              lapped := r.lapped || r.prod.dropped, prod := Resting)
      else r
    case StartPop =>
      if r.cons.Waiting? then r.(cons := TailLoaded(r.tail)) else r
    case LoadHead =>
      if r.cons.TailLoaded?
      then if r.cons.t == r.head then r.(cons := Waiting, missed := r.missed || |r.pushed| > |r.popped|)
           else r.(cons := HeadChecked(r.cons.t))
      else r
    case ReadSlot =>
      if r.cons.HeadChecked? then r.(cons := SlotRead(r.cons.t, r.slots[r.cons.t])) else r
    case StoreTail =>
      if r.cons.SlotRead?
      then r.(tail := Wrap(r.cons.t + 1, capacity), popped := r.popped + [r.cons.x], cons := Waiting)
      else r
  }

  function Run<T(!new)>(r: Ring<T>, ms: seq<Move<T>>, capacity: nat, room: int): (n: Ring<T>)
    requires Typed(r, capacity)
    ensures Typed(n, capacity)
    decreases |ms|
  {
    if ms == [] then r else Run(Next(r, ms[0], capacity, room), ms[1..], capacity, room)
  }

  // ------------------------------------------------------------------
  // Invariant
  // ------------------------------------------------------------------

  /** Untaken published values: n of them, in the slots from tail on; `top` bounds n. */
  ghost predicate Window<T(!new)>(r: Ring<T>, capacity: nat, top: int)
    requires Typed(r, capacity)
  {
    var n := |r.pushed| - |r.popped|;
    && 0 <= n <= capacity && n <= top + 1
    && r.popped == r.pushed[..|r.popped|]
    && r.head == Slot(r.tail, n, capacity)
    && forall i :: 0 <= i < n ==> r.slots[Slot(r.tail, i, capacity)] == r.pushed[|r.popped| + i]
  }

  ghost predicate ProducerOk<T(!new)>(r: Ring<T>, capacity: nat, top: int)
    requires Typed(r, capacity)
  {
    !r.prod.Resting? ==>
      && |r.pushed| - |r.popped| <= top
      && r.prod.h == r.head
      && (r.prod.SlotWritten? ==> r.slots[r.prod.h] == r.prod.x)
      && (!r.prod.HeadLoaded? && top < capacity - 1 ==> !r.prod.dropped)
  }

  ghost predicate ConsumerOk<T(!new)>(r: Ring<T>, capacity: nat)
    requires Typed(r, capacity)
  {
    && (!r.cons.Waiting? ==> r.cons.t == r.tail)
    && (r.cons.HeadChecked? || r.cons.SlotRead? ==> |r.pushed| > |r.popped|)
    && (r.cons.SlotRead? && |r.pushed| > |r.popped| ==> r.cons.x == r.pushed[|r.popped|])
  }

  ghost predicate Inv<T(!new)>(r: Ring<T>, capacity: nat, room: int) {
    && Typed(r, capacity)
    && Window(r, capacity, room) && ProducerOk(r, capacity, room) && ConsumerOk(r, capacity)
    && (room < capacity - 1 ==> !r.lapped && !r.missed)
  }

  lemma ProduceInv<T(!new)>(r: Ring<T>, m: Move<T>, capacity: nat, room: int)
    requires room < capacity && Inv(r, capacity, room)
    requires m.StartPush? || m.LoadTail? || m.WriteSlot?
    ensures Inv(Next(r, m, capacity, room), capacity, room)
  {
  }

  /** The slot written becomes the last one of the window. */
  lemma PublishInv<T(!new)>(r: Ring<T>, capacity: nat, room: int)
    requires room < capacity && Inv(r, capacity, room)
    ensures Inv(Next(r, StoreHead, capacity, room), capacity, room)
  {
    var e := Next(r, StoreHead, capacity, room);
    assert e.popped == r.pushed[..|r.popped|];
  }

  lemma ConsumeInv<T(!new)>(r: Ring<T>, m: Move<T>, capacity: nat, room: int)
    requires room < capacity && Inv(r, capacity, room)
    requires m.StartPop? || m.LoadHead? || m.ReadSlot?
    ensures Inv(Next(r, m, capacity, room), capacity, room)
  {
    if r.cons.HeadChecked? {
      assert r.slots[Slot(r.tail, 0, capacity)] == r.pushed[|r.popped| + 0];
    }
  }

  /** The first slot of the window is given up. */
  lemma TakeInv<T(!new)>(r: Ring<T>, capacity: nat, room: int)
    requires room < capacity && Inv(r, capacity, room)
    ensures Inv(Next(r, StoreTail, capacity, room), capacity, room)
  {
    var e := Next(r, StoreTail, capacity, room);
    if r.cons.SlotRead? {
      var n := |e.pushed| - |e.popped|;
      assert e.popped == e.pushed[..|e.popped|];
      forall i | 0 <= i < n
        ensures e.slots[Slot(e.tail, i, capacity)] == e.pushed[|e.popped| + i]
      {
        assert Slot(e.tail, i, capacity) == Slot(r.tail, i + 1, capacity);
      }
    }
  }

  lemma NextInv<T(!new)>(r: Ring<T>, m: Move<T>, capacity: nat, room: int)
    requires room < capacity && Inv(r, capacity, room)
    ensures Inv(Next(r, m, capacity, room), capacity, room)
  {
    match m
    case StoreHead => PublishInv(r, capacity, room);
    case StoreTail => TakeInv(r, capacity, room);
    case StartPop => ConsumeInv(r, m, capacity, room);
    case LoadHead => ConsumeInv(r, m, capacity, room);
    case ReadSlot => ConsumeInv(r, m, capacity, room);
    case _ => ProduceInv(r, m, capacity, room);
  }

  lemma {:induction false} RunInv<T(!new)>(r: Ring<T>, ms: seq<Move<T>>, capacity: nat, room: int)
    requires room < capacity && Inv(r, capacity, room)
    ensures Inv(Run(r, ms, capacity, room), capacity, room)
    decreases |ms|
  {
    if ms != [] {
      NextInv(r, ms[0], capacity, room);
      RunInv(Next(r, ms[0], capacity, room), ms[1..], capacity, room);
    }
  }

  // ------------------------------------------------------------------
  // Main results
  // ------------------------------------------------------------------

  /** What is taken is what was published, in order, from the first on. */
  ghost predicate Faithful<T(!new)>(r: Ring<T>) {
    r.popped <= r.pushed
  }

  /** The slot about to be read is not the slot about to be written. */
  ghost predicate NoRace<T(!new)>(r: Ring<T>) {
    r.prod.TailChecked? && r.cons.HeadChecked? ==> r.prod.h != r.cons.t
  }

  /** With room for at most Capacity - 2 values, no interleaving loses, reorders, laps, misses or races. */
  lemma SpscSafety<T(!new)>(capacity: nat, fill: T, ms: seq<Move<T>>, room: int)
    requires capacity > 0 && -1 <= room <= capacity - 2
    ensures var r := Run(Initial(capacity, fill), ms, capacity, room);
            Faithful(r) && NoRace(r) && !r.lapped && !r.missed
  {
    RunInv(Initial(capacity, fill), ms, capacity, room);
  }

  /** One value more and the values are still faithful and race-free. */
  lemma FaithfulToTheBrim<T(!new)>(capacity: nat, fill: T, ms: seq<Move<T>>, room: int)
    requires capacity > 0 && -1 <= room <= capacity - 1
    ensures Faithful(Run(Initial(capacity, fill), ms, capacity, room))
    ensures NoRace(Run(Initial(capacity, fill), ms, capacity, room))
  {
    RunInv(Initial(capacity, fill), ms, capacity, room);
  }

  // ------------------------------------------------------------------
  // The bounds are exact
  // ------------------------------------------------------------------

  function PushMoves(x: int): seq<Move<int>> {
    [StartPush(x), LoadTail, WriteSlot, StoreHead]
  }

  /** Pushes of 0, 1, ..., k - 1, one after the other. */
  function PushAll(k: nat): seq<Move<int>> {
    if k == 0 then [] else PushAll(k - 1) + PushMoves(k - 1)
  }

  lemma {:induction false} RunConcat(r: Ring<int>, ms: seq<Move<int>>, ns: seq<Move<int>>, capacity: nat, room: int)
    requires Typed(r, capacity)
    ensures Run(r, ms + ns, capacity, room) == Run(Run(r, ms, capacity, room), ns, capacity, room)
    decreases |ms|
  {
    if ms == [] {
      assert ms + ns == ns;
    } else {
      assert (ms + ns)[1..] == ms[1..] + ns;
      RunConcat(Next(r, ms[0], capacity, room), ms[1..], ns, capacity, room);
    }
  }

  lemma RunOne(r: Ring<int>, a: Move<int>, capacity: nat, room: int)
    requires Typed(r, capacity)
    ensures Run(r, [a], capacity, room) == Next(r, a, capacity, room)
  {
    var n := Next(r, a, capacity, room);
    assert Run(n, [], capacity, room) == n;
    assert [a][1..] == [];
  }

  lemma RunTwo(r: Ring<int>, a: Move<int>, b: Move<int>, capacity: nat, room: int)
    requires Typed(r, capacity)
    ensures Run(r, [a, b], capacity, room) == Next(Next(r, a, capacity, room), b, capacity, room)
  {
    assert [a, b] == [a] + [b];
    RunConcat(r, [a], [b], capacity, room);
    RunOne(r, a, capacity, room);
    RunOne(Next(r, a, capacity, room), b, capacity, room);
  }

  lemma RunFour(r: Ring<int>, a: Move<int>, b: Move<int>, c: Move<int>, d: Move<int>, capacity: nat, room: int)
    requires Typed(r, capacity)
    ensures Run(r, [a, b, c, d], capacity, room)
            == Next(Next(Next(Next(r, a, capacity, room), b, capacity, room), c, capacity, room), d, capacity, room)
  {
    assert [a, b, c, d] == [a, b] + [c, d];
    RunConcat(r, [a, b], [c, d], capacity, room);
    RunTwo(r, a, b, capacity, room);
    RunTwo(Run(r, [a, b], capacity, room), c, d, capacity, room);
  }

  /** A ring that has only been pushed 0 .. k - 1, at most one lap and one value more. */
  ghost predicate OnlyPushed(r: Ring<int>, k: nat, capacity: nat) {
    && Typed(r, capacity) && k <= capacity + 1
    && r.prod.Resting? && r.cons.Waiting? && r.popped == [] && |r.pushed| == k && r.tail == 0
    && (forall i :: 0 <= i < k ==> r.pushed[i] == i)
    && r.head == (if k < capacity then k else if k == capacity then 0 else Wrap(1, capacity))
    && (capacity >= 2 && k > 0 ==> r.slots[0] == if k <= capacity then 0 else capacity)
    && (r.lapped <==> k >= capacity)
  }

  lemma PushRuns(r: Ring<int>, k: nat, capacity: nat, room: int)
    requires OnlyPushed(r, k, capacity) && k <= capacity && k <= room
    ensures OnlyPushed(Run(r, PushMoves(k), capacity, room), k + 1, capacity)
  {
    RunFour(r, StartPush(k), LoadTail, WriteSlot, StoreHead, capacity, room);
  }

  lemma {:induction false} PushAllRuns(k: nat, capacity: nat, room: int)
    requires 0 < capacity && k <= capacity + 1 && k <= room + 1
    ensures OnlyPushed(Run(Initial(capacity, 0), PushAll(k), capacity, room), k, capacity)
  {
    if k > 0 {
      PushAllRuns(k - 1, capacity, room);
      RunConcat(Initial(capacity, 0), PushAll(k - 1), PushMoves(k - 1), capacity, room);
      PushRuns(Run(Initial(capacity, 0), PushAll(k - 1), capacity, room), k - 1, capacity, room);
    }
  }

  /** One after the other, the first push that answers false is the one that fills the last slot. */
  lemma LappedWhenFull(k: nat, capacity: nat, room: int)
    requires 0 < capacity && k <= capacity && k <= room + 1
    ensures Run(Initial(capacity, 0), PushAll(k), capacity, room).lapped <==> k == capacity
  {
    PushAllRuns(k, capacity, room);
  }

  /** Capacity pushes fill the ring to where it reads as empty. */
  lemma MissedWhenFull(capacity: nat, room: int)
    requires capacity > 0 && room >= capacity - 1
    ensures Run(Initial(capacity, 0), PushAll(capacity) + [StartPop, LoadHead], capacity, room).missed
  {
    PushAllRuns(capacity, capacity, room);
    var r := Run(Initial(capacity, 0), PushAll(capacity), capacity, room);
    RunConcat(Initial(capacity, 0), PushAll(capacity), [StartPop, LoadHead], capacity, room);
    RunTwo(r, StartPop, LoadHead, capacity, room);
  }

  /** One push more overwrites the oldest value. */
  lemma OverwrittenWhenOver(capacity: nat, room: int)
    requires capacity >= 2 && room >= capacity
    ensures !Faithful(Run(Initial(capacity, 0), PushAll(capacity + 1) + [StartPop, LoadHead, ReadSlot, StoreTail],
                          capacity, room))
  {
    PushAllRuns(capacity + 1, capacity, room);
    PopsAfter(PushAll(capacity + 1), capacity, room);
  }

  lemma PopsAfter(ms: seq<Move<int>>, capacity: nat, room: int)
    requires capacity >= 2 && OnlyPushed(Run(Initial(capacity, 0), ms, capacity, room), capacity + 1, capacity)
    ensures !Faithful(Run(Initial(capacity, 0), ms + [StartPop, LoadHead, ReadSlot, StoreTail], capacity, room))
  {
    RunConcat(Initial(capacity, 0), ms, [StartPop, LoadHead, ReadSlot, StoreTail], capacity, room);
    PopsOverwritten(Run(Initial(capacity, 0), ms, capacity, room), capacity, room);
  }

  lemma PopsOverwritten(r: Ring<int>, capacity: nat, room: int)
    requires capacity >= 2 && OnlyPushed(r, capacity + 1, capacity)
    ensures !Faithful(Run(r, [StartPop, LoadHead, ReadSlot, StoreTail], capacity, room))
  {
    RunFour(r, StartPop, LoadHead, ReadSlot, StoreTail, capacity, room);
    var e := Run(r, [StartPop, LoadHead, ReadSlot, StoreTail], capacity, room);
    assert e.popped[0] == capacity && e.pushed[0] == 0;
  }

  /** No pop ever misses a waiting value, and no push answers false, iff pushes start at up to Capacity - 2 values. */
  lemma NeverMissedIff(capacity: nat, room: int)
    requires capacity > 0 && -1 <= room
    ensures (forall ms :: !Run(Initial(capacity, 0), ms, capacity, room).missed) <==> room <= capacity - 2
    ensures (forall ms :: !Run(Initial(capacity, 0), ms, capacity, room).lapped) <==> room <= capacity - 2
  {
    if room <= capacity - 2 {
      forall ms
        ensures !Run(Initial(capacity, 0), ms, capacity, room).missed
        ensures !Run(Initial(capacity, 0), ms, capacity, room).lapped
      {
        SpscSafety(capacity, 0, ms, room);
      }
    } else {
      MissedWhenFull(capacity, room);
      LappedWhenFull(capacity, capacity, room);
    }
  }

  /** A ring of one slot: every pop finds head and tail equal, so nothing is ever taken. */
  lemma {:induction false} OneSlotTakesNone(r: Ring<int>, ms: seq<Move<int>>, room: int)
    requires Typed(r, 1) && r.popped == [] && (r.cons.Waiting? || r.cons.TailLoaded?)
    ensures Run(r, ms, 1, room).popped == []
    decreases |ms|
  {
    if ms != [] {
      OneSlotTakesNone(Next(r, ms[0], 1, room), ms[1..], room);
    }
  }

  /**
   * What is taken is always what was published if and only if pushes start at Capacity - 1 values or fewer, or
   * Capacity is 1 and nothing is ever taken.
   */
  lemma FaithfulIff(capacity: nat, room: int)
    requires capacity > 0 && -1 <= room
    ensures (forall ms :: Faithful(Run(Initial(capacity, 0), ms, capacity, room)))
            <==> capacity == 1 || room <= capacity - 1
  {
    if capacity == 1 {
      forall ms ensures Faithful(Run(Initial(capacity, 0), ms, capacity, room)) {
        OneSlotTakesNone(Initial(capacity, 0), ms, room);
      }
    } else if room <= capacity - 1 {
      forall ms ensures Faithful(Run(Initial(capacity, 0), ms, capacity, room)) {
        FaithfulToTheBrim(capacity, 0, ms, room);
      }
    } else {
      OverwrittenWhenOver(capacity, room);
    }
  }
}
