/** Momentum signals over a pruned window of recent ticks, with times in nanoseconds of a steady clock. */
module Momentum {
  import opened Rounding
  import opened Wrappers

  const SECOND: real := 1_000_000_000.0

  datatype Config = Config(windowSeconds: real, thresholdPct: real, cooldownSeconds: real)

  datatype Sample = Sample(ts: int, price: real)

  datatype Signal = Signal(buy: bool, refPrice: real, changePct: real)

  datatype State = State(buf: seq<Sample>, last: Option<int>)

  const START := State([], None)

  // ------------------------------------------------------------------
  // Specification
  // ------------------------------------------------------------------

  /** Older than window + 1 s. */
  predicate Expired(c: Config, e: Sample, now: int) {
    (now - e.ts) as real > (c.windowSeconds + 1.0) * SECOND
  }

  function Prune(c: Config, buf: seq<Sample>, now: int): seq<Sample> {
    if buf != [] && Expired(c, buf[0], now) then Prune(c, buf[1..], now) else buf
  }

  /** static_cast<long long>: truncation toward zero. */
  function Trunc(x: real): int {
    if x >= 0.0 then x.Floor else -((-x).Floor)
  }

  function Cutoff(c: Config, now: int): int {
    now - Trunc(c.windowSeconds * SECOND)
  }

  function FirstAt(buf: seq<Sample>, cutoff: int): Option<real> {
    if buf == [] then None
    else if buf[0].ts >= cutoff then Some(buf[0].price)
    else FirstAt(buf[1..], cutoff)
  }

  /** `ref_price_at`, with its fallback. */
  function RefPrice(buf: seq<Sample>, cutoff: int): real
    requires buf != []
  {
    FirstAt(buf, cutoff).GetOr(buf[0].price)
  }

  predicate InCooldown(c: Config, last: Option<int>, now: int) {
    last.Some? && (now - last.value) as real < c.cooldownSeconds * SECOND
  }

  predicate Positive(buf: seq<Sample>) {
    forall i :: 0 <= i < |buf| ==> buf[i].price > 0.0
  }

  lemma FirstIsPositive(buf: seq<Sample>, cutoff: int)
    requires Positive(buf)
    ensures FirstAt(buf, cutoff).Some? ==> FirstAt(buf, cutoff).value > 0.0
  {
  }

  /** The decision on a buffer that already ends in the current tick. */
  function Decide(c: Config, buf: seq<Sample>, last: Option<int>, now: int, price: real): Option<Signal>
    requires Positive(buf)
  {
    if |buf| < 2 then None
    else
      FirstIsPositive(buf, Cutoff(c, now));
      var ref := RefPrice(buf, Cutoff(c, now));
      var change := (price / ref - 1.0) * 100.0;
      if !InCooldown(c, last, now) && Abs(change) >= c.thresholdPct then Some(Signal(change > 0.0, ref, change))
      else None
  }

  /** `update`; `pruned` false gives the generator that keeps its whole history. */
  function Tick(c: Config, s: State, pruned: bool, now: int, price: real): (r: (State, Option<Signal>))
    requires Positive(s.buf) && price > 0.0
    ensures Positive(r.0.buf)
  {
    var all := s.buf + [Sample(now, price)];
    var buf := if pruned then Prune(c, all, now) else all;
    PrunePositive(c, all, now);
    var sig := Decide(c, buf, s.last, now, price);
    (State(buf, if sig.Some? then Some(now) else s.last), sig)
  }

  lemma PrunePositive(c: Config, buf: seq<Sample>, now: int)
    requires Positive(buf)
    ensures Positive(Prune(c, buf, now))
  {
  }

  predicate ValidFeed(ticks: seq<Sample>) {
    Positive(ticks) && forall i, j :: 0 <= i < j < |ticks| ==> ticks[i].ts <= ticks[j].ts
  }

  function After(c: Config, pruned: bool, ticks: seq<Sample>): (s: State)
    requires Positive(ticks)
    ensures Positive(s.buf)
  {
    if ticks == [] then START
    else
      var t := ticks[|ticks| - 1];
      Tick(c, After(c, pruned, ticks[..|ticks| - 1]), pruned, t.ts, t.price).0
  }

  /** What each tick of the feed was answered with. */
  function Signals(c: Config, pruned: bool, ticks: seq<Sample>): (r: seq<Option<Signal>>)
    requires Positive(ticks)
    ensures |r| == |ticks|
  {
    if ticks == [] then []
    else
      var front, t := ticks[..|ticks| - 1], ticks[|ticks| - 1];
      Signals(c, pruned, front) + [Tick(c, After(c, pruned, front), pruned, t.ts, t.price).1]
  }

  // ------------------------------------------------------------------
  // Pruning is unobservable
  // ------------------------------------------------------------------

  predicate AllExpired(c: Config, buf: seq<Sample>, now: int) {
    forall i :: 0 <= i < |buf| ==> Expired(c, buf[i], now)
  }

  /** The pruned buffer is the full one without a prefix of expired ticks. */
  ghost predicate Sees(c: Config, p: seq<Sample>, full: seq<Sample>, now: int) {
    exists gone :: AllExpired(c, gone, now) && full == gone + p
  }

  lemma {:induction false} PruneSees(c: Config, buf: seq<Sample>, now: int) returns (gone: seq<Sample>)
    ensures AllExpired(c, gone, now) && buf == gone + Prune(c, buf, now)
  {
    if buf != [] && Expired(c, buf[0], now) {
      gone := PruneSees(c, buf[1..], now);
      gone := [buf[0]] + gone;
    } else {
      gone := [];
    }
  }

  lemma SeesStep(c: Config, p: seq<Sample>, full: seq<Sample>, was: int, now: int, t: Sample)
    requires was <= now && Sees(c, p, full, was)
    ensures Sees(c, Prune(c, p + [t], now), full + [t], now)
  {
    var gone :| AllExpired(c, gone, was) && full == gone + p;
    var more := PruneSees(c, p + [t], now);
    assert full + [t] == gone + (p + [t]);
    assert gone + (more + Prune(c, p + [t], now)) == (gone + more) + Prune(c, p + [t], now);
    assert AllExpired(c, gone + more, now);
  }

  lemma {:induction false} SkipExpired(c: Config, gone: seq<Sample>, p: seq<Sample>, now: int)
    requires c.windowSeconds >= 0.0 && AllExpired(c, gone, now)
    ensures FirstAt(gone + p, Cutoff(c, now)) == FirstAt(p, Cutoff(c, now))
  {
    if gone == [] {
      assert gone + p == p;
    } else {
      assert (gone + p)[1..] == gone[1..] + p;
      SkipExpired(c, gone[1..], p, now);
    }
  }

  /** The current tick is always at or after the cutoff: the fallback is unreachable. */
  lemma {:induction false} RefAlwaysFound(c: Config, buf: seq<Sample>, now: int)
    requires c.windowSeconds >= 0.0 && buf != [] && buf[|buf| - 1].ts == now
    ensures FirstAt(buf, Cutoff(c, now)).Some?
  {
    if |buf| > 1 {
      RefAlwaysFound(c, buf[1..], now);
    } else {
      assert c.windowSeconds * SECOND >= 0.0;
    }
  }

  /** One tick: if the pruned buffer sees the full one, both decide alike. */
  lemma DecideAlike(c: Config, p: seq<Sample>, full: seq<Sample>, last: Option<int>, t: Sample)
    requires c.windowSeconds >= 0.0 && c.thresholdPct > 0.0 && t.price > 0.0
    requires Positive(p) && Positive(full) && Sees(c, p, full, t.ts)
    requires full != [] && full[|full| - 1] == t
    ensures Decide(c, p, last, t.ts, t.price) == Decide(c, full, last, t.ts, t.price)
  {
    var gone :| AllExpired(c, gone, t.ts) && full == gone + p;
    assert p == [] ==> full == gone;
    assert p != [] && p[|p| - 1] == t;
    SkipExpired(c, gone, p, t.ts);
    RefAlwaysFound(c, full, t.ts);
    if |p| < 2 && |full| >= 2 {
      assert p == [t];
      FirstIsPositive(full, Cutoff(c, t.ts));
      assert RefPrice(full, Cutoff(c, t.ts)) == t.price;
      assert t.price / t.price == 1.0;
    }
  }

  /** One tick of the two generators side by side. */
  lemma TickAlike(c: Config, p: State, f: State, was: int, t: Sample)
    requires c.windowSeconds >= 0.0 && c.thresholdPct > 0.0 && t.price > 0.0 && was <= t.ts
    requires Positive(p.buf) && Positive(f.buf) && Sees(c, p.buf, f.buf, was) && p.last == f.last
    ensures var a, b := Tick(c, p, true, t.ts, t.price), Tick(c, f, false, t.ts, t.price);
            a.1 == b.1 && a.0.last == b.0.last && Sees(c, a.0.buf, b.0.buf, t.ts)
  {
    SeesStep(c, p.buf, f.buf, was, t.ts, t);
    PrunePositive(c, p.buf + [t], t.ts);
    DecideAlike(c, Prune(c, p.buf + [t], t.ts), f.buf + [t], p.last, t);
  }

  lemma {:induction false} StatesAgree(c: Config, ticks: seq<Sample>, now: int)
    requires c.windowSeconds >= 0.0 && c.thresholdPct > 0.0 && ValidFeed(ticks)
    requires ticks != [] ==> now == ticks[|ticks| - 1].ts
    ensures && Sees(c, After(c, true, ticks).buf, After(c, false, ticks).buf, now)
            && After(c, true, ticks).last == After(c, false, ticks).last
            && Signals(c, true, ticks) == Signals(c, false, ticks)
    decreases |ticks|
  {
    if ticks == [] {
      var none: seq<Sample> := [];
      assert none == none + none && AllExpired(c, none, now);
    } else {
      var front, t := ticks[..|ticks| - 1], ticks[|ticks| - 1];
      var was := if front == [] then t.ts else front[|front| - 1].ts;
      StatesAgree(c, front, was);
      TickAlike(c, After(c, true, front), After(c, false, front), was, t);
    }
  }

  /** The feed that tells the two apart when the threshold is not positive: one tick, silence, one tick. */
  lemma {:induction false} GapTellsApart(c: Config, later: int)
    requires c.windowSeconds >= 0.0 && c.thresholdPct <= 0.0
    requires later as real > (c.windowSeconds + 1.0) * SECOND
    ensures ValidFeed([Sample(0, 1.0), Sample(later, 1.0)])
    ensures var ticks := [Sample(0, 1.0), Sample(later, 1.0)];
            Signals(c, true, ticks)[1] == None && Signals(c, false, ticks)[1].Some?
  {
    var a, b := Sample(0, 1.0), Sample(later, 1.0);
    var ticks := [a, b];
    assert (c.windowSeconds + 1.0) * SECOND >= 0.0;
    assert ticks[..1] == [a];
    assert [a][..0] == [];
    assert [] + [a] == [a];
    assert Prune(c, [a, b], later) == Prune(c, [b], later) == [b] by {
      assert [a, b][1..] == [b];
    }
    assert [a] + [b] == [a, b] && [a, b][1..] == [b];
    RefAlwaysFound(c, [b], later);
    assert FirstAt([a, b], Cutoff(c, later)) == FirstAt([b], Cutoff(c, later)) == Some(1.0);
  }

  /** Over every feed the pruned generator answers like the one with full history iff the threshold is positive. */
  lemma PruningUnobservable(c: Config)
    requires c.windowSeconds >= 0.0
    ensures (forall ticks: seq<Sample> :: ValidFeed(ticks) ==> Signals(c, true, ticks) == Signals(c, false, ticks))
            <==> c.thresholdPct > 0.0
  {
    if c.thresholdPct > 0.0 {
      forall ticks: seq<Sample> | ValidFeed(ticks)
        ensures Signals(c, true, ticks) == Signals(c, false, ticks)
      {
        StatesAgree(c, ticks, if ticks == [] then 0 else ticks[|ticks| - 1].ts);
      }
    } else {
      var later := ((c.windowSeconds + 1.0) * SECOND).Floor + 1;
      GapTellsApart(c, later);
    }
  }

  // ------------------------------------------------------------------
  // Cooldown
  // ------------------------------------------------------------------

  /** Tick `i` of the feed is answered with a signal. */
  predicate SignalledAt(c: Config, ticks: seq<Sample>, i: nat)
    requires Positive(ticks) && i < |ticks|
  {
    Signals(c, true, ticks)[i].Some?
  }

  /** `last` is the time of the latest signal. */
  lemma {:induction false} LastIsLatest(c: Config, ticks: seq<Sample>)
    requires ValidFeed(ticks)
    ensures var last := After(c, true, ticks).last;
            forall i :: 0 <= i < |ticks| && SignalledAt(c, ticks, i) ==> last.Some? && ticks[i].ts <= last.value
    ensures var last := After(c, true, ticks).last;
            last.Some? ==> exists i :: 0 <= i < |ticks| && SignalledAt(c, ticks, i) && ticks[i].ts == last.value
    decreases |ticks|
  {
    if ticks != [] {
      var n := |ticks| - 1;
      var front, last := ticks[..n], After(c, true, ticks).last;
      LastIsLatest(c, front);
      forall i | 0 <= i < n
        ensures SignalledAt(c, ticks, i) <==> SignalledAt(c, front, i)
      {
        assert Signals(c, true, ticks)[i] == Signals(c, true, front)[i];
      }
      if SignalledAt(c, ticks, n) {
        assert ticks[n].ts == last.value;
      } else if After(c, true, front).last.Some? {
        var i :| 0 <= i < n && SignalledAt(c, front, i) && front[i].ts == After(c, true, front).last.value;
        assert SignalledAt(c, ticks, i) && ticks[i].ts == last.value;
      }
    }
  }

  /** Any two signals of a run are at least `cooldown_seconds` apart. */
  lemma {:induction false} CooldownKept(c: Config, ticks: seq<Sample>, i: nat, j: nat)
    requires ValidFeed(ticks) && i < j < |ticks|
    requires Signals(c, true, ticks)[i].Some? && Signals(c, true, ticks)[j].Some?
    ensures (ticks[j].ts - ticks[i].ts) as real >= c.cooldownSeconds * SECOND
    decreases |ticks|
  {
    var front := ticks[..|ticks| - 1];
    assert Signals(c, true, ticks)[i] == Signals(c, true, front)[i];
    if j < |ticks| - 1 {
      assert Signals(c, true, ticks)[j] == Signals(c, true, front)[j];
      CooldownKept(c, front, i, j);
    } else {
      LastIsLatest(c, front);
      assert front[i] == ticks[i] && SignalledAt(c, front, i);
      assert !InCooldown(c, After(c, true, front).last, ticks[j].ts);
    }
  }

  // ------------------------------------------------------------------
  // When a tick is answered, and how
  // ------------------------------------------------------------------

  lemma {:induction false} AnswerOf(c: Config, ticks: seq<Sample>, i: nat)
    requires Positive(ticks) && i < |ticks|
    ensures Positive(ticks[..i])
    ensures Signals(c, true, ticks)[i]
            == Tick(c, After(c, true, ticks[..i]), true, ticks[i].ts, ticks[i].price).1
    decreases |ticks|
  {
    var front := ticks[..|ticks| - 1];
    if i < |front| {
      AnswerOf(c, front, i);
      assert front[..i] == ticks[..i] && front[i] == ticks[i];
    }
  }

  /** The buffer is the feed without a prefix of expired ticks, whatever was signalled. */
  lemma {:induction false} BufferSees(c: Config, ticks: seq<Sample>, now: int)
    requires ValidFeed(ticks) && (ticks != [] ==> now == ticks[|ticks| - 1].ts)
    ensures Sees(c, After(c, true, ticks).buf, ticks, now)
    decreases |ticks|
  {
    if ticks == [] {
      var none: seq<Sample> := [];
      assert none == none + none && AllExpired(c, none, now);
    } else {
      var front, t := ticks[..|ticks| - 1], ticks[|ticks| - 1];
      var was := if front == [] then t.ts else front[|front| - 1].ts;
      BufferSees(c, front, was);
      SeesStep(c, After(c, true, front).buf, front, was, now, t);
      assert ticks == front + [t];
    }
  }

  lemma {:induction false} PruneStops(c: Config, buf: seq<Sample>, now: int)
    ensures Prune(c, buf, now) != [] ==> !Expired(c, Prune(c, buf, now)[0], now)
  {
    if buf != [] && Expired(c, buf[0], now) {
      PruneStops(c, buf[1..], now);
    }
  }

  lemma {:induction false} FirstAtIs(ts: seq<Sample>, cutoff: int, k: nat)
    requires k < |ts| && ts[k].ts >= cutoff && forall j :: 0 <= j < k ==> ts[j].ts < cutoff
    ensures FirstAt(ts, cutoff) == Some(ts[k].price)
  {
    if k > 0 {
      FirstAtIs(ts[1..], cutoff, k - 1);
    }
  }

  /** A tick of this age is inside the window. A window below zero is cut toward zero, like any other. */
  predicate Within(c: Config, age: int) {
    var x := c.windowSeconds * 1_000_000_000.0;
    age as real < x + 1.0 && (x >= 0.0 ==> age as real <= x)
  }

  lemma WithinIs(c: Config, now: int, ts: int)
    ensures ts >= Cutoff(c, now) <==> Within(c, now - ts)
  {
  }

  /** The reference is the first tick of the buffer inside the window, or the oldest one if there is none. */
  lemma {:induction false} RefPriceIs(c: Config, buf: seq<Sample>, now: int) returns (k: nat)
    requires buf != []
    ensures k < |buf| && RefPrice(buf, Cutoff(c, now)) == buf[k].price
    ensures forall j :: 0 <= j < k ==> !Within(c, now - buf[j].ts)
    ensures Within(c, now - buf[k].ts) || (k == 0 && forall j :: 0 <= j < |buf| ==> !Within(c, now - buf[j].ts))
  {
    k := 0;
    if first :| 0 <= first < |buf| && buf[first].ts >= Cutoff(c, now) {
      k := FirstOf(buf, Cutoff(c, now), first);
    } else {
      NoFirst(buf, Cutoff(c, now));
    }
    forall j | 0 <= j < |buf|
      ensures buf[j].ts >= Cutoff(c, now) <==> Within(c, now - buf[j].ts)
    {
      WithinIs(c, now, buf[j].ts);
    }
  }

  lemma {:induction false} FirstOf(buf: seq<Sample>, cutoff: int, some: nat) returns (k: nat)
    requires some < |buf| && buf[some].ts >= cutoff
    ensures k <= some && buf[k].ts >= cutoff && forall j :: 0 <= j < k ==> buf[j].ts < cutoff
    ensures FirstAt(buf, cutoff) == Some(buf[k].price)
  {
    if buf[0].ts >= cutoff {
      k := 0;
    } else {
      k := FirstOf(buf[1..], cutoff, some - 1);
      k := k + 1;
      assert forall j :: 1 <= j < k ==> buf[j] == buf[1..][j - 1];
    }
  }

  lemma {:induction false} NoFirst(buf: seq<Sample>, cutoff: int)
    requires forall j :: 0 <= j < |buf| ==> buf[j].ts < cutoff
    ensures FirstAt(buf, cutoff) == None
  {
    if buf != [] {
      NoFirst(buf[1..], cutoff);
    }
  }

  /** Tick `k` is the first of the feed inside the window that ends at tick `i`. */
  predicate RefAt(c: Config, ticks: seq<Sample>, i: nat, k: nat) {
    && k <= i < |ticks|
    && ticks[k].ts >= ticks[i].ts - (c.windowSeconds * 1_000_000_000.0).Floor
    && forall j :: 0 <= j < k ==> ticks[j].ts < ticks[i].ts - (c.windowSeconds * 1_000_000_000.0).Floor
  }

  lemma {:induction false} SomeRef(c: Config, ticks: seq<Sample>, i: nat, from: nat) returns (k: nat)
    requires c.windowSeconds >= 0.0 && from <= i < |ticks|
    requires forall j :: 0 <= j < from ==> ticks[j].ts < ticks[i].ts - (c.windowSeconds * 1_000_000_000.0).Floor
    ensures RefAt(c, ticks, i, k)
    decreases i - from
  {
    if ticks[from].ts >= ticks[i].ts - (c.windowSeconds * 1_000_000_000.0).Floor {
      k := from;
    } else {
      assert c.windowSeconds * 1_000_000_000.0 >= 0.0;
      k := SomeRef(c, ticks, i, from + 1);
    }
  }

  /** The tick before is no more than a second older than the window. */
  predicate Recent(c: Config, ticks: seq<Sample>, i: nat)
    requires 0 < i < |ticks|
  {
    (ticks[i].ts - ticks[i - 1].ts) as real <= (c.windowSeconds + 1.0) * 1_000_000_000.0
  }

  /** Every earlier signal is at least the cooldown old. */
  ghost predicate Cooled(c: Config, ticks: seq<Sample>, i: nat)
    requires Positive(ticks) && i < |ticks|
  {
    forall j :: 0 <= j < i && SignalledAt(c, ticks, j) ==>
      (ticks[i].ts - ticks[j].ts) as real >= c.cooldownSeconds * 1_000_000_000.0
  }

  lemma CooledIs(c: Config, ticks: seq<Sample>, i: nat)
    requires ValidFeed(ticks) && i < |ticks| && ValidFeed(ticks[..i])
    ensures Cooled(c, ticks, i) <==> !InCooldown(c, After(c, true, ticks[..i]).last, ticks[i].ts)
  {
    var front := ticks[..i];
    LastIsLatest(c, front);
    forall j | 0 <= j < i
      ensures SignalledAt(c, ticks, j) <==> SignalledAt(c, front, j)
    {
      AnswerOf(c, ticks, j);
      AnswerOf(c, front, j);
      assert front[..j] == ticks[..j];
    }
  }

  /** The pruned buffer at tick `i`: its reference is the feed's, and it holds two ticks exactly if one was recent. */
  lemma WindowAt(c: Config, ticks: seq<Sample>, i: nat, k: nat) returns (buf: seq<Sample>)
    requires c.windowSeconds >= 0.0 && ValidFeed(ticks) && RefAt(c, ticks, i, k) && Positive(ticks[..i])
    ensures buf == Prune(c, After(c, true, ticks[..i]).buf + [ticks[i]], ticks[i].ts)
    ensures buf != [] && Positive(buf) && RefPrice(buf, Cutoff(c, ticks[i].ts)) == ticks[k].price
    ensures |buf| >= 2 <==> i > 0 && Recent(c, ticks, i)
  {
    var front, t := ticks[..i], ticks[i];
    var was := if i == 0 then t.ts else ticks[i - 1].ts;
    BufferSees(c, front, was);
    SeesStep(c, After(c, true, front).buf, front, was, t.ts, t);
    buf := Prune(c, After(c, true, front).buf + [t], t.ts);
    PruneStops(c, After(c, true, front).buf + [t], t.ts);
    PrunePositive(c, After(c, true, front).buf + [t], t.ts);
    var gone :| AllExpired(c, gone, t.ts) && front + [t] == gone + buf;
    SuffixAt(c, ticks, i, gone, buf);
    RefSurvives(c, ticks, i, k, gone, buf);
  }

  lemma RefSurvives(c: Config, ticks: seq<Sample>, i: nat, k: nat, gone: seq<Sample>, buf: seq<Sample>)
    requires c.windowSeconds >= 0.0 && RefAt(c, ticks, i, k) && buf != []
    requires AllExpired(c, gone, ticks[i].ts) && ticks[..i] + [ticks[i]] == gone + buf
    ensures RefPrice(buf, Cutoff(c, ticks[i].ts)) == ticks[k].price
  {
    var full := ticks[..i] + [ticks[i]];
    assert |full| == i + 1 && forall j :: 0 <= j <= i ==> full[j] == ticks[j];
    assert c.windowSeconds * SECOND >= 0.0;
    FirstAtIs(full, Cutoff(c, ticks[i].ts), k);
    SkipExpired(c, gone, buf, ticks[i].ts);
  }

  lemma SuffixAt(c: Config, ticks: seq<Sample>, i: nat, gone: seq<Sample>, buf: seq<Sample>)
    requires c.windowSeconds >= 0.0 && ValidFeed(ticks) && i < |ticks|
    requires ticks[..i] + [ticks[i]] == gone + buf && AllExpired(c, gone, ticks[i].ts)
    requires buf != [] ==> !Expired(c, buf[0], ticks[i].ts)
    ensures buf != [] && (|buf| >= 2 <==> i > 0 && Recent(c, ticks, i))
  {
    var full, n := ticks[..i] + [ticks[i]], |gone|;
    assert |full| == i + 1 && full == gone + buf;
    assert forall j :: 0 <= j <= i ==> full[j] == ticks[j];
    assert forall j :: 0 <= j < n ==> full[j] == gone[j];
    NotYetExpired(c, full[i]);
    assert n <= i && full[n] == buf[0];
    assert i > 0 ==> (Recent(c, ticks, i) <==> !Expired(c, full[i - 1], ticks[i].ts));
  }

  lemma NotYetExpired(c: Config, t: Sample)
    requires c.windowSeconds >= 0.0
    ensures !Expired(c, t, t.ts)
  {
    assert (c.windowSeconds + 1.0) * SECOND >= 0.0;
  }

  lemma ChangeIs(price: real, ref: real, change: real, thr: real)
    requires ref > 0.0 && change == (price / ref - 1.0) * 100.0
    ensures change * ref == (price - ref) * 100.0 && (change > 0.0 <==> price > ref)
    ensures Abs(change) >= thr <==> (price - ref) * 100.0 >= thr * ref || (ref - price) * 100.0 >= thr * ref
  {
    ChangeTimes(price, ref, price / ref, change);
    Scales(change, 0.0, ref);
    Scales(change, thr, ref);
    Scales(-change, thr, ref);
    assert (-change) * ref == -(change * ref);
  }

  lemma ChangeTimes(price: real, ref: real, q: real, change: real)
    requires ref > 0.0 && q == price / ref && change == (q - 1.0) * 100.0
    ensures change * ref == (price - ref) * 100.0
  {
    assert q * ref == price;
    assert change * ref == (q * ref - ref) * 100.0;
  }

  lemma Scales(x: real, y: real, s: real)
    requires s > 0.0
    ensures (x >= y <==> x * s >= y * s) && (x > y <==> x * s > y * s)
  {
    assert (x - y) * s == x * s - y * s;
    if x > y {
      assert (x - y) * s > 0.0;
    } else if x < y {
      assert (y - x) * s > 0.0;
    }
  }

  /** The price is off the reference by at least the threshold, in per cent. */
  predicate OffBy(price: real, ref: real, thr: real) {
    (price - ref) * 100.0 >= thr * ref || (ref - price) * 100.0 >= thr * ref
  }

  /** A signal that buys when the price is above the reference, and tells the reference and the change in per cent. */
  predicate Tells(sig: Signal, price: real, ref: real) {
    sig.buy == (price > ref) && sig.refPrice == ref && sig.changePct * ref == (price - ref) * 100.0
  }

  lemma DecideIs(c: Config, buf: seq<Sample>, last: Option<int>, now: int, price: real, ref: real)
    requires buf != [] && Positive(buf) && RefPrice(buf, Cutoff(c, now)) == ref && ref > 0.0
    ensures var sig := Decide(c, buf, last, now, price);
            && (sig.Some? <==> |buf| >= 2 && !InCooldown(c, last, now) && OffBy(price, ref, c.thresholdPct))
            && (sig.Some? ==> Tells(sig.value, price, ref))
  {
    ChangeIs(price, ref, (price / ref - 1.0) * 100.0, c.thresholdPct);
  }

  lemma TickDecides(c: Config, s: State, now: int, price: real, buf: seq<Sample>)
    requires Positive(s.buf) && price > 0.0 && Positive(buf) && buf == Prune(c, s.buf + [Sample(now, price)], now)
    ensures Tick(c, s, true, now, price).1 == Decide(c, buf, s.last, now, price)
  {
  }

  lemma AnswerDecides(c: Config, ticks: seq<Sample>, i: nat, k: nat) returns (buf: seq<Sample>, last: Option<int>)
    requires c.windowSeconds >= 0.0 && ValidFeed(ticks) && RefAt(c, ticks, i, k)
    ensures buf != [] && Positive(buf) && RefPrice(buf, Cutoff(c, ticks[i].ts)) == ticks[k].price
    ensures Signals(c, true, ticks)[i] == Decide(c, buf, last, ticks[i].ts, ticks[i].price)
    ensures |buf| >= 2 <==> i > 0 && Recent(c, ticks, i)
    ensures Cooled(c, ticks, i) <==> !InCooldown(c, last, ticks[i].ts)
  {
    AnswerOf(c, ticks, i);
    assert ValidFeed(ticks[..i]);
    buf := WindowAt(c, ticks, i, k);
    CooledIs(c, ticks, i);
    last := After(c, true, ticks[..i]).last;
    TickDecides(c, After(c, true, ticks[..i]), ticks[i].ts, ticks[i].price, buf);
  }

  /**
   * Over any feed a tick is answered with a signal if and only if the one before it is recent, earlier signals have
   * cooled down, and the price is off the first price in its window by at least the threshold; the signal buys when
   * the price is above it, and tells it and the change in per cent.
   */
  lemma {:induction false} SignalExactly(c: Config, ticks: seq<Sample>, i: nat) returns (k: nat)
    requires c.windowSeconds >= 0.0 && ValidFeed(ticks) && i < |ticks|
    ensures RefAt(c, ticks, i, k)
    ensures var sig, price, ref := Signals(c, true, ticks)[i], ticks[i].price, ticks[k].price;
            && (sig.Some? <==>
                  i > 0 && Recent(c, ticks, i) && Cooled(c, ticks, i) && OffBy(price, ref, c.thresholdPct))
            && (sig.Some? ==> Tells(sig.value, price, ref))
  {
    k := SomeRef(c, ticks, i, 0);
    var buf, last := AnswerDecides(c, ticks, i, k);
    DecideIs(c, buf, last, ticks[i].ts, ticks[i].price, ticks[k].price);
  }

  // ------------------------------------------------------------------
  // The generator itself
  // ------------------------------------------------------------------

  class SignalGenerator {
    const cfg: Config
    var buf: seq<Sample>
    var lastSignal: Option<int>

    ghost function View(): State
      reads this
    {
      State(buf, lastSignal)
    }

    constructor (cfg: Config)
      ensures this.cfg == cfg && View() == START
    {
      this.cfg := cfg;
      buf, lastSignal := [], None;
    }

    method RefPriceAt(cutoff: int) returns (ref: real)
      requires buf != []
      ensures ref == RefPrice(buf, cutoff)
    {
      for i := 0 to |buf|
        invariant FirstAt(buf, cutoff) == FirstAt(buf[i..], cutoff)
      {
        if buf[i].ts >= cutoff {
          return buf[i].price;
        }
        assert buf[i..][1..] == buf[i + 1..];
      }
      assert buf[|buf|..] == [];
      return buf[0].price;
    }

    method PruneOld(now: int)
      modifies this`buf
      ensures buf == Prune(cfg, old(buf), now)
    {
      while buf != [] && Expired(cfg, buf[0], now)
        invariant Prune(cfg, buf, now) == Prune(cfg, old(buf), now)
        decreases |buf|
      {
        buf := buf[1..];
      }
    }

    method Update(now: int, price: real) returns (sig: Option<Signal>)
      requires Positive(buf) && price > 0.0
      modifies this
      ensures Positive(buf)
      ensures (View(), sig) == Tick(cfg, old(View()), true, now, price)
    {
      buf := buf + [Sample(now, price)];
      PrunePositive(cfg, buf, now);
      PruneOld(now);
      if |buf| < 2 {
        return None;
      }
      FirstIsPositive(buf, Cutoff(cfg, now));
      var ref := RefPriceAt(Cutoff(cfg, now));
      var change := (price / ref - 1.0) * 100.0;
      if !InCooldown(cfg, lastSignal, now) && Abs(change) >= cfg.thresholdPct {
        lastSignal := Some(now);
        return Some(Signal(change > 0.0, ref, change));
      }
      return None;
    }
  }
}
