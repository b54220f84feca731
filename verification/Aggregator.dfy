/** Composite lead price from two windows of recent ticks. */
module Aggregator {
  import opened Rounding
  import SpscRing
  import opened Wrappers

  const MAX_AGE: int := 50

  datatype Tick = Tick(ts: int, bid: real, ask: real, last: real, valid: bool) {
    function Mid(): real {
      if bid > 0.0 && ask > 0.0 then (bid + ask) * 0.5 else last
    }
  }

  predicate Stale(t: Tick, now: int) {
    t.ts > 0 && now - t.ts > MAX_AGE
  }

  // ------------------------------------------------------------------
  // Windows
  // ------------------------------------------------------------------

  /** The valid ticks among `ts` that are not stale at `now`, in order. */
  function Keep(ts: seq<Tick>, now: int): seq<Tick> {
    if ts == [] then []
    else
      var t := ts[|ts| - 1];
      Keep(ts[..|ts| - 1], now) + (if t.valid && !Stale(t, now) then [t] else [])
  }

  /** `prune_old`: drop stale ticks from the front. */
  function Prune(ts: seq<Tick>, now: int): seq<Tick> {
    if ts != [] && Stale(ts[0], now) then Prune(ts[1..], now) else ts
  }

  /** `ingest` of a batch popped from the ring. */
  function Ingested(window: seq<Tick>, batch: seq<Tick>, now: int): seq<Tick> {
    Prune(window + Keep(batch, now), now)
  }

  datatype Poll = Poll(now: int, batch: seq<Tick>)

  function WindowAfter(polls: seq<Poll>): seq<Tick> {
    if polls == [] then []
    else
      var p := polls[|polls| - 1];
      Ingested(WindowAfter(polls[..|polls| - 1]), p.batch, p.now)
  }

  function Popped(polls: seq<Poll>): seq<Tick> {
    if polls == [] then [] else Popped(polls[..|polls| - 1]) + polls[|polls| - 1].batch
  }

  predicate ClockForward(polls: seq<Poll>) {
    forall i, j :: 0 <= i < j < |polls| ==> polls[i].now <= polls[j].now
  }

  predicate Dated(ts: seq<Tick>) {
    && (forall i :: 0 <= i < |ts| ==> ts[i].ts > 0)
    && (forall i, j :: 0 <= i < j < |ts| ==> ts[i].ts <= ts[j].ts)
  }

  predicate AllValid(ts: seq<Tick>) {
    forall i :: 0 <= i < |ts| ==> ts[i].valid
  }

  lemma {:induction false} KeepConcat(a: seq<Tick>, b: seq<Tick>, now: int)
    ensures Keep(a + b, now) == Keep(a, now) + Keep(b, now)
    decreases |b|
  {
    if b == [] {
      assert a + b == a;
    } else {
      var c := b[..|b| - 1];
      assert (a + b)[..|a + b| - 1] == a + c;
      KeepConcat(a, c, now);
    }
  }

  /** A tick that is stale stays stale. */
  lemma {:induction false} KeepLater(ts: seq<Tick>, now: int, later: int)
    requires now <= later
    ensures Keep(Keep(ts, now), later) == Keep(ts, later)
  {
    if ts != [] {
      var front, t := ts[..|ts| - 1], ts[|ts| - 1];
      KeepLater(front, now, later);
      if t.valid && !Stale(t, now) {
        KeepConcat(Keep(front, now), [t], later);
      } else {
        assert Keep(front, now) + [] == Keep(front, now);
      }
    }
  }

  lemma {:induction false} KeepValid(ts: seq<Tick>, now: int)
    ensures AllValid(Keep(ts, now))
  {
    if ts != [] {
      KeepValid(ts[..|ts| - 1], now);
    }
  }

  lemma {:induction false} KeepDated(ts: seq<Tick>, now: int, kept: seq<Tick>)
    requires Dated(ts) && kept == Keep(ts, now)
    ensures Dated(kept) && NotAfter(kept, ts)
  {
    if ts != [] {
      var front, t := ts[..|ts| - 1], ts[|ts| - 1];
      var k := Keep(front, now);
      assert kept == k + [t] || kept == k;
      assert ts == front + [t];
      DatedFront(ts, front, t);
      KeepDated(front, now, k);
      LastKept(k, front, t);
    }
  }

  lemma DatedFront(ts: seq<Tick>, front: seq<Tick>, t: Tick)
    requires Dated(ts) && ts == front + [t]
    ensures Dated(front) && t.ts > 0 && (front != [] ==> front[|front| - 1].ts <= t.ts)
  {
    assert forall i :: 0 <= i < |front| ==> front[i] == ts[i];
    assert ts[|front|] == t;
  }

  lemma LastKept(kept: seq<Tick>, front: seq<Tick>, t: Tick)
    requires Dated(kept) && NotAfter(kept, front) && t.ts > 0 && (front != [] ==> front[|front| - 1].ts <= t.ts)
    ensures Dated(kept + [t]) && NotAfter(kept + [t], front + [t]) && NotAfter(kept, front + [t])
  {
  }

  /** Pruning only gives up stale ticks. */
  lemma {:induction false} PruneKeeps(ts: seq<Tick>, now: int)
    ensures Keep(Prune(ts, now), now) == Keep(ts, now)
  {
    if ts != [] && Stale(ts[0], now) {
      PruneKeeps(ts[1..], now);
      assert ts == [ts[0]] + ts[1..];
      KeepConcat([ts[0]], ts[1..], now);
    }
  }

  /** On dated ticks pruning the front gives up every stale tick. */
  lemma {:induction false} PruneIsKeep(ts: seq<Tick>, now: int)
    requires Dated(ts) && AllValid(ts)
    ensures Prune(ts, now) == Keep(ts, now)
  {
    if ts != [] && Stale(ts[0], now) {
      PruneIsKeep(ts[1..], now);
      KeepRest(ts[0], ts[1..], now);
      assert ts == [ts[0]] + ts[1..];
    } else {
      KeepAll(ts, now);
    }
  }

  lemma {:induction false} KeepRest(t: Tick, rest: seq<Tick>, now: int)
    requires Stale(t, now)
    ensures Keep([t] + rest, now) == Keep(rest, now)
  {
    KeepConcat([t], rest, now);
    assert Keep([t], now) == [];
  }

  lemma KeepSnoc(front: seq<Tick>, t: Tick, now: int)
    requires t.valid && !Stale(t, now)
    ensures Keep(front + [t], now) == Keep(front, now) + [t]
  {
    assert (front + [t])[..|front|] == front;
  }

  lemma {:induction false} KeepAll(ts: seq<Tick>, now: int)
    requires AllValid(ts) && forall i :: 0 <= i < |ts| ==> !Stale(ts[i], now)
    ensures Keep(ts, now) == ts
  {
    if ts != [] {
      var front, t := ts[..|ts| - 1], ts[|ts| - 1];
      KeepAll(front, now);
      KeepSnoc(front, t, now);
      assert ts == front + [t];
    }
  }

  /** With a forward clock and any time stamps at all, no fresh tick is ever lost. */
  lemma {:induction false} FreshNeverLost(polls: seq<Poll>, now: int)
    requires ClockForward(polls) && forall i :: 0 <= i < |polls| ==> polls[i].now <= now
    ensures Keep(WindowAfter(polls), now) == Keep(Popped(polls), now)
    decreases |polls|
  {
    if polls != [] {
      var front, p := polls[..|polls| - 1], polls[|polls| - 1];
      var w := WindowAfter(front);
      FreshNeverLost(front, p.now);
      FreshNeverLost(front, now);
      var all := w + Keep(p.batch, p.now);
      PruneKeeps(all, p.now);
      KeepLater(Prune(all, p.now), p.now, now);
      KeepLater(all, p.now, now);
      KeepConcat(w, Keep(p.batch, p.now), now);
      KeepLater(p.batch, p.now, now);
      KeepConcat(Popped(front), p.batch, now);
    }
  }

  lemma DatedParts(a: seq<Tick>, b: seq<Tick>)
    requires Dated(a + b)
    ensures Dated(a) && Dated(b) && (a != [] && b != [] ==> a[|a| - 1].ts <= b[0].ts <= b[|b| - 1].ts)
  {
    assert forall i :: 0 <= i < |a| ==> (a + b)[i] == a[i];
    assert forall i :: 0 <= i < |b| ==> (a + b)[|a| + i] == b[i];
    if a != [] && b != [] {
      assert (a + b)[|a| - 1].ts <= (a + b)[|a|].ts;
    }
  }

  /** Where the window and the history have the same fresh ticks, ingesting leaves exactly the fresh valid ones. */
  lemma IngestedIsFresh(w: seq<Tick>, hist: seq<Tick>, batch: seq<Tick>, now: int)
    requires Dated(hist + batch) && Dated(w) && AllValid(w) && NotAfter(w, hist)
    requires Keep(w, now) == Keep(hist, now)
    ensures Ingested(w, batch, now) == Keep(hist + batch, now)
  {
    JoinDated(w, hist, batch, now);
    PruneIsKeep(w + Keep(batch, now), now);
    KeepConcat(w, Keep(batch, now), now);
    KeepLater(batch, now, now);
    KeepConcat(hist, batch, now);
  }

  /** With a forward clock and dated ticks, the window is exactly the fresh valid ticks popped so far. */
  lemma {:induction false} WindowIsFresh(polls: seq<Poll>)
    requires polls != [] && ClockForward(polls) && Dated(Popped(polls))
    ensures WindowAfter(polls) == Keep(Popped(polls), polls[|polls| - 1].now)
    decreases |polls|
  {
    var front, p := polls[..|polls| - 1], polls[|polls| - 1];
    DatedParts(Popped(front), p.batch);
    WindowDated(front);
    FreshNeverLost(front, p.now);
    IngestedIsFresh(WindowAfter(front), Popped(front), p.batch, p.now);
  }

  /** The last tick of `w`, if any, is not younger than the last tick of `hist`. */
  predicate NotAfter(w: seq<Tick>, hist: seq<Tick>) {
    w != [] ==> hist != [] && w[|w| - 1].ts <= hist[|hist| - 1].ts
  }

  /** A window holds valid ticks of the history in the history's order. */
  lemma {:induction false} WindowDated(polls: seq<Poll>)
    requires ClockForward(polls) && Dated(Popped(polls))
    ensures Dated(WindowAfter(polls)) && AllValid(WindowAfter(polls)) && NotAfter(WindowAfter(polls), Popped(polls))
    decreases |polls|
  {
    if polls != [] {
      var front, p := polls[..|polls| - 1], polls[|polls| - 1];
      DatedParts(Popped(front), p.batch);
      WindowDated(front);
      IngestedDated(WindowAfter(front), Popped(front), p.batch, p.now);
    }
  }

  lemma IngestedDated(w: seq<Tick>, hist: seq<Tick>, batch: seq<Tick>, now: int)
    requires Dated(hist + batch) && Dated(w) && AllValid(w) && NotAfter(w, hist)
    ensures && Dated(Ingested(w, batch, now)) && AllValid(Ingested(w, batch, now))
            && NotAfter(Ingested(w, batch, now), hist + batch)
  {
    JoinDated(w, hist, batch, now);
    PruneSuffix(w + Keep(batch, now), now);
  }

  lemma JoinDated(w: seq<Tick>, hist: seq<Tick>, batch: seq<Tick>, now: int)
    requires Dated(hist + batch) && Dated(w) && AllValid(w) && NotAfter(w, hist)
    ensures && Dated(w + Keep(batch, now)) && AllValid(w + Keep(batch, now))
            && NotAfter(w + Keep(batch, now), hist + batch)
  {
    var k := Keep(batch, now);
    DatedParts(hist, batch);
    KeepValid(batch, now);
    KeepDated(batch, now, k);
    if w != [] {
      BatchAfter(w, hist, batch);
      KeepAfter(batch, w[|w| - 1].ts, now);
    }
    JoinKept(w, hist, batch, k);
  }

  lemma BatchAfter(w: seq<Tick>, hist: seq<Tick>, batch: seq<Tick>)
    requires Dated(hist + batch) && w != [] && NotAfter(w, hist)
    ensures forall i :: 0 <= i < |batch| ==> w[|w| - 1].ts <= batch[i].ts
  {
    DatedParts(hist, batch);
    assert forall i :: 0 <= i < |batch| ==> batch[0].ts <= batch[i].ts;
  }

  lemma JoinKept(w: seq<Tick>, hist: seq<Tick>, batch: seq<Tick>, k: seq<Tick>)
    requires Dated(w) && AllValid(w) && NotAfter(w, hist) && Dated(k) && AllValid(k) && NotAfter(k, batch)
    requires batch != [] && hist != [] ==> hist[|hist| - 1].ts <= batch[|batch| - 1].ts
    requires w != [] ==> forall i :: 0 <= i < |k| ==> w[|w| - 1].ts <= k[i].ts
    ensures Dated(w + k) && AllValid(w + k) && NotAfter(w + k, hist + batch)
  {
    DatedConcat(w, k);
    if batch != [] {
      assert (hist + batch)[|hist + batch| - 1] == batch[|batch| - 1];
    }
  }

  lemma DatedConcat(a: seq<Tick>, b: seq<Tick>)
    requires Dated(a) && Dated(b) && AllValid(a) && AllValid(b)
    requires a != [] ==> forall i :: 0 <= i < |b| ==> a[|a| - 1].ts <= b[i].ts
    ensures Dated(a + b) && AllValid(a + b)
  {
    assert forall i :: 0 <= i < |a| ==> a[i].ts <= a[|a| - 1].ts;
  }

  lemma {:induction false} KeepAfter(ts: seq<Tick>, from: int, now: int)
    requires forall i :: 0 <= i < |ts| ==> from <= ts[i].ts
    ensures forall i :: 0 <= i < |Keep(ts, now)| ==> from <= Keep(ts, now)[i].ts
  {
    if ts != [] {
      KeepAfter(ts[..|ts| - 1], from, now);
    }
  }

  lemma {:induction false} PruneSuffix(ts: seq<Tick>, now: int)
    requires Dated(ts) && AllValid(ts)
    ensures && Dated(Prune(ts, now)) && AllValid(Prune(ts, now))
            && (Prune(ts, now) != [] ==> ts != [] && Prune(ts, now)[|Prune(ts, now)| - 1] == ts[|ts| - 1])
  {
    if ts != [] && Stale(ts[0], now) {
      PruneSuffix(ts[1..], now);
    }
  }

  // ------------------------------------------------------------------
  // Lead price
  // ------------------------------------------------------------------

  datatype Config = Config(deribitUs: real, binanceUs: real, deribitAsia: real, binanceAsia: real,
                           roundFourDecimals: bool)

  /** `weights`: deribit first, binance second. */
  function Weights(c: Config, us: bool): (real, real) {
    var d, b := if us then c.deribitUs else c.deribitAsia, if us then c.binanceUs else c.binanceAsia;
    if d + b > 0.0 then (d / (d + b), b / (d + b)) else (d, b)
  }

  function LatestMid(window: seq<Tick>): real {
    if window == [] then 0.0 else window[|window| - 1].Mid()
  }

  /** The price `update` answers from the two latest mids. */
  function Lead(c: Config, us: bool, b: real, d: real): Option<real> {
    if b <= 0.0 && d <= 0.0 then None
    else if b <= 0.0 then Some(d)
    else if d <= 0.0 then Some(b)
    else
      Some(Blend(c, Weights(c, us), b, d))
  }

  function Mix(w: (real, real), b: real, d: real): real {
    d * w.0 + b * w.1
  }

  function Blend(c: Config, w: (real, real), b: real, d: real): real {
    var lead := Mix(w, b, d);
    if c.roundFourDecimals then Round4(lead) else lead
  }

  lemma BlendInHull(c: Config, w: (real, real), b: real, d: real)
    requires w.0 >= 0.0 && w.1 >= 0.0 && w.0 + w.1 == 1.0
    ensures var slack := if c.roundFourDecimals then HALF_UNIT else 0.0;
            Min(b, d) - slack <= Blend(c, w, b, d) <= Max(b, d) + slack
  {
    ConvexLow(Min(b, d), d, b, w);
    ConvexHigh(Max(b, d), d, b, w);
    Round4Near(Mix(w, b, d));
  }

  lemma SumsOrdered(p: real, q: real, r: real, s: real)
    requires p <= r && q <= s
    ensures p + q <= r + s
  {
  }

  lemma ConvexLow(lo: real, d: real, b: real, w: (real, real))
    requires w.0 >= 0.0 && w.1 >= 0.0 && w.0 + w.1 == 1.0 && lo <= d && lo <= b
    ensures lo <= Mix(w, b, d)
  {
    SumsOrdered(lo * w.0, lo * w.1, d * w.0, b * w.1);
  }

  lemma ConvexHigh(hi: real, d: real, b: real, w: (real, real))
    requires w.0 >= 0.0 && w.1 >= 0.0 && w.0 + w.1 == 1.0 && d <= hi && b <= hi
    ensures Mix(w, b, d) <= hi
  {
    SumsOrdered(d * w.0, b * w.1, hi * w.0, hi * w.1);
  }

  predicate SoundWeights(c: Config) {
    && c.deribitUs >= 0.0 && c.binanceUs >= 0.0 && c.deribitUs + c.binanceUs > 0.0
    && c.deribitAsia >= 0.0 && c.binanceAsia >= 0.0 && c.deribitAsia + c.binanceAsia > 0.0
  }

  lemma SharesSum(d: real, b: real, s: real)
    requires d >= 0.0 && b >= 0.0 && s == d + b > 0.0
    ensures d / s >= 0.0 && b / s >= 0.0 && d / s + b / s == 1.0
  {
    assert (d / s) * s == d && (b / s) * s == b;
    assert (d / s + b / s - 1.0) * s == (d / s) * s + (b / s) * s - s == 0.0;
  }

  lemma WeightsSum(c: Config, us: bool)
    requires SoundWeights(c)
    ensures var w := Weights(c, us); w.0 >= 0.0 && w.1 >= 0.0 && w.0 + w.1 == 1.0
  {
    if us {
      SharesSum(c.deribitUs, c.binanceUs, c.deribitUs + c.binanceUs);
    } else {
      SharesSum(c.deribitAsia, c.binanceAsia, c.deribitAsia + c.binanceAsia);
    }
  }

  /** The lead lies between the two venues' latest mids, up to half a unit of rounding. */
  lemma LeadInHull(c: Config, us: bool, b: real, d: real)
    requires SoundWeights(c) && b > 0.0 && d > 0.0
    ensures var lead, slack := Lead(c, us, b, d), if c.roundFourDecimals then HALF_UNIT else 0.0;
            lead.Some? && Min(b, d) - slack <= lead.value <= Max(b, d) + slack
  {
    WeightsSum(c, us);
    BlendInHull(c, Weights(c, us), b, d);
  }

  // ------------------------------------------------------------------
  // What a venue quotes
  // ------------------------------------------------------------------

  /** A valid tick without a time stamp, or at most 50 ms old. */
  predicate FreshAt(t: Tick, now: int) {
    t.valid && (t.ts <= 0 || now - t.ts <= 50)
  }

  /** The half-sum of bid and ask if both are quoted, else the last price. */
  predicate PricedAt(t: Tick, price: real) {
    price == if t.bid > 0.0 && t.ask > 0.0 then (t.bid + t.ask) / 2.0 else t.last
  }

  ghost predicate NewestFresh(ts: seq<Tick>, now: int, k: int) {
    0 <= k < |ts| && FreshAt(ts[k], now) && forall i :: k < i < |ts| ==> !FreshAt(ts[i], now)
  }

  /** The price of the newest fresh tick, 0 if there is none. */
  ghost predicate Quoted(ts: seq<Tick>, now: int, price: real) {
    || (exists k :: NewestFresh(ts, now, k) && PricedAt(ts[k], price))
    || ((forall i :: 0 <= i < |ts| ==> !FreshAt(ts[i], now)) && price == 0.0)
  }

  lemma {:induction false} NewestKept(ts: seq<Tick>, now: int, k: int)
    requires NewestFresh(ts, now, k)
    ensures Keep(ts, now) != [] && Keep(ts, now)[|Keep(ts, now)| - 1] == ts[k]
  {
    if k < |ts| - 1 {
      var front := ts[..|ts| - 1];
      assert !FreshAt(ts[|ts| - 1], now) && front[k] == ts[k];
      NewestKept(front, now, k);
      assert Keep(front, now) + [] == Keep(front, now);
    }
  }

  lemma {:induction false} NoneKept(ts: seq<Tick>, now: int)
    requires forall i :: 0 <= i < |ts| ==> !FreshAt(ts[i], now)
    ensures Keep(ts, now) == []
  {
    if ts != [] {
      assert !FreshAt(ts[|ts| - 1], now);
      NoneKept(ts[..|ts| - 1], now);
    }
  }

  /** There is always such a price. */
  lemma {:induction false} SomeQuote(ts: seq<Tick>, now: int) returns (price: real)
    ensures Quoted(ts, now, price)
  {
    if ts == [] {
      price := 0.0;
    } else {
      var n := |ts| - 1;
      var t, front := ts[n], ts[..n];
      if FreshAt(t, now) {
        price := if t.bid > 0.0 && t.ask > 0.0 then (t.bid + t.ask) / 2.0 else t.last;
        assert NewestFresh(ts, now, n);
      } else {
        price := SomeQuote(front, now);
        if k :| NewestFresh(front, now, k) && PricedAt(front[k], price) {
          assert NewestFresh(ts, now, k) && ts[k] == front[k];
        } else {
          assert forall i :: 0 <= i < n ==> ts[i] == front[i];
        }
      }
    }
  }

  /** What a venue quotes is the mid of the last tick kept. */
  lemma QuotedIs(ts: seq<Tick>, now: int, price: real)
    requires Quoted(ts, now, price)
    ensures LatestMid(Keep(ts, now)) == price
  {
    if k :| NewestFresh(ts, now, k) && PricedAt(ts[k], price) {
      NewestKept(ts, now, k);
    } else {
      NoneKept(ts, now);
    }
  }

  // ------------------------------------------------------------------
  // The weighted mean
  // ------------------------------------------------------------------

  lemma SharesMean(x: real, y: real, s: real, d: real, b: real)
    requires s == x + y > 0.0
    ensures (d * (x / s) + b * (y / s)) * s == d * x + b * y
  {
    assert (x / s) * s == x && (y / s) * s == y;
    assert (d * (x / s)) * s == d * ((x / s) * s) && (b * (y / s)) * s == b * ((y / s) * s);
  }

  /** `lead` is the mean of the two prices with these weights, or their weighted sum when the weights add up to none. */
  predicate MeanOf(lead: real, wd: real, wb: real, d: real, b: real) {
    if wd + wb > 0.0 then lead * (wd + wb) == d * wd + b * wb else lead == d * wd + b * wb
  }

  /** `lead` is `exact`, or with rounding the nearest whole number of ten-thousandths. */
  predicate RoundedTo(c: Config, lead: real, exact: real) {
    if !c.roundFourDecimals then lead == exact
    else (lead * 10000.0).Floor as real == lead * 10000.0 && exact - 0.00005 <= lead <= exact + 0.00005
  }

  lemma MixIsMean(c: Config, us: bool, b: real, d: real) returns (exact: real)
    ensures exact == Mix(Weights(c, us), b, d)
    ensures if us then MeanOf(exact, c.deribitUs, c.binanceUs, d, b)
            else MeanOf(exact, c.deribitAsia, c.binanceAsia, d, b)
  {
    exact := Mix(Weights(c, us), b, d);
    if us && c.deribitUs + c.binanceUs > 0.0 {
      SharesMean(c.deribitUs, c.binanceUs, c.deribitUs + c.binanceUs, d, b);
    } else if !us && c.deribitAsia + c.binanceAsia > 0.0 {
      SharesMean(c.deribitAsia, c.binanceAsia, c.deribitAsia + c.binanceAsia, d, b);
    }
  }

  lemma BlendRounded(c: Config, w: (real, real), b: real, d: real)
    ensures RoundedTo(c, Blend(c, w, b, d), Mix(w, b, d))
  {
    Round4Near(Mix(w, b, d));
    var n := Round4Nearest(Mix(w, b, d));
    assert n as real / 10000.0 * 10000.0 == n as real;
  }

  /** With both venues quoted the lead is their mean with the weights of the session. */
  lemma LeadIsMean(c: Config, us: bool, b: real, d: real) returns (exact: real)
    requires b > 0.0 && d > 0.0
    ensures Lead(c, us, b, d).Some? && RoundedTo(c, Lead(c, us, b, d).value, exact)
    ensures if us then MeanOf(exact, c.deribitUs, c.binanceUs, d, b)
            else MeanOf(exact, c.deribitAsia, c.binanceAsia, d, b)
  {
    exact := MixIsMean(c, us, b, d);
    BlendRounded(c, Weights(c, us), b, d);
  }

  /**
   * What `update` answers, from the whole history of both venues: no price, the price of the one venue that quotes,
   * or the mean of both with the weights of the session.
   */
  lemma {:induction false} LeadFromHistory(c: Config, us: bool, binance: seq<Poll>, deribit: seq<Poll>)
    returns (b: real, d: real, exact: real)
    requires binance != [] && deribit != []
    requires ClockForward(binance) && Dated(Popped(binance)) && ClockForward(deribit) && Dated(Popped(deribit))
    ensures Quoted(Popped(binance), binance[|binance| - 1].now, b)
    ensures Quoted(Popped(deribit), deribit[|deribit| - 1].now, d)
    ensures var lead := Lead(c, us, LatestMid(WindowAfter(binance)), LatestMid(WindowAfter(deribit)));
            && (lead == None <==> b <= 0.0 && d <= 0.0)
            && (b > 0.0 && d <= 0.0 ==> lead == Some(b))
            && (d > 0.0 && b <= 0.0 ==> lead == Some(d))
            && (b > 0.0 && d > 0.0 ==>
                  && lead.Some? && RoundedTo(c, lead.value, exact)
                  && (if us then MeanOf(exact, c.deribitUs, c.binanceUs, d, b)
                      else MeanOf(exact, c.deribitAsia, c.binanceAsia, d, b)))
            && (b > 0.0 && d > 0.0 && SoundWeights(c) ==>
                  var slack := if c.roundFourDecimals then HALF_UNIT else 0.0;
                  Min(b, d) - slack <= lead.value <= Max(b, d) + slack)
  {
    WindowIsFresh(binance);
    WindowIsFresh(deribit);
    b := SomeQuote(Popped(binance), binance[|binance| - 1].now);
    d := SomeQuote(Popped(deribit), deribit[|deribit| - 1].now);
    QuotedIs(Popped(binance), binance[|binance| - 1].now, b);
    QuotedIs(Popped(deribit), deribit[|deribit| - 1].now, d);
    exact := 0.0;
    if b > 0.0 && d > 0.0 {
      exact := LeadIsMean(c, us, b, d);
      if SoundWeights(c) {
        LeadInHull(c, us, b, d);
      }
    }
  }

  // ------------------------------------------------------------------
  // The aggregator itself
  // ------------------------------------------------------------------

  lemma KeepOneMore(base: seq<Tick>, done: seq<Tick>, t: Tick, now: int)
    ensures base + Keep(done, now) + Keep([t], now) == base + Keep(done + [t], now)
  {
    KeepConcat(done, [t], now);
    Associate(base, Keep(done, now), Keep([t], now));
  }

  lemma Associate(a: seq<Tick>, b: seq<Tick>, c: seq<Tick>)
    ensures a + b + c == a + (b + c)
  {
  }

  class VenueWindow {
    var ticks: seq<Tick>
    ghost var polls: seq<Poll>

    ghost predicate Valid()
      reads this
    {
      ticks == WindowAfter(polls)
    }

    constructor ()
      ensures Valid() && ticks == [] && polls == []
    {
      ticks, polls := [], [];
    }

    method PruneOld(now: int)
      modifies this`ticks
      ensures ticks == Prune(old(ticks), now)
    {
      while ticks != [] && Stale(ticks[0], now)
        invariant Prune(ticks, now) == Prune(old(ticks), now)
        decreases |ticks|
      {
        ticks := ticks[1..];
      }
    }

    /** Drains the ring into the window. */
    method Ingest(ring: SpscRing.SpscRing<Tick>, now: int)
      requires Valid() && ring.Valid()
      modifies this, ring
      ensures Valid() && ring.Valid() && ring.contents == []
      ensures polls == old(polls) + [Poll(now, old(ring.contents))]
      ensures ticks == Ingested(old(ticks), old(ring.contents), now)
    {
      ghost var batch := ring.contents;
      Drain(ring, now);
      PruneOld(now);
      polls := polls + [Poll(now, batch)];
      assert polls[..|polls| - 1] == old(polls);
    }

    /** Appends what the ring holds, stale and invalid ticks left out. */
    method Drain(ring: SpscRing.SpscRing<Tick>, now: int)
      requires ring.Valid()
      modifies this`ticks, ring
      ensures ring.Valid() && ring.contents == []
      ensures ticks == old(ticks) + Keep(old(ring.contents), now)
    {
      ghost var batch, done := ring.contents, [];
      var found, t := ring.Pop();
      NextTaken(batch, [], batch);
      while found
        invariant ring.Valid()
        invariant batch == done + (if found then [t] + ring.contents else [])
        invariant !found ==> ring.contents == []
        invariant ticks == old(ticks) + Keep(done, now)
        decreases |batch| - |done|
      {
        Append(t, now);
        KeepOneMore(old(ticks), done, t, now);
        NextTaken(batch, done + [t], ring.contents);
        done := done + [t];
        found, t := ring.Pop();
      }
      assert batch == done;
    }

    /** Appends one tick unless it is invalid or stale. */
    method Append(t: Tick, now: int)
      modifies this`ticks
      ensures ticks == old(ticks) + Keep([t], now)
    {
      assert [t][..0] == [];
      if !t.valid {
        return;
      }
      if t.ts > 0 && now - t.ts > MAX_AGE {
        return;
      }
      ticks := ticks + [t];
    }
  }

  lemma NextTaken(batch: seq<Tick>, done: seq<Tick>, rest: seq<Tick>)
    requires batch == done + rest
    ensures (rest == [] ==> batch == done + []) && (rest != [] ==> batch == done + ([rest[0]] + rest[1..]))
  {
  }

  class Aggregator {
    const cfg: Config
    const binance: VenueWindow
    const deribit: VenueWindow

    ghost predicate Valid()
      reads this, binance, deribit
    {
      binance != deribit && binance.Valid() && deribit.Valid()
    }

    constructor (cfg: Config)
      ensures Valid() && this.cfg == cfg && fresh(binance) && fresh(deribit)
      ensures binance.polls == [] && deribit.polls == []
    {
      this.cfg := cfg;
      binance := new VenueWindow();
      deribit := new VenueWindow();
    }

    method Update(binanceRing: SpscRing.SpscRing<Tick>, deribitRing: SpscRing.SpscRing<Tick>, now: int, us: bool)
      returns (lead: Option<real>)
      requires Valid() && binanceRing.Valid() && deribitRing.Valid() && binanceRing != deribitRing
      requires binanceRing.slots != deribitRing.slots
      modifies binance, deribit, binanceRing, deribitRing
      ensures Valid()
      ensures binance.polls == old(binance.polls) + [Poll(now, old(binanceRing.contents))]
      ensures deribit.polls == old(deribit.polls) + [Poll(now, old(deribitRing.contents))]
      ensures lead == Lead(cfg, us, LatestMid(WindowAfter(binance.polls)), LatestMid(WindowAfter(deribit.polls)))
    {
      binance.Ingest(binanceRing, now);
      deribit.Ingest(deribitRing, now);
      var b, d := LatestMid(binance.ticks), LatestMid(deribit.ticks);
      lead := Lead(cfg, us, b, d);
    }
  }
}
