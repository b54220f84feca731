/** Which configurations can lose a signal, exactly. */
module ReplayExact {
  import opened ExecutionSimulator
  import opened Replay
  import opened ReplayLedger
  import opened Rounding
  import opened Strategy
  import opened Wrappers

  // ------------------------------------------------------------------
  // Prices and pauses that suit a configuration
  // ------------------------------------------------------------------

  function Size(i: int): int {
    if i < 0 then -i else i
  }

  function Buffers(c: Config): real {
    Abs(c.latencyBufferPips) + Abs(c.minProfitMarginPips) + Abs(c.thresholdPips)
  }

  /**
   * A lag price, how far the lead stands above it, by how much a crossed bid exceeds its ask, and the time
   * between two lag ticks.
   */
  datatype Bait = Bait(base: real, gap: real, over: real, pause: nat) {
    function Lead(): real {
      base + gap
    }

    function LeadTick(ts: int): Tick {
      Tick(ts, base + gap, base + gap, true)
    }

    /** A lag tick whose bid is `more` above its ask. */
    function LagTick(ts: int, more: real): Tick {
      Tick(ts, base + more, base, true)
    }
  }

  /**
   * Every buy can be filled at the price, the level quote calls for a long and is not converged, the crossed
   * quote calls for nothing, is within the spread cap and not converged, and orders fall due and the cooldown
   * ends between two ticks.
   */
  ghost predicate Suits(c: Config, p: Params, b: Bait) {
    && b.base > 0.0 && b.base + p.spreadMarkupPts + p.slippagePts > 0.0 && b.over > 0.0 && b.gap > 0.0
    && Evaluate(c, b.Lead(), Quote(b.base, b.base, 0.0)) == Long && b.gap > p.holdTolPts
    && Evaluate(c, b.Lead(), Quote(b.base + b.over, b.base, -b.over)) == Hold
    && -b.over <= p.spreadCapPts && 0.5 * b.over - b.gap > p.holdTolPts
    && b.pause >= p.delayMs && b.pause >= c.intervalSeconds * 1000
  }

  lemma LevelIsLong(c: Config, lead: real, price: real, buffers: real)
    requires buffers == Buffers(c) && lead - price >= buffers + 1.0
    ensures Evaluate(c, lead, Quote(price, price, 0.0)) == Long
  {
  }

  /** For every configuration there is such a bait. */
  lemma BaitFor(c: Config, p: Params) returns (b: Bait)
    ensures Suits(c, p, b)
  {
    b := BaitAbove(c, p, 0.0);
  }

  /** At any height. */
  lemma BaitAbove(c: Config, p: Params, floor: real) returns (b: Bait)
    requires floor >= 0.0
    ensures Suits(c, p, b) && b.base > floor
  {
    var m, l, t, x := Abs(p.spreadMarkupPts), Abs(p.slippagePts), Abs(p.holdTolPts), Abs(p.spreadCapPts);
    b := BaitOf(c, p, m, l, t, x, Buffers(c), floor);
  }

  lemma BaitOf(c: Config, p: Params, m: real, l: real, t: real, x: real, buffers: real, floor: real)
    returns (b: Bait)
    requires m >= 0.0 && l >= 0.0 && t >= 0.0 && x >= 0.0 && buffers >= 0.0 && buffers == Buffers(c)
    requires -m <= p.spreadMarkupPts && -l <= p.slippagePts && p.holdTolPts <= t && -x <= p.spreadCapPts
    requires floor >= 0.0
    ensures Suits(c, p, b) && b.base > floor
  {
    var base, gap := 1.0 + m + l + floor, 1.0 + buffers + t;
    var over := 2.0 * (gap + buffers + t + x + 2.0);
    b := Bait(base, gap, over, Size(p.delayMs) + 1000 * Size(c.intervalSeconds));
    LevelIsLong(c, base + gap, base, buffers);
  }

  // ------------------------------------------------------------------
  // Steps of a losing run
  // ------------------------------------------------------------------

  /** One buy in flight, signalled at `t`, and nothing else yet. */
  ghost predicate Hooked(p: Params, x: Bait, s: State, t: int) {
    && s.pending == Some(OrderOf(p, Buy, t, x.Lead(), x.base, x.base))
    && s.held == None && s.risk == Risk(1, 0.0, 1, 0, t) && s.market.lead == x.Lead()
  }

  /** A buy filled at `t` at the bait's price. */
  ghost predicate Bought(p: Params, x: Bait, f: Fill, t: int) {
    && f.fillTs == t && f.order.side == Buy
    && f.price == x.base + p.spreadMarkupPts + p.slippagePts && f.commission == Commission(p)
  }

  /** The buy signalled at `signal` is held since `t`, none is in flight. */
  ghost predicate Landed(p: Params, x: Bait, s: State, t: int, signal: int) {
    && s.pending == None && s.held.Some? && Bought(p, x, s.held.value, t)
    && s.risk == Risk(1, 0.0, 1, 0, signal) && s.market.lead == x.Lead()
  }

  /** The first buy is held since `fill` and a second is in flight, signalled at `t`. */
  ghost predicate Loaded(p: Params, x: Bait, s: State, fill: int, t: int) {
    && s.pending == Some(OrderOf(p, Buy, t, x.Lead(), x.base, x.base))
    && s.held.Some? && Bought(p, x, s.held.value, fill)
    && s.risk.dayPnl == 0.0 && s.market.lead == x.Lead()
  }

  /** The gates let a first order through ... */
  predicate CanSignal(c: Config) {
    c.maxOpenLots >= 1 && c.maxOrdersPerInterval >= 1 && c.maxDailyLoss > 0.0
  }

  /** ... and fills are not all rejected. */
  predicate CanFill(c: Config, p: Params) {
    CanSignal(c) && p.slippagePts <= p.slippageCapPts
  }

  lemma FirstSignal(c: Config, p: Params, x: Bait, t: int) returns (s: State)
    requires CanSignal(c) && Suits(c, p, x)
    ensures && s == OnLag(OnLead(Start(p), x.LeadTick(t)), c, p, x.LagTick(t, 0.0)) && Hooked(p, x, s, t)
            && s.counts.signals == 1 && s.acct == OpenAccount(Capital(p))
  {
    var a := OnLead(Start(p), x.LeadTick(t));
    assert x.LeadTick(t).Mid() == x.Lead();
    var b := TakeQuote(a, x.LagTick(t, 0.0));
    assert Settle(b, p, t) == b;
    s := Remember(Emit(b, c, p, t));
  }

  /** The fill of the first buy at a quote within the cap, with the lead away. */
  lemma FirstFill(c: Config, p: Params, x: Bait, s: State, t: int, now: int, over: real) returns (u: State)
    requires CanOverwrite(c, p) && Suits(c, p, x) && Hooked(p, x, s, t) && now >= t + p.delayMs
    requires -over <= p.spreadCapPts && Abs(x.gap - 0.5 * over) > p.holdTolPts
    ensures && u == Settle(TakeQuote(s, x.LagTick(now, over)), p, now) && Landed(p, x, u, now, t)
            && u.market.bid == x.base + over && u.market.ask == x.base
            && u.counts.signals == s.counts.signals && u.acct == s.acct
  {
    var a := TakeQuote(s, x.LagTick(now, over));
    u := HandleFill(a, p, now);
  }

  /** Level quotes only: the tick that fills the first buy signals the second. */
  lemma LoadLevel(c: Config, p: Params, x: Bait, s: State, t: int, now: int) returns (u: State)
    requires CanOverwrite(c, p) && Suits(c, p, x) && Hooked(p, x, s, t) && p.spreadCapPts >= 0.0
    requires now >= t + p.delayMs && now - t >= c.intervalSeconds * 1000
    ensures u == OnLag(s, c, p, x.LagTick(now, 0.0)) && Loaded(p, x, u, now, now)
  {
    var a := FirstFill(c, p, x, s, t, now, 0.0);
    u := Remember(Emit(a, c, p, now));
  }

  /** A crossed tick fills the first buy and signals nothing ... */
  lemma CrossedFill(c: Config, p: Params, x: Bait, s: State, t: int, now: int) returns (u: State)
    requires CanOverwrite(c, p) && Suits(c, p, x) && Hooked(p, x, s, t) && now >= t + p.delayMs
    ensures u == OnLag(s, c, p, x.LagTick(now, x.over)) && Landed(p, x, u, now, t) && u.acct == s.acct
  {
    var a := FirstFill(c, p, x, s, t, now, x.over);
    assert QuoteOf(a.market) == Quote(x.base + x.over, x.base, -x.over);
    u := Remember(a);
  }

  /** ... and a level one, before the first expires, signals the second. */
  lemma LevelSignal(c: Config, p: Params, x: Bait, s: State, t: int, fill: int, now: int) returns (u: State)
    requires CanOverwrite(c, p) && Suits(c, p, x) && Landed(p, x, s, fill, t) && now - t >= c.intervalSeconds * 1000
    requires now == fill || p.holdMaxMs <= 0 || now - fill < p.holdMaxMs
    ensures u == OnLag(s, c, p, x.LagTick(now, 0.0)) && Loaded(p, x, u, fill, now) && u.acct == s.acct
  {
    var d := TakeQuote(s, x.LagTick(now, 0.0));
    assert Settle(d, p, now) == d;
    u := Remember(Emit(d, c, p, now));
  }

  /** The fill of the second buy replaces the first. */
  lemma SecondFill(c: Config, p: Params, x: Bait, s: State, fill: int, t: int, now: int, over: real)
    returns (u: State)
    requires CanOverwrite(c, p) && Loaded(p, x, s, fill, t)
    requires x.base + p.spreadMarkupPts + p.slippagePts > 0.0
    requires now >= t + p.delayMs && -over <= p.spreadCapPts
    ensures u == OnLag(s, c, p, x.LagTick(now, over)) && u.counts.overwritten > 0
  {
    var a := TakeQuote(s, x.LagTick(now, over));
    var b := HandleFill(a, p, now);
    assert b.counts.overwritten > 0;
    var d := CloseOpen(b, p, now, b.market.lead, b.market.bid, b.market.ask, false);
    u := Remember(Emit(d, c, p, now));
  }

  // ------------------------------------------------------------------
  // The losing streams
  // ------------------------------------------------------------------

  function LosingLead(x: Bait): seq<Tick> {
    [x.LeadTick(1)]
  }

  function LevelLag(x: Bait): seq<Tick> {
    [x.LagTick(1, 0.0), x.LagTick(1 + x.pause, 0.0), x.LagTick(1 + x.pause + x.pause, 0.0)]
  }

  function CrossedLag(x: Bait): seq<Tick> {
    [x.LagTick(1, 0.0), x.LagTick(1 + x.pause, x.over), x.LagTick(1 + x.pause, 0.0),
     x.LagTick(1 + x.pause + x.pause, x.over)]
  }

  lemma RunLags(s: State, c: Config, p: Params, lead: seq<Tick>, lag: seq<Tick>, j: nat)
    requires j < |lag|
    ensures Through(s, c, p, MergeFrom(lead, lag, |lead|, j))
            == Through(OnLag(s, c, p, lag[j]), c, p, MergeFrom(lead, lag, |lead|, j + 1))
  {
    MergeStep(s, c, p, lead, lag, |lead|, j);
  }

  lemma RunLast(s: State, c: Config, p: Params, lead: seq<Tick>, lag: seq<Tick>)
    requires lag != []
    ensures Through(s, c, p, MergeFrom(lead, lag, |lead|, |lag| - 1)) == OnLag(s, c, p, lag[|lag| - 1])
  {
    RunLags(s, c, p, lead, lag, |lag| - 1);
    assert MergeFrom(lead, lag, |lead|, |lag|) == [];
  }

  /** A lead tick and a lag tick at the same time are consumed in this order. */
  lemma RunPair(s: State, c: Config, p: Params, lead: seq<Tick>, lag: seq<Tick>, i: nat, j: nat)
    requires i < |lead| && j < |lag| && lead[i].ts == lag[j].ts
    requires i + 1 < |lead| ==> lag[j].ts < lead[i + 1].ts
    ensures Through(s, c, p, MergeFrom(lead, lag, i, j))
            == Through(OnLag(OnLead(s, lead[i]), c, p, lag[j]), c, p, MergeFrom(lead, lag, i + 1, j + 1))
  {
    MergeStep(s, c, p, lead, lag, i, j);
    MergeStep(OnLead(s, lead[i]), c, p, lead, lag, i + 1, j);
  }

  /** The first two ticks signal the first buy. */
  lemma StartRun(c: Config, p: Params, x: Bait, lead: seq<Tick>, lag: seq<Tick>) returns (s: State)
    requires CanOverwrite(c, p) && Suits(c, p, x)
    requires lead == LosingLead(x) && lag != [] && lag[0] == x.LagTick(1, 0.0)
    ensures && Through(Start(p), c, p, Merge(lead, lag)) == Through(s, c, p, MergeFrom(lead, lag, |lead|, 1))
            && Hooked(p, x, s, 1) && s.acct == OpenAccount(Capital(p))
  {
    s := FirstSignal(c, p, x, 1);
    RunPair(Start(p), c, p, lead, lag, 0, 0);
  }

  /** The last tick overwrites. */
  lemma EndRun(c: Config, p: Params, x: Bait, lead: seq<Tick>, lag: seq<Tick>, s: State, t: int, over: real)
    returns (u: State)
    requires CanOverwrite(c, p) && Loaded(p, x, s, t, t) && -over <= p.spreadCapPts && x.pause >= p.delayMs
    requires x.base + p.spreadMarkupPts + p.slippagePts > 0.0
    requires lag != [] && lag[|lag| - 1] == x.LagTick(t + x.pause, over)
    ensures Through(s, c, p, MergeFrom(lead, lag, |lead|, |lag| - 1)) == u && u.counts.overwritten > 0
  {
    u := SecondFill(c, p, x, s, t, t, t + x.pause, over);
    RunLast(s, c, p, lead, lag);
  }

  lemma LevelRun(c: Config, p: Params, x: Bait) returns (u: State)
    requires CanOverwrite(c, p) && Suits(c, p, x) && p.spreadCapPts >= 0.0
    ensures u == Through(Start(p), c, p, Merge(LosingLead(x), LevelLag(x))) && u.counts.overwritten > 0
  {
    var lead, lag := LosingLead(x), LevelLag(x);
    var a := StartRun(c, p, x, lead, lag);
    var b := LevelMiddle(c, p, x, lead, lag, a);
    u := EndRun(c, p, x, lead, lag, b, 1 + x.pause, 0.0);
  }

  lemma LevelMiddle(c: Config, p: Params, x: Bait, lead: seq<Tick>, lag: seq<Tick>, s: State) returns (u: State)
    requires CanOverwrite(c, p) && Suits(c, p, x) && p.spreadCapPts >= 0.0 && Hooked(p, x, s, 1)
    requires |lag| > 1 && lag[1] == x.LagTick(1 + x.pause, 0.0)
    ensures && Through(s, c, p, MergeFrom(lead, lag, |lead|, 1)) == Through(u, c, p, MergeFrom(lead, lag, |lead|, 2))
            && Loaded(p, x, u, 1 + x.pause, 1 + x.pause)
  {
    u := LoadLevel(c, p, x, s, 1, 1 + x.pause);
    RunLags(s, c, p, lead, lag, 1);
  }

  lemma CrossedRun(c: Config, p: Params, x: Bait) returns (u: State)
    requires CanOverwrite(c, p) && Suits(c, p, x)
    ensures u == Through(Start(p), c, p, Merge(LosingLead(x), CrossedLag(x))) && u.counts.overwritten > 0
  {
    var lead, lag := LosingLead(x), CrossedLag(x);
    var a := StartRun(c, p, x, lead, lag);
    var b := CrossedMiddle(c, p, x, lead, lag, a, 1 + x.pause);
    u := EndRun(c, p, x, lead, lag, b, 1 + x.pause, x.over);
  }

  /** A crossed and, before the first buy expires, a level tick. */
  lemma CrossedMiddle(c: Config, p: Params, x: Bait, lead: seq<Tick>, lag: seq<Tick>, s: State, second: int)
    returns (u: State)
    requires CanOverwrite(c, p) && Suits(c, p, x) && Hooked(p, x, s, 1) && |lag| > 2
    requires lag[1] == x.LagTick(1 + x.pause, x.over) && lag[2] == x.LagTick(second, 0.0)
    requires second == 1 + x.pause || 0 < second - (1 + x.pause) < p.holdMaxMs
    ensures Through(s, c, p, MergeFrom(lead, lag, |lead|, 1)) == Through(u, c, p, MergeFrom(lead, lag, |lead|, 3))
    ensures Loaded(p, x, u, 1 + x.pause, second) && u.acct == s.acct
  {
    var a := CrossedFill(c, p, x, s, 1, 1 + x.pause);
    RunLags(s, c, p, lead, lag, 1);
    u := LevelSignal(c, p, x, a, 1, 1 + x.pause, second);
    RunLags(a, c, p, lead, lag, 2);
  }

  /** What was overwritten in the loop is still missing at the end. */
  lemma StaysMissing(c: Config, p: Params, lead: seq<Tick>, lag: seq<Tick>, s: State) returns (r: State)
    requires lead != [] && lag != [] && s == Through(Start(p), c, p, Merge(lead, lag)) && s.counts.overwritten > 0
    ensures r == Replayed(c, p, lead, lag) && r.counts.overwritten > 0
  {
    var now := EndTs(lead, lag) + p.delayMs + 1;
    var t := HandleFill(s, p, now);
    r := ForceClose(t, p, now + 1);
  }

  // ------------------------------------------------------------------
  // Main results
  // ------------------------------------------------------------------

  /** Two non-empty streams, each in time order. */
  ghost predicate Streams(lead: seq<Tick>, lag: seq<Tick>) {
    lead != [] && lag != [] && Sorted(lead) && Sorted(lag)
  }

  ghost predicate Conserved(c: Config, p: Params, lead: seq<Tick>, lag: seq<Tick>)
    requires Streams(lead, lag)
  {
    var r := Replayed(c, p, lead, lag);
    r.counts.signals == r.counts.fills + r.counts.rejections
  }

  lemma LosesTrade(c: Config, p: Params, lead: seq<Tick>, lag: seq<Tick>, u: State)
    requires Streams(lead, lag) && u == Through(Start(p), c, p, Merge(lead, lag)) && u.counts.overwritten > 0
    ensures !Conserved(c, p, lead, lag)
  {
    var r := StaysMissing(c, p, lead, lag, u);
    SignalConservation(c, p, lead, lag);
  }

  /** Signals = fills + rejections on every sorted pair of streams iff the configuration cannot overwrite. */
  lemma {:induction false} ConservationExact(c: Config, p: Params)
    ensures (forall lead, lag :: Streams(lead, lag) ==> Conserved(c, p, lead, lag)) <==> !CanOverwrite(c, p)
  {
    if CanOverwrite(c, p) {
      var x := BaitFor(c, p);
      var u := CrossedRun(c, p, x);
      LosesTrade(c, p, LosingLead(x), CrossedLag(x), u);
    } else {
      forall lead, lag | Streams(lead, lag) ensures Conserved(c, p, lead, lag) {
        SignalConservation(c, p, lead, lag);
      }
    }
  }

  /** The streams of a venue that never quotes a bid above its ask, nor a price that is not positive. */
  ghost predicate SoundStreams(lead: seq<Tick>, lag: seq<Tick>) {
    && Streams(lead, lag)
    && (forall i :: 0 <= i < |lead| ==> 0.0 < lead[i].bid <= lead[i].ask)
    && (forall i :: 0 <= i < |lag| ==> 0.0 < lag[i].bid <= lag[i].ask)
  }

  /** Over such streams the spread cap matters too: a negative one rejects every fill. */
  lemma {:induction false} SoundConservationExact(c: Config, p: Params)
    ensures (forall lead, lag :: SoundStreams(lead, lag) ==> Conserved(c, p, lead, lag))
            <==> !CanOverwrite(c, p) || p.spreadCapPts < 0.0
  {
    if CanOverwrite(c, p) && p.spreadCapPts >= 0.0 {
      var x := BaitFor(c, p);
      var u := LevelRun(c, p, x);
      assert SoundStreams(LosingLead(x), LevelLag(x));
      LosesTrade(c, p, LosingLead(x), LevelLag(x), u);
    } else {
      forall lead, lag | SoundStreams(lead, lag) ensures Conserved(c, p, lead, lag) {
        if p.spreadCapPts < 0.0 {
          var r := TightReplay(c, p, lead, lag);
        }
        SignalConservation(c, p, lead, lag);
      }
    }
  }

  // ------------------------------------------------------------------
  // A negative spread cap on uncrossed quotes
  // ------------------------------------------------------------------

  ghost predicate NothingHeld(s: State) {
    s.market.bid <= s.market.ask && s.held.None? && s.counts.overwritten == 0
  }

  lemma TightOn(c: Config, p: Params, s: State, e: Event)
    requires p.spreadCapPts < 0.0 && NothingHeld(s) && (e.LagTick? ==> e.tick.bid <= e.tick.ask)
    ensures NothingHeld(On(s, c, p, e))
  {
  }

  ghost predicate UncrossedEvents(es: seq<Event>) {
    forall i :: 0 <= i < |es| && es[i].LagTick? ==> es[i].tick.bid <= es[i].tick.ask
  }

  lemma {:induction false} TightThrough(c: Config, p: Params, s: State, es: seq<Event>)
    requires p.spreadCapPts < 0.0 && NothingHeld(s) && UncrossedEvents(es)
    ensures NothingHeld(Through(s, c, p, es))
    decreases |es|
  {
    if es != [] {
      TightOn(c, p, s, es[0]);
      assert forall i :: 0 <= i < |es| - 1 ==> es[1..][i] == es[i + 1];
      TightThrough(c, p, On(s, c, p, es[0]), es[1..]);
    }
  }

  lemma {:induction false} MergeUncrossed(lead: seq<Tick>, lag: seq<Tick>, i: nat, j: nat)
    requires i <= |lead| && j <= |lag| && forall k :: 0 <= k < |lag| ==> lag[k].bid <= lag[k].ask
    ensures UncrossedEvents(MergeFrom(lead, lag, i, j))
    decreases |lead| - i + |lag| - j
  {
    if LeadNext(lead, lag, i, j) {
      MergeUncrossed(lead, lag, i + 1, j);
    } else if j < |lag| {
      MergeUncrossed(lead, lag, i, j + 1);
    }
  }

  lemma TightReplay(c: Config, p: Params, lead: seq<Tick>, lag: seq<Tick>) returns (r: State)
    requires SoundStreams(lead, lag) && p.spreadCapPts < 0.0
    ensures r == Replayed(c, p, lead, lag) && r.counts.overwritten == 0
  {
    var now := EndTs(lead, lag) + p.delayMs + 1;
    MergeUncrossed(lead, lag, 0, 0);
    TightThrough(c, p, Start(p), Merge(lead, lag));
    var s := Through(Start(p), c, p, Merge(lead, lag));
    var t := HandleFill(s, p, now);
    r := ForceClose(t, p, now + 1);
  }
}
