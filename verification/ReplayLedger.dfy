/** Conservation of signals and lots over a whole replay. */
module ReplayLedger {
  import opened ExecutionSimulator
  import opened Replay
  import opened Strategy
  import opened Wrappers

  function One(b: bool): nat {
    if b then 1 else 0
  }

  function InFlight(s: State): nat {
    One(s.pending.Some?) + One(s.held.Some?)
  }

  /** Every signal is a fill, a rejection, an overwritten position, or still in flight ... */
  ghost predicate SignalsConserved(s: State) {
    && s.counts.signals == s.counts.fills + s.counts.rejections + s.counts.overwritten + InFlight(s)
    && |s.acct.trades| == s.counts.fills
  }

  /** ... and every lot the strategy counts as open is in flight, or leaked by a rejection or an overwrite. */
  ghost predicate LotsConserved(s: State) {
    s.risk.openLots == InFlight(s) + s.counts.rejections + s.counts.overwritten
  }

  ghost predicate WithinLimits(c: Config, s: State) {
    && (s.risk.openLots == 0 || s.risk.openLots <= c.maxOpenLots)
    && (s.counts.overwritten > 0 ==> c.maxOpenLots >= 2)
    && s.risk.intervalStart == 0
    && s.risk.orders == s.counts.signals
    && (s.risk.orders == 0 || s.risk.orders <= c.maxOrdersPerInterval)
  }

  ghost predicate ModelKept(p: Params, s: State) {
    p.pnlModel == Instant ==> s.held.None? && s.counts.overwritten == 0
  }

  ghost predicate Ledger(c: Config, p: Params, s: State) {
    SignalsConserved(s) && LotsConserved(s) && WithinLimits(c, s) && ModelKept(p, s)
  }

  /** Orders in flight fall due by `end` plus the delay. */
  predicate DueBy(p: Params, s: State, end: int) {
    s.pending.Some? ==> s.pending.value.target <= end + p.delayMs
  }

  lemma FillLedger(c: Config, p: Params, s: State, now: int)
    requires Ledger(c, p, s)
    ensures Ledger(c, p, HandleFill(s, p, now))
  {
  }

  lemma CloseLedger(c: Config, p: Params, s: State, now: int, lead: real, bid: real, ask: real)
    requires Ledger(c, p, s)
    ensures Ledger(c, p, CloseOpen(s, p, now, lead, bid, ask, false))
  {
  }

  lemma EmitLedger(c: Config, p: Params, s: State, now: int)
    requires Ledger(c, p, s)
    ensures Ledger(c, p, Emit(s, c, p, now))
  {
  }

  lemma OnLedger(c: Config, p: Params, s: State, e: Event)
    requires Ledger(c, p, s)
    ensures Ledger(c, p, On(s, c, p, e))
  {
    if e.LagTick? && e.tick.valid {
      var now, a := e.tick.ts, TakeQuote(s, e.tick);
      FillLedger(c, p, a, now);
      var b := HandleFill(a, p, now);
      CloseLedger(c, p, b, now, b.market.lead, b.market.bid, b.market.ask);
      EmitLedger(c, p, Settle(a, p, now), now);
    }
  }

  lemma {:induction false} ThroughLedger(c: Config, p: Params, s: State, es: seq<Event>)
    requires Ledger(c, p, s)
    ensures Ledger(c, p, Through(s, c, p, es))
    decreases |es|
  {
    if es != [] {
      OnLedger(c, p, s, es[0]);
      ThroughLedger(c, p, On(s, c, p, es[0]), es[1..]);
    }
  }

  /** The ledger holds after every prefix of every replay. */
  lemma LedgerAlways(c: Config, p: Params, es: seq<Event>)
    ensures Ledger(c, p, Through(Start(p), c, p, es))
  {
    ThroughLedger(c, p, Start(p), es);
  }

  predicate LagBy(es: seq<Event>, end: int) {
    forall i :: 0 <= i < |es| && es[i].LagTick? ==> es[i].tick.ts <= end
  }

  lemma {:induction false} ThroughDueBy(c: Config, p: Params, s: State, es: seq<Event>, end: int)
    requires DueBy(p, s, end) && LagBy(es, end)
    ensures DueBy(p, Through(s, c, p, es), end)
    decreases |es|
  {
    if es != [] {
      assert forall i :: 0 <= i < |es| - 1 ==> es[1..][i] == es[i + 1];
      ThroughDueBy(c, p, On(s, c, p, es[0]), es[1..], end);
    }
  }

  lemma {:induction false} MergeLagBy(lead: seq<Tick>, lag: seq<Tick>, i: nat, j: nat, end: int)
    requires i <= |lead| && j <= |lag| && forall k :: 0 <= k < |lag| ==> lag[k].ts <= end
    ensures LagBy(MergeFrom(lead, lag, i, j), end)
    decreases |lead| - i + |lag| - j
  {
    if LeadNext(lead, lag, i, j) {
      MergeLagBy(lead, lag, i + 1, j, end);
    } else if j < |lag| {
      MergeLagBy(lead, lag, i, j + 1, end);
    }
  }

  lemma DrainLedger(c: Config, p: Params, s: State, now: int) returns (r: State)
    requires Ledger(c, p, s)
    ensures r == HandleFill(s, p, now) && Ledger(c, p, r)
  {
    r := HandleFill(s, p, now);
    FillLedger(c, p, s, now);
  }

  lemma ForceCloseLedger(c: Config, p: Params, s: State, now: int) returns (r: State)
    requires Ledger(c, p, s)
    ensures r == ForceClose(s, p, now) && Ledger(c, p, r) && r.held == None && r.pending == s.pending
  {
    r := ForceClose(s, p, now);
  }

  lemma FinishKeeps(c: Config, p: Params, s: State, end: int) returns (t: State, r: State)
    requires Ledger(c, p, s)
    ensures t == HandleFill(s, p, end + p.delayMs + 1)
    ensures r == Finish(s, p, end) && Ledger(c, p, r) && r.held == None && r.pending == t.pending
  {
    t := DrainLedger(c, p, s, end + p.delayMs + 1);
    r := ForceCloseLedger(c, p, t, end + p.delayMs + 2);
  }

  lemma FinishLedger(c: Config, p: Params, s: State, end: int) returns (r: State)
    requires Ledger(c, p, s) && DueBy(p, s, end)
    ensures r == Finish(s, p, end) && Ledger(c, p, r) && InFlight(r) == 0
  {
    var t;
    t, r := FinishKeeps(c, p, s, end);
  }

  lemma ReplayedLedger(c: Config, p: Params, lead: seq<Tick>, lag: seq<Tick>)
    requires lead != [] && lag != [] && Sorted(lag)
    ensures Ledger(c, p, Replayed(c, p, lead, lag)) && InFlight(Replayed(c, p, lead, lag)) == 0
  {
    var es, end := Merge(lead, lag), EndTs(lead, lag);
    assert forall k :: 0 <= k < |lag| ==> lag[k].ts <= lag[|lag| - 1].ts;
    MergeLagBy(lead, lag, 0, 0, end);
    LedgerAlways(c, p, es);
    ThroughDueBy(c, p, Start(p), es, end);
    var r := FinishLedger(c, p, Through(Start(p), c, p, es), end);
  }

  // ------------------------------------------------------------------
  // When a held position can be overwritten
  // ------------------------------------------------------------------

  /** The configurations under which some streams make a second fill replace a held position. */
  predicate CanOverwrite(c: Config, p: Params) {
    && p.pnlModel == HoldConvergence
    && c.maxOpenLots >= 2 && c.maxOrdersPerInterval >= 2 && c.maxDailyLoss > 0.0
    && p.slippagePts <= p.slippageCapPts
  }

  /** What the other configurations keep. */
  ghost predicate NoneLost(c: Config, p: Params, s: State) {
    && s.counts.overwritten == 0
    && (p.slippagePts > p.slippageCapPts ==> s.held.None?)
    && (c.maxDailyLoss <= 0.0 ==> s.counts.signals == 0 && s.risk.dayPnl == 0.0)
  }

  lemma OnNoneLost(c: Config, p: Params, s: State, e: Event)
    requires !CanOverwrite(c, p) && Ledger(c, p, s) && NoneLost(c, p, s)
    ensures NoneLost(c, p, On(s, c, p, e))
  {
    if e.LagTick? && e.tick.valid {
      var now, a := e.tick.ts, TakeQuote(s, e.tick);
      FillLedger(c, p, a, now);
      var b := HandleFill(a, p, now);
    }
  }

  lemma {:induction false} ThroughNoneLost(c: Config, p: Params, s: State, es: seq<Event>)
    requires !CanOverwrite(c, p) && Ledger(c, p, s) && NoneLost(c, p, s)
    ensures NoneLost(c, p, Through(s, c, p, es))
    decreases |es|
  {
    if es != [] {
      OnLedger(c, p, s, es[0]);
      OnNoneLost(c, p, s, es[0]);
      ThroughNoneLost(c, p, On(s, c, p, es[0]), es[1..]);
    }
  }

  lemma ReplayedNoneLost(c: Config, p: Params, lead: seq<Tick>, lag: seq<Tick>) returns (r: State)
    requires lead != [] && lag != [] && !CanOverwrite(c, p)
    ensures r == Replayed(c, p, lead, lag) && r.counts.overwritten == 0
  {
    var es, now := Merge(lead, lag), EndTs(lead, lag) + p.delayMs + 1;
    var s := Through(Start(p), c, p, es);
    LedgerAlways(c, p, es);
    ThroughNoneLost(c, p, Start(p), es);
    var t := HandleFill(s, p, now);
    r := ForceClose(t, p, now + 1);
  }

  // ------------------------------------------------------------------
  // Main results
  // ------------------------------------------------------------------

  /**
   * On return nothing is in flight: every signal was filled, rejected or overwritten, one trade a fill, and
   * unless the configuration can overwrite there are only fills and rejections.
   */
  lemma SignalConservation(c: Config, p: Params, lead: seq<Tick>, lag: seq<Tick>)
    requires lead != [] && lag != [] && Sorted(lag)
    ensures var r := Replayed(c, p, lead, lag);
            && r.pending == None && r.held == None
            && |r.acct.trades| == r.counts.fills
            && r.counts.signals == r.counts.fills + r.counts.rejections + r.counts.overwritten
            && (!CanOverwrite(c, p) ==> r.counts.signals == r.counts.fills + r.counts.rejections)
  {
    ReplayedLedger(c, p, lead, lag);
    if !CanOverwrite(c, p) {
      var r := ReplayedNoneLost(c, p, lead, lag);
    }
  }

  /**
   * Each rejection and each overwrite uses up a lot for good, so together they never exceed the lot limit,
   * the drain at the end of the streams included.
   */
  lemma LeaksBounded(c: Config, p: Params, es: seq<Event>, end: int)
    ensures var s, r := Through(Start(p), c, p, es), Finish(Through(Start(p), c, p, es), p, end);
            && s.counts.rejections + s.counts.overwritten <= (if c.maxOpenLots > 0 then c.maxOpenLots else 0)
            && r.counts.rejections + r.counts.overwritten <= (if c.maxOpenLots > 0 then c.maxOpenLots else 0)
  {
    LedgerAlways(c, p, es);
    var t, r := FinishKeeps(c, p, Through(Start(p), c, p, es), end);
  }

  /** Once they have used up the limit, the strategy never signals again. */
  lemma {:induction false} NoSignalAfterLeaks(c: Config, p: Params, s: State, es: seq<Event>)
    requires Ledger(c, p, s) && s.counts.rejections + s.counts.overwritten >= c.maxOpenLots
    ensures Through(s, c, p, es).counts.signals == s.counts.signals
    ensures Through(s, c, p, es).counts.rejections + Through(s, c, p, es).counts.overwritten
            == s.counts.rejections + s.counts.overwritten
    decreases |es|
  {
    if es != [] {
      OnLedger(c, p, s, es[0]);
      OnAfterLeaks(c, p, s, es[0]);
      NoSignalAfterLeaks(c, p, On(s, c, p, es[0]), es[1..]);
    }
  }

  lemma OnAfterLeaks(c: Config, p: Params, s: State, e: Event)
    requires Ledger(c, p, s) && s.counts.rejections + s.counts.overwritten >= c.maxOpenLots
    ensures On(s, c, p, e).counts.signals == s.counts.signals
    ensures On(s, c, p, e).counts.rejections + On(s, c, p, e).counts.overwritten
            == s.counts.rejections + s.counts.overwritten
  {
    if e.LagTick? && e.tick.valid {
      var now, a := e.tick.ts, TakeQuote(s, e.tick);
      FillLedger(c, p, a, now);
      var b := HandleFill(a, p, now);
    }
  }

  /** The interval never restarts, so the order cap is a cap over the whole replay. */
  lemma OrderCap(c: Config, p: Params, es: seq<Event>)
    ensures var s := Through(Start(p), c, p, es);
            s.counts.signals <= (if c.maxOrdersPerInterval > 0 then c.maxOrdersPerInterval else 0)
  {
    LedgerAlways(c, p, es);
  }
}
