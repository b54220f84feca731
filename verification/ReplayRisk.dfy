/** The daily loss stop over a whole replay. */
module ReplayRisk {
  import opened ExecutionSimulator
  import opened Replay
  import opened ReplayLedger
  import opened Strategy
  import opened Wrappers

  /** Commission paid on `n` trades. */
  function Fees(p: Params, n: nat): real {
    Commission(p) * (n as real)
  }

  /** The strategy's daily pnl is the replay's pnl with every commission charged a second time. */
  ghost predicate ChargedTwice(p: Params, s: State) {
    && (s.held.Some? ==> s.held.value.commission == Commission(p))
    && s.risk.dayPnl == s.acct.equity - Capital(p) - Fees(p, |s.acct.trades|)
  }

  ghost predicate TradeAbove(line: real, t: Trade) {
    t.equityAfter - t.pnl > line
  }

  /** Equity is above the line while an order or position is in flight, and was just before every trade. */
  ghost predicate Stopped(line: real, s: State) {
    && (s.pending.Some? || s.held.Some? ==> s.acct.equity > line)
    && (forall i :: 0 <= i < |s.acct.trades| ==> TradeAbove(line, s.acct.trades[i]))
    && (s.acct.trades != [] ==> s.acct.trades[|s.acct.trades| - 1].equityAfter == s.acct.equity)
  }

  lemma BookCharged(p: Params, s: State, t: Trade)
    requires ChargedTwice(p, s) && t.entry.commission == Commission(p)
    ensures ChargedTwice(p, Book(s, t))
  {
  }

  lemma FillCharged(p: Params, s: State, now: int)
    requires ChargedTwice(p, s)
    ensures ChargedTwice(p, HandleFill(s, p, now))
  {
    if s.pending.Some? && now >= s.pending.value.target {
      var f := FillOf(p, s.pending.value, now, s.market.bid, s.market.ask);
      if f.verdict == Filled {
        BookCharged(p, s.(pending := None), InstantTrade(f, s.market.lead));
      }
    }
  }

  lemma CloseCharged(p: Params, s: State, now: int, lead: real, bid: real, ask: real, force: bool)
    requires ChargedTwice(p, s)
    ensures ChargedTwice(p, CloseOpen(s, p, now, lead, bid, ask, force))
  {
    if s.held.Some? {
      var exit := ExitReason(p, s.held.value, now, lead, bid, ask, force);
      if exit.Some? {
        BookCharged(p, s.(held := None), HoldTrade(p, s.held.value, now, exit.value, lead, bid, ask));
      }
    }
  }

  lemma BookStopped(line: real, s: State, t: Trade)
    requires s.pending.None? && s.held.None? && s.acct.equity > line && Stopped(line, s)
    ensures Stopped(line, Book(s, t))
  {
    var u := t.(equityAfter := s.acct.equity + t.pnl);
    assert Book(s, t).acct.trades == s.acct.trades + [u];
    assert TradeAbove(line, u);
  }

  lemma FillStopped(line: real, p: Params, s: State, now: int)
    requires Stopped(line, s) && ModelKept(p, s)
    ensures Stopped(line, HandleFill(s, p, now))
  {
    if s.pending.Some? && now >= s.pending.value.target {
      var f := FillOf(p, s.pending.value, now, s.market.bid, s.market.ask);
      if f.verdict == Filled && p.pnlModel == Instant {
        BookStopped(line, s.(pending := None), InstantTrade(f, s.market.lead));
      }
    }
  }

  lemma CloseStopped(line: real, p: Params, s: State, now: int, lead: real, bid: real, ask: real, force: bool)
    requires Stopped(line, s)
    requires s.pending.Some? && s.held.Some? ==> ExitReason(p, s.held.value, now, lead, bid, ask, force) == None
    ensures Stopped(line, CloseOpen(s, p, now, lead, bid, ask, force))
  {
    if s.held.Some? {
      var exit := ExitReason(p, s.held.value, now, lead, bid, ask, force);
      if exit.Some? {
        BookStopped(line, s.(held := None), HoldTrade(p, s.held.value, now, exit.value, lead, bid, ask));
      }
    }
  }

  /** The gate: an order goes out only while the daily pnl, and so the equity, is above the line. */
  lemma EmitStopped(c: Config, p: Params, s: State, now: int)
    requires Stopped(Capital(p) - c.maxDailyLoss, s) && ChargedTwice(p, s) && Commission(p) >= 0.0
    ensures Stopped(Capital(p) - c.maxDailyLoss, Emit(s, c, p, now)) && ChargedTwice(p, Emit(s, c, p, now))
  {
  }

  ghost predicate Guarded(c: Config, p: Params, s: State) {
    && Ledger(c, p, s) && ChargedTwice(p, s) && Stopped(Capital(p) - c.maxDailyLoss, s)
    && (!CanOverwrite(c, p) ==> NoneLost(c, p, s))
  }

  /** Nothing closes at the current quote while an order is in flight. */
  ghost predicate Apart(p: Params, s: State, now: int) {
    s.pending.Some? && s.held.Some? ==>
      ExitReason(p, s.held.value, now, s.market.lead, s.market.bid, s.market.ask, false) == None
  }

  lemma SettleGuarded(c: Config, p: Params, s: State, now: int) returns (r: State)
    requires Guarded(c, p, s) && Apart(p, HandleFill(s, p, now), now)
    ensures r == Settle(s, p, now) && Ledger(c, p, r) && ChargedTwice(p, r)
    ensures Stopped(Capital(p) - c.maxDailyLoss, r)
  {
    var line := Capital(p) - c.maxDailyLoss;
    FillLedger(c, p, s, now);
    FillCharged(p, s, now);
    FillStopped(line, p, s, now);
    var t := HandleFill(s, p, now);
    CloseLedger(c, p, t, now, t.market.lead, t.market.bid, t.market.ask);
    CloseCharged(p, t, now, t.market.lead, t.market.bid, t.market.ask, false);
    CloseStopped(line, p, t, now, t.market.lead, t.market.bid, t.market.ask, false);
    r := CloseOpen(t, p, now, t.market.lead, t.market.bid, t.market.ask, false);
  }

  lemma LagGuarded(c: Config, p: Params, s: State, q: Tick) returns (r: State)
    requires Guarded(c, p, s) && Commission(p) >= 0.0 && q.valid
    requires Apart(p, HandleFill(TakeQuote(s, q), p, q.ts), q.ts)
    ensures r == OnLag(s, c, p, q) && Ledger(c, p, r) && ChargedTwice(p, r)
    ensures Stopped(Capital(p) - c.maxDailyLoss, r)
  {
    var t := SettleGuarded(c, p, TakeQuote(s, q), q.ts);
    EmitLedger(c, p, t, q.ts);
    EmitStopped(c, p, t, q.ts);
    r := Remember(Emit(t, c, p, q.ts));
  }

  lemma OnGuarded(c: Config, p: Params, s: State, e: Event) returns (r: State)
    requires Guarded(c, p, s) && Commission(p) >= 0.0
    requires e.LagTick? && e.tick.valid ==>
               Apart(p, HandleFill(TakeQuote(s, e.tick), p, e.tick.ts), e.tick.ts)
    ensures r == On(s, c, p, e) && Guarded(c, p, r)
  {
    if !CanOverwrite(c, p) {
      OnNoneLost(c, p, s, e);
    }
    if e.LagTick? && e.tick.valid {
      r := LagGuarded(c, p, s, e.tick);
    } else {
      r := On(s, c, p, e);
    }
  }

  // ------------------------------------------------------------------
  // When nothing closes while an order is in flight
  // ------------------------------------------------------------------

  /**
   * The configurations whose line is kept: they never have two positions at once; or orders are due at once; or
   * positions never converge and, if they expire at all, no order placed before the expiry is still in flight.
   */
  predicate KeepsLine(c: Config, p: Params) {
    || !CanOverwrite(c, p)
    || p.delayMs <= 0
    || (p.holdTolPts < 0.0 && (p.holdMaxMs <= 0 || p.delayMs <= 1))
  }

  /** With short delays an order in flight beside a held position is due no later than the position expires. */
  ghost predicate DueFirst(p: Params, s: State) {
    p.holdTolPts < 0.0 && p.holdMaxMs > 0 && p.delayMs <= 1 && s.pending.Some? && s.held.Some? ==>
      s.pending.value.target <= s.held.value.fillTs + p.holdMaxMs
  }

  lemma OnDueFirst(c: Config, p: Params, s: State, e: Event)
    requires DueFirst(p, s)
    ensures DueFirst(p, On(s, c, p, e))
  {
    if e.LagTick? && e.tick.valid {
      var now := e.tick.ts;
      var t := HandleFill(TakeQuote(s, e.tick), p, now);
      assert DueFirst(p, t);
      var u := CloseOpen(t, p, now, t.market.lead, t.market.bid, t.market.ask, false);
      assert u.held.Some? ==> !(p.holdMaxMs > 0 && now - u.held.value.fillTs >= p.holdMaxMs);
      assert DueFirst(p, u);
    }
  }

  lemma OneInFlight(c: Config, p: Params, s: State)
    requires !CanOverwrite(c, p) && Ledger(c, p, s) && NoneLost(c, p, s)
    ensures InFlight(s) <= 1
  {
  }

  /** Orders due at once are due by the next lag tick. */
  ghost predicate DueNext(c: Config, p: Params, s: State, now: int) {
    CanOverwrite(c, p) && p.delayMs <= 0 && s.pending.Some? ==> s.pending.value.target <= now
  }

  lemma StaysApart(c: Config, p: Params, s: State, now: int)
    requires KeepsLine(c, p) && Guarded(c, p, s) && DueFirst(p, s) && DueNext(c, p, s, now)
    ensures Apart(p, HandleFill(s, p, now), now)
  {
    if !CanOverwrite(c, p) {
      OneInFlight(c, p, s);
    }
  }

  /** The lag ticks of `es` are in time order and not before `from`, where that matters. */
  ghost predicate Forward(c: Config, p: Params, es: seq<Event>, from: int) {
    CanOverwrite(c, p) && p.delayMs <= 0 ==>
      && (forall i :: 0 <= i < |es| && es[i].LagTick? ==> from <= es[i].tick.ts)
      && (forall i, j :: 0 <= i < j < |es| && es[i].LagTick? && es[j].LagTick? ==> es[i].tick.ts <= es[j].tick.ts)
  }

  lemma ForwardStep(c: Config, p: Params, s: State, es: seq<Event>, from: int) returns (next: int)
    requires es != [] && Forward(c, p, es, from) && DueNext(c, p, s, from)
    ensures Forward(c, p, es[1..], next) && DueNext(c, p, On(s, c, p, es[0]), next)
    ensures es[0].LagTick? ==> DueNext(c, p, TakeQuote(s, es[0].tick), es[0].tick.ts)
  {
    next := if es[0].LagTick? then es[0].tick.ts else from;
    assert forall i :: 0 <= i < |es| - 1 ==> es[1..][i] == es[i + 1];
  }

  lemma {:induction false} ThroughGuarded(c: Config, p: Params, s: State, es: seq<Event>, from: int)
    requires KeepsLine(c, p) && Commission(p) >= 0.0
    requires Guarded(c, p, s) && DueFirst(p, s) && DueNext(c, p, s, from) && Forward(c, p, es, from)
    ensures Guarded(c, p, Through(s, c, p, es))
    decreases |es|
  {
    if es != [] {
      var e := es[0];
      var next := ForwardStep(c, p, s, es, from);
      if e.LagTick? && e.tick.valid {
        StaysApart(c, p, TakeQuote(s, e.tick), e.tick.ts);
      }
      OnDueFirst(c, p, s, e);
      var t := OnGuarded(c, p, s, e);
      ThroughGuarded(c, p, t, es[1..], next);
    }
  }

  lemma ForceCloseStopped(line: real, p: Params, s: State, now: int)
    requires Stopped(line, s) && (s.pending.None? || s.held.None?)
    ensures Stopped(line, ForceClose(s, p, now))
  {
    if s.held.Some? {
      var m := s.market;
      var t := if m.lastBid <= 0.0 || m.lastAsk <= 0.0
               then s.(market := m.(lastBid := s.held.value.price, lastAsk := s.held.value.price)) else s;
      CloseStopped(line, p, t, now, t.market.lastLead, t.market.lastBid, t.market.lastAsk, true);
    }
  }

  lemma DrainCharged(p: Params, s: State, now: int) returns (r: State)
    requires ChargedTwice(p, s)
    ensures r == HandleFill(s, p, now) && ChargedTwice(p, r)
  {
    r := HandleFill(s, p, now);
    FillCharged(p, s, now);
  }

  lemma ForceCloseCharged(p: Params, s: State, now: int) returns (r: State)
    requires ChargedTwice(p, s)
    ensures r == ForceClose(s, p, now) && ChargedTwice(p, r)
  {
    r := ForceClose(s, p, now);
    if s.held.Some? {
      var m := s.market;
      var t := if m.lastBid <= 0.0 || m.lastAsk <= 0.0
               then s.(market := m.(lastBid := s.held.value.price, lastAsk := s.held.value.price)) else s;
      CloseCharged(p, t, now, t.market.lastLead, t.market.lastBid, t.market.lastAsk, true);
    }
  }

  lemma FinishStopped(c: Config, p: Params, s: State, end: int) returns (r: State)
    requires Guarded(c, p, s) && (!CanOverwrite(c, p) || DueBy(p, s, end))
    ensures r == Finish(s, p, end) && Stopped(Capital(p) - c.maxDailyLoss, r)
  {
    var line := Capital(p) - c.maxDailyLoss;
    var now := end + p.delayMs + 1;
    if !CanOverwrite(c, p) {
      OneInFlight(c, p, s);
    }
    FillStopped(line, p, s, now);
    var t := HandleFill(s, p, now);
    ForceCloseStopped(line, p, t, now + 1);
    r := ForceClose(t, p, now + 1);
  }

  // ------------------------------------------------------------------
  // Main results
  // ------------------------------------------------------------------

  /**
   * Without rebates and unless the configuration can overwrite, equity just before every trade of a replay is
   * above the capital less the daily loss limit, so the final equity is below that line by at most the last
   * trade's loss, whatever the order of the ticks.
   */
  lemma LossStop(c: Config, p: Params, lead: seq<Tick>, lag: seq<Tick>)
    requires lead != [] && lag != [] && !CanOverwrite(c, p) && Commission(p) >= 0.0
    ensures var a, line := Replayed(c, p, lead, lag).acct, Capital(p) - c.maxDailyLoss;
            && (forall i :: 0 <= i < |a.trades| ==> a.trades[i].equityAfter - a.trades[i].pnl > line)
            && (a.trades != [] ==> a.equity > line + a.trades[|a.trades| - 1].pnl)
  {
    ThroughGuarded(c, p, Start(p), Merge(lead, lag), 0);
    var r := FinishStopped(c, p, Through(Start(p), c, p, Merge(lead, lag)), EndTs(lead, lag));
    assert forall i :: 0 <= i < |r.acct.trades| ==> TradeAbove(Capital(p) - c.maxDailyLoss, r.acct.trades[i]);
  }

  lemma {:induction false} ThroughCharged(c: Config, p: Params, s: State, es: seq<Event>)
    requires ChargedTwice(p, s)
    ensures ChargedTwice(p, Through(s, c, p, es))
    decreases |es|
  {
    if es != [] {
      var e := es[0];
      if e.LagTick? && e.tick.valid {
        var now, t := e.tick.ts, TakeQuote(s, e.tick);
        FillCharged(p, t, now);
        var u := HandleFill(t, p, now);
        CloseCharged(p, u, now, u.market.lead, u.market.bid, u.market.ask, false);
        assert ChargedTwice(p, Emit(Settle(t, p, now), c, p, now));
      }
      ThroughCharged(c, p, On(s, c, p, e), es[1..]);
    }
  }

  /**
   * At any lot limit, the daily pnl the gate reads is the pnl of the trades less one extra commission each,
   * after every prefix of a run ...
   */
  lemma DayPnlIsNetOfFees(c: Config, p: Params, es: seq<Event>) returns (s: State)
    ensures s == Through(Start(p), c, p, es) && ChargedTwice(p, s)
    ensures s.risk.dayPnl == s.acct.equity - Capital(p) - Fees(p, |s.acct.trades|)
  {
    s := Through(Start(p), c, p, es);
    ThroughCharged(c, p, Start(p), es);
  }

  lemma FinishCharged(p: Params, s: State, end: int) returns (r: State)
    requires ChargedTwice(p, s)
    ensures r == Finish(s, p, end) && ChargedTwice(p, r)
  {
    var t := DrainCharged(p, s, end + p.delayMs + 1);
    r := ForceCloseCharged(p, t, end + p.delayMs + 2);
  }

  /** ... and when the replay has ended. */
  lemma FinalDayPnl(c: Config, p: Params, lead: seq<Tick>, lag: seq<Tick>) returns (r: State)
    requires lead != [] && lag != []
    ensures r == Replayed(c, p, lead, lag)
    ensures r.risk.dayPnl == r.acct.equity - Capital(p) - Fees(p, |r.acct.trades|)
  {
    var s := DayPnlIsNetOfFees(c, p, Merge(lead, lag));
    r := FinishCharged(p, s, EndTs(lead, lag));
  }

  // ------------------------------------------------------------------
  // Spacing of signals
  // ------------------------------------------------------------------

  /** The event made the strategy signal and the simulator take the order. */
  ghost predicate Signalled(c: Config, p: Params, s: State, e: Event) {
    On(s, c, p, e).counts.signals > s.counts.signals
  }

  lemma SignalStamps(c: Config, p: Params, s: State, e: Event)
    requires Signalled(c, p, s, e)
    ensures && e.LagTick? && On(s, c, p, e).risk.lastSignal == e.tick.ts
            && (s.risk.lastSignal == 0 || e.tick.ts - s.risk.lastSignal >= c.intervalSeconds * 1000)
  {
    assert On(s, c, p, e) == OnLag(s, c, p, e.tick);
  }

  lemma {:induction false} StampsAdvance(c: Config, p: Params, s: State, es: seq<Event>, from: int)
    requires s.risk.lastSignal >= from && forall i :: 0 <= i < |es| ==> es[i].tick.ts >= from
    ensures Through(s, c, p, es).risk.lastSignal >= from
    decreases |es|
  {
    if es != [] {
      assert forall i :: 0 <= i < |es| - 1 ==> es[1..][i] == es[i + 1];
      StampsAdvance(c, p, On(s, c, p, es[0]), es[1..], from);
    }
  }

  /** The last stamp is `from`, or a whole interval after it and no later than `now`. */
  ghost predicate StampAfter(c: Config, s: State, from: int, now: int) {
    || s.risk.lastSignal == from
    || (s.risk.lastSignal - from >= c.intervalSeconds * 1000 && from <= s.risk.lastSignal <= now)
  }

  lemma StampMoves(c: Config, p: Params, s: State, e: Event, from: int, now: int)
    requires StampAfter(c, s, from, now) && from != 0 && from <= now <= e.tick.ts
    ensures StampAfter(c, On(s, c, p, e), from, e.tick.ts)
  {
  }

  /** Events between the times `from` and `to`, in time order. */
  ghost predicate Timely(es: seq<Event>, from: int, to: int) {
    && from <= to && (forall i :: 0 <= i < |es| ==> from <= es[i].tick.ts <= to)
    && forall i, j :: 0 <= i < j < |es| ==> es[i].tick.ts <= es[j].tick.ts
  }

  lemma {:induction false} StampsMove(c: Config, p: Params, s: State, es: seq<Event>, from: int, now: int, to: int)
    requires StampAfter(c, s, from, now) && from != 0 && from <= now && Timely(es, now, to)
    ensures StampAfter(c, Through(s, c, p, es), from, to)
    decreases |es|
  {
    if es != [] {
      StampMoves(c, p, s, es[0], from, now);
      StampsMove(c, p, On(s, c, p, es[0]), es[1..], from, es[0].tick.ts, to);
    }
  }

  /**
   * Whatever happens between them, two signals are a whole interval apart, unless the first is at time 0,
   * which the source takes for no signal yet.
   */
  lemma {:induction false} SignalsSpaced(c: Config, p: Params, s: State, e: Event, es: seq<Event>, f: Event)
    requires Signalled(c, p, s, e) && e.tick.ts != 0
    requires if e.tick.ts > 0 then forall i :: 0 <= i < |es| ==> es[i].tick.ts >= e.tick.ts
             else Timely(es, e.tick.ts, f.tick.ts)
    requires Signalled(c, p, Through(On(s, c, p, e), c, p, es), f)
    ensures f.tick.ts - e.tick.ts >= c.intervalSeconds * 1000
  {
    SignalStamps(c, p, s, e);
    SignalStamps(c, p, Through(On(s, c, p, e), c, p, es), f);
    if e.tick.ts > 0 {
      StampsAdvance(c, p, On(s, c, p, e), es, e.tick.ts);
    } else {
      StampsMove(c, p, On(s, c, p, e), es, e.tick.ts, e.tick.ts, f.tick.ts);
    }
  }
}
