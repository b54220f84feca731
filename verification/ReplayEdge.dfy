/** What every trade of a replay earned, traced back to the signal that caused it. */
module ReplayEdge {
  import opened ExecutionSimulator
  import opened Replay
  import opened Rounding
  import opened Strategy
  import opened Wrappers

  /** The quote an order was signalled on. */
  function SignalQuote(o: Order): Quote {
    Quote(o.bid, o.ask, o.ask - o.bid)
  }

  /** The strategy's rule called for this order at its own mark and quote, due after the delay. */
  ghost predicate Triggered(c: Config, p: Params, o: Order) {
    && Evaluate(c, o.mark, SignalQuote(o)) == (if o.side == Buy then Long else Short)
    && o.side != NoSide
    && o.target == o.signalTs + p.delayMs
    && o.mark > 0.0 && 0.0 < o.bid <= o.ask
  }

  /** An entry: a triggered order filled when due, within both caps, at the price of its side. */
  ghost predicate Entered(c: Config, p: Params, f: Fill) {
    && Triggered(c, p, f.order)
    && f.verdict == Filled
    && f.fillTs >= f.order.target
    && f.execAsk - f.execBid <= p.spreadCapPts && p.slippagePts <= p.slippageCapPts
    && f.price == (if f.order.side == Buy then f.execAsk + p.spreadMarkupPts + p.slippagePts
                   else f.execBid - p.spreadMarkupPts - p.slippagePts) > 0.0
    && f.commission == Commission(p)
  }

  /** How the exit of a held position follows from its exit quote. */
  ghost predicate Exited(p: Params, t: Trade) {
    var costs := p.holdExitSlipPts + p.holdExitMarkupPts;
    && t.pnl == (if t.entry.order.side == Buy then t.exitBid - costs - t.entry.price
                 else t.entry.price - (t.exitAsk + costs)) - t.entry.commission
    && (t.exit == Converged ==> Abs(t.exitLead - (t.exitBid + t.exitAsk) / 2.0) <= p.holdTolPts)
    && (t.exit == MaxHold ==> p.holdMaxMs > 0 && t.fillTs - t.entry.fillTs >= p.holdMaxMs)
  }

  /** The instant round trip: the spread of the fill book, and every cost once. */
  ghost predicate PaidSpread(p: Params, t: Trade) {
    t.pnl == -((t.entry.execAsk - t.entry.execBid) + p.spreadMarkupPts + p.slippagePts + Commission(p))
  }

  ghost predicate Earned(c: Config, p: Params, t: Trade) {
    && Entered(c, p, t.entry)
    && (p.pnlModel == Instant <==> t.exit == Immediate)
    && (if t.exit == Immediate then PaidSpread(p, t) else Exited(p, t))
  }

  ghost predicate AllEarned(c: Config, p: Params, ts: seq<Trade>) {
    forall i :: 0 <= i < |ts| ==> Earned(c, p, ts[i])
  }

  /** All orders, positions and trades of a state go back to a signal. */
  ghost predicate Traced(c: Config, p: Params, s: State) {
    && (s.pending.Some? ==> Triggered(c, p, s.pending.value))
    && (s.held.Some? ==> Entered(c, p, s.held.value) && p.pnlModel != Instant)
    && AllEarned(c, p, s.acct.trades)
  }

  lemma FillTraced(c: Config, p: Params, s: State, now: int)
    requires Traced(c, p, s)
    ensures Traced(c, p, HandleFill(s, p, now))
  {
    if s.pending.Some? && now >= s.pending.value.target {
      var f := FillOf(p, s.pending.value, now, s.market.bid, s.market.ask);
      if f.verdict == Filled {
        if p.pnlModel == Instant {
          var t := InstantTrade(f, s.market.lead);
        }
      }
    }
  }

  lemma CloseTraced(c: Config, p: Params, s: State, now: int, lead: real, bid: real, ask: real, force: bool)
    requires Traced(c, p, s)
    ensures Traced(c, p, CloseOpen(s, p, now, lead, bid, ask, force))
  {
    if s.held.Some? {
      var exit := ExitReason(p, s.held.value, now, lead, bid, ask, force);
      if exit.Some? {
        var t := HoldTrade(p, s.held.value, now, exit.value, lead, bid, ask);
      }
    }
  }

  lemma EmitTraced(c: Config, p: Params, s: State, now: int)
    requires Traced(c, p, s)
    ensures Traced(c, p, Emit(s, c, p, now))
  {
  }

  lemma OnTraced(c: Config, p: Params, s: State, e: Event) returns (r: State)
    requires Traced(c, p, s)
    ensures r == On(s, c, p, e) && Traced(c, p, r)
  {
    r := On(s, c, p, e);
    if e.LagTick? && e.tick.valid {
      var now, t := e.tick.ts, TakeQuote(s, e.tick);
      FillTraced(c, p, t, now);
      var u := HandleFill(t, p, now);
      CloseTraced(c, p, u, now, u.market.lead, u.market.bid, u.market.ask, false);
      var v := CloseOpen(u, p, now, u.market.lead, u.market.bid, u.market.ask, false);
      EmitTraced(c, p, v, now);
      r := Remember(Emit(v, c, p, now));
    }
  }

  lemma {:induction false} ThroughTraced(c: Config, p: Params, s: State, es: seq<Event>)
    requires Traced(c, p, s)
    ensures Traced(c, p, Through(s, c, p, es))
    decreases |es|
  {
    if es != [] {
      var t := OnTraced(c, p, s, es[0]);
      ThroughTraced(c, p, t, es[1..]);
    }
  }

  lemma DrainTraced(c: Config, p: Params, s: State, now: int) returns (r: State)
    requires Traced(c, p, s)
    ensures r == HandleFill(s, p, now) && Traced(c, p, r)
  {
    r := HandleFill(s, p, now);
    FillTraced(c, p, s, now);
  }

  lemma ForceCloseTraced(c: Config, p: Params, s: State, now: int) returns (r: State)
    requires Traced(c, p, s)
    ensures r == ForceClose(s, p, now) && Traced(c, p, r)
  {
    r := ForceClose(s, p, now);
    if s.held.Some? {
      var m := s.market;
      var t := if m.lastBid <= 0.0 || m.lastAsk <= 0.0
               then s.(market := m.(lastBid := s.held.value.price, lastAsk := s.held.value.price)) else s;
      CloseTraced(c, p, t, now, t.market.lastLead, t.market.lastBid, t.market.lastAsk, true);
    }
  }

  lemma FinishTraced(c: Config, p: Params, s: State, end: int) returns (r: State)
    requires Traced(c, p, s)
    ensures r == Finish(s, p, end) && Traced(c, p, r)
  {
    var t := DrainTraced(c, p, s, end + p.delayMs + 1);
    r := ForceCloseTraced(c, p, t, end + p.delayMs + 2);
  }

  lemma ReplayTraced(c: Config, p: Params, lead: seq<Tick>, lag: seq<Tick>)
    requires lead != [] && lag != []
    ensures AllEarned(c, p, Replayed(c, p, lead, lag).acct.trades)
  {
    ThroughTraced(c, p, Start(p), Merge(lead, lag));
    var r := FinishTraced(c, p, Through(Start(p), c, p, Merge(lead, lag)), EndTs(lead, lag));
  }

  // ------------------------------------------------------------------
  // The convergence bound
  // ------------------------------------------------------------------

  /** What rounding lead and quote to four decimals can hide of the distance between them. */
  function Slack(c: Config): real {
    if c.roundFourDecimals then 2.0 * HALF_UNIT else 0.0
  }

  /** Markups, slippages and commission of a held round trip. */
  function Costs(p: Params): real {
    p.spreadMarkupPts + p.slippagePts + p.holdExitMarkupPts + p.holdExitSlipPts + Commission(p)
  }

  /** What a long may count on when it converges: the signal's threshold and the lead's later rise, less all else. */
  function LongFloor(c: Config, p: Params, t: Trade): real {
    var o := t.entry.order;
    Threshold(c, SignalQuote(o)) - Slack(c) - p.holdTolPts - (t.exitAsk - t.exitBid) / 2.0 - Costs(p)
    + (t.exitLead - o.mark) - (t.entry.execAsk - o.ask)
  }

  function ShortFloor(c: Config, p: Params, t: Trade): real {
    var o := t.entry.order;
    Threshold(c, SignalQuote(o)) - Slack(c) - p.holdTolPts - (t.exitAsk - t.exitBid) / 2.0 - Costs(p)
    + (o.mark - t.exitLead) - (o.bid - t.entry.execBid)
  }

  lemma LongBound(c: Config, p: Params, t: Trade)
    requires Earned(c, p, t) && t.exit == Converged && t.entry.order.side == Buy
    ensures t.pnl > LongFloor(c, p, t)
  {
    var o := t.entry.order;
    var mid := (t.exitBid + t.exitAsk) / 2.0;
    assert mid >= t.exitLead - p.holdTolPts;
    assert t.exitBid == mid - (t.exitAsk - t.exitBid) / 2.0;
  }

  lemma ShortBound(c: Config, p: Params, t: Trade)
    requires Earned(c, p, t) && t.exit == Converged && t.entry.order.side == Sell
    ensures t.pnl > ShortFloor(c, p, t)
  {
    var o := t.entry.order;
    var mid := (t.exitBid + t.exitAsk) / 2.0;
    assert mid <= t.exitLead + p.holdTolPts;
    assert t.exitAsk == mid + (t.exitAsk - t.exitBid) / 2.0;
  }

  /** In any replay, every position closed by the convergence test earned more than its floor. */
  lemma ConvergenceBound(c: Config, p: Params, lead: seq<Tick>, lag: seq<Tick>, i: nat)
    requires lead != [] && lag != [] && i < |Replayed(c, p, lead, lag).acct.trades|
    requires Replayed(c, p, lead, lag).acct.trades[i].exit == Converged
    ensures var t := Replayed(c, p, lead, lag).acct.trades[i];
            t.pnl > if t.entry.order.side == Buy then LongFloor(c, p, t) else ShortFloor(c, p, t)
  {
    ReplayTraced(c, p, lead, lag);
    var t := Replayed(c, p, lead, lag).acct.trades[i];
    assert Earned(c, p, t);
    if t.entry.order.side == Buy {
      LongBound(c, p, t);
    } else {
      ShortBound(c, p, t);
    }
  }

  /** A position may close on the very tick that filled it: exactly when that tick's mid has converged. */
  lemma ClosedOnItsFillTick(p: Params, s: State, now: int)
    requires s.pending.Some? && s.held.None? && now >= s.pending.value.target && p.pnlModel == HoldConvergence
    requires FillOf(p, s.pending.value, now, s.market.bid, s.market.ask).verdict == Filled
    ensures var r := Settle(s, p, now);
            && (r.held == None <==> Abs(s.market.lead - 0.5 * (s.market.bid + s.market.ask)) <= p.holdTolPts)
            && (r.held == None ==> r.acct.trades != [] && r.acct.trades[|r.acct.trades| - 1].entry.fillTs == now
                                   && r.acct.trades[|r.acct.trades| - 1].fillTs == now)
  {
  }
}
