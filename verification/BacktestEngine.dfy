/** The replay loop: one pass over both streams, all state updated in place. */
module BacktestEngine {
  import Sim = ExecutionSimulator
  import Strat = Strategy
  import opened Replay
  import opened ReplayAccount
  import ReplayInstant
  import opened ReplayLedger
  import ReplaySignal
  import opened Rounding
  import opened Wrappers

  datatype Result = Result(startTs: int, endTs: int, leadTicks: nat, lagTicks: nat,
                           signals: nat, fills: nat, rejections: nat,
                           initialCapital: real, finalEquity: real, totalPnl: real,
                           grossProfit: real, grossLoss: real, profitFactor: real,
                           maxDrawdown: real, maxDrawdownPct: real, trades: seq<Trade>, delayMs: int)

  function Blank(p: Sim.Params): Result {
    Result(0, 0, 0, 0, 0, 0, 0, Capital(p), 0.0, 0.0, 0.0, 0.0, 0.0, 0.0, 0.0, [], p.delayMs)
  }

  const NO_LOSS_FACTOR := 1000000000.0

  function ProfitFactor(profit: real, loss: real): real {
    if loss > 0.0 then profit / loss else if profit > 0.0 then NO_LOSS_FACTOR else 0.0
  }

  function Report(p: Sim.Params, s: State, start: int, end: int): Result {
    var a := s.acct;
    Result(start, end, s.counts.leadTicks, s.counts.lagTicks, s.counts.signals, s.counts.fills, s.counts.rejections,
           Capital(p), a.equity, a.equity - Capital(p), a.grossProfit, a.grossLoss,
           ProfitFactor(a.grossProfit, a.grossLoss), a.maxDrawdown, a.maxDrawdownPct, a.trades, p.delayMs)
  }

  function StartTs(lead: seq<Tick>, lag: seq<Tick>): int
    requires lead != [] && lag != []
  {
    if lag[0].ts < lead[0].ts then lag[0].ts else lead[0].ts
  }

  /** The state of one `run_impl`: its locals, the simulator and the strategy. */
  class Run {
    const cfg: Strat.Config
    const params: Sim.Params
    const strategy: Strat.Strategy
    const sim: Sim.ExecutionSimulator
    var market: Market
    var held: Option<Sim.Fill>
    var equity: real
    var peak: real
    var grossProfit: real
    var grossLoss: real
    var maxDrawdown: real
    var maxDrawdownPct: real
    var trades: seq<Trade>
    var signals: nat
    var fills: nat
    var rejections: nat
    var leadTicks: nat
    var lagTicks: nat
    ghost var overwritten: nat

    ghost predicate Valid() {
      strategy.cfg == cfg && sim.params == params
    }

    ghost function Acct(): Account
      reads this
    {
      Account(equity, peak, grossProfit, grossLoss, maxDrawdown, maxDrawdownPct, trades)
    }

    ghost function Tally(): Counts
      reads this
    {
      Counts(signals, fills, rejections, overwritten, leadTicks, lagTicks)
    }

    ghost function View(): State
      reads this, strategy, sim
    {
      State(strategy.View(), sim.View(), held, market, Acct(), Tally())
    }

    constructor (cfg: Strat.Config, params: Sim.Params)
      ensures Valid() && this.cfg == cfg && this.params == params && View() == Start(params)
      ensures fresh(strategy) && fresh(sim)
    {
      this.cfg, this.params := cfg, params;
      strategy := new Strat.Strategy(cfg);
      sim := new Sim.ExecutionSimulator(params);
      market, held := Market(0.0, 0.0, 0.0, 0.0, 0.0, 0.0), None;
      equity, peak := params.quantity * 1000.0, params.quantity * 1000.0;
      grossProfit, grossLoss, maxDrawdown, maxDrawdownPct, trades := 0.0, 0.0, 0.0, 0.0, [];
      signals, fills, rejections, leadTicks, lagTicks, overwritten := 0, 0, 0, 0, 0, 0;
    }

    method Credit(pnl: real)
      modifies `equity, `grossProfit, `grossLoss
      ensures Acct() == old(Acct()).(equity := old(equity) + pnl,
                                     grossProfit := old(grossProfit) + Max(pnl, 0.0),
                                     grossLoss := old(grossLoss) + Max(-pnl, 0.0))
    {
      equity := equity + pnl;
      if pnl >= 0.0 {
        grossProfit := grossProfit + pnl;
      } else {
        grossLoss := grossLoss - pnl;
      }
    }

    /** `record_trade`, after the pnl was credited. */
    method RecordTrade(t: Trade)
      modifies `trades, `peak, `maxDrawdown, `maxDrawdownPct
      ensures var dd := Max(old(peak), equity) - equity;
              Acct() == old(Acct()).(
                trades := old(trades) + [t.(equityAfter := equity)], peak := Max(old(peak), equity),
                maxDrawdown := Max(old(maxDrawdown), dd),
                maxDrawdownPct := if dd > old(maxDrawdown) then Percent(dd, peak) else old(maxDrawdownPct))
    {
      trades := trades + [t.(equityAfter := equity)];
      if peak < equity {
        peak := equity;
      }
      var dd := peak - equity;
      if dd > maxDrawdown {
        maxDrawdown := dd;
        maxDrawdownPct := if peak > 0.0 then dd / peak * 100.0 else 0.0;
      }
    }

    method BookTrade(t: Trade)
      requires Valid()
      modifies this, strategy
      ensures View() == Book(old(View()), t)
    {
      Credit(t.pnl);
      RecordTrade(t);
      assert Acct() == Realise(old(Acct()), t);
      fills := fills + 1;
      strategy.OnOrderClosed(t.pnl, t.entry.commission);
    }

    method OpenPosition(f: Sim.Fill)
      modifies this
      ensures View() == old(View()).(held := Some(f), counts := old(Tally()).(overwritten :=
                          old(overwritten) + (if old(held).Some? then 1 else 0)))
    {
      overwritten := overwritten + (if held.Some? then 1 else 0);
      held := Some(f);
    }

    /** `handle_fill`. */
    method HandleDueFill(now: int)
      requires Valid()
      modifies this, strategy, sim
      ensures View() == HandleFill(old(View()), params, now)
    {
      var fill := sim.AtFill(now, market.bid, market.ask);
      if fill.None? {
        return;
      }
      var f := fill.value;
      if f.verdict == Sim.Filled {
        if params.pnlModel == Sim.HoldConvergence {
          OpenPosition(f);
        } else {
          var exit := if f.order.side == Strat.Buy then f.execBid else f.execAsk;
          var raw := if f.order.side == Strat.Buy then exit - f.price else f.price - exit;
          BookTrade(Trade(f.fillTs, raw - f.commission, 0.0, f, Immediate, market.lead, f.execBid, f.execAsk));
        }
      } else {
        rejections := rejections + 1;
      }
    }

    /** `close_open`. */
    method CloseHeld(now: int, lead: real, bid: real, ask: real, force: bool)
      requires Valid()
      modifies this, strategy
      ensures View() == CloseOpen(old(View()), params, now, lead, bid, ask, force)
    {
      if held.None? {
        return;
      }
      var f := held.value;
      var doClose, why := force, Forced;
      if !doClose && params.holdMaxMs > 0 && now - f.fillTs >= params.holdMaxMs {
        doClose, why := true, MaxHold;
      }
      if !doClose {
        var mid := 0.5 * (bid + ask);
        doClose, why := Abs(lead - mid) <= params.holdTolPts, Converged;
      }
      if !doClose {
        return;
      }
      var exit := if f.order.side == Strat.Buy then bid - params.holdExitSlipPts - params.holdExitMarkupPts
                  else ask + params.holdExitSlipPts + params.holdExitMarkupPts;
      var raw := if f.order.side == Strat.Buy then exit - f.price else f.price - exit;
      held := None;
      BookTrade(Trade(now, raw - f.commission, 0.0, f, why, lead, bid, ask));
    }

    /** Strategy evaluation on the fresh quote; an emitted signal goes to the simulator. */
    method EvaluateQuote(now: int)
      requires Valid()
      modifies this, strategy, sim
      ensures View() == Emit(old(View()), cfg, params, now)
    {
      if market.lead > 0.0 && market.bid > 0.0 && market.ask > 0.0 {
        var q := Strat.Quote(market.bid, market.ask, market.ask - market.bid);
        var sig := strategy.MaybeEmit(Strat.Evaluate(cfg, market.lead, q), market.lead, q, now);
        if sig.Some? {
          var submitted := sim.Submit(sig.value.side, now, market.lead, market.bid, market.ask);
          if submitted {
            signals := signals + 1;
            strategy.OnOrderPlaced();
          }
        }
      }
    }

    method TakeLead(t: Tick)
      requires Valid()
      modifies this
      ensures View() == OnLead(old(View()), t)
    {
      if !t.valid {
        return;
      }
      market := market.(lead := t.Mid());
      leadTicks := leadTicks + 1;
    }

    method TakeLag(t: Tick)
      requires Valid()
      modifies this, strategy, sim
      ensures View() == OnLag(old(View()), cfg, params, t)
    {
      if !t.valid {
        return;
      }
      market := market.(bid := t.bid, ask := t.ask);
      lagTicks := lagTicks + 1;
      assert View() == TakeQuote(old(View()), t);
      SettleAndEvaluate(t.ts);
      market := market.(lastBid := market.bid, lastAsk := market.ask, lastLead := market.lead);
    }

    method SettleAndEvaluate(now: int)
      requires Valid()
      modifies this, strategy, sim
      ensures View() == Emit(Settle(old(View()), params, now), cfg, params, now)
    {
      HandleDueFill(now);
      if held.Some? || params.pnlModel != Sim.HoldConvergence {
        CloseHeld(now, market.lead, market.bid, market.ask, false);
      }
      EvaluateQuote(now);
    }

    /** The end of the streams: drain the pending order, force-close the held position. */
    method Drain(end: int)
      requires Valid()
      modifies this, strategy, sim
      ensures View() == Finish(old(View()), params, end)
    {
      HandleDueFill(end + params.delayMs + 1);
      ForceCloseHeld(end + params.delayMs + 2);
    }

    method ForceCloseHeld(now: int)
      requires Valid()
      modifies this, strategy
      ensures View() == ForceClose(old(View()), params, now)
    {
      if held.Some? {
        if market.lastBid <= 0.0 || market.lastAsk <= 0.0 {
          market := market.(lastBid := held.value.price, lastAsk := held.value.price);
        }
        CloseHeld(now, market.lastLead, market.lastBid, market.lastAsk, true);
      }
    }

    /** The merge loop. */
    method Consume(lead: seq<Tick>, lag: seq<Tick>)
      requires Valid()
      modifies this, strategy, sim
      ensures View() == Through(old(View()), cfg, params, Merge(lead, lag))
    {
      var i, j := 0, 0;
      while i < |lead| || j < |lag|
        invariant i <= |lead| && j <= |lag|
        invariant Through(View(), cfg, params, MergeFrom(lead, lag, i, j))
                  == Through(old(View()), cfg, params, Merge(lead, lag))
        decreases |lead| - i + |lag| - j
      {
        MergeStep(View(), cfg, params, lead, lag, i, j);
        var leadNext := i < |lead| && (j >= |lag| || lead[i].ts <= lag[j].ts);
        if leadNext {
          TakeLead(lead[i]);
          i := i + 1;
        } else {
          TakeLag(lag[j]);
          j := j + 1;
        }
      }
    }
  }

  /** `run_impl`. */
  method RunImpl(c: Strat.Config, p: Sim.Params, lead: seq<Tick>, lag: seq<Tick>) returns (out: Result)
    ensures lead == [] || lag == [] ==>
              && out == Blank(p) && out.initialCapital == p.quantity * 1000.0 && out.delayMs == p.delayMs
              && out.trades == [] && out.signals == out.fills == out.rejections == out.leadTicks == out.lagTicks == 0
              && out.finalEquity == out.totalPnl == out.grossProfit == out.grossLoss == out.profitFactor == 0.0
              && out.maxDrawdown == out.maxDrawdownPct == 0.0 && out.startTs == out.endTs == 0
    ensures lead != [] && lag != []
            ==> out == Report(p, Replayed(c, p, lead, lag), StartTs(lead, lag), EndTs(lead, lag))
  {
    if |lead| == 0 || |lag| == 0 {
      return Blank(p);
    }
    var run := new Run(c, p);
    var end := EndTs(lead, lag);
    run.Consume(lead, lag);
    run.Drain(end);
    return Result(StartTs(lead, lag), end, run.leadTicks, run.lagTicks, run.signals, run.fills, run.rejections,
                  Capital(p), run.equity, run.equity - Capital(p), run.grossProfit, run.grossLoss,
                  ProfitFactor(run.grossProfit, run.grossLoss), run.maxDrawdown, run.maxDrawdownPct, run.trades,
                  p.delayMs);
  }

  /** What the published figures say about each other. */
  ghost predicate AddsUp(r: Result) {
    && r.totalPnl == PnlSum(r.trades) == r.grossProfit - r.grossLoss
    && r.finalEquity == r.initialCapital + r.totalPnl
    && r.grossProfit == Gains(r.trades) && r.grossLoss == Losses(r.trades)
    && (r.profitFactor > 1.0 <==> r.totalPnl > 0.0)
    && CurveIsPrefixSums(r.initialCapital, r.trades)
    && IsDrawdown(r.initialCapital, r.trades, r.maxDrawdown, r.maxDrawdownPct)
    && |r.trades| == r.fills
    && r.fills + r.rejections <= r.signals
  }

  /** Profit per loss; with no loss a large constant, or 0 when there is no profit either. */
  predicate IsFactor(factor: real, profit: real, loss: real) {
    if loss > 0.0 then factor * loss == profit
    else if profit > 0.0 then factor == 1000000000.0
    else factor == 0.0
  }

  lemma FactorIs(profit: real, loss: real)
    ensures IsFactor(ProfitFactor(profit, loss), profit, loss)
  {
    if loss > 0.0 {
      assert (profit / loss) * loss == profit;
    }
  }

  lemma StateAddsUp(p: Sim.Params, s: State, start: int, end: int)
    requires Sound(Capital(p), s.acct)
    requires s.acct.equity - Capital(p) == PnlSum(s.acct.trades) == s.acct.grossProfit - s.acct.grossLoss
    requires s.acct.grossProfit >= 0.0 && s.acct.grossLoss >= 0.0
    requires |s.acct.trades| == s.counts.fills && s.counts.fills + s.counts.rejections <= s.counts.signals
    ensures AddsUp(Report(p, s, start, end))
  {
    FactorAboveOne(s.acct.grossProfit, s.acct.grossLoss);
  }

  /** The figures of any replay over a sorted lag stream add up. */
  lemma ReportAddsUp(c: Strat.Config, p: Sim.Params, lead: seq<Tick>, lag: seq<Tick>)
    requires lead != [] && lag != [] && Sorted(lag)
    ensures var r := Report(p, Replayed(c, p, lead, lag), StartTs(lead, lag), EndTs(lead, lag));
            && AddsUp(r) && IsFactor(r.profitFactor, r.grossProfit, r.grossLoss)
            && (!CanOverwrite(c, p) ==> r.signals == r.fills + r.rejections)
  {
    var r := ReplaySound(c, p, lead, lag);
    TotalIsNet(Capital(p), r.acct);
    SignalConservation(c, p, lead, lag);
    StateAddsUp(p, r, StartTs(lead, lag), EndTs(lead, lag));
    FactorIs(r.acct.grossProfit, r.acct.grossLoss);
  }

  /** No tick of a stream lies outside the span, and the span ends on ticks. */
  ghost predicate Spans(start: int, end: int, lead: seq<Tick>, lag: seq<Tick>) {
    && (forall k :: 0 <= k < |lead| ==> start <= lead[k].ts <= end)
    && (forall k :: 0 <= k < |lag| ==> start <= lag[k].ts <= end)
    && (exists t :: t in lead + lag && t.ts == start) && (exists t :: t in lead + lag && t.ts == end)
  }

  lemma SpanIs(lead: seq<Tick>, lag: seq<Tick>)
    requires lead != [] && lag != [] && Sorted(lead) && Sorted(lag)
    ensures Spans(StartTs(lead, lag), EndTs(lead, lag), lead, lag)
  {
    assert lead[0] in lead + lag && lag[0] in lead + lag;
    assert lead[|lead| - 1] in lead + lag && lag[|lag| - 1] in lead + lag;
  }

  /**
   * What a replay publishes about its input: the span of the streams, their valid ticks, the nominal capital of
   * 1000 a lot, and the delay.
   */
  lemma ReportDescribes(c: Strat.Config, p: Sim.Params, lead: seq<Tick>, lag: seq<Tick>)
    requires lead != [] && lag != [] && Sorted(lead) && Sorted(lag)
    ensures var r := Report(p, Replayed(c, p, lead, lag), StartTs(lead, lag), EndTs(lead, lag));
            && Spans(r.startTs, r.endTs, lead, lag)
            && r.leadTicks == ReplaySignal.Valids(lead) && r.lagTicks == ReplaySignal.Valids(lag)
            && r.initialCapital == p.quantity * 1000.0 && r.delayMs == p.delayMs
  {
    SpanIs(lead, lag);
    ReplaySignal.ReplayCounts(c, p, lead, lag);
  }

  /** An instant replay that never gains is published with profit factor 0. */
  lemma InstantFactorZero(c: Strat.Config, p: Sim.Params, lead: seq<Tick>, lag: seq<Tick>) returns (r: Result)
    requires lead != [] && lag != [] && p.pnlModel == Sim.Instant
    requires forall k :: 0 <= k < |lag| ==> ReplayInstant.UncrossedTick(lag[k])
    requires p.spreadMarkupPts >= 0.0 && p.slippagePts >= 0.0 && Sim.Commission(p) >= 0.0
    ensures r == Report(p, Replayed(c, p, lead, lag), StartTs(lead, lag), EndTs(lead, lag))
    ensures r.profitFactor == 0.0 && r.grossProfit == 0.0 && r.maxDrawdown == -r.totalPnl
  {
    var s := ReplayInstant.InstantNeverProfits(c, p, lead, lag);
    r := Report(p, s, StartTs(lead, lag), EndTs(lead, lag));
  }

  lemma FactorAboveOne(profit: real, loss: real)
    requires profit >= 0.0 && loss >= 0.0
    ensures ProfitFactor(profit, loss) > 1.0 <==> profit > loss
  {
    if loss > 0.0 {
      assert profit / loss > 1.0 <==> profit > loss by {
        assert (profit / loss) * loss == profit;
      }
    }
  }
}
