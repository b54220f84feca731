/** Runs in which the replay does what its description rules out. */
module ReplayExamples {
  import opened ExecutionSimulator
  import opened Replay
  import opened ReplayEdge
  import opened ReplayExact
  import opened ReplayInstant
  import opened ReplayLedger
  import opened Strategy
  import opened Wrappers

  /** A lead tick level with the lag price. */
  function LevelLead(x: Bait, ts: int): Tick {
    Tick(ts, x.base, x.base, true)
  }

  /** The lead comes down to the lag before the fill, so the tick that fills the buy also closes it. */
  lemma ClosedWhenFilled(c: Config, p: Params) returns (lead: seq<Tick>, lag: seq<Tick>, s: State)
    requires CanFill(c, p) && p.pnlModel == HoldConvergence && p.spreadCapPts >= 0.0 && p.holdTolPts >= 0.0
    ensures SoundStreams(lead, lag) && |lead| == 2 && |lag| == 2
    ensures s == Through(Start(p), c, p, Merge(lead, lag)) && |s.acct.trades| == 1
    ensures s.acct.trades[0].exit == Converged && s.acct.trades[0].fillTs == s.acct.trades[0].entry.fillTs
  {
    var x := BaitFor(c, p);
    var t := 2 + x.pause;
    lead, lag := [x.LeadTick(1), LevelLead(x, t)], [x.LagTick(1, 0.0), x.LagTick(t, 0.0)];
    var a := FirstSignal(c, p, x, 1);
    s := FillAndClose(c, p, x, a, t);
    RunPair(Start(p), c, p, lead, lag, 0, 0);
    RunPair(a, c, p, lead, lag, 1, 1);
  }

  lemma FillAndClose(c: Config, p: Params, x: Bait, s: State, t: int) returns (r: State)
    requires CanFill(c, p) && p.pnlModel == HoldConvergence && p.spreadCapPts >= 0.0 && p.holdTolPts >= 0.0
    requires Suits(c, p, x) && Hooked(p, x, s, 1) && t >= 1 + p.delayMs && s.acct == OpenAccount(Capital(p))
    ensures && r == OnLag(OnLead(s, LevelLead(x, t)), c, p, x.LagTick(t, 0.0))
            && |r.acct.trades| == 1 && r.acct.trades[0].exit == Converged
            && r.acct.trades[0].fillTs == r.acct.trades[0].entry.fillTs
  {
    var a := OnLead(s, LevelLead(x, t));
    assert a.market.lead == x.base;
    var b := TakeQuote(a, x.LagTick(t, 0.0));
    var d := HandleFill(b, p, t);
    assert ExitReason(p, d.held.value, t, x.base, x.base, x.base, false) == Some(Converged);
    var e := CloseOpen(d, p, t, d.market.lead, d.market.bid, d.market.ask, false);
    assert Emit(e, c, p, t).acct == e.acct;
    r := Remember(Emit(e, c, p, t));
  }

  /** Without spread, markup, slippage and commission an instant trade costs nothing. */
  lemma FreeRoundTrip(c: Config, p: Params) returns (lead: seq<Tick>, lag: seq<Tick>, s: State)
    requires CanFill(c, p) && p.pnlModel == Instant && p.spreadCapPts >= 0.0
    requires p.spreadMarkupPts == 0.0 && p.slippagePts == 0.0 && Commission(p) == 0.0
    ensures SoundStreams(lead, lag) && |lead| == 1 && |lag| == 2
    ensures s == Through(Start(p), c, p, Merge(lead, lag))
    ensures |s.acct.trades| == 1 && s.acct.trades[0].pnl == 0.0
    ensures s.acct.equity == Capital(p) && s.market.bid == s.market.ask
  {
    var x := BaitFor(c, p);
    var t := 2 + x.pause;
    lead, lag := [x.LeadTick(1)], [x.LagTick(1, 0.0), x.LagTick(t, 0.0)];
    var a := FirstSignal(c, p, x, 1);
    s := FillForNothing(c, p, x, a, t, Capital(p));
    RunPair(Start(p), c, p, lead, lag, 0, 0);
    RunLags(a, c, p, lead, lag, 1);
  }

  lemma FillForNothing(c: Config, p: Params, x: Bait, s: State, t: int, capital: real) returns (r: State)
    requires CanFill(c, p) && p.pnlModel == Instant && p.spreadCapPts >= 0.0
    requires p.spreadMarkupPts == 0.0 && p.slippagePts == 0.0 && Commission(p) == 0.0
    requires Suits(c, p, x) && Hooked(p, x, s, 1) && t >= 1 + p.delayMs && s.acct == OpenAccount(capital)
    ensures r == OnLag(s, c, p, x.LagTick(t, 0.0)) && |r.acct.trades| == 1 && r.acct.trades[0].pnl == 0.0
    ensures r.acct.equity == capital && r.market.bid == r.market.ask
  {
    var b := TakeQuote(s, x.LagTick(t, 0.0));
    var d := HandleFill(b, p, t);
    assert Settle(b, p, t) == d;
    assert Emit(d, c, p, t).acct == d.acct;
    r := Remember(Emit(d, c, p, t));
  }

  /** What is still in flight costs nothing either. */
  lemma FinishForNothing(p: Params, s: State, end: int) returns (r: State)
    requires p.pnlModel == Instant && s.held.None? && s.market.bid == s.market.ask
    requires p.spreadMarkupPts == 0.0 && p.slippagePts == 0.0 && Commission(p) == 0.0
    ensures r == Finish(s, p, end) && r.acct.equity == s.acct.equity && |r.acct.trades| >= |s.acct.trades|
  {
    r := HandleFill(s, p, end + p.delayMs + 1);
  }

  lemma WithinCaps(c: Config, p: Params, t: Trade)
    requires Earned(c, p, t) && UncrossedEntry(t)
    ensures p.spreadCapPts >= 0.0 && p.slippagePts <= p.slippageCapPts
  {
  }

  /** A configuration under which no order is ever filled makes no trade at uncrossed quotes. */
  lemma NoTrades(c: Config, p: Params, lead: seq<Tick>, lag: seq<Tick>)
    requires SoundStreams(lead, lag) && p.pnlModel == Instant && !(CanFill(c, p) && p.spreadCapPts >= 0.0)
    ensures Replayed(c, p, lead, lag).acct.trades == []
  {
    var es, r := Merge(lead, lag), Replayed(c, p, lead, lag);
    if p.spreadCapPts < 0.0 || p.slippagePts > p.slippageCapPts {
      ReplayTraced(c, p, lead, lag);
      ReplayUncrossed(c, p, lead, lag);
      if r.acct.trades != [] {
        WithinCaps(c, p, r.acct.trades[0]);
      }
    } else {
      NoSignals(c, p, es);
    }
  }

  lemma NoSignals(c: Config, p: Params, es: seq<Event>)
    requires p.pnlModel == Instant && (c.maxOpenLots < 1 || c.maxOrdersPerInterval < 1 || c.maxDailyLoss <= 0.0)
    ensures var s := Through(Start(p), c, p, es); InFlight(s) == 0 && s.acct.trades == []
  {
    LedgerAlways(c, p, es);
    if c.maxOpenLots < 1 {
      NoSignalAfterLeaks(c, p, Start(p), es);
    } else {
      ThroughNoneLost(c, p, Start(p), es);
    }
  }

  /** The trades of an instant replay lose money, whenever there are any. */
  ghost predicate LosesMoney(c: Config, p: Params, lead: seq<Tick>, lag: seq<Tick>)
    requires SoundStreams(lead, lag)
  {
    var r := Replayed(c, p, lead, lag);
    r.acct.trades != [] ==> r.acct.equity < Capital(p)
  }

  lemma EveryTradeLoses(c: Config, p: Params, lead: seq<Tick>, lag: seq<Tick>)
    requires SoundStreams(lead, lag) && p.pnlModel == Instant
    requires p.spreadMarkupPts >= 0.0 && p.slippagePts >= 0.0 && Commission(p) >= 0.0
    requires p.spreadMarkupPts + p.slippagePts + Commission(p) > 0.0
    ensures LosesMoney(c, p, lead, lag)
  {
    var r := InstantNeverProfits(c, p, lead, lag);
    ReplayUncrossed(c, p, lead, lag);
    if r.acct.trades != [] {
      assert PaidSpread(p, r.acct.trades[0]) && UncrossedEntry(r.acct.trades[0]);
    }
  }

  lemma FreeReplay(c: Config, p: Params) returns (lead: seq<Tick>, lag: seq<Tick>)
    requires CanFill(c, p) && p.pnlModel == Instant && p.spreadCapPts >= 0.0
    requires p.spreadMarkupPts == 0.0 && p.slippagePts == 0.0 && Commission(p) == 0.0
    ensures SoundStreams(lead, lag) && !LosesMoney(c, p, lead, lag)
  {
    var s;
    lead, lag, s := FreeRoundTrip(c, p);
    LedgerAlways(c, p, Merge(lead, lag));
    var r := FinishForNothing(p, s, EndTs(lead, lag));
  }

  /**
   * At sound quotes and without negative costs, an instant replay that trades ends below its capital if and only
   * if some cost is positive, or no order of the configuration is ever filled.
   */
  lemma {:induction false} InstantLosesIff(c: Config, p: Params)
    requires p.pnlModel == Instant && p.spreadMarkupPts >= 0.0 && p.slippagePts >= 0.0 && Commission(p) >= 0.0
    ensures (forall lead, lag :: SoundStreams(lead, lag) ==> LosesMoney(c, p, lead, lag))
            <==> || p.spreadMarkupPts + p.slippagePts + Commission(p) > 0.0
                 || !(CanFill(c, p) && p.spreadCapPts >= 0.0)
  {
    if p.spreadMarkupPts + p.slippagePts + Commission(p) > 0.0 {
      forall lead, lag | SoundStreams(lead, lag) ensures LosesMoney(c, p, lead, lag) {
        EveryTradeLoses(c, p, lead, lag);
      }
    } else if !(CanFill(c, p) && p.spreadCapPts >= 0.0) {
      forall lead, lag | SoundStreams(lead, lag) ensures LosesMoney(c, p, lead, lag) {
        NoTrades(c, p, lead, lag);
      }
    } else {
      var lead, lag := FreeReplay(c, p);
    }
  }
}
