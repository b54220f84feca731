/** The instant model pays the spread and every cost on each trade, so it never profits and never gains equity. */
module ReplayInstant {
  import opened ExecutionSimulator
  import opened Replay
  import opened ReplayAccount
  import opened ReplayEdge
  import opened Strategy

  predicate UncrossedTick(t: Tick) {
    t.valid ==> t.bid <= t.ask
  }

  predicate UncrossedLag(es: seq<Event>) {
    forall i :: 0 <= i < |es| && es[i].LagTick? ==> UncrossedTick(es[i].tick)
  }

  predicate UncrossedEntry(t: Trade) {
    t.entry.execBid <= t.entry.execAsk
  }

  /** Quotes were uncrossed so far, and so was every quote filled on. */
  ghost predicate Uncrossed(s: State) {
    && s.held.None?
    && s.market.bid <= s.market.ask
    && forall i :: 0 <= i < |s.acct.trades| ==> UncrossedEntry(s.acct.trades[i])
  }

  lemma FillUncrossed(p: Params, s: State, now: int)
    requires Uncrossed(s) && p.pnlModel == Instant
    ensures Uncrossed(HandleFill(s, p, now))
  {
    if s.pending.Some? && now >= s.pending.value.target {
      var f := FillOf(p, s.pending.value, now, s.market.bid, s.market.ask);
      if f.verdict == Filled {
        var t := InstantTrade(f, s.market.lead);
        assert UncrossedEntry(t.(equityAfter := s.acct.equity + t.pnl));
      }
    }
  }

  lemma OnUncrossed(c: Config, p: Params, s: State, e: Event)
    requires Uncrossed(s) && p.pnlModel == Instant && (e.LagTick? ==> UncrossedTick(e.tick))
    ensures Uncrossed(On(s, c, p, e))
  {
    if e.LagTick? && e.tick.valid {
      FillUncrossed(p, TakeQuote(s, e.tick), e.tick.ts);
    }
  }

  lemma {:induction false} ThroughUncrossed(c: Config, p: Params, s: State, es: seq<Event>)
    requires Uncrossed(s) && p.pnlModel == Instant && UncrossedLag(es)
    ensures Uncrossed(Through(s, c, p, es))
    decreases |es|
  {
    if es != [] {
      OnUncrossed(c, p, s, es[0]);
      assert forall i :: 0 <= i < |es| - 1 ==> es[1..][i] == es[i + 1];
      ThroughUncrossed(c, p, On(s, c, p, es[0]), es[1..]);
    }
  }

  lemma {:induction false} MergeUncrossed(lead: seq<Tick>, lag: seq<Tick>, i: nat, j: nat)
    requires i <= |lead| && j <= |lag| && forall k :: 0 <= k < |lag| ==> UncrossedTick(lag[k])
    ensures UncrossedLag(MergeFrom(lead, lag, i, j))
    decreases |lead| - i + |lag| - j
  {
    if LeadNext(lead, lag, i, j) {
      MergeUncrossed(lead, lag, i + 1, j);
    } else if j < |lag| {
      MergeUncrossed(lead, lag, i, j + 1);
    }
  }

  lemma ReplayUncrossed(c: Config, p: Params, lead: seq<Tick>, lag: seq<Tick>)
    requires lead != [] && lag != [] && p.pnlModel == Instant
    requires forall k :: 0 <= k < |lag| ==> UncrossedTick(lag[k])
    ensures Uncrossed(Replayed(c, p, lead, lag))
  {
    MergeUncrossed(lead, lag, 0, 0);
    ThroughUncrossed(c, p, Start(p), Merge(lead, lag));
    FillUncrossed(p, Through(Start(p), c, p, Merge(lead, lag)), EndTs(lead, lag) + p.delayMs + 1);
  }

  // ------------------------------------------------------------------
  // Accounts that only lose
  // ------------------------------------------------------------------

  ghost predicate OnlyLosses(ts: seq<Trade>) {
    forall i :: 0 <= i < |ts| ==> ts[i].pnl <= 0.0
  }

  lemma {:induction false} NoGains(ts: seq<Trade>)
    requires OnlyLosses(ts)
    ensures Gains(ts) == 0.0
  {
    if ts != [] {
      NoGains(ts[..|ts| - 1]);
    }
  }

  lemma PointFalls(capital: real, ts: seq<Trade>, i: nat)
    requires OnlyLosses(ts) && CurveIsPrefixSums(capital, ts) && i < |ts|
    ensures Point(capital, ts, i + 1) == Point(capital, ts, i) + ts[i].pnl <= Point(capital, ts, i)
  {
    assert ts[..i + 1][..i] == ts[..i];
    assert PnlSum(ts[..i + 1]) == PnlSum(ts[..i]) + ts[i].pnl;
  }

  lemma {:induction false} CurveFalls(capital: real, ts: seq<Trade>, i: nat, j: nat)
    requires OnlyLosses(ts) && CurveIsPrefixSums(capital, ts) && i <= j <= |ts|
    ensures && Point(capital, ts, j) <= Point(capital, ts, i)
            && (Point(capital, ts, j) == Point(capital, ts, i) <==> forall k :: i <= k < j ==> ts[k].pnl == 0.0)
    decreases j - i
  {
    if i < j {
      CurveFalls(capital, ts, i, j - 1);
      PointFalls(capital, ts, j - 1);
    }
  }

  lemma DrawdownIsLoss(capital: real, a: Account)
    requires Sound(capital, a) && OnlyLosses(a.trades)
    ensures a.maxDrawdown == capital - a.equity
  {
    var ts, n := a.trades, |a.trades|;
    var i, j :| FallAt(capital, ts, a.maxDrawdown, a.maxDrawdownPct, i, j);
    CurveFalls(capital, ts, 0, i);
    CurveFalls(capital, ts, j, n);
    assert Point(capital, ts, 0) - Point(capital, ts, n) <= a.maxDrawdown;
  }

  /**
   * Each trade loses exactly its spread, markup, slippage and commission, equity never rises, the drawdown is
   * the whole loss, and the loss is zero only if every trade was free.
   */
  ghost predicate OnlyPays(p: Params, capital: real, a: Account) {
    && (forall i :: 0 <= i < |a.trades| ==> PaidSpread(p, a.trades[i]) && a.trades[i].pnl <= 0.0)
    && (forall i, j :: 0 <= i <= j <= |a.trades| ==> Point(capital, a.trades, j) <= Point(capital, a.trades, i))
    && a.grossProfit == 0.0
    && a.maxDrawdown == capital - a.equity >= 0.0
    && (a.equity == capital <==> forall i :: 0 <= i < |a.trades| ==> a.trades[i].pnl == 0.0)
  }

  lemma PaysWhenEarned(c: Config, p: Params, s: State, capital: real)
    requires p.pnlModel == Instant && AllEarned(c, p, s.acct.trades) && Uncrossed(s) && Sound(capital, s.acct)
    requires p.spreadMarkupPts >= 0.0 && p.slippagePts >= 0.0 && Commission(p) >= 0.0
    ensures OnlyPays(p, capital, s.acct)
  {
    var a := s.acct;
    forall i | 0 <= i < |a.trades| ensures PaidSpread(p, a.trades[i]) && a.trades[i].pnl <= 0.0 {
      assert Earned(c, p, a.trades[i]) && UncrossedEntry(a.trades[i]);
    }
    NoGains(a.trades);
    DrawdownIsLoss(capital, a);
    CurveFalls(capital, a.trades, 0, |a.trades|);
    forall i, j | 0 <= i <= j <= |a.trades|
      ensures Point(capital, a.trades, j) <= Point(capital, a.trades, i)
    {
      CurveFalls(capital, a.trades, i, j);
    }
  }

  /** With uncrossed lag quotes and no negative cost, an instant replay only ever pays. */
  lemma InstantNeverProfits(c: Config, p: Params, lead: seq<Tick>, lag: seq<Tick>) returns (r: State)
    requires lead != [] && lag != [] && p.pnlModel == Instant
    requires forall k :: 0 <= k < |lag| ==> UncrossedTick(lag[k])
    requires p.spreadMarkupPts >= 0.0 && p.slippagePts >= 0.0 && Commission(p) >= 0.0
    ensures r == Replayed(c, p, lead, lag) && OnlyPays(p, Capital(p), r.acct)
  {
    r := ReplaySound(c, p, lead, lag);
    ReplayTraced(c, p, lead, lag);
    ReplayUncrossed(c, p, lead, lag);
    PaysWhenEarned(c, p, r, Capital(p));
  }
}
