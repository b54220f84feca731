/** The replay's running accumulators against their definitions over the list of trades. */
module ReplayAccount {
  import opened ExecutionSimulator
  import opened Replay
  import opened Rounding
  import opened Strategy

  function PnlSum(ts: seq<Trade>): real {
    if ts == [] then 0.0 else PnlSum(ts[..|ts| - 1]) + ts[|ts| - 1].pnl
  }

  /** The sum of the profits, zero pnl included. */
  function Gains(ts: seq<Trade>): real {
    if ts == [] then 0.0 else Gains(ts[..|ts| - 1]) + Max(ts[|ts| - 1].pnl, 0.0)
  }

  function Losses(ts: seq<Trade>): real {
    if ts == [] then 0.0 else Losses(ts[..|ts| - 1]) + Max(-ts[|ts| - 1].pnl, 0.0)
  }

  /** Point `i` of the equity curve: the capital, then the equity after each trade. */
  function Point(capital: real, ts: seq<Trade>, i: nat): real
    requires i <= |ts|
  {
    if i == 0 then capital else ts[i - 1].equityAfter
  }

  /** Every recorded equity is the capital plus the pnl so far. */
  ghost predicate CurveIsPrefixSums(capital: real, ts: seq<Trade>) {
    forall i :: 0 <= i <= |ts| ==> Point(capital, ts, i) == capital + PnlSum(ts[..i])
  }

  /** `peak` is the maximum of the curve. */
  ghost predicate IsPeak(capital: real, ts: seq<Trade>, peak: real) {
    && (forall i :: 0 <= i <= |ts| ==> Point(capital, ts, i) <= peak)
    && (exists i :: 0 <= i <= |ts| && Point(capital, ts, i) == peak)
  }

  /** No fall from an earlier point to a later one, both before `n`, exceeds `dd`. */
  ghost predicate FallsWithin(capital: real, ts: seq<Trade>, n: nat, dd: real)
    requires n <= |ts| + 1
  {
    forall i, j :: 0 <= i <= j < n ==> Point(capital, ts, i) - Point(capital, ts, j) <= dd
  }

  /** `pct` is `dd` in per cent of a positive `peak`, and 0 of any other. */
  predicate InPercent(pct: real, dd: real, peak: real) {
    if peak > 0.0 then pct * peak == dd * 100.0 else pct == 0.0
  }

  lemma PercentIs(dd: real, peak: real)
    ensures InPercent(Percent(dd, peak), dd, peak)
  {
    if peak > 0.0 {
      assert (dd / peak) * peak == dd;
      assert (dd / peak * 100.0) * peak == ((dd / peak) * peak) * 100.0;
    }
  }

  /** The fall from point `i` to point `j` is `dd`, no earlier fall is as deep, and `pct` relates it to point `i`. */
  ghost predicate FallAt(capital: real, ts: seq<Trade>, dd: real, pct: real, i: nat, j: nat) {
    && i <= j <= |ts|
    && Point(capital, ts, i) - Point(capital, ts, j) == dd
    && InPercent(pct, dd, Point(capital, ts, i))
    && (forall a, b :: 0 <= a <= b < j ==> Point(capital, ts, a) - Point(capital, ts, b) < dd)
  }

  ghost predicate Attained(capital: real, ts: seq<Trade>, dd: real, pct: real) {
    exists i, j :: FallAt(capital, ts, dd, pct, i, j)
  }

  /** `dd` is the deepest fall of the curve and `pct` its share of the point it first fell from. */
  ghost predicate IsDrawdown(capital: real, ts: seq<Trade>, dd: real, pct: real) {
    && FallsWithin(capital, ts, |ts| + 1, dd)
    && Attained(capital, ts, dd, pct)
  }

  ghost predicate Sound(capital: real, a: Account) {
    && CurveIsPrefixSums(capital, a.trades)
    && a.equity == Point(capital, a.trades, |a.trades|)
    && a.grossProfit == Gains(a.trades)
    && a.grossLoss == Losses(a.trades)
    && IsPeak(capital, a.trades, a.peak)
    && IsDrawdown(capital, a.trades, a.maxDrawdown, a.maxDrawdownPct)
  }

  lemma OpenSound(capital: real)
    ensures Sound(capital, OpenAccount(capital))
  {
    assert FallAt(capital, [], 0.0, 0.0, 0, 0);
    assert Point(capital, [], 0) == capital;
  }

  // ------------------------------------------------------------------
  // One more trade
  // ------------------------------------------------------------------

  lemma PointPush(capital: real, ts: seq<Trade>, t: Trade, i: nat)
    requires i <= |ts|
    ensures Point(capital, ts + [t], i) == Point(capital, ts, i)
  {
  }

  lemma CurvePush(capital: real, ts: seq<Trade>, t: Trade)
    requires CurveIsPrefixSums(capital, ts)
    requires t.equityAfter == Point(capital, ts, |ts|) + t.pnl
    ensures CurveIsPrefixSums(capital, ts + [t])
  {
    var us := ts + [t];
    assert ts[..|ts|] == ts && us[..|us|] == us;
    forall i | 0 <= i <= |us|
      ensures Point(capital, us, i) == capital + PnlSum(us[..i])
    {
      if i <= |ts| {
        PointPush(capital, ts, t, i);
        assert us[..i] == ts[..i];
      }
    }
  }

  lemma PeakPush(capital: real, ts: seq<Trade>, t: Trade, peak: real)
    requires IsPeak(capital, ts, peak)
    ensures IsPeak(capital, ts + [t], Max(peak, t.equityAfter))
  {
    var us := ts + [t];
    forall i | 0 <= i <= |us| ensures Point(capital, us, i) <= Max(peak, t.equityAfter) {
      if i <= |ts| {
        PointPush(capital, ts, t, i);
      }
    }
    var k: nat :| k <= |ts| && Point(capital, ts, k) == peak;
    PointPush(capital, ts, t, k);
    assert Point(capital, us, k) == peak;
    assert Point(capital, us, |us|) == t.equityAfter;
  }

  lemma FallsPush(capital: real, ts: seq<Trade>, t: Trade, peak: real, dd: real)
    requires IsPeak(capital, ts + [t], peak)
    requires FallsWithin(capital, ts, |ts| + 1, dd) && peak - t.equityAfter <= dd
    ensures FallsWithin(capital, ts + [t], |ts| + 2, dd)
  {
    var us := ts + [t];
    forall i, j | 0 <= i <= j < |ts| + 2 ensures Point(capital, us, i) - Point(capital, us, j) <= dd {
      if j <= |ts| {
        PointPush(capital, ts, t, i);
        PointPush(capital, ts, t, j);
      }
    }
  }

  /** A fall that stays the deepest is still there. */
  lemma FallKept(capital: real, ts: seq<Trade>, t: Trade, dd: real, pct: real, i: nat, j: nat)
    requires FallAt(capital, ts, dd, pct, i, j)
    ensures FallAt(capital, ts + [t], dd, pct, i, j)
  {
    PointPush(capital, ts, t, i);
    PointPush(capital, ts, t, j);
    forall a, b | 0 <= a <= b < j
      ensures Point(capital, ts + [t], a) - Point(capital, ts + [t], b) < dd
    {
      PointPush(capital, ts, t, a);
      PointPush(capital, ts, t, b);
    }
  }

  /** A deeper one runs from the peak to the new trade. */
  lemma FallDeeper(capital: real, ts: seq<Trade>, t: Trade, peak: real, dd: real)
    requires IsPeak(capital, ts + [t], peak)
    requires FallsWithin(capital, ts, |ts| + 1, dd) && peak - t.equityAfter > dd
    ensures Attained(capital, ts + [t], peak - t.equityAfter, Percent(peak - t.equityAfter, peak))
  {
    var us := ts + [t];
    var i: nat :| i <= |us| && Point(capital, us, i) == peak;
    forall a, b | 0 <= a <= b < |us|
      ensures Point(capital, us, a) - Point(capital, us, b) < peak - t.equityAfter
    {
      PointPush(capital, ts, t, a);
      PointPush(capital, ts, t, b);
    }
    PercentIs(peak - t.equityAfter, peak);
    assert FallAt(capital, us, peak - t.equityAfter, Percent(peak - t.equityAfter, peak), i, |us|);
  }

  lemma DrawdownPush(capital: real, ts: seq<Trade>, t: Trade, peak: real, dd: real, pct: real)
    requires IsPeak(capital, ts + [t], peak) && IsDrawdown(capital, ts, dd, pct)
    ensures peak - t.equityAfter <= dd ==> IsDrawdown(capital, ts + [t], dd, pct)
    ensures peak - t.equityAfter > dd
            ==> IsDrawdown(capital, ts + [t], peak - t.equityAfter, Percent(peak - t.equityAfter, peak))
  {
    if peak - t.equityAfter <= dd {
      FallsPush(capital, ts, t, peak, dd);
      var i, j :| FallAt(capital, ts, dd, pct, i, j);
      FallKept(capital, ts, t, dd, pct, i, j);
    } else {
      FallsPush(capital, ts, t, peak, peak - t.equityAfter);
      FallDeeper(capital, ts, t, peak, dd);
    }
  }

  lemma RealiseCurve(capital: real, a: Account, t: Trade)
    requires CurveIsPrefixSums(capital, a.trades) && a.equity == Point(capital, a.trades, |a.trades|)
    ensures && CurveIsPrefixSums(capital, Realise(a, t).trades)
            && Realise(a, t).equity == Point(capital, Realise(a, t).trades, |a.trades| + 1)
  {
    CurvePush(capital, a.trades, t.(equityAfter := a.equity + t.pnl));
  }

  lemma RealiseDrawdown(capital: real, a: Account, t: Trade)
    requires IsPeak(capital, a.trades, a.peak)
    requires IsDrawdown(capital, a.trades, a.maxDrawdown, a.maxDrawdownPct)
    ensures var r := Realise(a, t);
            IsPeak(capital, r.trades, r.peak) && IsDrawdown(capital, r.trades, r.maxDrawdown, r.maxDrawdownPct)
  {
    var u := t.(equityAfter := a.equity + t.pnl);
    PeakPush(capital, a.trades, u, a.peak);
    DrawdownPush(capital, a.trades, u, Max(a.peak, u.equityAfter), a.maxDrawdown, a.maxDrawdownPct);
  }

  lemma RealiseSound(capital: real, a: Account, t: Trade)
    requires Sound(capital, a)
    ensures Sound(capital, Realise(a, t))
  {
    RealiseCurve(capital, a, t);
    RealiseDrawdown(capital, a, t);
  }

  lemma {:induction false} RecordSound(capital: real, a: Account, ts: seq<Trade>)
    requires Sound(capital, a)
    ensures Sound(capital, Record(a, ts))
    decreases |ts|
  {
    if ts != [] {
      RealiseSound(capital, a, ts[0]);
      RecordSound(capital, Realise(a, ts[0]), ts[1..]);
    }
  }

  // ------------------------------------------------------------------
  // Whole runs only ever realise trades
  // ------------------------------------------------------------------

  function Record(a: Account, ts: seq<Trade>): Account
    decreases |ts|
  {
    if ts == [] then a else Record(Realise(a, ts[0]), ts[1..])
  }

  lemma {:induction false} RecordConcat(a: Account, ts: seq<Trade>, us: seq<Trade>)
    ensures Record(a, ts + us) == Record(Record(a, ts), us)
    decreases |ts|
  {
    if ts == [] {
      assert ts + us == us;
    } else {
      assert (ts + us)[1..] == ts[1..] + us;
      RecordConcat(Realise(a, ts[0]), ts[1..], us);
    }
  }

  lemma JoinRecords(a: Account, b: Account, d: Account, us: seq<Trade>, vs: seq<Trade>)
    requires b == Record(a, us) && d == Record(b, vs)
    ensures d == Record(a, us + vs)
  {
    RecordConcat(a, us, vs);
  }

  lemma FillRecords(s: State, p: Params, now: int) returns (t: State, ts: seq<Trade>)
    ensures t == HandleFill(s, p, now) && t.acct == Record(s.acct, ts)
  {
    t, ts := HandleFill(s, p, now), [];
    if t.acct != s.acct {
      var f := FillOf(p, s.pending.value, now, s.market.bid, s.market.ask);
      ts := [InstantTrade(f, s.market.lead)];
    }
  }

  lemma CloseRecords(s: State, p: Params, now: int, lead: real, bid: real, ask: real, force: bool)
    returns (ts: seq<Trade>)
    ensures CloseOpen(s, p, now, lead, bid, ask, force).acct == Record(s.acct, ts)
  {
    ts := [];
    if s.held.Some? {
      var exit := ExitReason(p, s.held.value, now, lead, bid, ask, force);
      if exit.Some? {
        ts := [HoldTrade(p, s.held.value, now, exit.value, lead, bid, ask)];
      }
    }
  }

  lemma SettleRecords(s: State, p: Params, now: int) returns (ts: seq<Trade>)
    ensures Settle(s, p, now).acct == Record(s.acct, ts)
  {
    var t, us := FillRecords(s, p, now);
    var vs := CloseRecords(t, p, now, t.market.lead, t.market.bid, t.market.ask, false);
    JoinRecords(s.acct, t.acct, Settle(s, p, now).acct, us, vs);
    ts := us + vs;
  }

  lemma OnRecords(c: Config, p: Params, s: State, e: Event) returns (ts: seq<Trade>)
    ensures On(s, c, p, e).acct == Record(s.acct, ts)
  {
    ts := [];
    if e.LagTick? && e.tick.valid {
      ts := SettleRecords(TakeQuote(s, e.tick), p, e.tick.ts);
      assert On(s, c, p, e).acct == Settle(TakeQuote(s, e.tick), p, e.tick.ts).acct;
    }
  }

  lemma {:induction false} ThroughRecords(c: Config, p: Params, s: State, es: seq<Event>)
    returns (r: State, ts: seq<Trade>)
    ensures r == Through(s, c, p, es) && r.acct == Record(s.acct, ts)
    decreases |es|
  {
    r, ts := s, [];
    if es != [] {
      var us := OnRecords(c, p, s, es[0]);
      var vs;
      r, vs := ThroughRecords(c, p, On(s, c, p, es[0]), es[1..]);
      RecordConcat(s.acct, us, vs);
      ts := us + vs;
    }
  }

  lemma ForceCloseRecords(s: State, p: Params, now: int) returns (r: State, ts: seq<Trade>)
    ensures r == ForceClose(s, p, now) && r.acct == Record(s.acct, ts)
  {
    r, ts := ForceClose(s, p, now), [];
    if s.held.Some? {
      var m := s.market;
      var t := if m.lastBid <= 0.0 || m.lastAsk <= 0.0
               then s.(market := m.(lastBid := s.held.value.price, lastAsk := s.held.value.price)) else s;
      ts := CloseRecords(t, p, now, t.market.lastLead, t.market.lastBid, t.market.lastAsk, true);
    }
  }

  lemma FinishRecords(s: State, p: Params, end: int) returns (r: State, ts: seq<Trade>)
    ensures r == Finish(s, p, end) && r.acct == Record(s.acct, ts)
  {
    var t, us := FillRecords(s, p, end + p.delayMs + 1);
    var vs;
    r, vs := ForceCloseRecords(t, p, end + p.delayMs + 2);
    JoinRecords(s.acct, t.acct, r.acct, us, vs);
    ts := us + vs;
  }

  // ------------------------------------------------------------------
  // Main results
  // ------------------------------------------------------------------

  /** After any run the one-pass accumulators are what they stand for ... */
  lemma AccountsRefine(c: Config, p: Params, es: seq<Event>) returns (r: State)
    ensures r == Through(Start(p), c, p, es) && Sound(Capital(p), r.acct)
  {
    var ts;
    r, ts := ThroughRecords(c, p, Start(p), es);
    OpenSound(Capital(p));
    RecordSound(Capital(p), OpenAccount(Capital(p)), ts);
  }

  lemma FinishSound(capital: real, p: Params, s: State, end: int) returns (r: State)
    requires Sound(capital, s.acct)
    ensures r == Finish(s, p, end) && Sound(capital, r.acct)
  {
    var ts;
    r, ts := FinishRecords(s, p, end);
    RecordSound(capital, s.acct, ts);
  }

  /** ... and so they are when the replay ends. */
  lemma ReplaySound(c: Config, p: Params, lead: seq<Tick>, lag: seq<Tick>) returns (r: State)
    requires lead != [] && lag != []
    ensures r == Replayed(c, p, lead, lag) && Sound(Capital(p), r.acct)
  {
    var s := AccountsRefine(c, p, Merge(lead, lag));
    r := FinishSound(Capital(p), p, s, EndTs(lead, lag));
  }

  lemma {:induction false} SumIsNet(ts: seq<Trade>)
    ensures PnlSum(ts) == Gains(ts) - Losses(ts) && Gains(ts) >= 0.0 && Losses(ts) >= 0.0
  {
    if ts != [] {
      SumIsNet(ts[..|ts| - 1]);
    }
  }

  /** The total pnl is the final equity less the capital, the sum over the trades, and profit less loss. */
  lemma TotalIsNet(capital: real, a: Account)
    requires Sound(capital, a)
    ensures a.equity - capital == PnlSum(a.trades) == a.grossProfit - a.grossLoss
    ensures a.grossProfit >= 0.0 && a.grossLoss >= 0.0
  {
    SumIsNet(a.trades);
    assert a.trades[..|a.trades|] == a.trades;
  }

  /** The drawdown is never negative, and a value with these properties is unique. */
  lemma DrawdownUnique(capital: real, ts: seq<Trade>, dd: real, pct: real, dd': real, pct': real)
    requires IsDrawdown(capital, ts, dd, pct) && IsDrawdown(capital, ts, dd', pct')
    ensures dd == dd' && dd >= 0.0
  {
    var i, j :| FallAt(capital, ts, dd, pct, i, j);
    var k, l :| FallAt(capital, ts, dd', pct', k, l);
    assert Point(capital, ts, 0) - Point(capital, ts, 0) <= dd;
  }
}
