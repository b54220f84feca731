/** When a lag tick of a replay signals, on which side, and when it rejects. */
module ReplaySignal {
  import opened ExecutionSimulator
  import opened Replay
  import opened ReplayLedger
  import opened Rounding
  import opened Strategy
  import opened Wrappers

  /** A price as the rule compares it. */
  function Compared(c: Config, v: real): real {
    if c.roundFourDecimals then Round4(v) else v
  }

  /** `th` is the spread plus both buffers, or the floor if that is higher. */
  predicate IsThreshold(c: Config, bid: real, ask: real, th: real) {
    var cost := (if ask >= bid then ask - bid else bid - ask) + c.latencyBufferPips + c.minProfitMarginPips;
    th == if cost >= c.thresholdPips then cost else c.thresholdPips
  }

  /** The lead stands above the ask by more than the threshold. */
  predicate CallsLong(c: Config, lead: real, ask: real, th: real) {
    Compared(c, lead) > Compared(c, ask) + th
  }

  /** The bid stands above the lead by more than the threshold. */
  predicate CallsShort(c: Config, lead: real, bid: real, th: real) {
    Compared(c, bid) > Compared(c, lead) + th
  }

  /** A lot and an order are free, the day's loss is under its limit, and the last stamp is 0 or an interval old. */
  predicate Open(c: Config, r: Risk, now: int) {
    && r.openLots < c.maxOpenLots && r.orders < c.maxOrdersPerInterval && r.dayPnl > -c.maxDailyLoss
    && (r.lastSignal == 0 || now >= r.lastSignal + c.intervalSeconds * 1000)
  }

  lemma EvaluateIs(c: Config, lead: real, bid: real, ask: real, th: real)
    requires IsThreshold(c, bid, ask, th)
    ensures Evaluate(c, lead, Quote(bid, ask, ask - bid))
            == if CallsLong(c, lead, ask, th) then Long else if CallsShort(c, lead, bid, th) then Short else Hold
  {
    assert Threshold(c, Quote(bid, ask, ask - bid)) == th;
  }

  /** What `Emit` does on a quote, given the risk state and the order in flight. */
  lemma EmitIs(c: Config, p: Params, s: State, now: int, th: real)
    requires s.risk.intervalStart == 0 && IsThreshold(c, s.market.bid, s.market.ask, th)
    ensures var m, r := s.market, Emit(s, c, p, now);
            var long, short := CallsLong(c, m.lead, m.ask, th), CallsShort(c, m.lead, m.bid, th);
            var called := m.lead > 0.0 && m.bid > 0.0 && m.ask > 0.0 && (long || short) && Open(c, s.risk, now);
            var placed := called && s.pending == None && m.bid <= m.ask;
            && r.counts.signals == s.counts.signals + (if placed then 1 else 0)
            && r.risk.lastSignal == (if called then now else s.risk.lastSignal)
            && r.risk.openLots == s.risk.openLots + (if placed then 1 else 0)
            && r.pending == (if placed
                             then Some(Order(if long then Buy else Sell, now, now + p.delayMs, m.lead, m.bid, m.ask))
                             else s.pending)
            && r.held == s.held && r.acct == s.acct && r.market == m && r.counts.rejections == s.counts.rejections
  {
    EvaluateIs(c, s.market.lead, s.market.bid, s.market.ask, th);
  }

  /**
   * After any prefix of a replay, a valid lag tick places an order if and only if, once a due order and the held
   * position are settled on it, lead and quote are positive, the quote is not crossed, the lead is above the ask or
   * the bid above the lead by more than the threshold, the gates are open, and no order is in flight. It is a buy in
   * the first case and a sell in the second, at this quote, due after the delay. A call that the simulator does not
   * take is stamped all the same.
   */
  lemma {:induction false} SignalExactly(c: Config, p: Params, es: seq<Event>, q: Tick, th: real) returns (t: State)
    requires q.valid && IsThreshold(c, q.bid, q.ask, th)
    ensures t == Settle(TakeQuote(Through(Start(p), c, p, es), q), p, q.ts)
    ensures var r, lead := On(Through(Start(p), c, p, es), c, p, LagTick(q)), t.market.lead;
            var long, short := CallsLong(c, lead, q.ask, th), CallsShort(c, lead, q.bid, th);
            var called := lead > 0.0 && q.bid > 0.0 && q.ask > 0.0 && (long || short) && Open(c, t.risk, q.ts);
            var placed := called && t.pending == None && q.bid <= q.ask;
            && r.counts.signals == t.counts.signals + (if placed then 1 else 0)
            && r.risk.lastSignal == (if called then q.ts else t.risk.lastSignal)
            && r.pending == (if placed
                             then Some(Order(if long then Buy else Sell, q.ts, q.ts + p.delayMs, lead, q.bid, q.ask))
                             else t.pending)
  {
    var s := Through(Start(p), c, p, es);
    LedgerAlways(c, p, es);
    t := SettledQuote(c, p, s, q);
    EmitIs(c, p, t, q.ts, th);
  }

  lemma SettledQuote(c: Config, p: Params, s: State, q: Tick) returns (t: State)
    requires Ledger(c, p, s) && q.valid
    ensures t == Settle(TakeQuote(s, q), p, q.ts) && t.risk.intervalStart == 0
    ensures t.market.bid == q.bid && t.market.ask == q.ask
    ensures On(s, c, p, LagTick(q)) == Remember(Emit(t, c, p, q.ts))
  {
    t := Settle(TakeQuote(s, q), p, q.ts);
  }

  // ------------------------------------------------------------------
  // Rejections
  // ------------------------------------------------------------------

  /** The order cannot be filled on this quote: spread or slippage over its cap, or no positive price. */
  predicate Refused(p: Params, side: Side, bid: real, ask: real) {
    || ask - bid > p.spreadCapPts
    || p.slippagePts > p.slippageCapPts
    || (if side == Buy then ask + p.spreadMarkupPts + p.slippagePts
        else bid - p.spreadMarkupPts - p.slippagePts) <= 0.0
  }

  lemma FillRejects(p: Params, s: State, now: int)
    ensures var r, due := HandleFill(s, p, now), s.pending.Some? && now >= s.pending.value.target;
            && (r.pending == None <==> due || s.pending == None)
            && r.counts.rejections == s.counts.rejections
                 + (if due && Refused(p, s.pending.value.side, s.market.bid, s.market.ask) then 1 else 0)
  {
  }

  /** A valid lag tick rejects an order if and only if one is due and cannot be filled on its quote. */
  lemma {:induction false} RejectedExactly(c: Config, p: Params, s: State, q: Tick)
    requires q.valid
    ensures var due := s.pending.Some? && q.ts >= s.pending.value.target;
            On(s, c, p, LagTick(q)).counts.rejections == s.counts.rejections
              + (if due && Refused(p, s.pending.value.side, q.bid, q.ask) then 1 else 0)
  {
    FillRejects(p, TakeQuote(s, q), q.ts);
    SettleRejects(c, p, TakeQuote(s, q), q.ts);
  }

  lemma SettleRejects(c: Config, p: Params, s: State, now: int)
    ensures Emit(Settle(s, p, now), c, p, now).counts.rejections == HandleFill(s, p, now).counts.rejections
  {
  }

  // ------------------------------------------------------------------
  // Counts and span
  // ------------------------------------------------------------------

  function Valids(ts: seq<Tick>): nat {
    if ts == [] then 0 else (if ts[0].valid then 1 else 0) + Valids(ts[1..])
  }

  lemma OnCounts(c: Config, p: Params, s: State, e: Event)
    ensures var r, one := On(s, c, p, e), if e.tick.valid then 1 else 0;
            && r.counts.leadTicks == s.counts.leadTicks + (if e.LeadTick? then one else 0)
            && r.counts.lagTicks == s.counts.lagTicks + (if e.LagTick? then one else 0)
  {
  }

  lemma {:induction false} TicksCounted(c: Config, p: Params, s: State, es: seq<Event>)
    ensures var r := Through(s, c, p, es);
            && r.counts.leadTicks == s.counts.leadTicks + Valids(LeadsOf(es))
            && r.counts.lagTicks == s.counts.lagTicks + Valids(LagsOf(es))
    decreases |es|
  {
    if es != [] {
      var e := es[0];
      OnCounts(c, p, s, e);
      TicksCounted(c, p, On(s, c, p, e), es[1..]);
      ValidsCons(e.tick, LeadsOf(es[1..]));
      ValidsCons(e.tick, LagsOf(es[1..]));
      assert [] + LeadsOf(es[1..]) == LeadsOf(es[1..]) && [] + LagsOf(es[1..]) == LagsOf(es[1..]);
    }
  }

  lemma ValidsCons(t: Tick, ts: seq<Tick>)
    ensures Valids([t] + ts) == (if t.valid then 1 else 0) + Valids(ts)
  {
    assert ([t] + ts)[1..] == ts;
  }

  lemma FinishCounts(p: Params, s: State, end: int)
    ensures Finish(s, p, end).counts.leadTicks == s.counts.leadTicks
    ensures Finish(s, p, end).counts.lagTicks == s.counts.lagTicks
  {
  }

  /** A replay consumes the valid ticks of both streams, each once. */
  lemma ReplayCounts(c: Config, p: Params, lead: seq<Tick>, lag: seq<Tick>)
    requires lead != [] && lag != []
    ensures Replayed(c, p, lead, lag).counts.leadTicks == Valids(lead)
    ensures Replayed(c, p, lead, lag).counts.lagTicks == Valids(lag)
  {
    TicksCounted(c, p, Start(p), Merge(lead, lag));
    MergeVisitsAll(lead, lag, 0, 0);
    assert lead[0..] == lead && lag[0..] == lag;
    FinishCounts(p, Through(Start(p), c, p, Merge(lead, lag)), EndTs(lead, lag));
  }
}
