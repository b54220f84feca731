/** Where in the two streams every trade of a replay was signalled, filled and closed. */
module ReplayLife {
  import opened ExecutionSimulator
  import opened Replay
  import opened ReplayEdge
  import opened Strategy
  import opened Wrappers

  // ------------------------------------------------------------------
  // Places in the merged stream
  // ------------------------------------------------------------------

  /** Event `i` is a valid lag tick. */
  predicate LagAt(es: seq<Event>, i: nat) {
    i < |es| && es[i].LagTick? && es[i].tick.valid
  }

  /** The half-sum of bid and ask of the last valid lead tick among the first `n` events, 0 when there is none. */
  function LeadSeen(es: seq<Event>, n: nat): real
    requires n <= |es|
  {
    if n == 0 then 0.0
    else if es[n - 1].LeadTick? && es[n - 1].tick.valid then (es[n - 1].tick.bid + es[n - 1].tick.ask) / 2.0
    else LeadSeen(es, n - 1)
  }

  /** The lead seen when the last of the valid lag ticks among the first `n` events came. */
  function LeadAtLag(es: seq<Event>, n: nat): real
    requires n <= |es|
  {
    if n == 0 then 0.0 else if LagAt(es, n - 1) then LeadSeen(es, n - 1) else LeadAtLag(es, n - 1)
  }

  /** Bid and ask of the last valid lag tick among the first `n` events. */
  function QuoteSeen(es: seq<Event>, n: nat): (real, real)
    requires n <= |es|
  {
    if n == 0 then (0.0, 0.0)
    else if LagAt(es, n - 1) then (es[n - 1].tick.bid, es[n - 1].tick.ask)
    else QuoteSeen(es, n - 1)
  }

  /** The order was signalled on event `j`, at its quote and the lead seen by then. */
  ghost predicate SignalledAt(es: seq<Event>, j: nat, o: Order) {
    && LagAt(es, j)
    && es[j].tick.ts == o.signalTs && es[j].tick.bid == o.bid && es[j].tick.ask == o.ask
    && o.mark == LeadSeen(es, j)
  }

  /** No valid lag tick from event `a` up to `b` has reached the due time. */
  ghost predicate NoneDue(es: seq<Event>, a: nat, b: nat, due: int) {
    forall i :: a <= i < b && LagAt(es, i) ==> es[i].tick.ts < due
  }

  /** Signalled on event `j` and filled on event `k`, at its quote: the first valid lag tick after `j` that is due. */
  ghost predicate FilledAt(es: seq<Event>, j: nat, k: nat, f: Fill) {
    && SignalledAt(es, j, f.order) && j < k && LagAt(es, k)
    && es[k].tick.ts == f.fillTs && es[k].tick.bid == f.execBid && es[k].tick.ask == f.execAsk
    && f.fillTs >= f.order.target && NoneDue(es, j + 1, k, f.order.target)
  }

  /** Whether position `f` leaves on event `i`: held for its time, or else the lag mid within reach of the lead. */
  function ExitAt(p: Params, es: seq<Event>, i: nat, f: Fill): Option<Exit>
    requires LagAt(es, i)
  {
    var lead, mid := LeadSeen(es, i), (es[i].tick.bid + es[i].tick.ask) / 2.0;
    if p.holdMaxMs > 0 && es[i].tick.ts >= f.fillTs + p.holdMaxMs then Some(MaxHold)
    else if lead - p.holdTolPts <= mid <= lead + p.holdTolPts then Some(Converged)
    else None
  }

  lemma ExitIs(p: Params, es: seq<Event>, i: nat, f: Fill)
    requires LagAt(es, i)
    ensures ExitAt(p, es, i, f)
            == ExitReason(p, f, es[i].tick.ts, LeadSeen(es, i), es[i].tick.bid, es[i].tick.ask, false)
  {
  }

  /** No valid lag tick from event `a` up to `b` meets the exit test. */
  ghost predicate Rides(p: Params, es: seq<Event>, a: nat, b: nat, f: Fill) {
    forall i :: a <= i < b && LagAt(es, i) ==> ExitAt(p, es, i, f) == None
  }

  /** Left on event `m`, at its quote: the first valid lag tick from `k` on that meets the exit test. */
  ghost predicate LeftAt(p: Params, es: seq<Event>, k: nat, m: nat, t: Trade) {
    && k <= m && LagAt(es, m) && Rides(p, es, k, m, t.entry) && ExitAt(p, es, m, t.entry) == Some(t.exit)
    && es[m].tick.ts == t.fillTs && es[m].tick.bid == t.exitBid && es[m].tick.ask == t.exitAsk
    && t.exitLead == LeadSeen(es, m)
  }

  /** Out again at the fill itself, with this lead. */
  ghost predicate RoundTrip(t: Trade, lead: real) {
    && t.exit == Immediate && t.fillTs == t.entry.fillTs && t.exitLead == lead
    && t.exitBid == t.entry.execBid && t.exitAsk == t.entry.execAsk
  }

  ghost predicate LivedAt(p: Params, es: seq<Event>, t: Trade, j: nat, k: nat, m: nat) {
    && FilledAt(es, j, k, t.entry)
    && if p.pnlModel == Instant then RoundTrip(t, LeadSeen(es, k)) else LeftAt(p, es, k, m, t)
  }

  /** A trade of the loop: its signal, its fill and its exit are events. */
  ghost predicate Lived(p: Params, es: seq<Event>, t: Trade) {
    exists j, k, m :: LivedAt(p, es, t, j, k, m)
  }

  ghost predicate AllLived(p: Params, es: seq<Event>, ts: seq<Trade>) {
    forall i :: 0 <= i < |ts| ==> Lived(p, es, ts[i])
  }

  ghost predicate InFlightAt(es: seq<Event>, n: nat, o: Order) {
    exists j: nat :: j < n && SignalledAt(es, j, o) && NoneDue(es, j + 1, n, o.target)
  }

  ghost predicate HeldAt(p: Params, es: seq<Event>, n: nat, f: Fill) {
    exists j: nat, k: nat :: k <= n && FilledAt(es, j, k, f) && Rides(p, es, k, n, f)
  }

  // ------------------------------------------------------------------
  // The invariant
  // ------------------------------------------------------------------

  ghost predicate MarketSeen(es: seq<Event>, n: nat, m: Market) {
    && n <= |es| && m.lead == LeadSeen(es, n) && (m.bid, m.ask) == QuoteSeen(es, n)
    && m.lastLead == LeadAtLag(es, n)
  }

  /** Everything a state after the first `n` events holds has its place among them. */
  ghost predicate Located(p: Params, es: seq<Event>, n: nat, s: State) {
    && MarketSeen(es, n, s.market) && s.market.lastBid == s.market.bid && s.market.lastAsk == s.market.ask
    && (s.pending.Some? ==> InFlightAt(es, n, s.pending.value))
    && (s.held.Some? ==> HeldAt(p, es, n, s.held.value) && p.pnlModel != Instant)
    && AllLived(p, es, s.acct.trades)
  }

  lemma WaitsOn(es: seq<Event>, n: nat, o: Order)
    requires n < |es| && InFlightAt(es, n, o) && (LagAt(es, n) ==> es[n].tick.ts < o.target)
    ensures InFlightAt(es, n + 1, o)
  {
    var j: nat :| j < n && SignalledAt(es, j, o) && NoneDue(es, j + 1, n, o.target);
    assert NoneDue(es, j + 1, n + 1, o.target);
  }

  lemma RidesOn(p: Params, es: seq<Event>, n: nat, f: Fill)
    requires n < |es| && HeldAt(p, es, n, f) && (LagAt(es, n) ==> ExitAt(p, es, n, f) == None)
    ensures HeldAt(p, es, n + 1, f)
  {
    var j: nat, k: nat :| k <= n && FilledAt(es, j, k, f) && Rides(p, es, k, n, f);
    assert Rides(p, es, k, n + 1, f);
  }

  /** The due order meets its first due tick. */
  lemma MeetsFill(es: seq<Event>, n: nat, o: Order, f: Fill)
    requires LagAt(es, n) && InFlightAt(es, n, o) && es[n].tick.ts >= o.target && f.order == o
    requires f.fillTs == es[n].tick.ts && f.execBid == es[n].tick.bid && f.execAsk == es[n].tick.ask
    ensures exists j: nat :: FilledAt(es, j, n, f)
  {
    var j: nat :| j < n && SignalledAt(es, j, o) && NoneDue(es, j + 1, n, o.target);
    assert FilledAt(es, j, n, f);
  }

  /** After the fill on event `n`, before the exit test on it. */
  ghost predicate Between(p: Params, es: seq<Event>, n: nat, s: State) {
    && LagAt(es, n) && s.market.lead == LeadSeen(es, n)
    && s.market.bid == es[n].tick.bid && s.market.ask == es[n].tick.ask
    && (s.pending.Some? ==> InFlightAt(es, n + 1, s.pending.value))
    && (s.held.Some? ==> HeldAt(p, es, n, s.held.value) && p.pnlModel != Instant)
    && AllLived(p, es, s.acct.trades)
  }

  lemma FillLocated(p: Params, es: seq<Event>, n: nat, s: State) returns (r: State)
    requires Located(p, es, n, s) && LagAt(es, n)
    ensures r == HandleFill(TakeQuote(s, es[n].tick), p, es[n].tick.ts) && Between(p, es, n, r)
  {
    var a, now := TakeQuote(s, es[n].tick), es[n].tick.ts;
    r := HandleFill(a, p, now);
    if s.pending.Some? {
      if now < s.pending.value.target {
        WaitsOn(es, n, s.pending.value);
      } else {
        var f := FillOf(p, s.pending.value, now, a.market.bid, a.market.ask);
        if f.verdict == Filled {
          MeetsFill(es, n, s.pending.value, f);
          ResolveLocated(p, es, n, a.(pending := None), f);
        }
      }
    }
  }

  lemma ResolveLocated(p: Params, es: seq<Event>, n: nat, s: State, f: Fill)
    requires LagAt(es, n) && f.verdict == Filled && s.pending == None && exists j: nat :: FilledAt(es, j, n, f)
    requires AllLived(p, es, s.acct.trades) && (p.pnlModel == Instant ==> s.held == None)
    requires s.market.lead == LeadSeen(es, n)
    ensures var r := ApplyFill(s, p, f);
            && AllLived(p, es, r.acct.trades) && r.pending == None && r.market == s.market
            && (r.held.Some? ==> HeldAt(p, es, n, r.held.value) && p.pnlModel != Instant)
  {
    var j: nat :| FilledAt(es, j, n, f);
    if p.pnlModel == Instant {
      var t := InstantTrade(f, s.market.lead);
      var u := t.(equityAfter := s.acct.equity + t.pnl);
      assert LivedAt(p, es, u, j, n, n);
    } else {
      assert FilledAt(es, j, n, f) && Rides(p, es, n, n, f);
    }
  }

  lemma CloseLocated(p: Params, es: seq<Event>, n: nat, s: State) returns (r: State)
    requires Between(p, es, n, s)
    ensures && r == CloseOpen(s, p, es[n].tick.ts, s.market.lead, s.market.bid, s.market.ask, false)
            && r.market == s.market && r.pending == s.pending
            && AllLived(p, es, r.acct.trades)
            && (r.held.Some? ==> HeldAt(p, es, n + 1, r.held.value) && p.pnlModel != Instant)
  {
    r := CloseOpen(s, p, es[n].tick.ts, s.market.lead, s.market.bid, s.market.ask, false);
    if s.held.Some? {
      var f := s.held.value;
      ExitIs(p, es, n, f);
      if ExitAt(p, es, n, f) == None {
        RidesOn(p, es, n, f);
      } else {
        var t := HoldTrade(p, f, es[n].tick.ts, ExitAt(p, es, n, f).value, s.market.lead, s.market.bid, s.market.ask);
        LeavesHere(p, es, n, f, t.(equityAfter := s.acct.equity + t.pnl));
      }
    }
  }

  lemma LeavesHere(p: Params, es: seq<Event>, n: nat, f: Fill, t: Trade)
    requires HeldAt(p, es, n, f) && p.pnlModel != Instant && t.entry == f
    requires LagAt(es, n) && ExitAt(p, es, n, f) == Some(t.exit)
    requires es[n].tick.ts == t.fillTs && es[n].tick.bid == t.exitBid && es[n].tick.ask == t.exitAsk
    requires t.exitLead == LeadSeen(es, n)
    ensures Lived(p, es, t)
  {
    var j: nat, k: nat :| k <= n && FilledAt(es, j, k, f) && Rides(p, es, k, n, f);
    assert LivedAt(p, es, t, j, k, n);
  }

  lemma EmitLocated(c: Config, p: Params, es: seq<Event>, n: nat, s: State)
    requires LagAt(es, n) && s.market.lead == LeadSeen(es, n)
    requires s.market.bid == es[n].tick.bid && s.market.ask == es[n].tick.ask
    requires s.pending.Some? ==> InFlightAt(es, n + 1, s.pending.value)
    ensures var r := Emit(s, c, p, es[n].tick.ts);
            && (r.pending.Some? ==> InFlightAt(es, n + 1, r.pending.value))
            && r.held == s.held && r.acct == s.acct && r.market == s.market
  {
    var r := Emit(s, c, p, es[n].tick.ts);
    if r.pending != s.pending {
      assert SignalledAt(es, n, r.pending.value);
      assert NoneDue(es, n + 1, n + 1, r.pending.value.target);
    }
  }

  lemma LagLocated(c: Config, p: Params, es: seq<Event>, n: nat, s: State) returns (r: State)
    requires Located(p, es, n, s) && LagAt(es, n)
    ensures r == On(s, c, p, es[n]) && Located(p, es, n + 1, r)
  {
    var a := FillLocated(p, es, n, s);
    var b := CloseLocated(p, es, n, a);
    EmitLocated(c, p, es, n, b);
    r := Remember(Emit(b, c, p, es[n].tick.ts));
  }

  lemma OtherLocated(c: Config, p: Params, es: seq<Event>, n: nat, s: State) returns (r: State)
    requires Located(p, es, n, s) && n < |es| && !LagAt(es, n)
    ensures r == On(s, c, p, es[n]) && Located(p, es, n + 1, r)
  {
    r := On(s, c, p, es[n]);
    if s.pending.Some? {
      WaitsOn(es, n, s.pending.value);
    }
    if s.held.Some? {
      RidesOn(p, es, n, s.held.value);
    }
  }

  lemma {:induction false} ThroughLocated(c: Config, p: Params, es: seq<Event>, n: nat, s: State) returns (r: State)
    requires Located(p, es, n, s)
    ensures r == Through(s, c, p, es[n..]) && Located(p, es, |es|, r)
    decreases |es| - n
  {
    r := s;
    if n < |es| {
      var t;
      if LagAt(es, n) {
        t := LagLocated(c, p, es, n, s);
      } else {
        t := OtherLocated(c, p, es, n, s);
      }
      assert es[n..][1..] == es[n + 1..];
      r := ThroughLocated(c, p, es, n + 1, t);
    }
  }

  // ------------------------------------------------------------------
  // The end of the streams
  // ------------------------------------------------------------------

  /** Signalled on event `j`, due on none after it, and filled by the drain at the last lag quote. */
  ghost predicate DrainedAt(p: Params, es: seq<Event>, end: int, j: nat, f: Fill) {
    && SignalledAt(es, j, f.order) && NoneDue(es, j + 1, |es|, f.order.target)
    && f.fillTs == end + p.delayMs + 1 >= f.order.target
    && (f.execBid, f.execAsk) == QuoteSeen(es, |es|)
  }

  ghost predicate Drained(p: Params, es: seq<Event>, end: int, f: Fill) {
    exists j: nat :: DrainedAt(p, es, end, j, f)
  }

  /** The last lag quote, or the entry price twice when one side of it is not positive. */
  function LastQuote(es: seq<Event>, f: Fill): (real, real) {
    var q := QuoteSeen(es, |es|);
    if q.0 <= 0.0 || q.1 <= 0.0 then (f.price, f.price) else q
  }

  /** A trade of the end: filled by the drain, or held and met by no exit test until then. */
  ghost predicate EndedAt(p: Params, es: seq<Event>, end: int, t: Trade) {
    if p.pnlModel == Instant then RoundTrip(t, LeadSeen(es, |es|)) && Drained(p, es, end, t.entry)
    else
      && t.exit == Forced && t.fillTs == end + p.delayMs + 2 && t.exitLead == LeadAtLag(es, |es|)
      && (t.exitBid, t.exitAsk) == LastQuote(es, t.entry)
      && (HeldAt(p, es, |es|, t.entry) || Drained(p, es, end, t.entry))
  }

  ghost predicate Accounted(p: Params, es: seq<Event>, end: int, t: Trade) {
    Lived(p, es, t) || EndedAt(p, es, end, t)
  }

  ghost predicate AllAccounted(p: Params, es: seq<Event>, end: int, ts: seq<Trade>) {
    forall i :: 0 <= i < |ts| ==> Accounted(p, es, end, ts[i])
  }

  /** After the drain, before the forced close. */
  ghost predicate Closing(p: Params, es: seq<Event>, end: int, s: State) {
    && (s.market.bid, s.market.ask) == QuoteSeen(es, |es|) && s.market.lastLead == LeadAtLag(es, |es|)
    && s.market.lastBid == s.market.bid && s.market.lastAsk == s.market.ask
    && (s.held.Some? ==> p.pnlModel != Instant
                         && (HeldAt(p, es, |es|, s.held.value) || Drained(p, es, end, s.held.value)))
    && AllAccounted(p, es, end, s.acct.trades)
  }

  lemma MeetsDrain(p: Params, es: seq<Event>, end: int, o: Order, f: Fill)
    requires InFlightAt(es, |es|, o) && f.order == o && f.fillTs == end + p.delayMs + 1 >= o.target
    requires (f.execBid, f.execAsk) == QuoteSeen(es, |es|)
    ensures Drained(p, es, end, f)
  {
    var j: nat :| j < |es| && SignalledAt(es, j, o) && NoneDue(es, j + 1, |es|, o.target);
    assert DrainedAt(p, es, end, j, f);
  }

  lemma DrainAccounted(p: Params, es: seq<Event>, end: int, s: State) returns (r: State)
    requires Located(p, es, |es|, s)
    ensures r == HandleFill(s, p, end + p.delayMs + 1) && Closing(p, es, end, r)
  {
    var now := end + p.delayMs + 1;
    r := HandleFill(s, p, now);
    assert AllAccounted(p, es, end, s.acct.trades);
    if s.pending.Some? && now >= s.pending.value.target {
      var f := FillOf(p, s.pending.value, now, s.market.bid, s.market.ask);
      MeetsDrain(p, es, end, s.pending.value, f);
      if f.verdict == Filled && p.pnlModel == Instant {
        var t := InstantTrade(f, s.market.lead);
        var u := t.(equityAfter := s.acct.equity + t.pnl);
        assert EndedAt(p, es, end, u);
      }
    }
  }

  lemma ForcedAccounted(p: Params, es: seq<Event>, end: int, s: State) returns (r: State)
    requires Closing(p, es, end, s)
    ensures r == ForceClose(s, p, end + p.delayMs + 2) && AllAccounted(p, es, end, r.acct.trades)
  {
    r := ForceClose(s, p, end + p.delayMs + 2);
    if s.held.Some? {
      var f, q := s.held.value, LastQuote(es, s.held.value);
      var t := HoldTrade(p, f, end + p.delayMs + 2, Forced, s.market.lastLead, q.0, q.1);
      var u := t.(equityAfter := s.acct.equity + t.pnl);
      assert EndedAt(p, es, end, u);
      assert r.acct.trades == s.acct.trades + [u];
    }
  }

  lemma {:induction false} FinishAccounted(p: Params, es: seq<Event>, end: int, s: State) returns (r: State)
    requires Located(p, es, |es|, s)
    ensures r == Finish(s, p, end) && AllAccounted(p, es, end, r.acct.trades)
  {
    var t := DrainAccounted(p, es, end, s);
    r := ForcedAccounted(p, es, end, t);
  }

  lemma WholeRun(c: Config, p: Params, es: seq<Event>) returns (s: State)
    ensures s == Through(Start(p), c, p, es) && Located(p, es, |es|, s)
  {
    assert es[0..] == es;
    s := ThroughLocated(c, p, es, 0, Start(p));
  }

  lemma ReplayAccounted(c: Config, p: Params, lead: seq<Tick>, lag: seq<Tick>) returns (r: State)
    requires lead != [] && lag != []
    ensures r == Replayed(c, p, lead, lag) && AllAccounted(p, Merge(lead, lag), EndTs(lead, lag), r.acct.trades)
  {
    var s := WholeRun(c, p, Merge(lead, lag));
    r := FinishAccounted(p, Merge(lead, lag), EndTs(lead, lag), s);
  }

  // ------------------------------------------------------------------
  // Main results
  // ------------------------------------------------------------------

  /**
   * Every trade of a replay goes back to a signal its rule called for, on a valid lag tick of the stream. It
   * was filled at the quote of the first later valid lag tick at or after the due time, and closed at the
   * quote of the first valid lag tick from its fill on that met the exit test; or there was no such tick, and
   * the end of the streams filled or closed it at the last quote. Its mark and the lead it left at are the half-sum
   * of bid and ask of the last valid lead tick. Caps, prices, costs and pnl are those of its model. Only the end of
   * the streams forces a close.
   */
  lemma TradeAttribution(c: Config, p: Params, lead: seq<Tick>, lag: seq<Tick>, i: nat)
    requires lead != [] && lag != [] && i < |Replayed(c, p, lead, lag).acct.trades|
    ensures var t, es := Replayed(c, p, lead, lag).acct.trades[i], Merge(lead, lag);
            && Triggered(c, p, t.entry.order) && Entered(c, p, t.entry)
            && t.entry.commission == p.commissionPerLot * p.quantity
            && (if p.pnlModel == Instant then PaidSpread(p, t) else Exited(p, t))
            && (Lived(p, es, t) || EndedAt(p, es, EndTs(lead, lag), t))
            && (t.exit == Converged || t.exit == MaxHold ==> Lived(p, es, t))
  {
    var r := ReplayAccounted(c, p, lead, lag);
    ReplayTraced(c, p, lead, lag);
    assert Commission(p) == p.commissionPerLot * p.quantity;
  }
}
