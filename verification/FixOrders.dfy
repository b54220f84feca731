/** The life of an order: mailbox, drain and park-back, pending table, callback. */
module FixOrders {
  import opened Decimal
  import opened FixMessage
  import opened Wrappers

  datatype Report = Report(id: nat, clOrdId: string, brokerId: string, status: string, ok: bool, error: string)

  /** A request as `execute` receives it. */
  datatype Request = Request(instrument: string, side: string, volume: Amount, stop: Amount, take: Amount, t0: int) {
    predicate Sound() {
      instrument != "" && (side == "buy" || side == "sell") && volume.value > 0.0
    }
  }

  /**
   * `draining` is the deque the session thread holds between the two critical sections of a drain;
   * `accepted` and `drained` record, in order, the jobs that entered the mailbox and the jobs that
   * entered the pending table.
   */
  datatype Desk = Desk(nextId: nat, mailbox: seq<OrderJob>, draining: Option<seq<OrderJob>>,
                       pending: map<string, OrderJob>, reports: seq<Report>,
                       accepted: seq<OrderJob>, drained: seq<OrderJob>)

  const EMPTY_DESK := Desk(1, [], None, map[], [], [], [])

  function ClOrdId(id: nat): string {
    "LL" + Dec(id)
  }

  /** `execute`, with its back-pressure drop. */
  function Accept(d: Desk, limit: nat, q: Request): Desk {
    if !q.Sound() then d
    else
      var job := OrderJob(q.instrument, q.side, q.volume, q.stop, q.take, d.nextId, ClOrdId(d.nextId), q.t0);
      var e := d.(nextId := d.nextId + 1);
      if |d.mailbox| >= limit then e
      else e.(mailbox := d.mailbox + [job], accepted := d.accepted + [job])
  }

  /** First critical section of `io_drain_orders`: swap the mailbox out. */
  function Take(d: Desk): Desk {
    if d.draining.Some? then d else d.(draining := Some(d.mailbox), mailbox := [])
  }

  /** Second critical section when offline: park the jobs back in front. */
  function Park(d: Desk): Desk
    requires d.draining.Some?
  {
    d.(draining := None, mailbox := d.draining.value + d.mailbox)
  }

  /** Online: move the front job into the pending table. */
  function Register(d: Desk): Desk
    requires d.draining.Some? && d.draining.value != []
  {
    var job := d.draining.value[0];
    d.(draining := Some(d.draining.value[1..]), pending := d.pending[job.clOrdId := job],
       drained := d.drained + [job])
  }

  /** The drain has nothing left to send. */
  function Finish(d: Desk): Desk {
    d.(draining := None)
  }

  /** The outcome `on_execution_report` reads off a report, if it is one that ends the order. */
  function Outcome(execType: string, ordStatus: string, text: string): Option<(string, bool, string)> {
    if execType == "2" then Some(("FILLED", true, ""))
    else if execType == "1" then Some(("PARTIAL", true, ""))
    else if execType == "8" || execType == "3" || ordStatus == "8" then Some(("REJECTED", false, text))
    else if execType == "4" then Some(("CANCELED", false, ""))
    else if execType == "0" then Some(("NEW", true, ""))
    else None
  }

  /** `on_execution_report`. */
  function OnReport(d: Desk, frame: string): Desk {
    var cl := Scan(frame, 11);
    if cl == "" || cl !in d.pending then d
    else
      match Outcome(Scan(frame, 150), Scan(frame, 39), Scan(frame, 58))
      case None => d
      case Some(o) =>
        var r := Report(d.pending[cl].id, cl, Scan(frame, 37), o.0, o.1, o.2);
        d.(pending := d.pending - {cl}, reports := d.reports + [r])
  }

  // ------------------------------------------------------------------
  // Where an order is
  // ------------------------------------------------------------------

  predicate Waiting(d: Desk, j: OrderJob) {
    j in d.mailbox || (d.draining.Some? && j in d.draining.value)
  }

  predicate Pending(d: Desk, j: OrderJob) {
    j.clOrdId in d.pending && d.pending[j.clOrdId] == j
  }

  predicate Reported(d: Desk, id: nat) {
    exists i :: 0 <= i < |d.reports| && d.reports[i].id == id
  }

  function Held(d: Desk): seq<OrderJob> {
    d.draining.GetOr([])
  }

  ghost predicate Serial(js: seq<OrderJob>, next: nat) {
    && (forall i :: 0 <= i < |js| ==> js[i].id < next && js[i].clOrdId == ClOrdId(js[i].id))
    && (forall i, k :: 0 <= i < k < |js| ==> js[i].id < js[k].id)
  }

  /** First in, first out: nothing accepted is lost, duplicated or overtaken on its way to the table. */
  ghost predicate Fifo(d: Desk) {
    d.accepted == d.drained + Held(d) + d.mailbox
  }

  /** Every table entry is a drained job under its own ClOrdID that has not been reported. */
  ghost predicate TableSound(d: Desk) {
    forall cl :: cl in d.pending ==>
      d.pending[cl] in d.drained && d.pending[cl].clOrdId == cl && !Reported(d, d.pending[cl].id)
  }

  ghost predicate DrainedPlaced(d: Desk) {
    forall i :: 0 <= i < |d.drained| ==> Pending(d, d.drained[i]) || Reported(d, d.drained[i].id)
  }

  predicate Among(js: seq<OrderJob>, id: nat) {
    exists k :: 0 <= k < |js| && js[k].id == id
  }

  /** A report is about a drained order ... */
  ghost predicate ReportsSound(d: Desk) {
    forall i :: 0 <= i < |d.reports| ==> Among(d.drained, d.reports[i].id)
  }

  /** ... and no order is reported twice. */
  ghost predicate ReportsDistinct(d: Desk) {
    forall i, k :: 0 <= i < k < |d.reports| ==> d.reports[i].id != d.reports[k].id
  }

  ghost predicate Inv(d: Desk) {
    Serial(d.accepted, d.nextId) && Fifo(d) && TableSound(d) && DrainedPlaced(d)
    && ReportsSound(d) && ReportsDistinct(d)
  }

  lemma EmptyInv()
    ensures Inv(EMPTY_DESK)
  {
  }

  lemma ClOrdIdInjective(m: nat, n: nat)
    ensures ClOrdId(m) == ClOrdId(n) <==> m == n
  {
    DecInjective(m, n);
    if ClOrdId(m) == ClOrdId(n) {
      assert ClOrdId(m)[2..] == Dec(m) && ClOrdId(n)[2..] == Dec(n);
    }
  }

  /** Steps that only move jobs between mailbox and drain keep the rest of the invariant. */
  lemma SameBooks(d: Desk, e: Desk)
    requires Inv(d) && e.pending == d.pending && e.drained == d.drained && e.reports == d.reports
    ensures TableSound(e) && DrainedPlaced(e) && ReportsSound(e) && ReportsDistinct(e)
  {
    assert forall id :: Reported(e, id) == Reported(d, id);
    assert forall j :: Pending(e, j) == Pending(d, j);
  }

  lemma AcceptInv(d: Desk, limit: nat, q: Request)
    requires Inv(d)
    ensures Inv(Accept(d, limit, q))
  {
    var e := Accept(d, limit, q);
    SameBooks(d, e);
    assert Serial(d.accepted, d.nextId + 1);
    if |e.accepted| > |d.accepted| {
      assert e.accepted == d.accepted + [e.accepted[|d.accepted|]];
      assert d.drained + Held(d) + e.mailbox == d.accepted + [e.accepted[|d.accepted|]];
    }
  }

  lemma TakeInv(d: Desk)
    requires Inv(d)
    ensures Inv(Take(d))
  {
    SameBooks(d, Take(d));
    assert d.drained + Held(d) + d.mailbox == Take(d).drained + Held(Take(d)) + Take(d).mailbox;
  }

  lemma ParkInv(d: Desk)
    requires Inv(d) && d.draining.Some?
    ensures Inv(Park(d))
  {
    SameBooks(d, Park(d));
    assert d.drained + Held(d) + d.mailbox == Park(d).drained + Held(Park(d)) + Park(d).mailbox;
  }

  lemma FinishInv(d: Desk)
    requires Inv(d) && d.draining == Some([])
    ensures Inv(Finish(d))
  {
    SameBooks(d, Finish(d));
  }

  /** Jobs later in acceptance order have other identifiers than drained ones. */
  lemma FrontIsNew(d: Desk)
    requires Inv(d) && d.draining.Some? && d.draining.value != []
    ensures var j := d.draining.value[0];
            && j.clOrdId == ClOrdId(j.id)
            && forall i :: 0 <= i < |d.drained| ==> d.drained[i].id < j.id && d.drained[i].clOrdId != j.clOrdId
  {
    var j := d.draining.value[0];
    assert d.accepted[|d.drained|] == j;
    forall i | 0 <= i < |d.drained|
      ensures d.drained[i].id < j.id && d.drained[i].clOrdId != j.clOrdId
    {
      assert d.accepted[i] == d.drained[i];
      ClOrdIdInjective(d.drained[i].id, j.id);
    }
  }

  lemma RegisterInv(d: Desk)
    requires Inv(d) && d.draining.Some? && d.draining.value != []
    ensures Inv(Register(d))
  {
    var j, e := d.draining.value[0], Register(d);
    FrontIsNew(d);
    assert d.drained + Held(d) == e.drained + Held(e);
    assert forall id :: Reported(e, id) == Reported(d, id);
    assert e.drained[|d.drained|] == j;
    assert forall i :: 0 <= i < |d.drained| ==> e.drained[i] == d.drained[i];
    assert forall id :: Among(d.drained, id) ==> Among(e.drained, id);
    assert forall i :: 0 <= i < |d.drained| && Pending(d, d.drained[i]) ==> Pending(e, d.drained[i]);
  }

  lemma ReportInv(d: Desk, frame: string)
    requires Inv(d)
    ensures Inv(OnReport(d, frame))
  {
    var e := OnReport(d, frame);
    if e != d {
      CloseInv(d, Scan(frame, 11), e.reports[|d.reports|]);
    }
  }

  /** Removing one pending order and reporting it. */
  lemma CloseInv(d: Desk, cl: string, r: Report)
    requires Inv(d) && cl in d.pending && r.id == d.pending[cl].id
    ensures Inv(d.(pending := d.pending - {cl}, reports := d.reports + [r]))
  {
    var e := d.(pending := d.pending - {cl}, reports := d.reports + [r]);
    ReportedGrows(d, e, r);
    DrainedDiffer(d);
    var k :| 0 <= k < |d.drained| && d.drained[k] == d.pending[cl];
    CloseTable(d, e, cl, r, k);
  }

  lemma CloseTable(d: Desk, e: Desk, cl: string, r: Report, k: nat)
    requires TableSound(d) && DrainedPlaced(d) && k < |d.drained| && d.drained[k].id == r.id
    requires cl in d.pending && d.pending[cl] == d.drained[k]
    requires e.pending == d.pending - {cl} && e.drained == d.drained
    requires forall id :: Reported(e, id) <==> Reported(d, id) || id == r.id
    requires forall i :: 0 <= i < |d.drained| && i != k ==>
               d.drained[i].id != r.id && d.drained[i].clOrdId != d.drained[k].clOrdId
    ensures TableSound(e) && DrainedPlaced(e)
  {
    forall c | c in e.pending
      ensures e.pending[c].id != r.id
    {
      var i :| 0 <= i < |d.drained| && d.drained[i] == d.pending[c];
      assert d.pending[c].clOrdId == c && d.pending[cl].clOrdId == cl;
    }
    assert forall i :: 0 <= i < |d.drained| && i != k && Pending(d, d.drained[i]) ==> Pending(e, d.drained[i]);
  }

  lemma ReportedGrows(d: Desk, e: Desk, r: Report)
    requires e.reports == d.reports + [r]
    ensures forall id :: Reported(e, id) <==> Reported(d, id) || id == r.id
  {
    assert e.reports[|d.reports|] == r;
    assert forall i :: 0 <= i < |d.reports| ==> e.reports[i] == d.reports[i];
  }

  /** Among drained jobs the identifier and the ClOrdID determine each other and the job. */
  lemma DrainedDiffer(d: Desk)
    requires Inv(d)
    ensures forall i, k :: 0 <= i < |d.drained| && 0 <= k < |d.drained| && i != k ==>
              d.drained[i].id != d.drained[k].id && d.drained[i].clOrdId != d.drained[k].clOrdId
  {
    assert forall i :: 0 <= i < |d.drained| ==> d.accepted[i] == d.drained[i];
    forall i, k | 0 <= i < |d.drained| && 0 <= k < |d.drained| && i != k
      ensures d.drained[i].clOrdId != d.drained[k].clOrdId && d.drained[i].id != d.drained[k].id
    {
      ClOrdIdInjective(d.accepted[i].id, d.accepted[k].id);
    }
  }

  /** The partition: every accepted order is in exactly one place. */
  ghost predicate ExactlyOne(a: bool, b: bool, c: bool) {
    (a && !b && !c) || (!a && b && !c) || (!a && !b && c)
  }

  lemma Partition(d: Desk, i: nat)
    requires Inv(d) && i < |d.accepted|
    ensures ExactlyOne(Waiting(d, d.accepted[i]), Pending(d, d.accepted[i]), Reported(d, d.accepted[i].id))
  {
    var j := d.accepted[i];
    if i < |d.drained| {
      assert d.drained[i] == j;
      NotWaiting(d, i);
    } else if i < |d.drained| + |Held(d)| {
      assert Held(d)[i - |d.drained|] == j;
      NotDrained(d, i);
    } else {
      assert d.mailbox[i - |d.drained| - |Held(d)|] == j;
      NotDrained(d, i);
    }
  }

  lemma NotWaiting(d: Desk, i: nat)
    requires Inv(d) && i < |d.drained|
    ensures !Waiting(d, d.drained[i])
  {
    var j := d.drained[i];
    assert d.accepted[i] == j;
    forall k | 0 <= k < |d.mailbox|
      ensures d.mailbox[k] != j
    {
      assert d.accepted[|d.drained| + |Held(d)| + k] == d.mailbox[k];
    }
    forall k | 0 <= k < |Held(d)|
      ensures Held(d)[k] != j
    {
      assert d.accepted[|d.drained| + k] == Held(d)[k];
    }
  }

  lemma NotDrained(d: Desk, i: nat)
    requires Inv(d) && |d.drained| <= i < |d.accepted|
    ensures !Pending(d, d.accepted[i]) && !Reported(d, d.accepted[i].id)
  {
    forall k | 0 <= k < |d.drained|
      ensures d.drained[k].id != d.accepted[i].id
    {
      assert d.accepted[k] == d.drained[k];
    }
  }

  /** A report ends a pending order exactly when its ExecType or OrdStatus is one of the listed ones. */
  lemma ReportEndsOrder(d: Desk, frame: string)
    requires Scan(frame, 11) in d.pending && Scan(frame, 11) != ""
    ensures var cl, e := Scan(frame, 11), OnReport(d, frame);
            && (cl !in e.pending) == (Scan(frame, 150) in {"0", "1", "2", "3", "4", "8"} || Scan(frame, 39) == "8")
            && (cl in e.pending ==> e == d)
            && (cl !in e.pending ==> |e.reports| == |d.reports| + 1 && e.reports[|d.reports|].id == d.pending[cl].id)
            && (cl !in e.pending ==>
                  e.reports[|d.reports|].ok
                  == (Scan(frame, 150) in {"1", "2"} || (Scan(frame, 150) == "0" && Scan(frame, 39) != "8")))
  {
  }

  /** `r` is reported and only its order leaves the table. */
  ghost predicate Closes(d: Desk, e: Desk, r: Report) {
    && r.clOrdId in d.pending && r.id == d.pending[r.clOrdId].id
    && e.reports == d.reports + [r] && e.pending == d.pending - {r.clOrdId}
    && e == d.(pending := e.pending, reports := e.reports)
  }

  /** What the callback of a report that ends its order is told, by ExecType and OrdStatus. */
  lemma ReportReads(d: Desk, frame: string)
    requires Scan(frame, 11) in d.pending && Scan(frame, 11) != ""
    ensures var cl, exec, rejected := Scan(frame, 11), Scan(frame, 150), Scan(frame, 39) == "8";
            var e, id, broker := OnReport(d, frame), d.pending[cl].id, Scan(frame, 37);
            && (exec == "2" ==> Closes(d, e, Report(id, cl, broker, "FILLED", true, "")))
            && (exec == "1" ==> Closes(d, e, Report(id, cl, broker, "PARTIAL", true, "")))
            && (exec == "8" || exec == "3" || (rejected && exec != "1" && exec != "2")
                ==> Closes(d, e, Report(id, cl, broker, "REJECTED", false, Scan(frame, 58))))
            && (exec == "4" && !rejected ==> Closes(d, e, Report(id, cl, broker, "CANCELED", false, "")))
            && (exec == "0" && !rejected ==> Closes(d, e, Report(id, cl, broker, "NEW", true, "")))
            && (exec !in {"0", "1", "2", "3", "4", "8"} && !rejected ==> e == d)
  {
  }

  /** A report about no pending order changes nothing. */
  lemma ReportIgnored(d: Desk, frame: string)
    requires Scan(frame, 11) == "" || Scan(frame, 11) !in d.pending
    ensures OnReport(d, frame) == d
  {
  }

  // ------------------------------------------------------------------
  // Which requests become orders
  // ------------------------------------------------------------------

  function AcceptAll(d: Desk, limit: nat, qs: seq<Request>): Desk
    decreases |qs|
  {
    if qs == [] then d else Accept(AcceptAll(d, limit, qs[..|qs| - 1]), limit, qs[|qs| - 1])
  }

  /** The requests that name an instrument and a side and ask for a positive volume, in order. */
  function Orderly(qs: seq<Request>): seq<Request> {
    if qs == [] then []
    else
      var q := qs[|qs| - 1];
      Orderly(qs[..|qs| - 1])
      + (if q.instrument != "" && (q.side == "buy" || q.side == "sell") && q.volume.value > 0.0 then [q] else [])
  }

  /** The order with number `id` that asks for what `q` asks for. */
  predicate OrderFor(j: OrderJob, q: Request, id: nat) {
    && j.instrument == q.instrument && j.side == q.side && j.volume == q.volume
    && j.stop == q.stop && j.take == q.take && j.t0 == q.t0
    && j.id == id && j.clOrdId == "LL" + Dec(id)
  }

  /**
   * Requests that come in before any drain: those in order become orders 1, 2, 3, ..., as many as the mailbox
   * holds. A later one is dropped, but uses up a number.
   */
  lemma {:induction false} MailboxFills(limit: nat, qs: seq<Request>)
    ensures var d, kept := AcceptAll(EMPTY_DESK, limit, qs), Orderly(qs);
            && d.nextId == |kept| + 1 && d.accepted == d.mailbox
            && |d.mailbox| == (if |kept| < limit then |kept| else limit)
            && forall k :: 0 <= k < |d.mailbox| ==> OrderFor(d.mailbox[k], kept[k], k + 1)
    decreases |qs|
  {
    if qs != [] {
      var front := qs[..|qs| - 1];
      MailboxFills(limit, front);
      OneMore(AcceptAll(EMPTY_DESK, limit, front), limit, qs[|qs| - 1], Orderly(front));
    }
  }

  lemma OneMore(d: Desk, limit: nat, q: Request, kept: seq<Request>)
    requires d.nextId == |kept| + 1 && d.accepted == d.mailbox
    requires |d.mailbox| == (if |kept| < limit then |kept| else limit)
    requires forall k :: 0 <= k < |d.mailbox| ==> OrderFor(d.mailbox[k], kept[k], k + 1)
    ensures var e := Accept(d, limit, q);
            var more := kept + (if q.instrument != "" && (q.side == "buy" || q.side == "sell") && q.volume.value > 0.0
                                then [q] else []);
            && e.nextId == |more| + 1 && e.accepted == e.mailbox
            && |e.mailbox| == (if |more| < limit then |more| else limit)
            && forall k :: 0 <= k < |e.mailbox| ==> OrderFor(e.mailbox[k], more[k], k + 1)
  {
  }
}
