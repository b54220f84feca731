/** What a session takes, what it answers to each frame, and when it writes. */
module FixAnswers {
  import opened Bytes
  import opened Decimal
  import opened FixMessage
  import opened FixSession
  import opened FixSplitter
  import opened Wrappers
  import FixOrders
  import FixOutbox

  // ------------------------------------------------------------------
  // Answers
  // ------------------------------------------------------------------

  /** What the scanner answers never holds the delimiter. */
  lemma {:induction false} AnswerClean(f: string, i: nat, tag: nat)
    requires i <= |f|
    ensures SOH !in ScanFrom(f, i, tag)
    decreases |f| - i
  {
    if i < |f| {
      match ScanField(f, i, tag)
      case Answer(v) => ValueClean(f, i, tag, v);
      case NextField(j) => AnswerClean(f, j, tag);
    }
  }

  lemma ValueClean(f: string, i: nat, tag: nat, v: string)
    requires i < |f| && ScanField(f, i, tag) == Answer(v)
    ensures SOH !in v
  {
    var eq := FindByte(f, '=', i);
    if eq >= 0 {
      var soh := FindByte(f, SOH, eq);
    }
  }

  /** One frame more, of this kind, with this tag's value. */
  ghost predicate Sent(s: State, t: State, kind: char, tag: nat, value: string) {
    && |t.out.enqueued| == |s.out.enqueued| + 1 && t.out.enqueued[..|s.out.enqueued|] == s.out.enqueued
    && var f := t.out.enqueued[|s.out.enqueued|];
       Scan(f, 35) == [kind] && Scan(f, tag) == value && Scan(f, 34) == Dec(s.out.seqOut)
  }

  /** A TestRequest, and nothing else, is answered with a heartbeat that names the request. */
  lemma TestRequestAnswered(s: State, who: Identity, frame: string, stamp: string)
    requires CleanNames(who) && SOH !in stamp
    ensures var t := React(s, who, frame, stamp);
            if Scan(frame, 35) == "1" then Sent(s, t, '0', 112, Scan(frame, 112)) else t.out == s.out
  {
    if Scan(frame, 35) == "1" {
      var id := Scan(frame, 112);
      AnswerClean(frame, 0, 112);
      ScanHeader(who, '0', s.out.seqOut, stamp, HeartbeatBody(id));
      HeartbeatReadsBack(who, s.out.seqOut, stamp, id);
      var f := FixOutbox.WriteQueues(s.out, who, '0', stamp, HeartbeatBody(id));
    }
  }

  /** The number a frame carries, 0 if none. */
  function NumberOf(frame: string): nat {
    var text := Scan(frame, 34);
    if text != "" && forall i :: 0 <= i < |text| ==> '0' <= text[i] <= '9' then Val(text) else 0
  }

  /**
   * A frame moves the inbound count to its number if that is higher, and to any first number; a gap after a known
   * number, and nothing else, is answered with a request for the frames from the received one on.
   */
  lemma NumberTracked(s: State, who: Identity, frame: string, stamp: string)
    requires CleanNames(who) && SOH !in stamp
    ensures var t, n := TrackSeq(s, who, frame, stamp), NumberOf(frame);
            && t.seqIn == (if n > s.seqIn then n else s.seqIn)
            && t.desk == s.desk && t.connected == s.connected && t.inbound == s.inbound
            && if s.seqIn > 0 && n > s.seqIn + 1 then Sent(s, t, '3', 7, Dec(n)) else t.out == s.out
  {
    var n := NumberOf(frame);
    if n > 0 && s.seqIn > 0 && n > s.seqIn + 1 {
      ScanHeader(who, '3', s.out.seqOut, stamp, ResendBody(n));
      BodyReadsBack(who, '3', s.out.seqOut, stamp, ResendBody(n), 0, 7);
      var f := FixOutbox.WriteQueues(s.out, who, '3', stamp, ResendBody(n));
    }
  }

  /** Apart from answers, a frame can do two things: a report goes to the desk, a SequenceReset clears the count. */
  lemma FrameEffects(s: State, who: Identity, frame: string, stamp: string)
    ensures var t := React(s, who, frame, stamp);
            && t.desk == (if Scan(frame, 35) == "8" then FixOrders.OnReport(s.desk, frame) else s.desk)
            && t.seqIn == (if Scan(frame, 35) == "4" then 0 else s.seqIn)
            && t.connected == s.connected && t.inbound == s.inbound
            && Handle(s, who, frame, stamp) == React(TrackSeq(s, who, frame, stamp), who, frame, stamp)
  {
  }

  /** A due heartbeat of a connected session names no request. */
  lemma IdleHeartbeat(s: State, c: Setup, stamp: string)
    requires CleanNames(c.who) && SOH !in stamp && !s.Busy()
    ensures var t := Step(s, c, HeartbeatDue(stamp));
            if s.connected then Sent(s, t, '0', 112, "") else t == s
  {
    if s.connected {
      ScanHeader(c.who, '0', s.out.seqOut, stamp, HeartbeatBody(""));
      HeartbeatReadsBack(c.who, s.out.seqOut, stamp, "");
      var f := FixOutbox.WriteQueues(s.out, c.who, '0', stamp, HeartbeatBody(""));
    }
  }

  /** A session begins with its Logon, number 1, behind what is queued; the inbound count and buffer are kept. */
  lemma SessionOpens(s: State, c: Setup, stamp: string) returns (logon: string)
    requires !s.Busy() && !s.out.up
    ensures logon == Message(c.who, 'A', 1, stamp, LogonBody(c.who))
    ensures var t := Step(s, c, Begin(stamp));
            && t.connected && t.out.up && t.out.seqOut == 2
            && t.out.queue == s.out.queue + [logon] && t.out.enqueued == s.out.enqueued + [logon]
            && t.desk == s.desk && t.seqIn == s.seqIn && t.inbound == s.inbound
  {
    logon := Message(c.who, 'A', 1, stamp, LogonBody(c.who));
  }

  // ------------------------------------------------------------------
  // Requests
  // ------------------------------------------------------------------

  /** While a drain is under way only requests and its turns count; every other step waits for its own condition. */
  lemma Waits(s: State, c: Setup, e: Event)
    requires || (s.Busy() && !e.Execute? && !e.DrainTurn?)
             || (e.DrainTurn? && !s.Busy())
             || (e.Begin? && s.out.up)
             || (e.Received? && !s.out.up)
             || (e.WriteDone? && !s.out.writing)
             || (e.HeartbeatDue? && !s.connected)
    ensures Step(s, c, e) == s
  {
  }

  /** A sound request uses up a number, draining or not; it is queued behind the others unless the mailbox is full. */
  lemma RequestTaken(s: State, c: Setup, q: FixOrders.Request)
    ensures var t, n := Step(s, c, Execute(q)), s.desk.nextId;
            var sound := q.instrument != "" && (q.side == "buy" || q.side == "sell") && q.volume.value > 0.0;
            var job := OrderJob(q.instrument, q.side, q.volume, q.stop, q.take, n, "LL" + Dec(n), q.t0);
            var more := if sound && |s.desk.mailbox| < c.limit then [job] else [];
            t == s.(desk := s.desk.(nextId := if sound then n + 1 else n, mailbox := s.desk.mailbox + more,
                                    accepted := s.desk.accepted + more))
  {
    assert s.desk.mailbox + [] == s.desk.mailbox && s.desk.accepted + [] == s.desk.accepted;
  }

  /** The requests of a run, in order. */
  function Requests(es: seq<Event>): seq<FixOrders.Request> {
    if es == [] then []
    else
      var e := es[|es| - 1];
      Requests(es[..|es| - 1]) + (if e.Execute? then [e.request] else [])
  }

  lemma {:induction false} HandlesKeepIds(s: State, who: Identity, frames: seq<string>, stamp: string)
    ensures var d := HandleAll(s, who, frames, stamp).desk; d.nextId == s.desk.nextId && d.accepted == s.desk.accepted
    decreases |frames|
  {
    if frames != [] {
      TrackKeepsGuards(s, who, frames[0], stamp);
      FrameEffects(s, who, frames[0], stamp);
      FrameEffects(TrackSeq(s, who, frames[0], stamp), who, frames[0], stamp);
      HandlesKeepIds(Handle(s, who, frames[0], stamp), who, frames[1..], stamp);
    }
  }

  lemma {:induction false} StepKeepsIds(s: State, c: Setup, e: Event)
    requires !e.Execute?
    ensures var d := Step(s, c, e).desk; d.nextId == s.desk.nextId && d.accepted == s.desk.accepted
  {
    if e.Received? {
      var p := Split(s.inbound + e.chunk);
      HandlesKeepIds(s.(inbound := p.rest), c.who, p.frames, e.stamp);
    }
  }

  lemma {:induction false} RunSnoc(s: State, c: Setup, es: seq<Event>, e: Event)
    ensures Run(s, c, es + [e]) == Step(Run(s, c, es), c, e)
    decreases |es|
  {
    if es == [] {
      assert Run(Step(s, c, e), c, [e][1..]) == Step(s, c, e);
      assert es + [e] == [e];
    } else {
      assert (es + [e])[1..] == es[1..] + [e];
      RunSnoc(Step(s, c, es[0]), c, es[1..], e);
    }
  }

  /** Every order of a run is the sound request whose place among the sound requests is the order's number. */
  ghost predicate OrdersAre(d: FixOrders.Desk, kept: seq<FixOrders.Request>) {
    && d.nextId == |kept| + 1
    && forall k :: 0 <= k < |d.accepted| ==>
         var j := d.accepted[k]; 1 <= j.id <= |kept| && FixOrders.OrderFor(j, kept[j.id - 1], j.id)
  }

  lemma {:induction false} RequestCounted(s: State, c: Setup, q: FixOrders.Request, rs: seq<FixOrders.Request>)
    requires OrdersAre(s.desk, FixOrders.Orderly(rs))
    ensures OrdersAre(Step(s, c, Execute(q)).desk, FixOrders.Orderly(rs + [q]))
  {
    RequestTaken(s, c, q);
    assert (rs + [q])[..|rs|] == rs;
  }

  /** Over any run, with any drains, sessions and reports in between, orders are the sound requests, by number. */
  lemma {:induction false} OrdersAreRequests(c: Setup, es: seq<Event>)
    ensures OrdersAre(Run(START, c, es).desk, FixOrders.Orderly(Requests(es)))
    decreases |es|
  {
    if es != [] {
      var front, e := es[..|es| - 1], es[|es| - 1];
      OrdersAreRequests(c, front);
      assert es == front + [e];
      RunSnoc(START, c, front, e);
      if e.Execute? {
        RequestCounted(Run(START, c, front), c, e.request, Requests(front));
      } else {
        StepKeepsIds(Run(START, c, front), c, e);
        assert Requests(front) + [] == Requests(front);
      }
    }
  }

  // ------------------------------------------------------------------
  // A whole drain
  // ------------------------------------------------------------------

  lemma {:induction false} DrainOne(s: State, who: Identity, stamp: string, js: seq<OrderJob>) returns (t: State)
    requires s.connected && s.desk.draining == Some(js) && js != []
    ensures t.connected && t.desk.draining == Some(js[1..]) && Moved(s, t, [js[0]])
    ensures DrainAll(s, who, stamp) == DrainAll(t, who, stamp)
  {
    DrainAllTurn(s, who, stamp);
    t := Drain(s, who, stamp);
    var f := FixOutbox.WriteQueues(s.out, who, 'D', stamp, OrderBody(who, js[0], stamp));
  }

  /** `js` went from the drain to the table, with one message and one number each. */
  ghost predicate Moved(s: State, t: State, js: seq<OrderJob>) {
    && t.desk.mailbox == s.desk.mailbox && t.desk.reports == s.desk.reports
    && t.desk.drained == s.desk.drained + js
    && |t.out.enqueued| == |s.out.enqueued| + |js| && t.out.seqOut == s.out.seqOut + |js|
  }

  lemma MovedOn(s: State, u: State, t: State, js: seq<OrderJob>)
    requires js != [] && Moved(s, u, [js[0]]) && Moved(u, t, js[1..])
    ensures Moved(s, t, js)
  {
    assert js == [js[0]] + js[1..];
  }

  lemma {:induction false} DrainOnline(s: State, who: Identity, stamp: string, js: seq<OrderJob>) returns (t: State)
    requires s.Busy() && s.connected && js == s.desk.draining.value
    ensures t == DrainAll(s, who, stamp) && !t.Busy() && Moved(s, t, js)
    decreases |js|
  {
    if js == [] {
      t := DrainAllEmpty(s, who, stamp);
    } else {
      var u := DrainOne(s, who, stamp, js);
      t := DrainOnline(u, who, stamp, js[1..]);
      MovedOn(s, u, t, js);
    }
  }

  lemma DrainAllEmpty(s: State, who: Identity, stamp: string) returns (t: State)
    requires s.connected && s.desk.draining == Some([])
    ensures t == DrainAll(s, who, stamp) == s.(desk := s.desk.(draining := None))
  {
    DrainAllTurn(s, who, stamp);
    t := Drain(s, who, stamp);
  }

  /**
   * A connected session drains its whole mailbox, in order, with one message and one number a job; a disconnected
   * one gives the mailbox back as it was.
   */
  lemma {:induction false} WholeDrain(s: State, c: Setup, stamp: string)
    requires !s.Busy()
    ensures var t, js := DrainAll(Step(s, c, TakeMailbox), c.who, stamp), s.desk.mailbox;
            if !s.connected then t == s
            else !t.Busy() && Moved(s.(desk := s.desk.(mailbox := [])), t, js)
  {
    var u := Step(s, c, TakeMailbox);
    if s.connected {
      var t := DrainOnline(u, c.who, stamp, s.desk.mailbox);
    } else {
      DrainAllTurn(u, c.who, stamp);
      assert s.desk.mailbox + [] == s.desk.mailbox;
    }
  }

  // ------------------------------------------------------------------
  // Writing
  // ------------------------------------------------------------------

  /** A live session has a stream, and is writing whenever something is queued. */
  ghost predicate Live(s: State) {
    s.connected ==> s.out.up && (s.out.queue != [] ==> s.out.writing)
  }

  lemma SendLive(s: State, who: Identity, kind: char, stamp: string, body: seq<Field>)
    requires Live(s)
    ensures Live(Send(s, who, kind, stamp, body)) && Send(s, who, kind, stamp, body).connected == s.connected
  {
  }

  lemma HandleLive(s: State, who: Identity, frame: string, stamp: string)
    requires Live(s)
    ensures Live(Handle(s, who, frame, stamp))
  {
    var n := TrackSends(s, who, frame, stamp);
    SendLive(s, who, '3', stamp, ResendBody(n));
    var t := TrackSeq(s, who, frame, stamp);
    SendLive(t, who, '0', stamp, HeartbeatBody(Scan(frame, 112)));
  }

  lemma {:induction false} HandleAllLive(s: State, who: Identity, frames: seq<string>, stamp: string)
    requires Live(s)
    ensures Live(HandleAll(s, who, frames, stamp))
    decreases |frames|
  {
    if frames != [] {
      HandleLive(s, who, frames[0], stamp);
      HandleAllLive(Handle(s, who, frames[0], stamp), who, frames[1..], stamp);
    }
  }

  lemma DrainLive(s: State, who: Identity, stamp: string)
    requires Live(s)
    ensures Live(Drain(s, who, stamp))
  {
    if s.Busy() && s.connected && s.desk.draining.value != [] {
      var job := s.desk.draining.value[0];
      SendLive(s.(desk := FixOrders.Register(s.desk)), who, 'D', stamp, OrderBody(who, job, stamp));
    }
  }

  lemma {:induction false} StepLive(s: State, c: Setup, e: Event)
    requires Live(s)
    ensures Live(Step(s, c, e))
  {
    match e
    case DrainTurn(stamp) => DrainLive(s, c.who, stamp);
    case Received(chunk, stamp) =>
      var p := Split(s.inbound + chunk);
      HandleAllLive(s.(inbound := p.rest), c.who, p.frames, stamp);
    case HeartbeatDue(stamp) => SendLive(s, c.who, '0', stamp, HeartbeatBody(""));
    case _ =>
  }

  lemma {:induction false} RunLive(s: State, c: Setup, es: seq<Event>)
    requires Live(s)
    ensures Live(Run(s, c, es))
    decreases |es|
  {
    if es != [] {
      StepLive(s, c, es[0]);
      RunLive(Step(s, c, es[0]), c, es[1..]);
    }
  }

  /** In every reachable state a connected session with queued frames is writing one: the queue never stalls. */
  lemma NeverStalls(s: State, c: Setup)
    requires Reachable(s, c)
    ensures s.connected ==> s.out.up && (s.out.queue != [] ==> s.out.writing)
  {
    var es: seq<Event> :| s == Run(START, c, es);
    RunLive(START, c, es);
  }

  /** A write that ends well starts the next one, if there is a frame and a stream; the link stays as it is ... */
  lemma GoodWrite(s: State, c: Setup)
    requires !s.Busy() && s.out.writing && s.out.queue != []
    ensures var t := Step(s, c, WriteDone(false));
            && t.connected == s.connected && t.out.queue == s.out.queue[1..]
            && t.out.started == s.out.started + (if s.out.up && |s.out.queue| > 1 then [s.out.queue[1]] else [])
  {
  }

  /** ... a failed one drops its frame and the link, and starts nothing. */
  lemma FailedWrite(s: State, c: Setup)
    requires !s.Busy() && s.out.writing && s.out.queue != []
    ensures var t := Step(s, c, WriteDone(true));
            !t.connected && t.out.queue == s.out.queue[1..] && !t.out.writing && t.out.started == s.out.started
  {
  }

  lemma {:induction false} SilentFrames(s: State, who: Identity, frames: seq<string>, stamp: string)
    requires !s.out.up
    ensures var t := HandleAll(s, who, frames, stamp); !t.out.up && t.out.started == s.out.started
    decreases |frames|
  {
    if frames != [] {
      var n := TrackSends(s, who, frames[0], stamp);
      SilentFrames(Handle(s, who, frames[0], stamp), who, frames[1..], stamp);
    }
  }

  lemma {:induction false} SilentStep(s: State, c: Setup, e: Event)
    requires !s.out.up && !e.Begin?
    ensures !Step(s, c, e).out.up && Step(s, c, e).out.started == s.out.started
  {
    if e.Received? {
      SilentFrames(s.(inbound := Split(s.inbound + e.chunk).rest), c.who, Split(s.inbound + e.chunk).frames, e.stamp);
    }
  }

  lemma {:induction false} SilentRun(s: State, c: Setup, es: seq<Event>)
    requires !s.out.up && forall i :: 0 <= i < |es| ==> !es[i].Begin?
    ensures Run(s, c, es).out.started == s.out.started
    decreases |es|
  {
    if es != [] {
      SilentStep(s, c, es[0]);
      SilentRun(Step(s, c, es[0]), c, es[1..]);
    }
  }

  /** After a session has ended no write is started until the next one begins, whatever happens. */
  lemma {:induction false} SilentWhenDown(s: State, c: Setup, es: seq<Event>)
    requires !s.Busy() && forall i :: 0 <= i < |es| ==> !es[i].Begin?
    ensures !Step(s, c, End).connected && Run(Step(s, c, End), c, es).out.started == s.out.started
  {
    SilentRun(Step(s, c, End), c, es);
  }

  // ------------------------------------------------------------------
  // A report, from the venue's bytes to the callback
  // ------------------------------------------------------------------

  function Receives(chunks: seq<string>, stamp: string): seq<Event> {
    seq(|chunks|, i requires 0 <= i < |chunks| => Received(chunks[i], stamp))
  }

  lemma ReactKeepsGuards(t: State, who: Identity, frame: string, stamp: string)
    ensures React(t, who, frame, stamp).out.up == t.out.up && React(t, who, frame, stamp).Busy() == t.Busy()
  {
  }

  lemma TrackKeepsGuards(s: State, who: Identity, frame: string, stamp: string)
    ensures TrackSeq(s, who, frame, stamp).out.up == s.out.up && TrackSeq(s, who, frame, stamp).desk == s.desk
  {
  }

  lemma {:induction false} HandlesKeepGuards(s: State, who: Identity, frames: seq<string>, stamp: string)
    ensures var t := HandleAll(s, who, frames, stamp); t.out.up == s.out.up && t.Busy() == s.Busy()
    decreases |frames|
  {
    if frames != [] {
      TrackKeepsGuards(s, who, frames[0], stamp);
      ReactKeepsGuards(TrackSeq(s, who, frames[0], stamp), who, frames[0], stamp);
      HandlesKeepGuards(Handle(s, who, frames[0], stamp), who, frames[1..], stamp);
    }
  }

  /** Reads of a session that is up and not draining are the session's steps. */
  lemma {:induction false} ReadsAreSteps(s: State, c: Setup, chunks: seq<string>, stamp: string)
    requires !s.Busy() && s.out.up
    ensures Run(s, c, Receives(chunks, stamp)) == ReadAll(s, c.who, chunks, stamp)
    decreases |chunks|
  {
    if chunks != [] {
      var p := Split(s.inbound + chunks[0]);
      HandlesKeepGuards(s.(inbound := p.rest), c.who, p.frames, stamp);
      assert Receives(chunks, stamp)[1..] == Receives(chunks[1..], stamp);
      ReadsAreSteps(Step(s, c, Received(chunks[0], stamp)), c, chunks[1..], stamp);
    }
  }

  /** A field of the report, or the empty text. */
  function Told(peer: Identity, n: nat, stamp: string, body: seq<Field>, tag: nat): string {
    Lookup(MessageFields(peer, '8', n, stamp, body), tag).GetOr("")
  }

  /** What a report on a pending order says, by its ExecType and OrdStatus. */
  ghost predicate Says(exec: string, ord: string, status: string, ok: bool) {
    || (exec == "2" && status == "FILLED" && ok)
    || (exec == "1" && status == "PARTIAL" && ok)
    || ((exec == "8" || exec == "3" || (ord == "8" && exec != "1" && exec != "2")) && status == "REJECTED" && !ok)
    || (exec == "4" && ord != "8" && status == "CANCELED" && !ok)
    || (exec == "0" && ord != "8" && status == "NEW" && ok)
  }

  /**
   * A printed ExecutionReport on a pending order, cut into any reads, calls back once: with the order's number and
   * ClOrdID, the venue's OrderID, the status its codes say, and the venue's text if it is a rejection.
   */
  lemma {:induction false} ReportEndToEnd(s: State, c: Setup, peer: Identity, n: nat, stamp: string,
                                          body: seq<Field>, cl: string, chunks: seq<string>, now: string,
                                          status: string, ok: bool)
    requires s.inbound == "" && cl != "" && cl in s.desk.pending
    requires Clean(HeaderFields(peer, '8', n, stamp)) && Clean(body)
    requires Draft(PrintFields(HeaderFields(peer, '8', n, stamp)), PrintFields(body)).Deliverable()
    requires Told(peer, n, stamp, body, 11) == cl
    requires Says(Told(peer, n, stamp, body, 150), Told(peer, n, stamp, body, 39), status, ok)
    requires chunks != [] && Concat(chunks) == Message(peer, '8', n, stamp, body)
    ensures var e := ReadAll(s, c.who, chunks, now);
            && (!s.Busy() && s.out.up ==> Run(s, c, Receives(chunks, now)) == e)
            && e.inbound == "" && e.desk.pending == s.desk.pending - {cl}
            && e.desk.reports == s.desk.reports + [FixOrders.Report(
                 s.desk.pending[cl].id, cl, Told(peer, n, stamp, body, 37), status, ok,
                 if status == "REJECTED" then Told(peer, n, stamp, body, 58) else "")]
  {
    var m := Message(peer, '8', n, stamp, body);
    if !s.Busy() && s.out.up {
      ReadsAreSteps(s, c, chunks, now);
    }
    ReadAllJoins(s, c.who, chunks, now);
    MessageAlone(Draft(PrintFields(HeaderFields(peer, '8', n, stamp)), PrintFields(body)), m);
    ReadOne(s, c.who, m, now);
    ReportScans(peer, n, stamp, body, m);
    ReportHandled(s, c.who, m, now, cl, status, ok);
  }

  lemma ReportScans(peer: Identity, n: nat, stamp: string, body: seq<Field>, m: string)
    requires Clean(HeaderFields(peer, '8', n, stamp)) && Clean(body) && m == Message(peer, '8', n, stamp, body)
    ensures Scan(m, 35) == "8" && Scan(m, 11) == Told(peer, n, stamp, body, 11)
    ensures Scan(m, 150) == Told(peer, n, stamp, body, 150) && Scan(m, 39) == Told(peer, n, stamp, body, 39)
    ensures Scan(m, 37) == Told(peer, n, stamp, body, 37) && Scan(m, 58) == Told(peer, n, stamp, body, 58)
  {
    KindOfReport(peer, n, stamp, body);
    ScanMessage(peer, '8', n, stamp, body, 11);
    ScanMessage(peer, '8', n, stamp, body, 150);
    ScanMessage(peer, '8', n, stamp, body, 39);
    ScanMessage(peer, '8', n, stamp, body, 37);
    ScanMessage(peer, '8', n, stamp, body, 58);
  }

  lemma ReportHandled(s: State, who: Identity, m: string, now: string, cl: string, status: string, ok: bool)
    requires Scan(m, 35) == "8" && Scan(m, 11) == cl && cl != "" && cl in s.desk.pending
    requires Says(Scan(m, 150), Scan(m, 39), status, ok)
    ensures var e := Handle(s, who, m, now);
            && e.inbound == s.inbound && e.desk.pending == s.desk.pending - {cl}
            && e.desk.reports == s.desk.reports + [FixOrders.Report(
                 s.desk.pending[cl].id, cl, Scan(m, 37), status, ok, if status == "REJECTED" then Scan(m, 58) else "")]
  {
    var t := TrackSeq(s, who, m, now);
    assert t.desk == s.desk && t.inbound == s.inbound;
    FixOrders.ReportReads(s.desk, m);
    FrameEffects(t, who, m, now);
  }
}
