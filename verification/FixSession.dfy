/** The whole session engine as a state machine over the steps of its two threads. */
module FixSession {
  import opened Decimal
  import opened FixMessage
  import opened FixSplitter
  import opened Wrappers
  import FixOrders
  import FixOutbox

  datatype Setup = Setup(who: Identity, limit: nat)

  datatype State = State(desk: FixOrders.Desk, out: FixOutbox.Outbox,
                         connected: bool, seqIn: nat, inbound: string) {
    /** The session thread is between the two critical sections of a drain. */
    predicate Busy() {
      desk.draining.Some?
    }
  }

  const START := State(FixOrders.EMPTY_DESK, FixOutbox.EMPTY_OUTBOX, false, 0, "")

  /**
   * Steps of the strategy thread (Execute) and of the session thread (all others); clocks, bytes,
   * write results and disconnects are inputs. A step whose guard does not hold changes nothing.
   */
  datatype Event =
    | Execute(request: FixOrders.Request)
    | TakeMailbox
    | DrainTurn(stamp: string)
    | Begin(stamp: string)
    | End
    | Received(chunk: string, stamp: string)
    | WriteDone(failed: bool)
    | HeartbeatDue(stamp: string)

  function Send(s: State, who: Identity, kind: char, stamp: string, body: seq<Field>): State {
    s.(out := FixOutbox.Write(s.out, who, kind, stamp, body))
  }

  /** Sequence bookkeeping of `handle_frame`. */
  function TrackSeq(s: State, who: Identity, frame: string, stamp: string): State {
    var text := Scan(frame, 34);
    if !IsDigits(text) || Val(text) == 0 then s
    else
      var n := Val(text);
      if s.seqIn == 0 then s.(seqIn := n)
      else if n > s.seqIn + 1 then Send(s.(seqIn := n), who, '3', stamp, ResendBody(n))
      else s.(seqIn := if n > s.seqIn then n else s.seqIn)
  }

  /** `handle_frame`. */
  function Handle(s: State, who: Identity, frame: string, stamp: string): State {
    React(TrackSeq(s, who, frame, stamp), who, frame, stamp)
  }

  /** Its dispatch on MsgType. */
  function React(t: State, who: Identity, frame: string, stamp: string): State {
    var kind := Scan(frame, 35);
    if kind == "8" then t.(desk := FixOrders.OnReport(t.desk, frame))
    else if kind == "1" then Send(t, who, '0', stamp, HeartbeatBody(Scan(frame, 112)))
    else if kind == "4" then t.(seqIn := 0)
    else t
  }

  function HandleAll(s: State, who: Identity, frames: seq<string>, stamp: string): State
    decreases |frames|
  {
    if frames == [] then s else HandleAll(Handle(s, who, frames[0], stamp), who, frames[1..], stamp)
  }

  /** `on_read`: append, split, handle. */
  function Read(s: State, who: Identity, chunk: string, stamp: string): State {
    var p := Split(s.inbound + chunk);
    HandleAll(s.(inbound := p.rest), who, p.frames, stamp)
  }

  /** One turn of the second half of `io_drain_orders`. */
  function Drain(s: State, who: Identity, stamp: string): State {
    if !s.Busy() then s
    else if !s.connected then s.(desk := FixOrders.Park(s.desk))
    else if s.desk.draining.value == [] then s.(desk := FixOrders.Finish(s.desk))
    else
      var job := s.desk.draining.value[0];
      Send(s.(desk := FixOrders.Register(s.desk)), who, 'D', stamp, OrderBody(who, job, stamp))
  }

  /** A drain carried to its end. */
  function DrainAll(s: State, who: Identity, stamp: string): State
    decreases if s.Busy() then 1 + |s.desk.draining.value| else 0
  {
    if !s.Busy() then s else DrainAll(Drain(s, who, stamp), who, stamp)
  }

  lemma DrainAllTurn(s: State, who: Identity, stamp: string)
    requires s.Busy()
    ensures DrainAll(s, who, stamp) == DrainAll(Drain(s, who, stamp), who, stamp)
  {
  }

  function Step(s: State, c: Setup, e: Event): State {
    match e
    case Execute(q) => s.(desk := FixOrders.Accept(s.desk, c.limit, q))
    case TakeMailbox => if s.Busy() then s else s.(desk := FixOrders.Take(s.desk))
    case DrainTurn(stamp) => Drain(s, c.who, stamp)
    case Begin(stamp) =>
      if s.Busy() || s.out.up then s
      else s.(connected := true, out := FixOutbox.Open(s.out, c.who, stamp))
    case End => if s.Busy() then s else s.(connected := false, out := FixOutbox.Close(s.out))
    case Received(chunk, stamp) => if s.Busy() || !s.out.up then s else Read(s, c.who, chunk, stamp)
    case WriteDone(failed) =>
      if s.Busy() || !s.out.writing then s
      else s.(connected := s.connected && !failed, out := FixOutbox.Complete(s.out, failed))
    case HeartbeatDue(stamp) =>
      if s.Busy() || !s.connected then s else Send(s, c.who, '0', stamp, HeartbeatBody(""))
  }

  function Run(s: State, c: Setup, es: seq<Event>): State
    decreases |es|
  {
    if es == [] then s else Run(Step(s, c, es[0]), c, es[1..])
  }

  /** A whole drain is a run of its turns, so results about runs cover it. */
  lemma {:induction false} DrainAllIsRun(s: State, c: Setup, stamp: string) returns (es: seq<Event>)
    ensures DrainAll(s, c.who, stamp) == Run(s, c, es)
    ensures forall i :: 0 <= i < |es| ==> es[i] == DrainTurn(stamp)
    decreases if s.Busy() then 1 + |s.desk.draining.value| else 0
  {
    if !s.Busy() {
      es := [];
    } else {
      DrainAllTurn(s, c.who, stamp);
      var rest := DrainAllIsRun(Drain(s, c.who, stamp), c, stamp);
      es := [DrainTurn(stamp)] + rest;
      assert es[1..] == rest;
    }
  }

  // ------------------------------------------------------------------
  // Invariant over every run
  // ------------------------------------------------------------------

  predicate CleanNames(who: Identity) {
    SOH !in who.sender && SOH !in who.target
  }

  /** The outbound side is in order and a live session has a stream. */
  ghost predicate OutSound(s: State) {
    FixOutbox.Inv(s.out) && (s.connected ==> s.out.up)
  }

  ghost predicate Inv(s: State) {
    FixOrders.Inv(s.desk) && OutSound(s)
  }

  // ---- orders, whatever the session is called ------------------------

  lemma {:induction false} HandleAllDesk(s: State, who: Identity, frames: seq<string>, stamp: string)
    requires FixOrders.Inv(s.desk)
    ensures FixOrders.Inv(HandleAll(s, who, frames, stamp).desk)
    decreases |frames|
  {
    if frames != [] {
      var t := TrackSeq(s, who, frames[0], stamp);
      assert t.desk == s.desk;
      FixOrders.ReportInv(t.desk, frames[0]);
      HandleAllDesk(Handle(s, who, frames[0], stamp), who, frames[1..], stamp);
    }
  }

  lemma DrainDesk(s: State, who: Identity, stamp: string)
    requires FixOrders.Inv(s.desk)
    ensures FixOrders.Inv(Drain(s, who, stamp).desk)
  {
    if s.Busy() {
      if !s.connected {
        FixOrders.ParkInv(s.desk);
      } else if s.desk.draining.value == [] {
        FixOrders.FinishInv(s.desk);
      } else {
        FixOrders.RegisterInv(s.desk);
      }
    }
  }

  lemma {:induction false} StepDesk(s: State, c: Setup, e: Event)
    requires FixOrders.Inv(s.desk)
    ensures FixOrders.Inv(Step(s, c, e).desk)
  {
    match e
    case Execute(q) => FixOrders.AcceptInv(s.desk, c.limit, q);
    case TakeMailbox => FixOrders.TakeInv(s.desk);
    case DrainTurn(stamp) => DrainDesk(s, c.who, stamp);
    case Received(chunk, stamp) =>
      var p := Split(s.inbound + chunk);
      HandleAllDesk(s.(inbound := p.rest), c.who, p.frames, stamp);
    case _ =>
  }

  lemma {:induction false} RunDesk(s: State, c: Setup, es: seq<Event>)
    requires FixOrders.Inv(s.desk)
    ensures FixOrders.Inv(Run(s, c, es).desk)
    decreases |es|
  {
    if es != [] {
      StepDesk(s, c, es[0]);
      RunDesk(Step(s, c, es[0]), c, es[1..]);
    }
  }

  // ---- frames ---------------------------------------------------------

  lemma SendOut(s: State, who: Identity, kind: char, stamp: string, body: seq<Field>)
    requires OutSound(s) && s.out.up && CleanNames(who) && kind != SOH && kind != 'A'
    ensures OutSound(Send(s, who, kind, stamp, body)) && Send(s, who, kind, stamp, body).out.up
  {
    FixOutbox.SendInv(s.out, who, kind, stamp, body);
  }

  /** Sequence bookkeeping leaves the outbound side alone or sends one ResendRequest. */
  lemma TrackSends(s: State, who: Identity, frame: string, stamp: string) returns (n: nat)
    ensures var t := TrackSeq(s, who, frame, stamp);
            && t.connected == s.connected
            && (t.out == s.out || t.out == Send(s, who, '3', stamp, ResendBody(n)).out)
  {
    var text := Scan(frame, 34);
    n := if IsDigits(text) then Val(text) else 0;
  }

  lemma TrackOut(s: State, who: Identity, frame: string, stamp: string)
    requires OutSound(s) && s.out.up && CleanNames(who)
    ensures OutSound(TrackSeq(s, who, frame, stamp)) && TrackSeq(s, who, frame, stamp).out.up
  {
    var n := TrackSends(s, who, frame, stamp);
    SendOut(s, who, '3', stamp, ResendBody(n));
  }

  lemma ReactOut(t: State, who: Identity, frame: string, stamp: string)
    requires OutSound(t) && t.out.up && CleanNames(who)
    ensures OutSound(React(t, who, frame, stamp)) && React(t, who, frame, stamp).out.up
  {
    SendOut(t, who, '0', stamp, HeartbeatBody(Scan(frame, 112)));
  }

  lemma {:induction false} HandleAllOut(s: State, who: Identity, frames: seq<string>, stamp: string)
    requires OutSound(s) && s.out.up && CleanNames(who)
    ensures OutSound(HandleAll(s, who, frames, stamp))
    decreases |frames|
  {
    if frames != [] {
      TrackOut(s, who, frames[0], stamp);
      ReactOut(TrackSeq(s, who, frames[0], stamp), who, frames[0], stamp);
      HandleAllOut(Handle(s, who, frames[0], stamp), who, frames[1..], stamp);
    }
  }

  lemma DrainOut(s: State, who: Identity, stamp: string)
    requires OutSound(s) && CleanNames(who)
    ensures OutSound(Drain(s, who, stamp))
  {
    if s.Busy() && s.connected && s.desk.draining.value != [] {
      var job := s.desk.draining.value[0];
      SendOut(s.(desk := FixOrders.Register(s.desk)), who, 'D', stamp, OrderBody(who, job, stamp));
    }
  }

  lemma ReadOut(s: State, who: Identity, chunk: string, stamp: string)
    requires OutSound(s) && s.out.up && CleanNames(who)
    ensures OutSound(Read(s, who, chunk, stamp))
  {
    var p := Split(s.inbound + chunk);
    HandleAllOut(s.(inbound := p.rest), who, p.frames, stamp);
  }

  /** Steps that write frames. */
  lemma {:induction false} WriteOut(s: State, c: Setup, e: Event)
    requires OutSound(s) && CleanNames(c.who) && (e.DrainTurn? || e.Received? || e.HeartbeatDue?)
    ensures OutSound(Step(s, c, e))
  {
    match e
    case DrainTurn(stamp) => DrainOut(s, c.who, stamp);
    case Received(chunk, stamp) =>
      if s.out.up {
        ReadOut(s, c.who, chunk, stamp);
      }
    case HeartbeatDue(stamp) =>
      if s.connected {
        SendOut(s, c.who, '0', stamp, HeartbeatBody(""));
      }
  }

  /** Steps that open, end or advance a session without writing an answer, or do not touch it. */
  lemma {:induction false} OtherOut(s: State, c: Setup, e: Event)
    requires OutSound(s) && CleanNames(c.who) && !e.DrainTurn? && !e.Received? && !e.HeartbeatDue?
    ensures OutSound(Step(s, c, e))
  {
    match e
    case Begin(stamp) => BeginOut(s, c, stamp);
    case End => EndOut(s, c);
    case WriteDone(failed) => DoneOut(s, c, failed);
    case Execute(_) =>
    case TakeMailbox =>
  }

  lemma {:induction false} BeginOut(s: State, c: Setup, stamp: string)
    requires OutSound(s) && CleanNames(c.who)
    ensures OutSound(Step(s, c, Begin(stamp)))
  {
    var o := Opened(s.out, c.who, stamp);
    BecomesOut(s, Step(s, c, Begin(stamp)), o);
  }

  lemma {:induction false} BecomesOut(s: State, e: State, o: FixOutbox.Outbox)
    requires OutSound(s) && (e == s || (e.out == o && FixOutbox.Inv(o) && o.up))
    ensures OutSound(e)
  {
  }

  lemma {:induction false} Opened(o: FixOutbox.Outbox, who: Identity, stamp: string) returns (e: FixOutbox.Outbox)
    requires FixOutbox.Inv(o) && CleanNames(who)
    ensures e == FixOutbox.Open(o, who, stamp) && FixOutbox.Inv(e) && e.up
  {
    e := FixOutbox.Open(o, who, stamp);
    FixOutbox.OpenInv(o, who, stamp);
  }

  lemma {:induction false} EndOut(s: State, c: Setup)
    requires OutSound(s)
    ensures OutSound(Step(s, c, End))
  {
    FixOutbox.CloseInv(s.out);
  }

  lemma {:induction false} DoneOut(s: State, c: Setup, failed: bool)
    requires OutSound(s)
    ensures OutSound(Step(s, c, WriteDone(failed)))
  {
    if s.out.writing {
      FixOutbox.CompleteInv(s.out, failed);
    }
  }

  lemma {:induction false} StepOut(s: State, c: Setup, e: Event)
    requires OutSound(s) && CleanNames(c.who)
    ensures OutSound(Step(s, c, e))
  {
    if e.DrainTurn? || e.Received? || e.HeartbeatDue? {
      WriteOut(s, c, e);
    } else {
      OtherOut(s, c, e);
    }
  }

  lemma {:induction false} StepInv(s: State, c: Setup, e: Event)
    requires Inv(s) && CleanNames(c.who)
    ensures Inv(Step(s, c, e))
  {
    StepDesk(s, c, e);
    StepOut(s, c, e);
  }

  lemma {:induction false} RunInv(s: State, c: Setup, es: seq<Event>)
    requires Inv(s) && CleanNames(c.who)
    ensures Inv(Run(s, c, es))
    decreases |es|
  {
    if es != [] {
      StepInv(s, c, es[0]);
      RunInv(Step(s, c, es[0]), c, es[1..]);
    }
  }

  // ------------------------------------------------------------------
  // Main results
  // ------------------------------------------------------------------

  ghost predicate Reachable(s: State, c: Setup) {
    exists es: seq<Event> :: s == Run(START, c, es)
  }

  lemma ReachableInv(s: State, c: Setup)
    requires CleanNames(c.who) && Reachable(s, c)
    ensures Inv(s)
  {
    var es: seq<Event> :| s == Run(START, c, es);
    FixOrders.EmptyInv();
    FixOutbox.EmptyInv();
    RunInv(START, c, es);
  }

  lemma ReachableDesk(s: State, c: Setup)
    requires Reachable(s, c)
    ensures FixOrders.Inv(s.desk)
  {
    var es: seq<Event> :| s == Run(START, c, es);
    FixOrders.EmptyInv();
    RunDesk(START, c, es);
  }

  /** In every reachable state every accepted order is in exactly one of mailbox, table, reports. */
  lemma OrderPartition(s: State, c: Setup, i: nat)
    requires Reachable(s, c) && i < |s.desk.accepted|
    ensures var d, j := s.desk, s.desk.accepted[i];
            FixOrders.ExactlyOne(FixOrders.Waiting(d, j), FixOrders.Pending(d, j), FixOrders.Reported(d, j.id))
  {
    ReachableDesk(s, c);
    FixOrders.Partition(s.desk, i);
  }

  /** Each order is reported at most once, only after it was drained, and orders are drained first in first out. */
  lemma ReportedOnce(s: State, c: Setup)
    requires Reachable(s, c)
    ensures forall i, k :: 0 <= i < k < |s.desk.reports| ==> s.desk.reports[i].id != s.desk.reports[k].id
    ensures forall i :: 0 <= i < |s.desk.reports| ==> FixOrders.Among(s.desk.drained, s.desk.reports[i].id)
    ensures s.desk.accepted == s.desk.drained + FixOrders.Held(s.desk) + s.desk.mailbox
  {
    ReachableDesk(s, c);
  }

  /**
   * The frames ever handed to a write are those whose write ended and, while one is being written, the queue
   * front: one write at a time, each frame once over all streams, nothing lost in the queue. Every session
   * numbers its own frames 1, 2, 3, ...
   */
  lemma OutputDiscipline(s: State, c: Setup)
    requires CleanNames(c.who) && Reachable(s, c)
    ensures s.out.writing ==> s.out.queue != []
    ensures s.out.started == s.out.completed + (if s.out.writing then [s.out.queue[0]] else [])
    ensures s.out.enqueued == s.out.completed + s.out.queue && s.out.started <= s.out.enqueued
    ensures |s.out.wire| <= |s.out.started| && s.out.wire == s.out.started[|s.out.started| - |s.out.wire|..]
    ensures s.out.since <= |s.out.enqueued| && FixOutbox.Numbered(s.out.enqueued[s.out.since..])
    ensures s.out.up ==> s.out.since < |s.out.enqueued| && Scan(s.out.enqueued[s.out.since], 35) == "A"
  {
    ReachableInv(s, c);
    FixOutbox.StartedOnce(s.out);
  }

  /**
   * In every reachable state what the current peer has been sent is numbered 1, 2, 3, ... if and only if: once
   * the session's own Logon is among it, no earlier frame was left over; before that, the left-over frames
   * sent so far are none, or open with a Logon and hold no other.
   */
  lemma PeerNumbering(s: State, c: Setup)
    requires CleanNames(c.who) && Reachable(s, c)
    ensures FixOutbox.Numbered(s.out.wire) <==>
            if |s.out.wire| > |s.out.stale| then s.out.stale == []
            else s.out.wire == [] || FixOutbox.OneLogon(s.out.stale[..|s.out.wire|])
  {
    ReachableInv(s, c);
    FixOutbox.WireNumbering(s.out);
  }

  /**
   * The left-over case happens: the peer goes away while the Logon of session one is being written and
   * an order waits behind it. Session two then opens with that order, MsgSeqNum 2, before its Logon.
   */
  function LeftOverRun(q: FixOrders.Request, t: string): seq<Event> {
    [Begin(t), Execute(q), TakeMailbox, DrainTurn(t), DrainTurn(t), End, Begin(t), WriteDone(false)]
  }

  lemma LeftOverOrder(c: Setup, q: FixOrders.Request, t: string)
    requires CleanNames(c.who) && c.limit > 0 && q.Sound()
    ensures var o := Run(START, c, LeftOverRun(q, t)).out;
            |o.wire| == 1 && Scan(o.wire[0], 35) == "D" && Scan(o.wire[0], 34) == Dec(2)
  {
    var job := OrderJob(q.instrument, q.side, q.volume, q.stop, q.take, 1, FixOrders.ClOrdId(1), q.t0);
    ScanHeader(c.who, 'D', 2, t, OrderBody(c.who, job, t));
    LogonThenOrder(c, q, t, job);
    var s := Step(Step(Step(Step(Step(START, c, Begin(t)), c, Execute(q)), c, TakeMailbox), c, DrainTurn(t)),
                  c, DrainTurn(t));
    OpensWithLeftOver(s, c, t);
    RunEight(START, c, Begin(t), Execute(q), TakeMailbox, DrainTurn(t), DrainTurn(t), End, Begin(t), WriteDone(false));
  }

  lemma LogonThenOrder(c: Setup, q: FixOrders.Request, t: string, job: OrderJob)
    requires c.limit > 0 && q.Sound()
    requires job == OrderJob(q.instrument, q.side, q.volume, q.stop, q.take, 1, FixOrders.ClOrdId(1), q.t0)
    ensures var s := Step(Step(Step(Step(Step(START, c, Begin(t)), c, Execute(q)), c, TakeMailbox), c, DrainTurn(t)),
                          c, DrainTurn(t));
            && !s.Busy() && s.out.writing
            && s.out.queue == [Message(c.who, 'A', 1, t, LogonBody(c.who)),
                               Message(c.who, 'D', 2, t, OrderBody(c.who, job, t))]
  {
    var s1 := Step(START, c, Begin(t));
    assert s1.out.queue == [Message(c.who, 'A', 1, t, LogonBody(c.who))] && s1.out.writing;
    var s2 := Step(s1, c, Execute(q));
    assert s2.desk.mailbox == [job];
    var s3 := Step(s2, c, TakeMailbox);
    DrainOne(s3, c, t, job);
  }

  /** Draining one job behind a frame that is being written. */
  lemma DrainOne(s: State, c: Setup, t: string, job: OrderJob)
    requires s.desk.draining == Some([job]) && s.connected && s.out.writing
    ensures var e := Step(Step(s, c, DrainTurn(t)), c, DrainTurn(t));
            && !e.Busy() && e.out.writing
            && e.out.queue == s.out.queue + [Message(c.who, 'D', s.out.seqOut, t, OrderBody(c.who, job, t))]
  {
    var rest := s.desk.draining.value[1..];
    assert rest == [];
  }

  /** A disconnect with one frame being written and one waiting: the next session opens with the waiting one. */
  lemma OpensWithLeftOver(s: State, c: Setup, t: string)
    requires !s.Busy() && s.out.writing && |s.out.queue| == 2
    ensures Step(Step(Step(s, c, End), c, Begin(t)), c, WriteDone(false)).out.wire == [s.out.queue[1]]
  {
    var e := Step(Step(s, c, End), c, Begin(t));
    assert e.out.queue == s.out.queue + [Message(c.who, 'A', 1, t, LogonBody(c.who))];
    assert e.out.wire == [];
  }

  lemma RunCons(s: State, c: Setup, e: Event, es: seq<Event>)
    ensures Run(s, c, [e] + es) == Run(Step(s, c, e), c, es)
  {
    assert ([e] + es)[1..] == es;
  }

  lemma RunTwo(s: State, c: Setup, a: Event, b: Event, rest: seq<Event>)
    ensures Run(s, c, [a, b] + rest) == Run(Step(Step(s, c, a), c, b), c, rest)
  {
    assert [a, b] + rest == [a] + ([b] + rest);
    RunCons(s, c, a, [b] + rest);
    RunCons(Step(s, c, a), c, b, rest);
  }

  lemma RunFour(s: State, c: Setup, a: Event, b: Event, d: Event, e: Event, rest: seq<Event>)
    ensures Run(s, c, [a, b, d, e] + rest) == Run(Step(Step(Step(Step(s, c, a), c, b), c, d), c, e), c, rest)
  {
    assert [a, b, d, e] + rest == [a, b] + ([d, e] + rest);
    RunTwo(s, c, a, b, [d, e] + rest);
    RunTwo(Step(Step(s, c, a), c, b), c, d, e, rest);
  }

  lemma RunEight(s: State, c: Setup, a: Event, b: Event, d: Event, e: Event, f: Event, g: Event, h: Event, i: Event)
    ensures Run(s, c, [a, b, d, e, f, g, h, i]) ==
            Step(Step(Step(Step(Step(Step(Step(Step(s, c, a), c, b), c, d), c, e), c, f), c, g), c, h), c, i)
  {
    assert [a, b, d, e, f, g, h, i] == [a, b, d, e] + ([f, g, h, i] + []);
    RunFour(s, c, a, b, d, e, [f, g, h, i] + []);
    RunFour(Step(Step(Step(Step(s, c, a), c, b), c, d), c, e), c, f, g, h, i, []);
  }

  // ------------------------------------------------------------------
  // Reads arriving in pieces
  // ------------------------------------------------------------------

  lemma {:induction false} HandleAllConcat(s: State, who: Identity, fs: seq<string>, gs: seq<string>, stamp: string)
    ensures HandleAll(s, who, fs + gs, stamp) == HandleAll(HandleAll(s, who, fs, stamp), who, gs, stamp)
    decreases |fs|
  {
    if fs == [] {
      assert fs + gs == gs;
    } else {
      assert (fs + gs)[1..] == fs[1..] + gs;
      HandleAllConcat(Handle(s, who, fs[0], stamp), who, fs[1..], gs, stamp);
    }
  }

  /** Handlers neither look at nor touch the inbound buffer. */
  lemma {:induction false} HandleAllInbound(s: State, who: Identity, fs: seq<string>, stamp: string, rest: string)
    ensures HandleAll(s.(inbound := rest), who, fs, stamp) == HandleAll(s, who, fs, stamp).(inbound := rest)
    decreases |fs|
  {
    if fs != [] {
      HandleInbound(s, who, fs[0], stamp, rest);
      HandleAllInbound(Handle(s, who, fs[0], stamp), who, fs[1..], stamp, rest);
    }
  }

  lemma HandleInbound(s: State, who: Identity, f: string, stamp: string, rest: string)
    ensures Handle(s.(inbound := rest), who, f, stamp) == Handle(s, who, f, stamp).(inbound := rest)
  {
    var t, u := TrackSeq(s, who, f, stamp), TrackSeq(s.(inbound := rest), who, f, stamp);
    assert u == t.(inbound := rest);
  }

  /** Two reads leave the session exactly where one read of the joined bytes leaves it. */
  lemma ReadsJoin(s: State, who: Identity, a: string, b: string, stamp: string)
    ensures Read(Read(s, who, a, stamp), who, b, stamp) == Read(s, who, a + b, stamp)
  {
    var p := Split(s.inbound + a);
    var q := Split(p.rest + b);
    SplitJoin(s.inbound, a, b);
    ReadIs(s, who, a, stamp);
    ReadAfter(HandleAll(s, who, p.frames, stamp), who, p.rest, b, stamp);
    ReadIs(s, who, a + b, stamp);
    HandleAllConcat(s, who, p.frames, q.frames, stamp);
  }

  lemma SplitJoin(x: string, a: string, b: string)
    ensures Split(x + (a + b)) == Resume(Split(x + a), b)
  {
    assert x + (a + b) == x + a + b;
    SplitAppend(x + a, b);
  }

  lemma ReadAfter(s: State, who: Identity, rest: string, b: string, stamp: string)
    ensures Read(s.(inbound := rest), who, b, stamp)
            == HandleAll(s, who, Split(rest + b).frames, stamp).(inbound := Split(rest + b).rest)
  {
    ReadIs(s.(inbound := rest), who, b, stamp);
    HandleAllInbound(s, who, Split(rest + b).frames, stamp, rest);
  }

  lemma ReadIs(s: State, who: Identity, chunk: string, stamp: string)
    ensures Read(s, who, chunk, stamp)
            == HandleAll(s, who, Split(s.inbound + chunk).frames, stamp).(inbound := Split(s.inbound + chunk).rest)
  {
    HandleAllInbound(s, who, Split(s.inbound + chunk).frames, stamp, Split(s.inbound + chunk).rest);
  }

  /**
   * A numbered frame raises the inbound count to its own number and never lowers it; a gap, and only a gap,
   * queues one request, which asks for the messages from the received number on.
   */
  lemma GapAnswered(s: State, who: Identity, frame: string, stamp: string)
    requires CleanNames(who) && SOH !in stamp && s.seqIn > 0
    requires IsDigits(Scan(frame, 34)) && Val(Scan(frame, 34)) > 0
    ensures var t, n := TrackSeq(s, who, frame, stamp), Val(Scan(frame, 34));
            && t.seqIn == (if n > s.seqIn then n else s.seqIn)
            && t.desk == s.desk
            && (n <= s.seqIn + 1 ==> t.out == s.out)
            && (n > s.seqIn + 1 ==>
                  && |t.out.enqueued| == |s.out.enqueued| + 1
                  && var f := t.out.enqueued[|s.out.enqueued|];
                     Scan(f, 35) == "3" && Scan(f, 7) == Dec(n) && Scan(f, 34) == Dec(s.out.seqOut))
  {
    var n := Val(Scan(frame, 34));
    ScanHeader(who, '3', s.out.seqOut, stamp, ResendBody(n));
    BodyReadsBack(who, '3', s.out.seqOut, stamp, ResendBody(n), 0, 7);
  }

  // ------------------------------------------------------------------
  // What the venue is sent
  // ------------------------------------------------------------------

  /** The NewOrderSingle frames among `frames`. */
  function OrderFrames(frames: seq<string>): seq<string>
    decreases |frames|
  {
    if frames == [] then []
    else
      var f := frames[|frames| - 1];
      OrderFrames(frames[..|frames| - 1]) + (if Scan(f, 35) == "D" then [f] else [])
  }

  /** The message of `job`, under some number and at some time. */
  ghost predicate OrderFrame(who: Identity, frame: string, job: OrderJob) {
    exists n: nat, stamp: string ::
      SOH !in stamp && frame == Message(who, 'D', n, stamp, OrderBody(who, job, stamp))
  }

  /** The k-th frame is the message of the k-th job. */
  ghost predicate CarryOrders(who: Identity, frames: seq<string>, jobs: seq<OrderJob>) {
    |frames| == |jobs| && forall k :: 0 <= k < |frames| ==> OrderFrame(who, frames[k], jobs[k])
  }

  ghost predicate Logged(s: State, who: Identity) {
    CarryOrders(who, OrderFrames(s.out.enqueued), s.desk.drained)
  }

  predicate CleanStamp(e: Event) {
    match e
    case DrainTurn(stamp) => SOH !in stamp
    case _ => true
  }

  lemma OrderFramesSnoc(frames: seq<string>, f: string)
    ensures OrderFrames(frames + [f]) == OrderFrames(frames) + (if Scan(f, 35) == "D" then [f] else [])
  {
    assert (frames + [f])[..|frames|] == frames;
  }

  /** Only NewOrderSingle frames show in the log. */
  lemma SendLogged(s: State, who: Identity, kind: char, stamp: string, body: seq<Field>)
    requires Logged(s, who) && CleanNames(who) && kind != SOH && kind != 'D'
    ensures Logged(Send(s, who, kind, stamp, body), who)
  {
    ScanHeader(who, kind, s.out.seqOut, stamp, body);
    OrderFramesSnoc(s.out.enqueued, Message(who, kind, s.out.seqOut, stamp, body));
  }

  lemma TrackLogged(s: State, who: Identity, frame: string, stamp: string)
    requires Logged(s, who) && CleanNames(who)
    ensures Logged(TrackSeq(s, who, frame, stamp), who)
  {
    var text := Scan(frame, 34);
    if IsDigits(text) {
      SendLogged(s.(seqIn := Val(text)), who, '3', stamp, ResendBody(Val(text)));
    }
  }

  lemma ReactLogged(t: State, who: Identity, frame: string, stamp: string)
    requires Logged(t, who) && CleanNames(who)
    ensures Logged(React(t, who, frame, stamp), who)
  {
    SendLogged(t, who, '0', stamp, HeartbeatBody(Scan(frame, 112)));
  }

  lemma HandleLogged(s: State, who: Identity, frame: string, stamp: string)
    requires Logged(s, who) && CleanNames(who)
    ensures Logged(Handle(s, who, frame, stamp), who)
  {
    TrackLogged(s, who, frame, stamp);
    ReactLogged(TrackSeq(s, who, frame, stamp), who, frame, stamp);
  }

  lemma {:induction false} HandleAllLogged(s: State, who: Identity, frames: seq<string>, stamp: string)
    requires Logged(s, who) && CleanNames(who)
    ensures Logged(HandleAll(s, who, frames, stamp), who)
    decreases |frames|
  {
    if frames != [] {
      HandleLogged(s, who, frames[0], stamp);
      HandleAllLogged(Handle(s, who, frames[0], stamp), who, frames[1..], stamp);
    }
  }

  lemma DrainLogged(s: State, who: Identity, stamp: string)
    requires Logged(s, who) && CleanNames(who) && SOH !in stamp
    ensures Logged(Drain(s, who, stamp), who)
  {
    if s.Busy() && s.connected && s.desk.draining.value != [] {
      RegisterLogged(s, who, stamp, s.desk.draining.value[0]);
    }
  }

  lemma RegisterLogged(s: State, who: Identity, stamp: string, job: OrderJob)
    requires Logged(s, who) && CleanNames(who) && SOH !in stamp
    ensures CarryOrders(who, OrderFrames(FixOutbox.Write(s.out, who, 'D', stamp, OrderBody(who, job, stamp)).enqueued),
                        s.desk.drained + [job])
  {
    var body := OrderBody(who, job, stamp);
    var f := FixOutbox.WriteQueues(s.out, who, 'D', stamp, body);
    ScanHeader(who, 'D', s.out.seqOut, stamp, body);
    OrderFramesSnoc(s.out.enqueued, f);
    IsOrderFrame(who, s.out.seqOut, stamp, job);
    CarrySnoc(who, OrderFrames(s.out.enqueued), s.desk.drained, f, job);
  }

  lemma IsOrderFrame(who: Identity, n: nat, stamp: string, job: OrderJob)
    requires SOH !in stamp
    ensures OrderFrame(who, Message(who, 'D', n, stamp, OrderBody(who, job, stamp)), job)
  {
  }

  lemma CarrySnoc(who: Identity, frames: seq<string>, jobs: seq<OrderJob>, f: string, job: OrderJob)
    requires CarryOrders(who, frames, jobs) && OrderFrame(who, f, job)
    ensures CarryOrders(who, frames + [f], jobs + [job])
  {
  }

  lemma OpenLogged(s: State, who: Identity, stamp: string)
    requires Logged(s, who) && CleanNames(who)
    ensures CarryOrders(who, OrderFrames(FixOutbox.Open(s.out, who, stamp).enqueued), s.desk.drained)
  {
    ScanHeader(who, 'A', 1, stamp, LogonBody(who));
    var f := FixOutbox.WriteQueues(FixOutbox.Fresh(s.out), who, 'A', stamp, LogonBody(who));
    OrderFramesSnoc(s.out.enqueued, f);
  }

  lemma ReadLogged(s: State, who: Identity, chunk: string, stamp: string)
    requires Logged(s, who) && CleanNames(who)
    ensures Logged(Read(s, who, chunk, stamp), who)
  {
    var p := Split(s.inbound + chunk);
    HandleAllLogged(s.(inbound := p.rest), who, p.frames, stamp);
  }

  /** Steps that queue no frame and register no order. */
  lemma QuietStep(s: State, c: Setup, e: Event)
    requires e.Execute? || e.TakeMailbox? || e.End? || e.WriteDone?
    ensures Step(s, c, e).out.enqueued == s.out.enqueued && Step(s, c, e).desk.drained == s.desk.drained
  {
  }

  lemma {:induction false} LoudLogged(s: State, c: Setup, e: Event)
    requires Logged(s, c.who) && CleanNames(c.who) && CleanStamp(e)
    requires e.DrainTurn? || e.Begin? || e.Received? || e.HeartbeatDue?
    ensures Logged(Step(s, c, e), c.who)
  {
    match e
    case DrainTurn(stamp) => DrainLogged(s, c.who, stamp);
    case Begin(stamp) => OpenLogged(s, c.who, stamp);
    case Received(chunk, stamp) => ReadLogged(s, c.who, chunk, stamp);
    case HeartbeatDue(stamp) => SendLogged(s, c.who, '0', stamp, HeartbeatBody(""));
  }

  lemma {:induction false} StepLogged(s: State, c: Setup, e: Event)
    requires Logged(s, c.who) && CleanNames(c.who) && CleanStamp(e)
    ensures Logged(Step(s, c, e), c.who)
  {
    if e.DrainTurn? || e.Begin? || e.Received? || e.HeartbeatDue? {
      LoudLogged(s, c, e);
    } else {
      QuietStep(s, c, e);
    }
  }

  lemma {:induction false} RunLogged(s: State, c: Setup, es: seq<Event>)
    requires Logged(s, c.who) && CleanNames(c.who)
    requires forall i :: 0 <= i < |es| ==> CleanStamp(es[i])
    ensures Logged(Run(s, c, es), c.who)
    decreases |es|
  {
    if es != [] {
      StepLogged(s, c, es[0]);
      RunLogged(Step(s, c, es[0]), c, es[1..]);
    }
  }

  /**
   * Over any run the NewOrderSingle frames queued for the venue are the messages of the drained orders, one each
   * in the order drained, and each gives its order's ClOrdID back.
   */
  lemma {:induction false} OrdersSentOnce(c: Setup, es: seq<Event>)
    requires CleanNames(c.who) && forall i :: 0 <= i < |es| ==> CleanStamp(es[i])
    ensures var s := Run(START, c, es);
            var frames, jobs := OrderFrames(s.out.enqueued), s.desk.drained;
            && |frames| == |jobs| && jobs <= s.desk.accepted
            && forall k :: 0 <= k < |frames| ==>
                 OrderFrame(c.who, frames[k], jobs[k]) && Scan(frames[k], 11) == jobs[k].clOrdId
  {
    FixOrders.EmptyInv();
    RunLogged(START, c, es);
    RunDesk(START, c, es);
    var s := Run(START, c, es);
    forall k | 0 <= k < |s.desk.drained|
      ensures Scan(OrderFrames(s.out.enqueued)[k], 11) == s.desk.drained[k].clOrdId
    {
      assert s.desk.accepted[k] == s.desk.drained[k];
      OrderFrameReads(c.who, OrderFrames(s.out.enqueued)[k], s.desk.drained[k]);
    }
  }

  lemma OrderFrameReads(who: Identity, frame: string, job: OrderJob)
    requires OrderFrame(who, frame, job) && CleanNames(who) && job.clOrdId == FixOrders.ClOrdId(job.id)
    ensures Scan(frame, 11) == job.clOrdId
  {
    var n: nat, stamp: string :|
      SOH !in stamp && frame == Message(who, 'D', n, stamp, OrderBody(who, job, stamp));
    ScanClOrdId(who, n, stamp, job);
  }

  // ------------------------------------------------------------------
  // A message, from the venue's bytes to its handler
  // ------------------------------------------------------------------

  function ReadAll(s: State, who: Identity, chunks: seq<string>, stamp: string): State
    decreases |chunks|
  {
    if chunks == [] then s else ReadAll(Read(s, who, chunks[0], stamp), who, chunks[1..], stamp)
  }

  lemma {:induction false} ReadAllJoins(s: State, who: Identity, chunks: seq<string>, stamp: string)
    requires chunks != []
    ensures ReadAll(s, who, chunks, stamp) == Read(s, who, Concat(chunks), stamp)
    decreases |chunks|
  {
    if |chunks| == 1 {
      assert chunks[1..] == [];
      assert Concat(chunks) == chunks[0];
    } else {
      ReadAllJoins(Read(s, who, chunks[0], stamp), who, chunks[1..], stamp);
      ReadsJoin(s, who, chunks[0], Concat(chunks[1..]), stamp);
    }
  }

  lemma MessageAlone(d: Draft, m: string)
    requires d.Deliverable() && m == d.Bytes()
    ensures Split(m) == Parsed([m], "")
  {
    MessagesDelivered([d]);
    assert Frames([d]) == [m];
    assert Concat([m]) == m;
  }

  lemma KindOfReport(peer: Identity, n: nat, stamp: string, body: seq<Field>)
    requires Clean(HeaderFields(peer, '8', n, stamp)) && Clean(body)
    ensures Scan(Message(peer, '8', n, stamp, body), 35) == "8"
  {
    assert HeaderFields(peer, '8', n, stamp)[1].value == peer.sender;
    assert HeaderFields(peer, '8', n, stamp)[2].value == peer.target;
    ScanHeader(peer, '8', n, stamp, body);
  }

  lemma ReadOne(s: State, who: Identity, m: string, now: string)
    requires s.inbound == "" && Split(m) == Parsed([m], "")
    ensures Read(s, who, m, now) == Handle(s, who, m, now)
  {
    assert s.inbound + m == m;
    HandleSingle(s, who, m, now);
    assert s.(inbound := "") == s;
  }

  lemma HandleSingle(s: State, who: Identity, m: string, now: string)
    ensures HandleAll(s, who, [m], now) == Handle(s, who, m, now)
  {
  }
}
