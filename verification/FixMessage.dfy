/** FIX 4.4 messages: the tag=value printer, the message builders and the tag scanner. */
module FixMessage {
  import opened Bytes
  import opened Decimal
  import opened Wrappers

  const SOH: char := '\U{0001}'
  const FIX_VER: string := "FIX.4.4"

  // ------------------------------------------------------------------
  // Fields
  // ------------------------------------------------------------------

  datatype Field = Field(tag: nat, value: string)

  /** `fix_field`. */
  function PrintField(f: Field): string {
    FieldText(Dec(f.tag), f.value)
  }

  function FieldText(name: string, value: string): string {
    name + ['='] + value + [SOH]
  }

  function PrintFields(fs: seq<Field>): string {
    if fs == [] then "" else PrintField(fs[0]) + PrintFields(fs[1..])
  }

  lemma {:induction false} PrintFieldsConcat(fs: seq<Field>, gs: seq<Field>)
    ensures PrintFields(fs + gs) == PrintFields(fs) + PrintFields(gs)
  {
    if fs == [] {
      assert fs + gs == gs;
    } else {
      assert (fs + gs)[1..] == fs[1..] + gs;
      PrintFieldsConcat(fs[1..], gs);
    }
  }

  /** No value can end a field early. */
  predicate Clean(fs: seq<Field>) {
    forall i :: 0 <= i < |fs| ==> SOH !in fs[i].value
  }

  /** The value of the first field that carries `tag`. */
  function Lookup(fs: seq<Field>, tag: nat): Option<string> {
    if fs == [] then None else if fs[0].tag == tag then Some(fs[0].value) else Lookup(fs[1..], tag)
  }

  // ------------------------------------------------------------------
  // Tag scanner
  // ------------------------------------------------------------------

  /** One turn of the scanning loop: the answer, or the index of the next field. */
  datatype ScanTurn = Answer(value: string) | NextField(i: nat)

  function ScanField(f: string, i: nat, tag: nat): (r: ScanTurn)
    requires i < |f|
    ensures r.NextField? ==> i < r.i <= |f|
  {
    var eq := FindByte(f, '=', i);
    if eq < 0 then Answer("")
    else
      var soh := FindByte(f, SOH, eq);
      var name := f[i..eq];
      if IsDigits(name) && Val(name) == tag then
        Answer(if soh < 0 then f[eq + 1..] else f[eq + 1..soh])
      else if soh < 0 then Answer("")
      else NextField(soh + 1)
  }

  /** What `scan_tag` answers from byte `i` on. */
  function ScanFrom(f: string, i: nat, tag: nat): string
    requires i <= |f|
    decreases |f| - i
  {
    if i == |f| then ""
    else
      match ScanField(f, i, tag)
      case Answer(v) => v
      case NextField(j) => ScanFrom(f, j, tag)
  }

  function Scan(f: string, tag: nat): string {
    ScanFrom(f, 0, tag)
  }

  /** `scan_tag`: one pass over the SOH-delimited fields. */
  method ScanTag(f: string, tag: nat) returns (value: string)
    ensures value == Scan(f, tag)
  {
    var i := 0;
    while i < |f|
      invariant 0 <= i <= |f|
      invariant Scan(f, tag) == ScanFrom(f, i, tag)
    {
      match ScanField(f, i, tag)
      case Answer(v) => return v;
      case NextField(j) => i := j;
    }
    return "";
  }

  /** The delimiters the scanner meets on a printed field. */
  lemma FieldDelimiters(t: string, i: nat, name: string, value: string)
    requires SOH !in value && '=' !in name
    requires At(t, FieldText(name, value), i)
    ensures var eq, soh := i + |name|, i + |FieldText(name, value)| - 1;
            && FindByte(t, '=', i) == eq
            && FindByte(t, SOH, eq) == soh
            && t[i..eq] == name
            && t[eq + 1..soh] == value
  {
    var p := FieldText(name, value);
    var e, h := |name|, |p| - 1;
    assert forall k :: i <= k < i + |p| ==> t[k] == p[k - i];
    assert forall k :: i <= k < i + e ==> t[k] == name[k - i];
    assert forall k :: i + e < k < i + h ==> t[k] == value[k - i - e - 1];
    assert t[i + e] == p[e] == '=' && t[i + h] == p[h] == SOH;
  }

  lemma ScanFieldAt(f: string, i: nat, tag: nat, eq: nat, soh: nat, name: string, value: string)
    requires i < |f| && FindByte(f, '=', i) == eq && FindByte(f, SOH, eq) == soh
    requires name == f[i..eq] && value == f[eq + 1..soh] && IsDigits(name)
    ensures ScanField(f, i, tag) == if Val(name) == tag then Answer(value) else NextField(soh + 1)
  {
  }

  /** Scanning one printed field: either it is the wanted one, or the scan resumes right after it. */
  lemma FieldTurn(t: string, i: nat, name: string, value: string, tag: nat)
    requires IsDigits(name) && SOH !in value
    requires At(t, FieldText(name, value), i)
    ensures ScanField(t, i, tag) ==
            if Val(name) == tag then Answer(value) else NextField(i + |FieldText(name, value)|)
  {
    FieldDelimiters(t, i, name, value);
    ScanFieldAt(t, i, tag, i + |name|, i + |FieldText(name, value)| - 1, name, value);
  }

  lemma ScanHit(t: string, i: nat, f: Field)
    requires SOH !in f.value && At(t, PrintField(f), i)
    ensures ScanFrom(t, i, f.tag) == f.value
  {
    ValDec(f.tag);
    FieldTurn(t, i, Dec(f.tag), f.value, f.tag);
  }

  lemma ScanMiss(t: string, i: nat, f: Field, tag: nat, j: nat)
    requires SOH !in f.value && At(t, PrintField(f), i) && f.tag != tag && j == i + |PrintField(f)|
    ensures ScanFrom(t, i, tag) == ScanFrom(t, j, tag)
  {
    ValDec(f.tag);
    FieldTurn(t, i, Dec(f.tag), f.value, tag);
    ScanResumes(t, i, tag, j);
  }

  lemma ScanResumes(t: string, i: nat, tag: nat, j: nat)
    requires i < |t| && ScanField(t, i, tag) == NextField(j)
    ensures ScanFrom(t, i, tag) == ScanFrom(t, j, tag)
  {
  }

  /** The first of several printed fields, and where the others start. */
  lemma FirstPrinted(t: string, i: nat, f: Field, rest: string, text: string) returns (j: nat)
    requires text == PrintField(f) + rest && At(t, text, i)
    ensures At(t, PrintField(f), i) && At(t, rest, j)
    ensures j == i + |PrintField(f)| && j + |rest| == i + |text|
  {
    AtConcat(t, PrintField(f), rest, i);
    j := i + |PrintField(f)|;
  }

  lemma LookupFirst(fs: seq<Field>, tag: nat, other: string)
    requires fs != []
    ensures Lookup(fs, tag).GetOr(other) == if fs[0].tag == tag then fs[0].value else Lookup(fs[1..], tag).GetOr(other)
  {
  }

  /** Scanning a printed field list finds its first field with that tag, or goes on after the list. */
  lemma {:induction false} ScanFields(t: string, i: nat, fs: seq<Field>, tag: nat, end: nat)
    requires Clean(fs) && At(t, PrintFields(fs), i) && end == i + |PrintFields(fs)|
    ensures ScanFrom(t, i, tag) == Lookup(fs, tag).GetOr(ScanFrom(t, end, tag))
    decreases |fs|
  {
    if fs != [] {
      var j := FirstPrinted(t, i, fs[0], PrintFields(fs[1..]), PrintFields(fs));
      LookupFirst(fs, tag, ScanFrom(t, end, tag));
      if fs[0].tag == tag {
        ScanHit(t, i, fs[0]);
      } else {
        ScanMiss(t, i, fs[0], tag, j);
        ScanFields(t, j, fs[1..], tag, end);
      }
    }
  }

  /** The scanner inverts the printer on every list of SOH-free values. */
  lemma ScanInvertsPrint(fs: seq<Field>, tag: nat)
    requires Clean(fs)
    ensures Scan(PrintFields(fs), tag) == Lookup(fs, tag).GetOr("")
  {
    ScanFields(PrintFields(fs), 0, fs, tag, |PrintFields(fs)|);
  }

  /** SOH-freeness is exactly what the round trip of a field needs. */
  lemma FieldRoundTrip(f: Field, rest: string)
    ensures Scan(PrintField(f) + rest, f.tag) == f.value <==> SOH !in f.value
  {
    var t := PrintField(f) + rest;
    var cut := FindByte(f.value, SOH, 0);
    if cut < 0 {
      AtConcat(t, PrintField(f), rest, 0);
      ScanHit(t, 0, f);
    } else {
      // the scanner stops at the first SOH inside the value
      var g := Field(f.tag, f.value[..cut]);
      AtConcat(t, PrintField(f), rest, 0);
      AtConcat(t, PrintField(g), f.value[cut + 1..] + [SOH], 0);
      ScanHit(t, 0, g);
      assert |g.value| < |f.value|;
    }
  }

  // ------------------------------------------------------------------
  // Message builders
  // ------------------------------------------------------------------

  /** The configuration the builders read. */
  datatype Identity = Identity(sender: string, target: string, account: string,
                               password: string, heartbeat: int)

  /** A double together with the text snprintf gives it. */
  datatype Amount = Amount(value: real, text: string)

  datatype OrderJob = OrderJob(instrument: string, side: string, volume: Amount,
                               stop: Amount, take: Amount, id: nat, clOrdId: string, t0: int)

  function HeaderFields(who: Identity, kind: char, n: nat, stamp: string): seq<Field> {
    [Field(35, [kind]), Field(49, who.sender), Field(56, who.target),
     Field(34, Dec(n)), Field(52, stamp)]
  }

  function LogonBody(who: Identity): seq<Field> {
    [Field(98, "0"), Field(108, Dec(if who.heartbeat > 0 then who.heartbeat else 30)),
     Field(141, "Y"), Field(553, who.account), Field(554, who.password)]
  }

  function HeartbeatBody(testReqId: string): seq<Field> {
    if testReqId == "" then [] else [Field(112, testReqId)]
  }

  function OrderBody(who: Identity, job: OrderJob, stamp: string): seq<Field> {
    [Field(11, job.clOrdId), Field(1, who.account), Field(55, job.instrument),
     Field(54, if job.side == "buy" then "1" else "2"), Field(38, job.volume.text),
     Field(40, "1"), Field(59, "3"), Field(60, stamp)]
    + (if job.stop.value > 0.0 then [Field(99, job.stop.text)] else [])
    + (if job.take.value > 0.0 then [Field(100, job.take.text)] else [])
  }

  function ResendBody(begin: nat): seq<Field> {
    [Field(7, Dec(begin)), Field(8, "0")]
  }

  /** Sum of the byte values. */
  function ByteSum(s: string): nat {
    if s == "" then 0 else ByteSum(s[..|s| - 1]) + s[|s| - 1] as int
  }

  /** Everything up to and excluding the CheckSum field. */
  function Unsealed(header: string, body: string): string {
    FieldText("8", FIX_VER) + FieldText("9", LengthText(header, body)) + header + body
  }

  /** A finished message around already printed fields. */
  function Sealed(header: string, body: string): string {
    Unsealed(header, body) + FieldText("10", CheckText(header, body))
  }

  function Message(who: Identity, kind: char, n: nat, stamp: string, body: seq<Field>): string {
    Sealed(PrintFields(HeaderFields(who, kind, n, stamp)), PrintFields(body))
  }

  /** Wrapping at 32 bits does not show in the last eight. */
  lemma WrapsUnseen(sum: nat, total: nat, c: nat)
    requires sum % 256 == total % 256 && sum < 0x1_0000_0000 && c < 0x1_0000_0000
    ensures (sum + c) % 0x1_0000_0000 % 256 == (total + c) % 256
  {
    SameRest(sum, total, c);
    if sum + c >= 0x1_0000_0000 {
      SameRest(sum + c - 0x1_0000_0000, sum + c, 0);
    }
  }

  lemma SameRest(a: nat, b: nat, c: nat)
    requires a % 256 == b % 256
    ensures (a + c) % 256 == (b + c) % 256
  {
    var d := b / 256 - a / 256;
    assert b + c == a + c + 256 * d;
  }

  /** The checksum loop of `build_msg`, with its 32-bit unsigned accumulator. */
  method CheckSum(msg: string) returns (ck: string)
    ensures ck == Padded(ByteSum(msg) % 256, 3)
  {
    var sum := 0;
    for i := 0 to |msg|
      invariant 0 <= sum < 0x1_0000_0000
      invariant sum % 256 == ByteSum(msg[..i]) % 256
    {
      assert msg[..i + 1][..i] == msg[..i];
      WrapsUnseen(sum, ByteSum(msg[..i]), msg[i] as int);
      sum := (sum + msg[i] as int) % 0x1_0000_0000;
    }
    assert msg[..|msg|] == msg;
    ck := Padded(sum % 256, 3);
  }

  /** The field list a message consists of. */
  function Envelope(length: string, header: seq<Field>, body: seq<Field>, ck: string): seq<Field> {
    [Field(8, FIX_VER), Field(9, length)] + header + body + [Field(10, ck)]
  }

  function LengthText(h: string, b: string): (s: string)
    ensures IsDigits(s)
  {
    Dec(|h| + |b|)
  }

  function CheckText(h: string, b: string): string {
    Padded(ByteSum(Unsealed(h, b)) % 256, 3)
  }

  function SealedFields(header: seq<Field>, body: seq<Field>): seq<Field> {
    var h, b := PrintFields(header), PrintFields(body);
    Envelope(LengthText(h, b), header, body, CheckText(h, b))
  }

  function MessageFields(who: Identity, kind: char, n: nat, stamp: string, body: seq<Field>): seq<Field> {
    SealedFields(HeaderFields(who, kind, n, stamp), body)
  }

  lemma PrintSingle(f: Field)
    ensures PrintFields([f]) == PrintField(f)
  {
    assert PrintFields([f]) == PrintField(f) + PrintFields([]);
  }

  /** A message is nothing but its fields, BodyLength second and CheckSum last. */
  lemma MessageIsFields(who: Identity, kind: char, n: nat, stamp: string, body: seq<Field>)
    ensures Message(who, kind, n, stamp, body) == PrintFields(MessageFields(who, kind, n, stamp, body))
  {
    var header := HeaderFields(who, kind, n, stamp);
    var h, b := PrintFields(header), PrintFields(body);
    PrintEnvelope(LengthText(h, b), header, body, CheckText(h, b));
  }

  lemma PrintEnvelope(length: string, header: seq<Field>, body: seq<Field>, ck: string)
    ensures PrintFields(Envelope(length, header, body, ck)) ==
            PrintField(Field(8, FIX_VER)) + PrintField(Field(9, length))
            + PrintFields(header) + PrintFields(body) + PrintField(Field(10, ck))
  {
    var front, back := [Field(8, FIX_VER), Field(9, length)], [Field(10, ck)];
    PrintPair(Field(8, FIX_VER), Field(9, length));
    PrintSingle(Field(10, ck));
    PrintFieldsConcat(front + header + body, back);
    PrintFieldsConcat(front + header, body);
    PrintFieldsConcat(front, header);
  }

  lemma PrintPair(f: Field, g: Field)
    ensures PrintFields([f, g]) == PrintField(f) + PrintField(g)
  {
    PrintSingle(g);
    assert [f, g][1..] == [g];
  }

  /** Every field of a message built from SOH-free values can be scanned back. */
  lemma ScanMessage(who: Identity, kind: char, n: nat, stamp: string, body: seq<Field>, tag: nat)
    requires Clean(HeaderFields(who, kind, n, stamp)) && Clean(body)
    ensures Scan(Message(who, kind, n, stamp, body), tag)
            == Lookup(MessageFields(who, kind, n, stamp, body), tag).GetOr("")
  {
    MessageIsFields(who, kind, n, stamp, body);
    ScanInvertsPrint(MessageFields(who, kind, n, stamp, body), tag);
  }

  /** MsgType and MsgSeqNum come back whatever bytes the time stamp and the body hold. */
  lemma {:induction false} ScanHeader(who: Identity, kind: char, n: nat, stamp: string, body: seq<Field>)
    requires SOH !in who.sender && SOH !in who.target && kind != SOH
    ensures Scan(Message(who, kind, n, stamp, body), 34) == Dec(n)
    ensures Scan(Message(who, kind, n, stamp, body), 35) == [kind]
  {
    FrontOfMessage(who, kind, n, stamp, body);
    ScanMessageFront(who, kind, n, stamp, body, 34);
    ScanMessageFront(who, kind, n, stamp, body, 35);
  }

  /** The comp ids come back: the sender is the session's own name, the target the venue's ... */
  lemma {:induction false} ScanNames(who: Identity, kind: char, n: nat, stamp: string, body: seq<Field>)
    requires SOH !in who.sender && SOH !in who.target && kind != SOH
    ensures Scan(Message(who, kind, n, stamp, body), 49) == who.sender
    ensures Scan(Message(who, kind, n, stamp, body), 56) == who.target
  {
    FrontOfMessage(who, kind, n, stamp, body);
    ScanMessageFront(who, kind, n, stamp, body, 49);
    ScanMessageFront(who, kind, n, stamp, body, 56);
  }

  /** ... and so does the sending time. */
  lemma {:induction false} ScanSendingTime(who: Identity, kind: char, n: nat, stamp: string, body: seq<Field>)
    requires SOH !in who.sender && SOH !in who.target && kind != SOH && SOH !in stamp
    ensures Scan(Message(who, kind, n, stamp, body), 52) == stamp
  {
    FrontOfMessage(who, kind, n, stamp, body);
    var fs := MessageFields(who, kind, n, stamp, body);
    assert fs[6] == Field(52, stamp) && fs[..7] == fs[..6] + [fs[6]];
    LookupSkip(fs[..7], 6, 52);
    MessageIsFields(who, kind, n, stamp, body);
    ScanFront(fs, 7, 52);
  }

  lemma ScanMessageFront(who: Identity, kind: char, n: nat, stamp: string, body: seq<Field>, tag: nat)
    requires Clean(MessageFields(who, kind, n, stamp, body)[..6])
    requires Lookup(MessageFields(who, kind, n, stamp, body)[..6], tag).Some?
    ensures Scan(Message(who, kind, n, stamp, body), tag)
            == Lookup(MessageFields(who, kind, n, stamp, body)[..6], tag).value
  {
    MessageIsFields(who, kind, n, stamp, body);
    ScanFront(MessageFields(who, kind, n, stamp, body), 6, tag);
  }

  lemma ScanFront(fs: seq<Field>, k: nat, tag: nat)
    requires k <= |fs| && Clean(fs[..k]) && Lookup(fs[..k], tag).Some?
    ensures Scan(PrintFields(fs), tag) == Lookup(fs[..k], tag).value
  {
    var m := PrintFields(fs);
    assert fs == fs[..k] + fs[k..];
    PrintFieldsConcat(fs[..k], fs[k..]);
    AtConcat(m, PrintFields(fs[..k]), PrintFields(fs[k..]), 0);
    ScanFields(m, 0, fs[..k], tag, |PrintFields(fs[..k])|);
  }

  lemma FrontOfMessage(who: Identity, kind: char, n: nat, stamp: string, body: seq<Field>)
    requires SOH !in who.sender && SOH !in who.target && kind != SOH
    ensures var front := MessageFields(who, kind, n, stamp, body)[..6];
            && Clean(front) && Lookup(front, 34) == Some(Dec(n)) && Lookup(front, 35) == Some([kind])
            && Lookup(front, 49) == Some(who.sender) && Lookup(front, 56) == Some(who.target)
            && forall k :: 0 <= k < 6 ==> front[k].tag != 52
  {
    FrontOfSealed(HeaderFields(who, kind, n, stamp), body);
  }

  lemma FrontOfSealed(header: seq<Field>, body: seq<Field>)
    requires |header| >= 4 && Clean(header[..4])
    requires header[0].tag == 35 && header[1].tag == 49 && header[2].tag == 56 && header[3].tag == 34
    ensures var front := SealedFields(header, body)[..6];
            && Clean(front)
            && Lookup(front, 34) == Some(header[3].value) && Lookup(front, 35) == Some(header[0].value)
            && Lookup(front, 49) == Some(header[1].value) && Lookup(front, 56) == Some(header[2].value)
            && forall k :: 0 <= k < 6 ==> front[k].tag != 52
  {
    var h, b := PrintFields(header), PrintFields(body);
    FrontOfEnvelope(LengthText(h, b), header, body, CheckText(h, b));
  }

  lemma FrontOfEnvelope(length: string, header: seq<Field>, body: seq<Field>, ck: string)
    requires SOH !in length && |header| >= 4 && Clean(header[..4])
    requires header[0].tag == 35 && header[1].tag == 49 && header[2].tag == 56 && header[3].tag == 34
    ensures var front := Envelope(length, header, body, ck)[..6];
            && Clean(front)
            && Lookup(front, 34) == Some(header[3].value) && Lookup(front, 35) == Some(header[0].value)
            && Lookup(front, 49) == Some(header[1].value) && Lookup(front, 56) == Some(header[2].value)
            && forall k :: 0 <= k < 6 ==> front[k].tag != 52
  {
    var front := [Field(8, FIX_VER), Field(9, length)] + header[..4];
    assert Envelope(length, header, body, ck)[..6] == front;
    LookupSkip(front, 2, 35);
    LookupSkip(front, 3, 49);
    LookupSkip(front, 4, 56);
    LookupSkip(front, 5, 34);
  }

  lemma {:induction false} LookupSkip(fs: seq<Field>, i: nat, tag: nat)
    requires i < |fs| && fs[i].tag == tag && forall k :: 0 <= k < i ==> fs[k].tag != tag
    ensures Lookup(fs, tag) == Some(fs[i].value)
  {
    if i > 0 {
      LookupSkip(fs[1..], i - 1, tag);
    }
  }

  /** The first body field with its tag comes back whatever follows it. */
  lemma ScanBody(header: seq<Field>, body: seq<Field>, i: nat, tag: nat)
    requires Clean(header) && i < |body| && Clean(body[..i + 1]) && body[i].tag == tag
    requires tag != 8 && tag != 9 && forall k :: 0 <= k < |header| ==> header[k].tag != tag
    requires forall k :: 0 <= k < i ==> body[k].tag != tag
    ensures Scan(PrintFields(SealedFields(header, body)), tag) == body[i].value
  {
    var h, b := PrintFields(header), PrintFields(body);
    EnvelopeFront(LengthText(h, b), header, body, CheckText(h, b), i);
    FrontHolds(LengthText(h, b), header, body, i, tag);
    ScanFront(SealedFields(header, body), |header| + 3 + i, tag);
  }

  lemma FrontHolds(length: string, header: seq<Field>, body: seq<Field>, i: nat, tag: nat)
    requires SOH !in length && Clean(header) && i < |body| && Clean(body[..i + 1]) && body[i].tag == tag
    requires tag != 8 && tag != 9 && forall k :: 0 <= k < |header| ==> header[k].tag != tag
    requires forall k :: 0 <= k < i ==> body[k].tag != tag
    ensures var front := [Field(8, FIX_VER), Field(9, length)] + header + body[..i + 1];
            Clean(front) && Lookup(front, tag) == Some(body[i].value)
  {
    LookupSkip([Field(8, FIX_VER), Field(9, length)] + header + body[..i + 1], |header| + 2 + i, tag);
  }

  lemma EnvelopeFront(length: string, header: seq<Field>, body: seq<Field>, ck: string, i: nat)
    requires i < |body|
    ensures |Envelope(length, header, body, ck)| >= |header| + 3 + i
    ensures Envelope(length, header, body, ck)[..|header| + 3 + i]
            == [Field(8, FIX_VER), Field(9, length)] + header + body[..i + 1]
  {
  }

  /** A tag that is nowhere in the message is answered with the empty text. */
  lemma ScanAbsent(header: seq<Field>, body: seq<Field>, tag: nat)
    requires Clean(header) && Clean(body) && tag != 8 && tag != 9 && tag != 10
    requires forall k :: 0 <= k < |header| ==> header[k].tag != tag
    requires forall k :: 0 <= k < |body| ==> body[k].tag != tag
    ensures Scan(PrintFields(SealedFields(header, body)), tag) == ""
  {
    var h, b := PrintFields(header), PrintFields(body);
    var fs := SealedFields(header, body);
    assert forall k :: 0 <= k < |fs| - 1 ==>
        fs[k] == ([Field(8, FIX_VER), Field(9, LengthText(h, b))] + header + body)[k];
    LookupAbsent(fs, tag);
    ScanInvertsPrint(fs, tag);
  }

  lemma {:induction false} LookupAbsent(fs: seq<Field>, tag: nat)
    requires forall k :: 0 <= k < |fs| ==> fs[k].tag != tag
    ensures Lookup(fs, tag) == None
  {
    if fs != [] {
      LookupAbsent(fs[1..], tag);
    }
  }

  /** Texts that cannot end a field early. */
  predicate CleanOrder(who: Identity, job: OrderJob, stamp: string) {
    && SOH !in who.sender && SOH !in who.target && SOH !in who.account && SOH !in stamp && SOH !in job.clOrdId
    && SOH !in job.instrument && SOH !in job.volume.text && SOH !in job.stop.text && SOH !in job.take.text
  }

  /** A tag the envelope does not use itself. */
  predicate BodyTag(tag: nat) {
    tag !in {8, 9, 10, 34, 35, 49, 52, 56}
  }

  lemma BodyReadsBack(who: Identity, kind: char, n: nat, stamp: string, body: seq<Field>, i: nat, tag: nat)
    requires SOH !in who.sender && SOH !in who.target && SOH !in stamp && kind != SOH && BodyTag(tag)
    requires i < |body| && Clean(body[..i + 1]) && body[i].tag == tag && forall k :: 0 <= k < i ==> body[k].tag != tag
    ensures Scan(Message(who, kind, n, stamp, body), tag) == body[i].value
  {
    MessageIsFields(who, kind, n, stamp, body);
    ScanBody(HeaderFields(who, kind, n, stamp), body, i, tag);
  }

  lemma AbsentReadsEmpty(who: Identity, kind: char, n: nat, stamp: string, body: seq<Field>, tag: nat)
    requires SOH !in who.sender && SOH !in who.target && SOH !in stamp && kind != SOH && BodyTag(tag)
    requires Clean(body) && forall k :: 0 <= k < |body| ==> body[k].tag != tag
    ensures Scan(Message(who, kind, n, stamp, body), tag) == ""
  {
    MessageIsFields(who, kind, n, stamp, body);
    ScanAbsent(HeaderFields(who, kind, n, stamp), body, tag);
  }

  /** A NewOrderSingle carries its ClOrdID readably, whatever instrument text it was given. */
  lemma {:induction false} ScanClOrdId(who: Identity, n: nat, stamp: string, job: OrderJob)
    requires SOH !in who.sender && SOH !in who.target && SOH !in stamp && SOH !in job.clOrdId
    ensures Scan(Message(who, 'D', n, stamp, OrderBody(who, job, stamp)), 11) == job.clOrdId
  {
    var body := OrderBody(who, job, stamp);
    assert body[0] == Field(11, job.clOrdId);
    BodyReadsBack(who, 'D', n, stamp, body, 0, 11);
  }

  lemma OrderFieldReadsBack(who: Identity, n: nat, stamp: string, job: OrderJob, i: nat)
    requires CleanOrder(who, job, stamp) && i < 8
    ensures var body := OrderBody(who, job, stamp);
            Scan(Message(who, 'D', n, stamp, body), body[i].tag) == body[i].value
  {
    var body := OrderBody(who, job, stamp);
    assert forall k :: 0 <= k < 8 ==> SOH !in body[k].value;
    assert forall k :: 0 <= k < i ==> body[k].tag != body[i].tag;
    BodyReadsBack(who, 'D', n, stamp, body, i, body[i].tag);
  }

  /** Identifier, account, instrument, side, quantity, order type, time in force and time of an order come back. */
  lemma OrderReadsBack(who: Identity, n: nat, stamp: string, job: OrderJob)
    requires CleanOrder(who, job, stamp)
    ensures var m := Message(who, 'D', n, stamp, OrderBody(who, job, stamp));
            && Scan(m, 11) == job.clOrdId && Scan(m, 1) == who.account && Scan(m, 55) == job.instrument
            && Scan(m, 54) == (if job.side == "buy" then "1" else "2")
            && Scan(m, 38) == job.volume.text
            && Scan(m, 40) == "1" && Scan(m, 59) == "3" && Scan(m, 60) == stamp
  {
    OrderFieldReadsBack(who, n, stamp, job, 0);
    OrderFieldReadsBack(who, n, stamp, job, 1);
    OrderFieldReadsBack(who, n, stamp, job, 2);
    OrderFieldReadsBack(who, n, stamp, job, 3);
    OrderFieldReadsBack(who, n, stamp, job, 4);
    OrderFieldReadsBack(who, n, stamp, job, 5);
    OrderFieldReadsBack(who, n, stamp, job, 6);
    OrderFieldReadsBack(who, n, stamp, job, 7);
  }

  /** The stop level is in the message exactly when it is positive ... */
  lemma StopReadsBack(who: Identity, n: nat, stamp: string, job: OrderJob)
    requires CleanOrder(who, job, stamp) && job.stop.text != ""
    ensures Scan(Message(who, 'D', n, stamp, OrderBody(who, job, stamp)), 99)
            == if job.stop.value > 0.0 then job.stop.text else ""
  {
    var body := OrderBody(who, job, stamp);
    if job.stop.value > 0.0 {
      BodyReadsBack(who, 'D', n, stamp, body, 8, 99);
    } else {
      AbsentReadsEmpty(who, 'D', n, stamp, body, 99);
    }
  }

  /** ... and so is the take-profit level. */
  lemma TakeReadsBack(who: Identity, n: nat, stamp: string, job: OrderJob)
    requires CleanOrder(who, job, stamp) && job.take.text != ""
    ensures Scan(Message(who, 'D', n, stamp, OrderBody(who, job, stamp)), 100)
            == if job.take.value > 0.0 then job.take.text else ""
  {
    var body := OrderBody(who, job, stamp);
    if job.take.value > 0.0 {
      BodyReadsBack(who, 'D', n, stamp, body, |body| - 1, 100);
    } else {
      AbsentReadsEmpty(who, 'D', n, stamp, body, 100);
    }
  }

  /** A heartbeat echoes the test request it answers, and says nothing otherwise. */
  lemma HeartbeatReadsBack(who: Identity, n: nat, stamp: string, testReqId: string)
    requires SOH !in who.sender && SOH !in who.target && SOH !in stamp && SOH !in testReqId
    ensures Scan(Message(who, '0', n, stamp, HeartbeatBody(testReqId)), 112) == testReqId
  {
    var body := HeartbeatBody(testReqId);
    if testReqId == "" {
      AbsentReadsEmpty(who, '0', n, stamp, body, 112);
    } else {
      BodyReadsBack(who, '0', n, stamp, body, 0, 112);
    }
  }

  lemma LogonFieldReadsBack(who: Identity, n: nat, stamp: string, i: nat)
    requires SOH !in who.sender && SOH !in who.target && SOH !in stamp
    requires SOH !in who.account && SOH !in who.password && i < 5
    ensures Scan(Message(who, 'A', n, stamp, LogonBody(who)), LogonBody(who)[i].tag) == LogonBody(who)[i].value
  {
    var body := LogonBody(who);
    assert forall k :: 0 <= k < 5 ==> SOH !in body[k].value;
    assert forall k :: 0 <= k < i ==> body[k].tag != body[i].tag;
    BodyReadsBack(who, 'A', n, stamp, body, i, body[i].tag);
  }

  /** The Logon's heartbeat interval is the configured one or 30 s, and the credentials come back. */
  lemma LogonReadsBack(who: Identity, n: nat, stamp: string)
    requires SOH !in who.sender && SOH !in who.target && SOH !in stamp
    requires SOH !in who.account && SOH !in who.password
    ensures var m := Message(who, 'A', n, stamp, LogonBody(who));
            && Scan(m, 98) == "0" && Scan(m, 108) == Dec(if who.heartbeat > 0 then who.heartbeat else 30)
            && Scan(m, 141) == "Y"
            && Scan(m, 553) == who.account && Scan(m, 554) == who.password
  {
    LogonFieldReadsBack(who, n, stamp, 0);
    LogonFieldReadsBack(who, n, stamp, 1);
    LogonFieldReadsBack(who, n, stamp, 2);
    LogonFieldReadsBack(who, n, stamp, 3);
    LogonFieldReadsBack(who, n, stamp, 4);
  }
}
