/**
 * The messages a session sends, byte by byte: header, bodies, length and checksum in plain texts. And the tag scanner
 * on any bytes, malformed ones included.
 */
module FixBytes {
  import opened Bytes
  import opened Decimal
  import opened FixMessage

  /** A tag and a value as texts, as they stand on the wire. */
  datatype Pair = Pair(tag: string, value: string)

  function Wire(p: Pair): string {
    p.tag + "=" + p.value + [SOH]
  }

  function WireAll(ps: seq<Pair>): string {
    if ps == [] then "" else Wire(ps[0]) + WireAll(ps[1..])
  }

  lemma TwoDigits(tag: nat)
    requires 10 <= tag < 100
    ensures Dec(tag) == [Digit(tag / 10), Digit(tag % 10)]
  {
  }

  lemma ThreeDigits(tag: nat)
    requires 100 <= tag < 1000
    ensures Dec(tag) == [Digit(tag / 100), Digit(tag / 10 % 10), Digit(tag % 10)]
  {
    TwoDigits(tag / 10);
  }

  /** The tag texts the session uses. */
  lemma TagTexts()
    ensures Dec(1) == "1" && Dec(7) == "7" && Dec(8) == "8" && Dec(9) == "9" && Dec(10) == "10" && Dec(11) == "11"
    ensures Dec(34) == "34" && Dec(35) == "35" && Dec(38) == "38" && Dec(40) == "40" && Dec(49) == "49"
    ensures Dec(52) == "52" && Dec(54) == "54" && Dec(55) == "55" && Dec(56) == "56" && Dec(59) == "59"
    ensures Dec(60) == "60" && Dec(98) == "98" && Dec(99) == "99" && Dec(100) == "100" && Dec(108) == "108"
    ensures Dec(112) == "112" && Dec(141) == "141" && Dec(553) == "553" && Dec(554) == "554"
  {
    LongTagTexts();
  }

  lemma LongTagTexts()
    ensures Dec(100) == "100" && Dec(108) == "108" && Dec(112) == "112"
    ensures Dec(141) == "141" && Dec(553) == "553" && Dec(554) == "554"
  {
    ThreeDigits(100);
    ThreeDigits(108);
    ThreeDigits(112);
    ThreeDigits(141);
    ThreeDigits(553);
    ThreeDigits(554);
  }

  lemma {:induction false} PrintedOnWire(fs: seq<Field>, ps: seq<Pair>)
    requires |fs| == |ps| && forall i :: 0 <= i < |fs| ==> ps[i] == Pair(Dec(fs[i].tag), fs[i].value)
    ensures PrintFields(fs) == WireAll(ps)
  {
    if fs != [] {
      PrintedOnWire(fs[1..], ps[1..]);
    }
  }

  lemma HeaderOnWire(who: Identity, kind: char, n: nat, stamp: string)
    ensures PrintFields(HeaderFields(who, kind, n, stamp)) ==
            WireAll([Pair("35", [kind]), Pair("49", who.sender), Pair("56", who.target), Pair("34", Dec(n)),
                     Pair("52", stamp)])
  {
    TagTexts();
    PrintedOnWire(HeaderFields(who, kind, n, stamp),
                  [Pair("35", [kind]), Pair("49", who.sender), Pair("56", who.target), Pair("34", Dec(n)),
                   Pair("52", stamp)]);
  }

  lemma SealedOnWire(h: string, b: string)
    ensures Unsealed(h, b) == Wire(Pair("8", "FIX.4.4")) + Wire(Pair("9", Dec(|h| + |b|))) + h + b
    ensures Sealed(h, b) == Unsealed(h, b) + Wire(Pair("10", Padded(ByteSum(Unsealed(h, b)) % 256, 3)))
  {
  }

  /**
   * A message is BeginString, BodyLength, type, sender, target, number and sending time, in this order, the body,
   * and the CheckSum; the length counts the bytes between its own field and the CheckSum field, and the sum is
   * over all bytes in front of it.
   */
  lemma MessageOnWire(who: Identity, kind: char, n: nat, stamp: string, body: seq<Field>)
    ensures var h, b := WireAll([Pair("35", [kind]), Pair("49", who.sender), Pair("56", who.target),
                                 Pair("34", Dec(n)), Pair("52", stamp)]), PrintFields(body);
            var front := Wire(Pair("8", "FIX.4.4")) + Wire(Pair("9", Dec(|h| + |b|))) + h + b;
            Message(who, kind, n, stamp, body) == front + Wire(Pair("10", Padded(ByteSum(front) % 256, 3)))
  {
    HeaderOnWire(who, kind, n, stamp);
    SealedOnWire(PrintFields(HeaderFields(who, kind, n, stamp)), PrintFields(body));
  }

  /** The checksum adds up the byte values: nothing for no bytes, and each byte its own value. */
  lemma {:induction false} ByteSumAdds(s: string, t: string)
    ensures ByteSum("") == 0 && ByteSum(s + t) == ByteSum(s) + ByteSum(t)
    ensures |s| == 1 ==> ByteSum(s) == s[0] as int
  {
    if t == "" {
      assert s + t == s;
    } else {
      var u := t[..|t| - 1];
      assert (s + t)[..|s + t| - 1] == s + u;
      ByteSumAdds(s, u);
    }
  }

  /** NewOrderSingle: a market order, immediate or cancel, with the levels that are set. */
  lemma OrderOnWire(who: Identity, job: OrderJob, stamp: string)
    ensures PrintFields(OrderBody(who, job, stamp)) ==
            WireAll([Pair("11", job.clOrdId), Pair("1", who.account), Pair("55", job.instrument),
                     Pair("54", if job.side == "buy" then "1" else "2"), Pair("38", job.volume.text),
                     Pair("40", "1"), Pair("59", "3"), Pair("60", stamp)]
                    + (if job.stop.value > 0.0 then [Pair("99", job.stop.text)] else [])
                    + (if job.take.value > 0.0 then [Pair("100", job.take.text)] else []))
  {
    TagTexts();
    PrintedOnWire(OrderBody(who, job, stamp),
                  [Pair("11", job.clOrdId), Pair("1", who.account), Pair("55", job.instrument),
                   Pair("54", if job.side == "buy" then "1" else "2"), Pair("38", job.volume.text),
                   Pair("40", "1"), Pair("59", "3"), Pair("60", stamp)]
                  + (if job.stop.value > 0.0 then [Pair("99", job.stop.text)] else [])
                  + (if job.take.value > 0.0 then [Pair("100", job.take.text)] else []));
  }

  /** Logon: no encryption, the heartbeat interval or 30 s, numbers reset, the credentials. */
  lemma LogonOnWire(who: Identity)
    ensures PrintFields(LogonBody(who)) ==
            WireAll([Pair("98", "0"), Pair("108", Dec(if who.heartbeat > 0 then who.heartbeat else 30)),
                     Pair("141", "Y"), Pair("553", who.account), Pair("554", who.password)])
  {
    TagTexts();
    PrintedOnWire(LogonBody(who), [Pair("98", "0"), Pair("108", Dec(if who.heartbeat > 0 then who.heartbeat else 30)),
                                   Pair("141", "Y"), Pair("553", who.account), Pair("554", who.password)]);
  }

  /** Heartbeat: the request it answers, if any. */
  lemma HeartbeatOnWire(id: string)
    ensures PrintFields(HeartbeatBody(id)) == WireAll(if id == "" then [] else [Pair("112", id)])
  {
    TagTexts();
    PrintedOnWire(HeartbeatBody(id), if id == "" then [] else [Pair("112", id)]);
  }

  /** ResendRequest: from `begin` on, without end. */
  lemma ResendOnWire(begin: nat)
    ensures PrintFields(ResendBody(begin)) == WireAll([Pair("7", Dec(begin)), Pair("8", "0")])
  {
    TagTexts();
    PrintedOnWire(ResendBody(begin), [Pair("7", Dec(begin)), Pair("8", "0")]);
  }

  // ------------------------------------------------------------------
  // The scanner, on any bytes
  // ------------------------------------------------------------------

  /** This text is read as `tag`: digits, leading zeros allowed. */
  predicate Names(name: string, tag: nat) {
    name != "" && (forall i :: 0 <= i < |name| ==> '0' <= name[i] <= '9') && Val(name) == tag
  }

  /** One turn of the scan, from where the delimiters are. */
  lemma {:induction false} TurnIs(f: string, i: nat, tag: nat, name: string, value: string, eq: int, soh: int)
    requires i < |f| && FindByte(f, '=', i) == eq && eq >= 0 && FindByte(f, SOH, eq) == soh && f[i..eq] == name
    requires value == if soh < 0 then f[eq + 1..] else f[eq + 1..soh]
    ensures ScanField(f, i, tag) ==
            if Names(name, tag) then Answer(value) else if soh < 0 then Answer("") else NextField(soh + 1)
  {
  }

  lemma {:induction false} ScanStops(f: string, i: nat, tag: nat, value: string)
    requires i < |f| && ScanField(f, i, tag) == Answer(value)
    ensures ScanFrom(f, i, tag) == value
  {
  }

  /** Where no '=' is left, nothing is found. */
  lemma {:induction false} ScanNone(f: string, i: nat, tag: nat)
    requires i <= |f| && forall k :: i <= k < |f| ==> f[k] != '='
    ensures ScanFrom(f, i, tag) == ""
  {
  }

  /** The first '=' from byte `i` on. */
  predicate NameEnds(f: string, i: nat, eq: nat) {
    i <= eq < |f| && f[eq] == '=' && forall k :: i <= k < eq ==> f[k] != '='
  }

  /** A last field without SOH behind it is read up to the end. */
  lemma {:induction false} ScanLast(f: string, i: nat, eq: nat, tag: nat)
    requires NameEnds(f, i, eq) && forall k :: eq < k < |f| ==> f[k] != SOH
    ensures ScanFrom(f, i, tag) == if Names(f[i..eq], tag) then f[eq + 1..] else ""
  {
    assert FindByte(f, '=', i) == eq && FindByte(f, SOH, eq) == -1;
    TurnIs(f, i, tag, f[i..eq], f[eq + 1..], eq, -1);
    ScanStops(f, i, tag, if Names(f[i..eq], tag) then f[eq + 1..] else "");
  }

  /** A field that ends in SOH: its value if its name is read as the tag, or else what the rest is scanned to. */
  lemma {:induction false} ScanNext(f: string, i: nat, eq: nat, soh: nat, tag: nat)
    requires NameEnds(f, i, eq) && eq < soh < |f| && f[soh] == SOH && forall k :: eq < k < soh ==> f[k] != SOH
    ensures ScanFrom(f, i, tag) == if Names(f[i..eq], tag) then f[eq + 1..soh] else ScanFrom(f, soh + 1, tag)
  {
    FoundAt(f, i, eq, soh);
    NextFrom(f, i, f[i..eq], f[eq + 1..soh], eq, soh, tag);
  }

  lemma {:induction false} FoundAt(f: string, i: nat, eq: nat, soh: nat)
    requires NameEnds(f, i, eq) && eq < soh < |f| && f[soh] == SOH && forall k :: eq < k < soh ==> f[k] != SOH
    ensures FindByte(f, '=', i) == eq && FindByte(f, SOH, eq) == soh
  {
  }

  lemma {:induction false} NextFrom(f: string, i: nat, name: string, value: string, eq: nat, soh: nat, tag: nat)
    requires i < |f| && FindByte(f, '=', i) == eq && FindByte(f, SOH, eq) == soh
    requires f[i..eq] == name && f[eq + 1..soh] == value
    ensures ScanFrom(f, i, tag) == if Names(name, tag) then value else ScanFrom(f, soh + 1, tag)
  {
    TurnIs(f, i, tag, name, value, eq, soh);
    if Names(name, tag) {
      ScanStops(f, i, tag, value);
    } else {
      ScanResumes(f, i, tag, soh + 1);
    }
  }
}
