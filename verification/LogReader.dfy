// Reading a log file back, last line first: what the writers of header/logger.h
// put into a batch can all be recovered from its text.
module LogReader {
  import opened Orders
  import opened Logger

  // ----- One line: label, value, newline -----

  // Where the digits at the end of s begin.
  function DigitsFrom(s: string): (k: nat)
    ensures k <= |s|
  {
    if s == "" || !IsDigit(s[|s|-1]) then |s| else DigitsFrom(s[..|s|-1])
  }

  // s without its last character, if that is c.
  function Chop(s: string, c: char): Option<string> {
    if s == "" || s[|s|-1] != c then None else Some(s[..|s|-1])
  }

  // s without the label at its end.
  function Unlabel(heading: string, s: string): Option<string> {
    if |heading| > |s| || s[|s|-|heading|..] != heading then None else Some(s[..|s|-|heading|])
  }

  function ReadNumber(heading: string, s: string): (r: Option<(int, string)>)
    ensures r.Some? ==> |r.value.1| < |s|
  {
    var t :- Chop(s, '\n');
    var k := DigitsFrom(t);
    if k == |t| then None
    else
      var pre :- Unlabel(heading, t[..k]);
      Some((Parse(t[k..]), pre))
  }

  function ReadChar(heading: string, s: string): (r: Option<(char, string)>)
    ensures r.Some? ==> |r.value.1| < |s|
  {
    var t :- Chop(s, '\n');
    if t == "" then None
    else
      var pre :- Unlabel(heading, t[..|t|-1]);
      Some((t[|t|-1], pre))
  }

  // A price, in hundredths.
  function ReadPrice(heading: string, s: string): (r: Option<(int, string)>)
    ensures r.Some? ==> |r.value.1| < |s|
  {
    var t :- Chop(s, '\n');
    if |t| < 3 then None
    else
      var whole :- Chop(t[..|t|-2], '.');
      var k := DigitsFrom(whole);
      var pre :- Unlabel(heading, whole[..k]);
      Some((Parse(whole[k..]) * 100 + Parse(t[|t|-2..]), pre))
  }

  lemma {:induction false} DigitsEnd(pre: string, d: string)
    requires AllDigits(d) && (pre == "" || !IsDigit(pre[|pre|-1]))
    ensures DigitsFrom(pre + d) == |pre|
  {
    if d == "" {
      assert pre + d == pre;
    } else {
      DigitsEnd(pre, d[..|d|-1]);
      assert (pre + d)[..|pre + d|-1] == pre + d[..|d|-1];
    }
  }

  // A label that ends in something other than a digit.
  predicate Label(heading: string) {
    heading != "" && !IsDigit(heading[|heading|-1])
  }

  lemma NumberReadsBack(pre: string, heading: string, v: nat)
    requires Label(heading)
    ensures ReadNumber(heading, pre + heading + Digits(v) + "\n") == Some((v, pre))
  {
    hide Digits;
    var t := pre + heading + Digits(v);
    DigitsParse(v);
    DigitsEnd(pre + heading, Digits(v));
    assert (t + "\n")[..|t|] == t;
    assert t[..|pre + heading|] == pre + heading && t[|pre + heading|..] == Digits(v);
    assert (pre + heading)[|pre|..] == heading && (pre + heading)[..|pre|] == pre;
  }

  lemma CharReadsBack(pre: string, heading: string, c: char)
    ensures ReadChar(heading, pre + heading + [c] + "\n") == Some((c, pre))
  {
    var t := pre + heading + [c];
    assert (t + "\n")[..|t|] == t;
    assert t[..|t|-1] == pre + heading;
    assert (pre + heading)[|pre|..] == heading && (pre + heading)[..|pre|] == pre;
  }

  lemma TwoDigits(n: nat)
    requires n < 100
    ensures Parse([DigitChar(n / 10)] + [DigitChar(n % 10)]) == n
  {
    var s := [DigitChar(n / 10)] + [DigitChar(n % 10)];
    DigitsParse(n / 10);
    assert s[..1] == Digits(n / 10);
    assert Parse(s) == 10 * Parse(s[..1]) + n % 10;
  }

  lemma PriceLineReadsBack(pre: string, heading: string, num: real)
    requires Label(heading) && FitsInt(num)
    ensures ReadPrice(heading, pre + heading + PriceText(num) + "\n") == Some((Cents(num), pre))
  {
    var h, n := Hundredths(num), AsU64(Trunc(num));
    hide Digits, Hundredths, AsU64, Trunc;
    var d := Digits(n);
    var whole := pre + heading + d;
    var cents := [DigitChar(h / 10)] + [DigitChar(h % 10)];
    var t := whole + "." + cents;
    TwoDigits(h);
    DigitsParse(n);
    DigitsEnd(pre + heading, d);
    assert pre + heading + PriceText(num) + "\n" == t + "\n";
    assert (t + "\n")[..|t|] == t;
    assert t[..|t|-2] == whole + "." && t[|t|-2..] == cents;
    assert (whole + ".")[..|whole|] == whole;
    assert whole[..|pre + heading|] == pre + heading && whole[|pre + heading|..] == d;
    assert (pre + heading)[|pre|..] == heading && (pre + heading)[..|pre|] == pre;
  }

  // ----- The wrong label is not read -----

  // The two labels differ at distance k from their ends.
  predicate DifferAt(a: string, b: string, k: nat) {
    0 < k <= |a| && k <= |b| && a[|a|-k] != b[|b|-k]
  }

  lemma WrongLabel(pre: string, heading: string, written: string, k: nat)
    requires DifferAt(heading, written, k)
    ensures Unlabel(heading, pre + written) == None
  {
    var s, n := pre + written, |heading|;
    if n <= |s| { assert s[|s|-n..][n-k] == s[|s|-k] == written[|written|-k]; }
  }

  lemma WrongNumber(pre: string, heading: string, written: string, v: nat, k: nat)
    requires Label(written) && DifferAt(heading, written, k)
    ensures ReadNumber(heading, pre + written + Digits(v) + "\n") == None
  {
    hide Digits, Unlabel, DifferAt;
    var t := pre + written + Digits(v);
    DigitsParse(v);
    DigitsEnd(pre + written, Digits(v));
    WrongLabel(pre, heading, written, k);
    assert (t + "\n")[..|t|] == t;
    assert t[..|pre + written|] == pre + written;
  }

  lemma WrongChar(pre: string, heading: string, written: string, c: char, k: nat)
    requires Label(written) && DifferAt(heading, written, k)
    ensures ReadNumber(heading, pre + written + [c] + "\n") == None
  {
    hide Unlabel, DifferAt;
    var t := pre + written + [c];
    WrongLabel(pre, heading, written, k);
    assert (t + "\n")[..|t|] == t;
    if IsDigit(c) {
      DigitsEnd(pre + written, [c]);
      assert t[..|pre + written|] == pre + written;
    }
  }

  // ----- Records -----

  // What a record says.  Prices are in hundredths.
  datatype Shown =
    | ShownNothing
    | ShownUserOrder(arrived: int, orderId: int, traderId: int, reqType: char, price: int, quantity: int, sent: int)
    | ShownLOBOrder(arrival: int, systemId: int, lobPrice: int, lobQuantity: int, orderType: char, lobReqType: char,
                    tradeId: int, out: int)
    | ShownLOBAck(ackId: int, ackPrice: int, ackQuantity: int, ackSide: char, ackStatus: char)
    | ShownUserAck(userId: int, userPrice: int, userQuantity: int, userSide: char, userStatus: char)

  datatype Entry = Entry(logId: int, timestamp: int, shown: Shown)

  function ReadUserOrder(s: string): (r: Option<(Shown, string)>)
    ensures r.Some? ==> |r.value.1| < |s|
  {
    var (sent, s1) :- ReadNumber("out cycle count ", s);
    var (quantity, s2) :- ReadNumber("quantity ", s1);
    var (price, s3) :- ReadPrice("price ", s2);
    var (reqType, s4) :- ReadChar("req_type ", s3);
    var (traderId, s5) :- ReadNumber("Trade id ", s4);
    var (orderId, s6) :- ReadNumber("UserOrder id ", s5);
    var (arrived, pre) :- ReadNumber("UserOrder Arrived_cycle count : ", s6);
    Some((ShownUserOrder(arrived, orderId, traderId, reqType, price, quantity, sent), pre))
  }

  function ReadLOBOrder(s: string): (r: Option<(Shown, string)>)
    ensures r.Some? ==> |r.value.1| < |s|
  {
    var (out, s1) :- ReadNumber("Out of Cycle ", s);
    var (tradeId, s2) :- ReadNumber("lob trade id ", s1);
    var (reqType, s3) :- ReadChar("lob req_type ", s2);
    var (orderType, s4) :- ReadChar("lob ordertype ", s3);
    var (quantity, s5) :- ReadNumber("LOB quantity ", s4);
    var (price, s6) :- ReadPrice("LOB price ", s5);
    var (systemId, s7) :- ReadNumber("LOB System_id ", s6);
    var (arrival, pre) :- ReadNumber("arrival_cycle_count ", s7);
    Some((ShownLOBOrder(arrival, systemId, price, quantity, orderType, reqType, tradeId, out), pre))
  }

  // The lines that both kinds of acknowledgement end in.
  datatype AckLines = AckLines(price: int, quantity: int, side: char, status: char)

  function ReadAckLines(s: string): (r: Option<(AckLines, string)>)
    ensures r.Some? ==> |r.value.1| < |s|
  {
    var (status, s1) :- ReadChar("Status ", s);
    var (side, s2) :- ReadChar("side ", s1);
    var (quantity, s3) :- ReadNumber("Quantity ", s2);
    var (price, pre) :- ReadPrice("Price ", s3);
    Some((AckLines(price, quantity, side, status), pre))
  }

  function ReadAck(s: string): (r: Option<(Shown, string)>)
    ensures r.Some? ==> |r.value.1| < |s|
  {
    var (a, s1) :- ReadAckLines(s);
    match ReadNumber("System id ", s1)
    case Some((id, pre)) => Some((ShownLOBAck(id, a.price, a.quantity, a.side, a.status), pre))
    case None =>
      var (id, pre) :- ReadNumber("Order id ", s1);
      Some((ShownUserAck(id, a.price, a.quantity, a.side, a.status), pre))
  }

  // The kind of a record is told by how it ends.
  function ReadBody(s: string): (r: Option<(Shown, string)>)
    ensures r.Some? ==> |r.value.1| <= |s|
  {
    match Chop(s, ' ')
    case Some(t) => if ReadUserOrder(t).Some? then ReadUserOrder(t) else ReadLOBOrder(t)
    case None =>
      if ReadNumber("Timestamp ", s).Some? then Some((ShownNothing, s))
      else if ReadLOBOrder(s).Some? then ReadLOBOrder(s)
      else ReadAck(s)
  }

  function ReadRecord(s: string): (r: Option<(Entry, string)>)
    ensures r.Some? ==> |r.value.1| < |s|
  {
    var t :- Chop(s, '\n');
    var (shown, head) :- ReadBody(t);
    var (timestamp, s1) :- ReadNumber("Timestamp ", head);
    var (logId, pre) :- ReadNumber("Log ID ", s1);
    Some((Entry(logId, timestamp, shown), pre))
  }

  // The records of a whole batch.
  function ReadBatch(s: string): Option<seq<Entry>>
    decreases |s|
  {
    if s == "" then Some([])
    else
      hide ReadRecord;
      var (e, pre) :- ReadRecord(s);
      var es :- ReadBatch(pre);
      Some(es + [e])
  }

  lemma UserOrderReadsBack(pre: string, arrived: u64, o: UserOrder, sent: u64)
    requires FitsInt(o.price)
    ensures ReadUserOrder(UserOrderText(pre, arrived, o, sent))
         == Some((ShownUserOrder(arrived, o.orderId, o.traderId, o.reqType, Cents(o.price), o.quantity, sent), pre))
  {
    hide ReadNumber, ReadPrice, ReadChar, Digits, PriceText, Cents, FitsInt;
    var s6 := pre + "UserOrder Arrived_cycle count : " + Digits(arrived) + "\n";
    var s5 := s6 + "UserOrder id " + Digits(o.orderId) + "\n";
    var s4 := s5 + "Trade id " + Digits(o.traderId) + "\n";
    var s3 := s4 + "req_type " + [o.reqType] + "\n";
    var s2 := s3 + "price " + PriceText(o.price) + "\n";
    var s1 := s2 + "quantity " + Digits(o.quantity) + "\n";
    NumberReadsBack(s1, "out cycle count ", sent);
    NumberReadsBack(s2, "quantity ", o.quantity);
    PriceLineReadsBack(s3, "price ", o.price);
    CharReadsBack(s4, "req_type ", o.reqType);
    NumberReadsBack(s5, "Trade id ", o.traderId);
    NumberReadsBack(s6, "UserOrder id ", o.orderId);
    NumberReadsBack(pre, "UserOrder Arrived_cycle count : ", arrived);
  }

  lemma LOBOrderReadsBack(pre: string, arrival: u64, o: LOBOrder, out: u64)
    requires FitsInt(o.price)
    ensures ReadLOBOrder(LOBOrderText(pre, arrival, o, out))
         == Some((ShownLOBOrder(arrival, o.systemId, Cents(o.price), o.quantity, o.orderType, o.reqType, o.tradeId, out), pre))
  {
    hide ReadNumber, ReadPrice, ReadChar, Digits, PriceText, Cents, FitsInt;
    var s7 := pre + "arrival_cycle_count " + Digits(arrival) + "\n";
    var s6 := s7 + "LOB System_id " + Digits(o.systemId) + "\n";
    var s5 := s6 + "LOB price " + PriceText(o.price) + "\n";
    var s4 := s5 + "LOB quantity " + Digits(o.quantity) + "\n";
    var s3 := s4 + "lob ordertype " + [o.orderType] + "\n";
    var s2 := s3 + "lob req_type " + [o.reqType] + "\n";
    var s1 := s2 + "lob trade id " + Digits(o.tradeId) + "\n";
    NumberReadsBack(s1, "Out of Cycle ", out);
    NumberReadsBack(s2, "lob trade id ", o.tradeId);
    CharReadsBack(s3, "lob req_type ", o.reqType);
    CharReadsBack(s4, "lob ordertype ", o.orderType);
    NumberReadsBack(s5, "LOB quantity ", o.quantity);
    PriceLineReadsBack(s6, "LOB price ", o.price);
    NumberReadsBack(s7, "LOB System_id ", o.systemId);
    NumberReadsBack(pre, "arrival_cycle_count ", arrival);
  }

  lemma AckLinesReadBack(pre: string, price: int, quantity: u32, side: char, status: char)
    requires FitsInt(price as real)
    ensures ReadAckLines(pre + "Price " + PriceText(price as real) + "\n" + "Quantity " + Digits(quantity) + "\n"
                         + "side " + [side] + "\n" + "Status " + [status] + "\n")
         == Some((AckLines(Cents(price as real), quantity, side, status), pre))
  {
    hide ReadNumber, ReadPrice, ReadChar, Digits, PriceText, Cents, FitsInt;
    var s3 := pre + "Price " + PriceText(price as real) + "\n";
    var s2 := s3 + "Quantity " + Digits(quantity) + "\n";
    var s1 := s2 + "side " + [side] + "\n";
    CharReadsBack(s1, "Status ", status);
    CharReadsBack(s2, "side ", side);
    NumberReadsBack(s3, "Quantity ", quantity);
    PriceLineReadsBack(pre, "Price ", price as real);
  }

  lemma LOBAckReadsBack(pre: string, a: LOBAck)
    requires FitsInt(a.price as real)
    ensures ReadAck(LOBAckText(pre, a))
         == Some((ShownLOBAck(a.systemId, Cents(a.price as real), a.quantity, a.side, a.status), pre))
  {
    hide ReadNumber, ReadAckLines, Digits, PriceText, Cents, FitsInt;
    var s1 := pre + "System id " + Digits(a.systemId) + "\n";
    AckLinesReadBack(s1, a.price, a.quantity, a.side, a.status);
    NumberReadsBack(pre, "System id ", a.systemId);
  }

  lemma UserAckReadsBack(pre: string, a: UserAck)
    requires FitsInt(a.price as real)
    ensures ReadAck(UserAckText(pre, a))
         == Some((ShownUserAck(a.orderId, Cents(a.price as real), a.quantity, a.side, a.status), pre))
  {
    hide ReadNumber, ReadAckLines, Digits, PriceText, Cents, FitsInt;
    var s1 := pre + "Order id " + Digits(a.orderId) + "\n";
    AckLinesReadBack(s1, a.price, a.quantity, a.side, a.status);
    WrongNumber(pre, "System id ", "Order id ", a.orderId, 5);
    NumberReadsBack(pre, "Order id ", a.orderId);
  }

  // An order record is not taken for anything else.
  lemma OnlyLOBOrder(pre: string, arrival: u64, o: LOBOrder, out: u64)
    requires FitsInt(o.price)
    ensures var s := LOBOrderText(pre, arrival, o, out);
      ReadUserOrder(s) == None && ReadNumber("Timestamp ", s) == None && Chop(s, ' ') == None
  {
    hide ReadNumber, ReadPrice, ReadChar, Digits, PriceText, FitsInt;
    var s1 :=
      pre
      + "arrival_cycle_count " + Digits(arrival) + "\n"
      + "LOB System_id " + Digits(o.systemId) + "\n"
      + "LOB price " + PriceText(o.price) + "\n"
      + "LOB quantity " + Digits(o.quantity) + "\n"
      + "lob ordertype " + [o.orderType] + "\n"
      + "lob req_type " + [o.reqType] + "\n"
      + "lob trade id " + Digits(o.tradeId) + "\n";
    WrongNumber(s1, "out cycle count ", "Out of Cycle ", out, 2);
    WrongNumber(s1, "Timestamp ", "Out of Cycle ", out, 2);
  }

  // Nor is an acknowledgement.
  lemma OnlyAck(s1: string, status: char)
    ensures var s := s1 + "Status " + [status] + "\n";
      ReadLOBOrder(s) == None && ReadNumber("Timestamp ", s) == None && Chop(s, ' ') == None
  {
    hide ReadNumber, ReadPrice, ReadChar;
    WrongChar(s1, "Out of Cycle ", "Status ", status, 2);
    WrongChar(s1, "Timestamp ", "Status ", status, 2);
  }

  function ShownOf(e: LogElement): Shown
    requires WellTagged(e)
  {
    if e.logId == 1 then
      var o := e.data.userOrder;
      ShownUserOrder(e.data.arrived, o.orderId, o.traderId, o.reqType, Cents(o.price), o.quantity, e.data.sent)
    else if 2 <= e.logId <= 7 then
      var o := e.data.lobOrder;
      ShownLOBOrder(e.data.arrival, o.systemId, Cents(o.price), o.quantity, o.orderType, o.reqType, o.tradeId, e.data.out)
    else if 8 <= e.logId <= 9 then
      var a := e.data.lobAck;
      ShownLOBAck(a.systemId, Cents(a.price as real), a.quantity, a.side, a.status)
    else if e.logId == 10 then
      var a := e.data.userAck;
      ShownUserAck(a.orderId, Cents(a.price as real), a.quantity, a.side, a.status)
    else ShownNothing
  }

  lemma HeadReadsBack(pre: string, e: LogElement)
    ensures var s1 := pre + "Log ID " + Digits(e.logId) + "\n";
      && ReadNumber("Timestamp ", HeadText(pre, e)) == Some((e.timestamp as int, s1))
      && ReadNumber("Log ID ", s1) == Some((e.logId as int, pre))
    ensures Chop(HeadText(pre, e), ' ') == None
  {
    hide ReadNumber, Digits;
    NumberReadsBack(pre + "Log ID " + Digits(e.logId) + "\n", "Timestamp ", e.timestamp);
    NumberReadsBack(pre, "Log ID ", e.logId);
  }

  lemma Chopped(s: string, c: char)
    ensures Chop(s + [c], c) == Some(s)
  {
    assert (s + [c])[..|s|] == s;
  }

  lemma BodyReadsBack(pre: string, e: LogElement)
    requires WellTagged(e)
    ensures ReadBody(BodyText(HeadText(pre, e), e)) == Some((ShownOf(e), HeadText(pre, e)))
  {
    hide ReadNumber, ReadUserOrder, ReadLOBOrder, ReadAck, Chop, HeadText, UserOrderText, LOBOrderText, Cents, FitsInt,
         Digits, PriceText;
    var head := HeadText(pre, e);
    if e.logId == 1 {
      UserOrderReadsBack(head, e.data.arrived, e.data.userOrder, e.data.sent);
      Chopped(UserOrderText(head, e.data.arrived, e.data.userOrder, e.data.sent), ' ');
    } else if 2 <= e.logId <= 7 {
      LOBOrderReadsBack(head, e.data.arrival, e.data.lobOrder, e.data.out);
      OnlyLOBOrder(head, e.data.arrival, e.data.lobOrder, e.data.out);
      Chopped(LOBOrderText(head, e.data.arrival, e.data.lobOrder, e.data.out), ' ');
    } else if 8 <= e.logId <= 9 {
      var a := e.data.lobAck;
      LOBAckReadsBack(head, a);
      OnlyAck(head + "System id " + Digits(a.systemId) + "\n" + "Price " + PriceText(a.price as real) + "\n"
              + "Quantity " + Digits(a.quantity) + "\n" + "side " + [a.side] + "\n", a.status);
    } else if e.logId == 10 {
      var a := e.data.userAck;
      UserAckReadsBack(head, a);
      OnlyAck(head + "Order id " + Digits(a.orderId) + "\n" + "Price " + PriceText(a.price as real) + "\n"
              + "Quantity " + Digits(a.quantity) + "\n" + "side " + [a.side] + "\n", a.status);
    } else {
      HeadReadsBack(pre, e);
    }
  }

  function EntryOf(e: LogElement): Entry
    requires WellTagged(e)
  {
    Entry(e.logId, e.timestamp, ShownOf(e))
  }

  // One record: log id, timestamp and every field it was written from.
  lemma RecordReadsBack(pre: string, e: LogElement)
    requires WellTagged(e)
    ensures ReadRecord(RecordText(pre, e)) == Some((EntryOf(e), pre))
  {
    BodyReadsBack(pre, e);
    HeadReadsBack(pre, e);
    Chopped(BodyText(HeadText(pre, e), e), '\n');
    hide ReadBody, ReadNumber, Chop, BodyText, ShownOf, Digits;
  }

  // A whole batch: the file gives back every record, in order.
  lemma {:induction false} BatchReadsBack(es: seq<LogElement>)
    requires forall e :: e in es ==> WellTagged(e)
    ensures var r := ReadBatch(BatchText(es));
      r.Some? && |r.value| == |es| && forall i :: 0 <= i < |es| ==> r.value[i] == EntryOf(es[i])
  {
    hide ReadRecord, RecordText, WellTagged, EntryOf;
    if es != [] {
      var init := es[..|es|-1];
      BatchReadsBack(init);
      RecordReadsBack(BatchText(init), es[|es|-1]);
    }
  }
}
