// Serialisation in the asynchronous logger (header/logger.h): the digit and
// record writers over a character buffer, and the batch that drains a log
// queue into a buffer of fixed size.
module Logger {
  import opened Orders
  import opened RingQueue

  // ----- Decimal digits -----

  function DigitChar(d: nat): char
    requires d < 10
  {
    d as char + '0'
  }

  function Digits(v: nat): (s: string)
    ensures |s| > 0
  {
    if v < 10 then [DigitChar(v)] else Digits(v / 10) + [DigitChar(v % 10)]
  }

  predicate IsDigit(c: char) {
    '0' <= c <= '9'
  }

  ghost predicate AllDigits(s: string) {
    forall i :: 0 <= i < |s| ==> IsDigit(s[i])
  }

  function Parse(s: string): int {
    if s == [] then 0 else 10 * Parse(s[..|s|-1]) + (s[|s|-1] as int - '0' as int)
  }

  // A number as one writes it: digits, and no zero in front of others.
  ghost predicate Canonical(s: string) {
    s != [] && AllDigits(s) && (|s| > 1 ==> s[0] != '0')
  }

  function Pow10(k: nat): nat {
    if k == 0 then 1 else 10 * Pow10(k - 1)
  }

  // The digits of a value are canonical and parse back to it.
  lemma {:induction false} DigitsParse(v: nat)
    ensures Canonical(Digits(v)) && Parse(Digits(v)) == v
    ensures v > 0 ==> Digits(v)[0] != '0'
  {
    if v >= 10 { DigitsParse(v / 10); }
  }

  lemma DigitsSnoc(a: nat, d: nat)
    requires a > 0 && d < 10
    ensures Digits(10 * a + d) == Digits(a) + [DigitChar(d)]
  {
  }

  // And every canonical string is the digits of the value it parses to.
  lemma {:induction false} ParseDigits(s: string)
    requires Canonical(s)
    ensures Parse(s) >= 0 && Digits(Parse(s)) == s
    ensures s[0] != '0' ==> Parse(s) > 0
  {
    var init, last := s[..|s|-1], s[|s|-1];
    if init != [] {
      ParseDigits(init);
      DigitsSnoc(Parse(init), last as int - '0' as int);
    }
  }

  lemma {:induction false} DigitsLength(v: nat, k: nat)
    requires k > 0 && v < Pow10(k)
    ensures |Digits(v)| <= k
  {
    if v >= 10 { DigitsLength(v / 10, k - 1); }
  }

  // No 64-bit value needs more than 20 characters.
  lemma DigitsFit(v: u64)
    ensures |Digits(v)| <= 20
  {
    assert Pow10(4) == 10000 && Pow10(8) == 100000000 && Pow10(12) == 1000000000000;
    DigitsLength(v, 20);
  }

  lemma SampleDigits()
    ensures Digits(0) == "0" && Digits(9) == "9" && Digits(10) == "10" && Digits(907) == "907"
  {
    DigitsSnoc(1, 0);
    DigitsSnoc(9, 0);
    DigitsSnoc(90, 7);
    assert "9" + [DigitChar(0)] == "90" && "90" + [DigitChar(7)] == "907";
  }

  // The do-while loop: digits from the right, in front of the terminator.
  method FillDigits(value: u64, temp: array<char>) returns (p: nat)
    requires temp.Length == 24 && temp[23] == '\0'
    modifies temp
    ensures p < 23 && temp[23] == '\0' && temp[p..23] == Digits(value)
  {
    DigitsFit(value);
    var v: nat := value;
    p := 22;
    temp[p] := DigitChar(v % 10);
    v := v / 10;
    assert temp[22..23] == [DigitChar(value % 10)];
    while v > 0
      invariant p < 23 && temp[23] == '\0'
      invariant Digits(value) == (if v > 0 then Digits(v) else []) + temp[p..23]
    {
      ghost var tail, front := temp[p..23], Digits(v);
      p := p - 1;
      temp[p] := DigitChar(v % 10);
      v := v / 10;
      assert temp[p..23] == [temp[p]] + tail;
      assert front == (if v > 0 then Digits(v) else []) + [temp[p]];
    }
  }

  // buffer[..at] is what has been written so far; every writer appends to it.
  method CopyDigits(temp: array<char>, start: nat, buffer: array<char>, at: nat) returns (end: nat)
    requires temp != buffer && temp.Length == 24 && start < 23 && temp[23] == '\0'
    requires AllDigits(temp[start..23]) && at + (23 - start) <= buffer.Length
    modifies buffer
    ensures end == at + (23 - start) && buffer[..end] == old(buffer[..at]) + temp[start..23]
  {
    ghost var text := temp[start..23];
    assert forall i :: start <= i < 23 ==> temp[i] == text[i - start];
    var p := start;
    end := at;
    while temp[p] != '\0'
      invariant forall i :: start <= i < 23 ==> temp[i] != '\0'
      invariant start <= p <= 23 && end == at + (p - start)
      invariant buffer[..end] == old(buffer[..at]) + text[..p - start]
      decreases 23 - p
    {
      assert text[..p - start + 1] == text[..p - start] + [temp[p]];
      buffer[end] := temp[p];
      end := end + 1;
      p := p + 1;
    }
    assert text[..23 - start] == text;
  }

  method ConvertU64ToStr(value: u64, buffer: array<char>, at: nat) returns (end: nat)
    requires at + 20 <= buffer.Length
    modifies buffer
    ensures end == at + |Digits(value)| && |Digits(value)| <= 20
    ensures buffer[..end] == old(buffer[..at]) + Digits(value)
  {
    DigitsFit(value);
    DigitsParse(value);
    var temp := new char[24](_ => '\0');
    var p := FillDigits(value, temp);
    end := CopyDigits(temp, p, buffer, at);
  }

  // The string literal up to its terminator.
  method WriteString(str: string, buffer: array<char>, at: nat) returns (end: nat)
    requires at + |str| <= buffer.Length
    modifies buffer
    ensures end == at + |str| && buffer[..end] == old(buffer[..at]) + str
  {
    end := at;
    var i := 0;
    while i < |str|
      invariant i <= |str| && end == at + i
      invariant buffer[..end] == old(buffer[..at]) + str[..i]
    {
      buffer[end] := str[i];
      end := end + 1;
      i := i + 1;
    }
    assert str[..|str|] == str;
  }

  // *buffer++ = c
  method WriteChar(c: char, buffer: array<char>, at: nat) returns (end: nat)
    requires at < buffer.Length
    modifies buffer
    ensures end == at + 1 && buffer[..end] == old(buffer[..at]) + [c]
  {
    buffer[at] := c;
    end := at + 1;
  }

  // ----- Prices -----

  // int to uint64_t: a negative value wraps.
  function AsU64(i: int): u64
    requires -U64_SIZE <= i < U64_SIZE
  {
    if i >= 0 then i else i + U64_SIZE
  }

  predicate FitsInt(num: real) {
    -2147483649.0 < num < 2147483648.0
  }

  function Hundredths(num: real): (r: nat)
    ensures r < 100
  {
    var f := Trunc((num - Trunc(num) as real) * 100.0);
    if f < 0 then -f else f
  }

  function PriceText(num: real): string
    requires FitsInt(num)
  {
    Digits(AsU64(Trunc(num))) + "." + [DigitChar(Hundredths(num) / 10)] + [DigitChar(Hundredths(num) % 10)]
  }

  // The printed price as a number of hundredths.
  function Cents(num: real): nat
    requires FitsInt(num)
  {
    AsU64(Trunc(num)) * 100 + Hundredths(num)
  }

  // It is the price cut to hundredths exactly when that is not negative.
  lemma PriceReadsBack(num: real)
    requires FitsInt(num)
    ensures Cents(num) == Trunc(num * 100.0) <==> num > -0.01
  {
  }

  // A price between -1 and 0 loses its sign; from -1 down the whole part is
  // printed as 2^64 less its size.
  lemma NegativePrice(num: real)
    requires FitsInt(num) && FitsInt(-num) && num < 0.0
    ensures num > -1.0 ==> PriceText(num) == PriceText(-num)
    ensures num <= -1.0 ==> AsU64(Trunc(num)) == U64_SIZE - Trunc(-num)
    ensures Hundredths(num) == Hundredths(-num)
  {
    hide Digits;
    var whole := Trunc(-num);
    assert Trunc(num) == -whole;
    assert (num + whole as real) * 100.0 == -((-num - whole as real) * 100.0);
  }

  method FloatToChar(num: real, buffer: array<char>, at: nat) returns (end: nat)
    requires FitsInt(num) && at + 23 <= buffer.Length
    modifies buffer
    ensures end == at + |PriceText(num)| && |PriceText(num)| <= 23
    ensures buffer[..end] == old(buffer[..at]) + PriceText(num)
  {
    var intPart := Trunc(num);
    end := ConvertU64ToStr(AsU64(intPart), buffer, at);
    end := WriteChar('.', buffer, end);
    var fracPart := Trunc((num - intPart as real) * 100.0);
    if fracPart < 0 { fracPart := -fracPart; }
    end := WriteChar(DigitChar(fracPart / 10), buffer, end);
    end := WriteChar(DigitChar(fracPart % 10), buffer, end);
  }

  // ----- Records -----

  datatype LogData =
    | LOBOrderData(arrival: u64, lobOrder: LOBOrder, out: u64)
    | UserOrderData(arrived: u64, userOrder: UserOrder, sent: u64)
    | UserAckData(userAck: UserAck)
    | LOBAckData(lobAck: LOBAck)

  datatype LogElement = LogElement(logId: u64, timestamp: u64, data: LogData)

  // Each text function extends what is already in the buffer, as the writer of
  // the same name does.

  function UserOrderText(pre: string, arrived: u64, o: UserOrder, out: u64): string
    requires FitsInt(o.price)
  {
    pre
    + "UserOrder Arrived_cycle count : " + Digits(arrived) + "\n"
    + "UserOrder id " + Digits(o.orderId) + "\n"
    + "Trade id " + Digits(o.traderId) + "\n"
    + "req_type " + [o.reqType] + "\n"
    + "price " + PriceText(o.price) + "\n"
    + "quantity " + Digits(o.quantity) + "\n"
    + "out cycle count " + Digits(out) + "\n"
  }

  function LOBOrderText(pre: string, arrival: u64, o: LOBOrder, out: u64): string
    requires FitsInt(o.price)
  {
    pre
    + "arrival_cycle_count " + Digits(arrival) + "\n"
    + "LOB System_id " + Digits(o.systemId) + "\n"
    + "LOB price " + PriceText(o.price) + "\n"
    + "LOB quantity " + Digits(o.quantity) + "\n"
    + "lob ordertype " + [o.orderType] + "\n"
    + "lob req_type " + [o.reqType] + "\n"
    + "lob trade id " + Digits(o.tradeId) + "\n"
    + "Out of Cycle " + Digits(out) + "\n"
  }

  function LOBAckText(pre: string, a: LOBAck): string
    requires FitsInt(a.price as real)
  {
    pre
    + "System id " + Digits(a.systemId) + "\n"
    + "Price " + PriceText(a.price as real) + "\n"
    + "Quantity " + Digits(a.quantity) + "\n"
    + "side " + [a.side] + "\n"
    + "Status " + [a.status] + "\n"
  }

  function UserAckText(pre: string, a: UserAck): string
    requires FitsInt(a.price as real)
  {
    pre
    + "Order id " + Digits(a.orderId) + "\n"
    + "Price " + PriceText(a.price as real) + "\n"
    + "Quantity " + Digits(a.quantity) + "\n"
    + "side " + [a.side] + "\n"
    + "Status " + [a.status] + "\n"
  }

  lemma LineIs(pre: string, heading: string, text: string, line: string)
    requires heading + text + "\n" == line
    ensures pre + heading + text + "\n" == pre + line
  {
  }

  lemma SamplePrices()
    ensures PriceText(5.0) == "5.00" && PriceText(4.5) == "4.50"
    ensures forall d :: 0 <= d < 10 ==> Digits(d) == [DigitChar(d)]
  {
    assert Trunc(5.0) == 5 && Trunc(4.5) == 4 && Hundredths(5.0) == 0 && Hundredths(4.5) == 50;
  }

  // What a record of each kind looks like in the file, line by line.
  lemma SampleLOBAck(pre: string)
    ensures LOBAckText(pre, LOBAck(7, 5, 3, 'b', 'T'))
         == pre + "System id 7\n" + "Price 5.00\n" + "Quantity 3\n" + "side b\n" + "Status T\n"
  {
    SamplePrices();
    hide Digits, PriceText;
    var s0 := pre;
    LineIs(s0, "System id ", Digits(7), "System id 7\n");
    var s1 := s0 + "System id 7\n";
    LineIs(s1, "Price ", PriceText(5.0), "Price 5.00\n");
    var s2 := s1 + "Price 5.00\n";
    LineIs(s2, "Quantity ", Digits(3), "Quantity 3\n");
    var s3 := s2 + "Quantity 3\n";
    LineIs(s3, "side ", ['b'], "side b\n");
    var s4 := s3 + "side b\n";
    LineIs(s4, "Status ", ['T'], "Status T\n");
  }

  lemma SampleUserAck(pre: string)
    ensures UserAckText(pre, UserAck(7, 5, 3, 's', 'N'))
         == pre + "Order id 7\n" + "Price 5.00\n" + "Quantity 3\n" + "side s\n" + "Status N\n"
  {
    SamplePrices();
    hide Digits, PriceText;
    var s0 := pre;
    LineIs(s0, "Order id ", Digits(7), "Order id 7\n");
    var s1 := s0 + "Order id 7\n";
    LineIs(s1, "Price ", PriceText(5.0), "Price 5.00\n");
    var s2 := s1 + "Price 5.00\n";
    LineIs(s2, "Quantity ", Digits(3), "Quantity 3\n");
    var s3 := s2 + "Quantity 3\n";
    LineIs(s3, "side ", ['s'], "side s\n");
    var s4 := s3 + "side s\n";
    LineIs(s4, "Status ", ['N'], "Status N\n");
  }

  lemma SampleUserOrder(pre: string)
    ensures UserOrderText(pre, 1, UserOrder(2, 3, 'b', 'c', 4.5, 6), 7)
         == pre + "UserOrder Arrived_cycle count : 1\n" + "UserOrder id 2\n" + "Trade id 3\n" + "req_type c\n"
            + "price 4.50\n" + "quantity 6\n" + "out cycle count 7\n"
  {
    SamplePrices();
    hide Digits, PriceText;
    var s0 := pre;
    LineIs(s0, "UserOrder Arrived_cycle count : ", Digits(1), "UserOrder Arrived_cycle count : 1\n");
    var s1 := s0 + "UserOrder Arrived_cycle count : 1\n";
    LineIs(s1, "UserOrder id ", Digits(2), "UserOrder id 2\n");
    var s2 := s1 + "UserOrder id 2\n";
    LineIs(s2, "Trade id ", Digits(3), "Trade id 3\n");
    var s3 := s2 + "Trade id 3\n";
    LineIs(s3, "req_type ", ['c'], "req_type c\n");
    var s4 := s3 + "req_type c\n";
    LineIs(s4, "price ", PriceText(4.5), "price 4.50\n");
    var s5 := s4 + "price 4.50\n";
    LineIs(s5, "quantity ", Digits(6), "quantity 6\n");
    var s6 := s5 + "quantity 6\n";
    LineIs(s6, "out cycle count ", Digits(7), "out cycle count 7\n");
  }

  lemma SampleLOBOrder(pre: string)
    ensures LOBOrderText(pre, 1, LOBOrder(2, 4.5, 6, 3, 'b', 'c'), 7)
         == pre + "arrival_cycle_count 1\n" + "LOB System_id 2\n" + "LOB price 4.50\n" + "LOB quantity 6\n"
            + "lob ordertype b\n" + "lob req_type c\n" + "lob trade id 3\n" + "Out of Cycle 7\n"
  {
    SamplePrices();
    hide Digits, PriceText;
    var s0 := pre;
    LineIs(s0, "arrival_cycle_count ", Digits(1), "arrival_cycle_count 1\n");
    var s1 := s0 + "arrival_cycle_count 1\n";
    LineIs(s1, "LOB System_id ", Digits(2), "LOB System_id 2\n");
    var s2 := s1 + "LOB System_id 2\n";
    LineIs(s2, "LOB price ", PriceText(4.5), "LOB price 4.50\n");
    var s3 := s2 + "LOB price 4.50\n";
    LineIs(s3, "LOB quantity ", Digits(6), "LOB quantity 6\n");
    var s4 := s3 + "LOB quantity 6\n";
    LineIs(s4, "lob ordertype ", ['b'], "lob ordertype b\n");
    var s5 := s4 + "lob ordertype b\n";
    LineIs(s5, "lob req_type ", ['c'], "lob req_type c\n");
    var s6 := s5 + "lob req_type c\n";
    LineIs(s6, "lob trade id ", Digits(3), "lob trade id 3\n");
    var s7 := s6 + "lob trade id 3\n";
    LineIs(s7, "Out of Cycle ", Digits(7), "Out of Cycle 7\n");
  }

  // Label, value, newline: the pattern every record line follows.
  method WriteNumberLine(heading: string, value: u64, buffer: array<char>, at: nat) returns (end: nat)
    requires at + |heading| + 21 <= buffer.Length
    modifies buffer
    ensures at < end <= at + |heading| + 21 && buffer[..end] == old(buffer[..at]) + heading + Digits(value) + "\n"
  {
    end := WriteString(heading, buffer, at);
    end := ConvertU64ToStr(value, buffer, end);
    end := WriteChar('\n', buffer, end);
  }

  method WritePriceLine(heading: string, price: real, buffer: array<char>, at: nat) returns (end: nat)
    requires FitsInt(price) && at + |heading| + 24 <= buffer.Length
    modifies buffer
    ensures at < end <= at + |heading| + 24 && buffer[..end] == old(buffer[..at]) + heading + PriceText(price) + "\n"
  {
    end := WriteString(heading, buffer, at);
    end := FloatToChar(price, buffer, end);
    end := WriteChar('\n', buffer, end);
  }

  method WriteCharLine(heading: string, c: char, buffer: array<char>, at: nat) returns (end: nat)
    requires at + |heading| + 2 <= buffer.Length
    modifies buffer
    ensures at < end <= at + |heading| + 2 && buffer[..end] == old(buffer[..at]) + heading + [c] + "\n"
  {
    end := WriteString(heading, buffer, at);
    end := WriteChar(c, buffer, end);
    end := WriteChar('\n', buffer, end);
  }

  method WriteUserOrder(arrived: u64, o: UserOrder, out: u64, buffer: array<char>, at: nat) returns (end: nat)
    requires FitsInt(o.price) && at + 225 <= buffer.Length
    modifies buffer
    ensures at < end <= at + 225 && buffer[..end] == UserOrderText(old(buffer[..at]), arrived, o, out)
  {
    hide Digits, PriceText;
    end := WriteNumberLine("UserOrder Arrived_cycle count : ", arrived, buffer, at);
    end := WriteNumberLine("UserOrder id ", o.orderId, buffer, end);
    end := WriteNumberLine("Trade id ", o.traderId, buffer, end);
    end := WriteCharLine("req_type ", o.reqType, buffer, end);
    end := WritePriceLine("price ", o.price, buffer, end);
    end := WriteNumberLine("quantity ", o.quantity, buffer, end);
    end := WriteNumberLine("out cycle count ", out, buffer, end);
  }

  method WriteLOBOrder(arrival: u64, o: LOBOrder, out: u64, buffer: array<char>, at: nat) returns (end: nat)
    requires FitsInt(o.price) && at + 243 <= buffer.Length
    modifies buffer
    ensures at < end <= at + 243 && buffer[..end] == LOBOrderText(old(buffer[..at]), arrival, o, out)
  {
    hide Digits, PriceText;
    end := WriteNumberLine("arrival_cycle_count ", arrival, buffer, at);
    end := WriteNumberLine("LOB System_id ", o.systemId, buffer, end);
    end := WritePriceLine("LOB price ", o.price, buffer, end);
    end := WriteNumberLine("LOB quantity ", o.quantity, buffer, end);
    end := WriteCharLine("lob ordertype ", o.orderType, buffer, end);
    end := WriteCharLine("lob req_type ", o.reqType, buffer, end);
    end := WriteNumberLine("lob trade id ", o.tradeId, buffer, end);
    end := WriteNumberLine("Out of Cycle ", out, buffer, end);
  }

  method WriteLOBAck(a: LOBAck, buffer: array<char>, at: nat) returns (end: nat)
    requires FitsInt(a.price as real) && at + 107 <= buffer.Length
    modifies buffer
    ensures at < end <= at + 107 && buffer[..end] == LOBAckText(old(buffer[..at]), a)
  {
    hide Digits, PriceText;
    end := WriteNumberLine("System id ", a.systemId, buffer, at);
    end := WritePriceLine("Price ", a.price as real, buffer, end);
    end := WriteNumberLine("Quantity ", a.quantity, buffer, end);
    end := WriteCharLine("side ", a.side, buffer, end);
    end := WriteCharLine("Status ", a.status, buffer, end);
  }

  method WriteUserAck(a: UserAck, buffer: array<char>, at: nat) returns (end: nat)
    requires FitsInt(a.price as real) && at + 106 <= buffer.Length
    modifies buffer
    ensures at < end <= at + 106 && buffer[..end] == UserAckText(old(buffer[..at]), a)
  {
    hide Digits, PriceText;
    end := WriteNumberLine("Order id ", a.orderId, buffer, at);
    end := WritePriceLine("Price ", a.price as real, buffer, end);
    end := WriteNumberLine("Quantity ", a.quantity, buffer, end);
    end := WriteCharLine("side ", a.side, buffer, end);
    end := WriteCharLine("Status ", a.status, buffer, end);
  }

  // The payload is the one that std::get will ask for.
  predicate WellTagged(e: LogElement) {
    && (e.logId == 1 ==> e.data.UserOrderData? && FitsInt(e.data.userOrder.price))
    && (2 <= e.logId <= 7 ==> e.data.LOBOrderData? && FitsInt(e.data.lobOrder.price))
    && (8 <= e.logId <= 9 ==> e.data.LOBAckData? && FitsInt(e.data.lobAck.price as real))
    && (e.logId == 10 ==> e.data.UserAckData? && FitsInt(e.data.userAck.price as real))
  }

  function HeadText(pre: string, e: LogElement): string {
    pre + "Log ID " + Digits(e.logId) + "\n" + "Timestamp " + Digits(e.timestamp) + "\n"
  }

  function BodyText(pre: string, e: LogElement): string
    requires WellTagged(e)
  {
    if e.logId == 1 then UserOrderText(pre, e.data.arrived, e.data.userOrder, e.data.sent) + " "
    else if 2 <= e.logId <= 5 then LOBOrderText(pre, e.data.arrival, e.data.lobOrder, e.data.out) + " "
    else if 6 <= e.logId <= 7 then LOBOrderText(pre, e.data.arrival, e.data.lobOrder, e.data.out)
    else if 8 <= e.logId <= 9 then LOBAckText(pre, e.data.lobAck)
    else if e.logId == 10 then UserAckText(pre, e.data.userAck)
    else pre
  }

  lemma SampleHead(pre: string, data: LogData)
    ensures HeadText(pre, LogElement(3, 4, data)) == pre + "Log ID 3\n" + "Timestamp 4\n"
  {
    SamplePrices();
    hide Digits;
    LineIs(pre, "Log ID ", Digits(3), "Log ID 3\n");
    LineIs(pre + "Log ID 3\n", "Timestamp ", Digits(4), "Timestamp 4\n");
  }

  // The body of a record with log id 1 to 5 ends in a blank, of any other in a
  // newline; an unknown id has no fields at all.
  lemma BodyEnds(pre: string, e: LogElement)
    requires WellTagged(e)
    ensures var s := BodyText(HeadText(pre, e), e);
      && s != "" && (s[|s|-1] == ' ' <==> 1 <= e.logId <= 5) && (s[|s|-1] == '\n' <==> !(1 <= e.logId <= 5))
      && (e.logId == 0 || e.logId > 10 ==> s == HeadText(pre, e))
  {
    hide Digits, PriceText;
  }

  function RecordText(pre: string, e: LogElement): string
    requires WellTagged(e)
  {
    BodyText(HeadText(pre, e), e) + "\n"
  }

  function BatchText(es: seq<LogElement>): string
    requires forall e :: e in es ==> WellTagged(e)
  {
    if es == [] then [] else RecordText(BatchText(es[..|es|-1]), es[|es|-1])
  }

  method WriteHead(e: LogElement, buffer: array<char>, at: nat) returns (end: nat)
    requires at + 59 <= buffer.Length
    modifies buffer
    ensures at < end <= at + 59 && buffer[..end] == HeadText(old(buffer[..at]), e)
  {
    end := WriteString("Log ID ", buffer, at);
    end := ConvertU64ToStr(e.logId, buffer, end);
    end := WriteChar('\n', buffer, end);
    end := WriteString("Timestamp ", buffer, end);
    end := ConvertU64ToStr(e.timestamp, buffer, end);
    end := WriteChar('\n', buffer, end);
  }

  // The switch on the log id.
  method WriteBody(e: LogElement, buffer: array<char>, at: nat) returns (end: nat)
    requires WellTagged(e) && at + 300 <= buffer.Length
    modifies buffer
    ensures at <= end <= at + 300 && buffer[..end] == BodyText(old(buffer[..at]), e)
  {
    hide UserOrderText, LOBOrderText, LOBAckText, UserAckText;
    end := at;
    if e.logId == 1 {
      end := WriteUserOrder(e.data.arrived, e.data.userOrder, e.data.sent, buffer, end);
      end := WriteChar(' ', buffer, end);
    } else if 2 <= e.logId <= 5 {
      end := WriteLOBOrder(e.data.arrival, e.data.lobOrder, e.data.out, buffer, end);
      end := WriteChar(' ', buffer, end);
    } else if 6 <= e.logId <= 7 {
      end := WriteLOBOrder(e.data.arrival, e.data.lobOrder, e.data.out, buffer, end);
    } else if 8 <= e.logId <= 9 {
      end := WriteLOBAck(e.data.lobAck, buffer, end);
    } else if e.logId == 10 {
      end := WriteUserAck(e.data.userAck, buffer, end);
    }
  }

  const BUFFER_SIZE := 65536
  const RESERVE := 1024

  method WriteRecord(e: LogElement, buffer: array<char>, at: nat) returns (end: nat)
    requires WellTagged(e) && at + 360 <= buffer.Length
    modifies buffer
    ensures at < end <= at + 360 && buffer[..end] == RecordText(old(buffer[..at]), e)
  {
    hide HeadText, BodyText, WellTagged;
    end := WriteHead(e, buffer, at);
    end := WriteBody(e, buffer, end);
    end := WriteChar('\n', buffer, end);
  }

  // Takes records off the queue until the limit, the end of the queue or the
  // reserve is reached; a limit of at most 180 is always reached first (the
  // logger's own is 100).  `file` is what goes to the output stream, `n` how many
  // records that is.
  method DrainBatch(q: LFQueue<LogElement>, limit: int) returns (busy: bool, file: string, ghost n: nat)
    requires q.Valid() && forall e :: e in q.Contents() ==> WellTagged(e)
    modifies q
    ensures q.Valid() && n <= |old(q.Contents())| && q.Contents() == old(q.Contents())[n..]
    ensures file == BatchText(old(q.Contents())[..n]) && |file| <= 65536
    ensures busy <==> n > 0
    ensures n <= limit || n == 0
    ensures n >= limit || q.Contents() == [] || |file| >= 64512
    ensures 0 <= limit <= 180 ==> n == if limit < |old(q.Contents())| then limit else |old(q.Contents())|
  {
    hide RecordText, Window, WellTagged;
    var buffer := new char[BUFFER_SIZE];
    var offset := 0;
    var end := BUFFER_SIZE - RESERVE;
    var count := 0;
    ghost var all := q.Contents();
    n := 0;
    while count < limit && offset < end
      invariant q.Valid() && count == n <= |all| && q.Contents() == all[n..]
      invariant offset <= BUFFER_SIZE && buffer[..offset] == BatchText(all[..n])
      invariant offset <= 360 * count
      invariant n <= limit || n == 0
      decreases limit - count
    {
      var slot := q.GetNextToRead();
      if slot.None? {
        break;
      }
      var e := q.store[slot.value];
      assert all[..n+1][..n] == all[..n] && all[..n+1][n] == e;
      offset := WriteRecord(e, buffer, offset);
      q.UpdateReadIndex();
      count, n := count + 1, n + 1;
    }
    file := buffer[..offset];
    busy := count > 0;
  }
}
