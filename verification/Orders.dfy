// Messages exchanged by the gateway and the matching engine, and the machine
// integers they are made of (header/order_gateway_struct.h).  Cycle counters
// are not modelled.
module Orders {

  const U32_SIZE := 0x1_0000_0000
  const U64_SIZE := 0x1_0000_0000_0000_0000

  type u8 = x: int | 0 <= x < 256
  type u32 = x: int | 0 <= x < U32_SIZE
  type u64 = x: int | 0 <= x < U64_SIZE
  type i64 = x: int | -(U64_SIZE / 2) <= x < U64_SIZE / 2

  datatype Option<+T> = None | Some(value: T) {
    predicate IsFailure() {
      None?
    }

    function PropagateFailure<U>(): Option<U>
      requires None?
    {
      None
    }

    function Extract(): T
      requires Some?
    {
      value
    }
  }

  // What the gateway hands to the matching engine, and what a price row stores.
  datatype LOBOrder = LOBOrder(systemId: u32, price: real, quantity: u32,
                               tradeId: u8, orderType: char, reqType: char)

  // `price` holds a tick index: that is what every call of Ack passes.
  datatype LOBAck = LOBAck(systemId: u32, price: int, quantity: u32, side: char, status: char)

  datatype BroadCast = BroadCast(systemId: u32, price: real, quantity: u32, side: char, kind: char)

  datatype UserOrder = UserOrder(orderId: u64, traderId: u8, orderType: char, reqType: char,
                                 price: real, quantity: u64)

  datatype UserAck = UserAck(orderId: u32, price: int, quantity: u32, side: char, status: char)

  // A cast to an integer type truncates toward zero.
  function Trunc(x: real): int {
    if x >= 0.0 then x.Floor else -((-x).Floor)
  }

  // The row index of a price.
  function Tick(price: real): int {
    Trunc(price * 10.0)
  }

  function TickOf(o: LOBOrder): int {
    Tick(o.price)
  }

  // Row t holds the prices from t tenths up to, not including, t+1 tenths: the
  // whole part of a price counts, a tenth is one row, a higher price is never
  // in a lower row.
  lemma TickMeans(p: real, t: int)
    requires p >= 0.0
    ensures Tick(p) == t <==> t as real <= p * 10.0 < (t + 1) as real
    ensures Tick(p + 0.1) == Tick(p) + 1
  {
  }

  lemma TickMonotone(p: real, q: real)
    requires p <= q
    ensures Tick(p) <= Tick(q)
  {
  }

  // A cast never leaves the interval between the number and zero by a whole unit.
  lemma TruncMeans(x: real)
    ensures x >= 0.0 ==> Trunc(x) as real <= x < (Trunc(x) + 1) as real
    ensures x <= 0.0 ==> (Trunc(x) - 1) as real < x <= Trunc(x) as real
  {
  }

  // Two prices a tenth or more apart are in different rows; two in rows that
  // differ by one or more are in the order of their rows.
  lemma TicksApart(p: real, q: real)
    requires 0.0 <= p
    ensures q >= p + 0.1 ==> Tick(q) > Tick(p)
    ensures Tick(q) > Tick(p) ==> q > p
  {
    TickMeans(p, Tick(p));
    if q >= p + 0.1 { TickMonotone(p + 0.1, q); } else if q <= p { TickMonotone(q, p); }
  }

  // Any order type other than 'b' is treated as a sell.
  predicate IsBuy(o: LOBOrder) {
    o.orderType == 'b'
  }
}
