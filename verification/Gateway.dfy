// The order gateway (order_gateway/order_gateway.cpp): it numbers incoming
// orders, forwards them to the engine, and translates the engine's
// acknowledgements back.  Log records and cycle counters are left out.
module Gateway {
  import opened Orders
  import opened RingQueue

  // ----- Integer conversions the C++ makes silently -----

  // uint64_t to long long.
  function ToI64(x: u64): i64 {
    if x < U64_SIZE / 2 then x else x - U64_SIZE
  }

  // It reinterprets: no two order ids become one, and only those from 2^63 up
  // change, by 2^64.
  lemma IdsStayApart(x: u64, y: u64)
    ensures ToI64(x) == ToI64(y) <==> x == y
    ensures ToI64(x) == if x < 0x8000_0000_0000_0000 then x else x - 0x1_0000_0000_0000_0000
  {
  }

  // long long to uint32_t.
  function ToU32(x: i64): u32 {
    x % U32_SIZE
  }

  // A client's order id survives the round trip exactly when it fits 32 bits.
  lemma OrderIdSurvives(x: u64)
    ensures ToU32(ToI64(x)) == x % U32_SIZE
    ensures ToU32(ToI64(x)) == x <==> x < U32_SIZE
  {
    if x >= U64_SIZE / 2 {
      ModUnique(x / U32_SIZE - U32_SIZE, x % U32_SIZE, U32_SIZE);
    }
  }

  // The quantity is truncated on the way to the engine.
  function ToLOB(o: UserOrder, sysId: u32): LOBOrder {
    LOBOrder(sysId, o.price, o.quantity % U32_SIZE, o.traderId, o.orderType, o.reqType)
  }

  // The request is the client's order, field by field, under its number; only
  // the quantity is cut.
  lemma RequestFields(o: UserOrder, sysId: u32)
    ensures var r := ToLOB(o, sysId);
      && r.systemId == sysId && r.price == o.price && r.quantity == o.quantity % 0x1_0000_0000
      && r.tradeId == o.traderId && r.orderType == o.orderType && r.reqType == o.reqType
  {
  }

  function Translate(a: LOBAck, orderId: i64): UserAck {
    UserAck(ToU32(orderId), a.price, a.quantity, a.side, a.status)
  }

  // ----- Id translation as a list of the order ids seen so far -----

  function FirstIndex(ids: seq<i64>, o: i64): (k: int)
    ensures k == -1 <==> o !in ids
    ensures k != -1 ==> 0 <= k < |ids| && ids[k] == o && o !in ids[..k]
  {
    if o !in ids then -1
    else if o in ids[..|ids|-1] then
      var k := FirstIndex(ids[..|ids|-1], o);
      assert ids[..|ids|-1][..k] == ids[..k];
      k
    else |ids| - 1
  }

  function OrderIdOf(ids: seq<i64>, sysId: int): i64 {
    if 0 <= sysId < |ids| then ids[sysId] else -1
  }

  // Once seen, an order id and each of its system ids translate the same way
  // whatever is assigned later, and the two translations are inverse.
  lemma TranslationIsStable(ids: seq<i64>, later: seq<i64>, o: i64)
    requires o in ids
    ensures FirstIndex(ids + later, o) == FirstIndex(ids, o)
    ensures OrderIdOf(ids + later, FirstIndex(ids, o)) == o
    ensures forall k :: 0 <= k < |ids| ==> OrderIdOf(ids + later, k) == OrderIdOf(ids, k)
  {
    var k, k' := FirstIndex(ids, o), FirstIndex(ids + later, o);
    assert (ids + later)[k] == o;
  }

  lemma FirstIndexAppend(ids: seq<i64>, o: i64)
    ensures forall x: i64 :: FirstIndex(ids + [o], x) == if x in ids then FirstIndex(ids, x) else if x == o then |ids| else -1
  {
  }

  class OrderGateway {
    const lobOrderQueue: LFQueue<LOBOrder>
    const lobAckQueue: LFQueue<LOBAck>
    const sniperOrderQueue: LFQueue<UserOrder>
    const sniperOrderAck: LFQueue<UserAck>
    const mmOrderQueue: LFQueue<UserOrder>

    var idMap: map<i64, int>
    var lut: seq<i64>
    var nextSystemId: nat

    // The order ids in the order they were numbered.
    ghost function Assigned(): seq<i64>
      reads this
      requires nextSystemId <= |lut|
    {
      lut[..nextSystemId]
    }

    ghost predicate IdsOk()
      reads this
    {
      && nextSystemId <= |lut| <= U32_SIZE / 2
      && (forall o: i64 :: o in idMap <==> o in Assigned())
      && (forall o: i64 :: o in idMap ==> idMap[o] == FirstIndex(Assigned(), o))
    }

    ghost predicate QueuesOk()
      reads lobOrderQueue, lobAckQueue, sniperOrderQueue, sniperOrderAck, mmOrderQueue
    {
      && lobOrderQueue.Valid() && lobAckQueue.Valid() && sniperOrderQueue.Valid()
      && sniperOrderAck.Valid() && mmOrderQueue.Valid()
      && sniperOrderQueue != mmOrderQueue && sniperOrderQueue.store != mmOrderQueue.store
    }

    constructor (laq: LFQueue<LOBOrder>, lobAck: LFQueue<LOBAck>, uo: LFQueue<UserOrder>,
                 uack: LFQueue<UserAck>, mm: LFQueue<UserOrder>, lutSize: nat)
      requires lutSize <= U32_SIZE / 2
      ensures lobOrderQueue == laq && lobAckQueue == lobAck && sniperOrderQueue == uo
      ensures sniperOrderAck == uack && mmOrderQueue == mm
      ensures IdsOk() && Assigned() == [] && |lut| == lutSize
    {
      lobOrderQueue, lobAckQueue, sniperOrderQueue, sniperOrderAck, mmOrderQueue := laq, lobAck, uo, uack, mm;
      idMap := map[];
      lut := seq(lutSize, _ => 0);
      nextSystemId := 0;
    }

    method SystemToOrderId(sysId: int) returns (r: i64)
      ensures r == OrderIdOf(lut, sysId)
      ensures !(0 <= sysId < |lut|) ==> r == -1
      ensures IdsOk() && 0 <= sysId < nextSystemId ==> r == Assigned()[sysId]
    {
      if 0 <= sysId < |lut| {
        return lut[sysId];
      }
      return -1;
    }

    method AssignSystemId(orderId: u64) returns (sysId: nat)
      requires IdsOk() && nextSystemId < |lut|
      modifies this
      ensures IdsOk() && |lut| == old(|lut|)
      ensures sysId == |old(Assigned())| && Assigned() == old(Assigned()) + [ToI64(orderId)]
    {
      var o := ToI64(orderId);
      sysId := nextSystemId;
      FirstIndexAppend(Assigned(), o);
      nextSystemId := nextSystemId + 1;
      if o !in idMap {
        idMap := idMap[o := sysId];
      }
      lut := lut[sysId := o];
      assert Assigned() == old(Assigned()) + [o];
    }

    method GetSystemId(orderId: i64) returns (r: int)
      requires IdsOk()
      ensures r == FirstIndex(Assigned(), orderId)
    {
      return if orderId in idMap then idMap[orderId] else -1;
    }

    // Numbers the order whether or not there is room to forward it.
    method ForwardOrder(order: UserOrder)
      requires IdsOk() && nextSystemId < |lut| && lobOrderQueue.Valid()
      modifies this, lobOrderQueue, lobOrderQueue.store
      ensures IdsOk() && |lut| == old(|lut|) && lobOrderQueue.Valid()
      ensures Assigned() == old(Assigned()) + [ToI64(order.orderId)]
      ensures lobOrderQueue.Contents() == old(lobOrderQueue.Contents())
        + (if |old(lobOrderQueue.Contents())| < lobOrderQueue.store.Length - 1
           then [ToLOB(order, |old(Assigned())|)] else [])
      ensures |old(lobOrderQueue.Contents())| < lobOrderQueue.store.Length - 1 ==>
        var r := lobOrderQueue.Contents()[|old(lobOrderQueue.Contents())|];
        && r.systemId == |old(Assigned())| && r.price == order.price && r.quantity == order.quantity % 0x1_0000_0000
        && r.tradeId == order.traderId && r.orderType == order.orderType && r.reqType == order.reqType
    {
      var sysId := AssignSystemId(order.orderId);
      var write := lobOrderQueue.GetNextToWriteTo();
      lobOrderQueue.Bounded();
      if write.Some? {
        lobOrderQueue.Fill(write.value, ToLOB(order, sysId));
        lobOrderQueue.UpdateWriteIndex();
      }
    }

    // One of the two inputs of the loop in run.
    method PollOrders(q: LFQueue<UserOrder>)
      requires IdsOk() && QueuesOk() && (q == sniperOrderQueue || q == mmOrderQueue)
      requires q.Contents() != [] ==> nextSystemId < |lut|
      modifies this, q, lobOrderQueue, lobOrderQueue.store
      ensures IdsOk() && QueuesOk() && |lut| == old(|lut|)
      ensures old(q.Contents()) == [] ==> q.Contents() == [] && Assigned() == old(Assigned())
                                          && lobOrderQueue.Contents() == old(lobOrderQueue.Contents())
      ensures old(q.Contents()) != [] ==>
        var order := old(q.Contents())[0];
        && q.Contents() == old(q.Contents())[1..]
        && Assigned() == old(Assigned()) + [ToI64(order.orderId)]
        && lobOrderQueue.Contents() == old(lobOrderQueue.Contents())
             + (if |old(lobOrderQueue.Contents())| < lobOrderQueue.store.Length - 1
                then [ToLOB(order, |old(Assigned())|)] else [])
    {
      var read := q.GetNextToRead();
      if read.Some? {
        ForwardOrder(q.store[read.value]);
        q.UpdateReadIndex();
      }
    }

    // The engine's acknowledgement is released only once the user's has been
    // published; with no room for it, nothing moves.
    method PollAcks()
      requires IdsOk() && QueuesOk()
      modifies lobAckQueue, sniperOrderAck, sniperOrderAck.store
      ensures QueuesOk()
      ensures if old(lobAckQueue.Contents()) != [] && |old(sniperOrderAck.Contents())| < sniperOrderAck.store.Length - 1
              then
                var a := old(lobAckQueue.Contents())[0];
                && lobAckQueue.Contents() == old(lobAckQueue.Contents())[1..]
                && sniperOrderAck.Contents() == old(sniperOrderAck.Contents())
                     + [Translate(a, OrderIdOf(lut, a.systemId))]
                && (a.systemId < nextSystemId ==> OrderIdOf(lut, a.systemId) == Assigned()[a.systemId])
              else
                && lobAckQueue.Contents() == old(lobAckQueue.Contents())
                && sniperOrderAck.Contents() == old(sniperOrderAck.Contents())
    {
      hide Window, Translate, FirstIndex;
      var readAck := lobAckQueue.GetNextToRead();
      if readAck.Some? {
        var a := lobAckQueue.store[readAck.value];
        var writeAck := sniperOrderAck.GetNextToWriteTo();
        sniperOrderAck.Bounded();
        if writeAck.Some? {
          var orderId := SystemToOrderId(a.systemId);
          sniperOrderAck.Fill(writeAck.value, Translate(a, orderId));
          sniperOrderAck.UpdateWriteIndex();
          lobAckQueue.UpdateReadIndex();
        }
      }
    }
  }
}
