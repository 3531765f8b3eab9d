// One side of the limit order book (header/lob_struct.h).  The C++ template
// parameter, the number of price rows and LUT_SIZE are constants of the object;
// its vectors are sequence fields.
module OrderBook {
  import opened Orders
  import opened PriceTime
  import opened BookRep

  class LimitedOrderBook {
    const isBuy: bool
    const maxPrice: nat
    const lutSize: nat

    var bestPrice: nat
    var book: seq<Row>
    var lut: seq<Option<Slot>>
    var activeCounts: seq<int>

    ghost predicate Sized()
      reads this
    {
      |book| == maxPrice && |lut| == lutSize && |activeCounts| == maxPrice
    }

    ghost predicate Valid()
      reads this
    {
      Sized() && Coherent(isBuy, book, lut, activeCounts, bestPrice)
    }

    // The resting orders in price-time priority.
    ghost function Resting(): Queue
      reads this
    {
      QueueOf(isBuy, book)
    }

    constructor (isBuy: bool, maxPrice: nat, lutSize: nat)
      ensures this.isBuy == isBuy && this.maxPrice == maxPrice && this.lutSize == lutSize
      ensures Valid() && Resting() == []
      ensures forall p :: 0 <= p < maxPrice ==> book[p] == []
    {
      this.isBuy, this.maxPrice, this.lutSize := isBuy, maxPrice, lutSize;
      book := seq(maxPrice, _ => []);
      activeCounts := seq(maxPrice, _ => 0);
      lut := seq(lutSize, _ => None);
      bestPrice := if isBuy then 0 else maxPrice;
      new;
      EmptyBand(isBuy, book, 0, maxPrice);
    }

    // Moves the cursor over rows without live orders until it finds one or
    // reaches the sentinel.
    method GlideBestPrice()
      requires Sized() && bestPrice < maxPrice
      requires forall p :: 0 <= p < maxPrice && Better(isBuy, p, bestPrice) ==> activeCounts[p] == 0
      modifies this`bestPrice
      ensures CursorOk(isBuy, activeCounts, bestPrice)
    {
      if isBuy {
        while bestPrice > 0 && activeCounts[bestPrice] == 0
          invariant bestPrice < maxPrice
          invariant forall p :: bestPrice < p < maxPrice ==> activeCounts[p] == 0
        {
          bestPrice := bestPrice - 1;
        }
      } else {
        while bestPrice < maxPrice && activeCounts[bestPrice] == 0
          invariant bestPrice <= maxPrice
          invariant forall p :: 0 <= p < bestPrice ==> activeCounts[p] == 0
        {
          bestPrice := bestPrice + 1;
        }
      }
    }

    method PeekOrder(systemId: u32) returns (r: Option<Slot>)
      requires Valid()
      ensures r.Some? ==> IsSlot(book, r.value) && Find(Resting(), systemId) == Some(book[r.value.row][r.value.col])
                          && systemId < lutSize && lut[systemId] == r
      ensures r.None? ==> Find(Resting(), systemId) == None
    {
      LutIsFind(isBuy, book, lut, systemId);
      if systemId >= lutSize || lut[systemId].None? {
        return None;
      }
      return lut[systemId];
    }

    // None stands for the null pointer.
    method GetOrdersAtPrice(price: nat) returns (r: Option<Row>)
      requires Valid()
      ensures r.None? <==> price >= maxPrice
      ensures r.Some? ==> r.value == book[price] && Live(r.value) == OrdersAt(Resting(), price)
    {
      if price < maxPrice {
        RowIsStretch(isBuy, book, lut, price);
      }
      if price >= maxPrice {
        return None;
      }
      return Some(book[price]);
    }

    // An id that is already live, or a quantity of zero, leaves the structures
    // out of step: nothing else does.
    method CreateOrder(order: LOBOrder)
      requires Valid() && 0 <= TickOf(order) < maxPrice && order.systemId < lutSize
      modifies this
      ensures Sized()
      ensures Valid() <==> old(Find(Resting(), order.systemId)).None? && order.quantity > 0
      ensures Valid() ==> Resting() == Insert(isBuy, old(Resting()), order)
      ensures book == Push(old(book), TickOf(order), order)
      ensures order.price >= 0.0 ==> TickOf(order) as real <= order.price * 10.0 < (TickOf(order) + 1) as real
    {
      hide Coherent, QueueOf, Insert, Find;
      var p := TickOf(order);
      if order.price >= 0.0 { TickMeans(order.price, p); }
      CoherentFind(isBuy, book, lut, activeCounts, bestPrice, order.systemId);
      ghost var was := lut[order.systemId];
      if was.None? && order.quantity > 0 {
        CreateCoherent(isBuy, book, lut, activeCounts, bestPrice, order);
      }
      if isBuy {
        if bestPrice < p { bestPrice := p; }
      } else {
        if bestPrice > p { bestPrice := p; }
      }
      book := book[p := book[p] + [order]];
      lut := lut[order.systemId := Some(Slot(p, |book[p]| - 1))];
      activeCounts := activeCounts[p := activeCounts[p] + 1];
      if order.quantity == 0 {
        TombstoneIncoherent(isBuy, book, lut, activeCounts, bestPrice, order.systemId);
      } else if was.Some? {
        DuplicateIncoherent(isBuy, book, lut, activeCounts, bestPrice, was.value, Slot(p, |book[p]| - 1));
      }
    }

    // Two calls leave the structures out of step.  An update to quantity zero
    // makes a tombstone that keeps its lookup entry and its place in the
    // counter; an increase whose price is at another tick is appended to the
    // old row all the same.
    method UpdateOrderQuantity(order: LOBOrder)
      requires Valid()
      modifies this
      ensures Sized()
      ensures var e := old(Find(Resting(), order.systemId));
        Valid() <==> e.None? ||
                     (order.quantity > 0 && (order.quantity <= e.value.quantity || TickOf(order) == TickOf(e.value)))
      ensures Valid() ==> Resting() == Requantify(isBuy, old(Resting()), order)
      ensures bestPrice == old(bestPrice) && activeCounts == old(activeCounts)
      ensures var e := old(Find(Resting(), order.systemId));
        if e.None? || e.value.quantity == order.quantity then book == old(book) && lut == old(lut)
        else
          && order.systemId < lutSize && old(lut)[order.systemId].Some?
          && var s := old(lut)[order.systemId].value;
          && IsSlot(old(book), s)
          && (order.quantity < e.value.quantity ==>
                book == Put(old(book), s.row, s.col, e.value.(quantity := order.quantity)) && lut == old(lut))
          && (order.quantity > e.value.quantity ==>
                book == Push(Bury(old(book), s.row, s.col), s.row, order)
                && lut == old(lut)[order.systemId := Some(Slot(s.row, |old(book)[s.row]|))])
    {
      hide Coherent, QueueOf, Insert, Remove, Find, SetQuantity;
      CoherentFind(isBuy, book, lut, activeCounts, bestPrice, order.systemId);
      if order.systemId >= lutSize {
        return;
      }
      var s := lut[order.systemId];
      if s.Some? {
        var p, c := s.value.row, s.value.col;
        var newQuantity := order.quantity;
        var oldQuantity := book[p][c].quantity;
        if newQuantity == oldQuantity {
          return;
        }
        if newQuantity < oldQuantity {
          if newQuantity > 0 {
            ShrinkCoherent(isBuy, book, lut, activeCounts, bestPrice, p, c, newQuantity);
          }
          book := book[p := book[p][c := book[p][c].(quantity := newQuantity)]];
          if newQuantity == 0 {
            TombstoneIncoherent(isBuy, book, lut, activeCounts, bestPrice, order.systemId);
          }
        } else {
          if TickOf(order) == p {
            GrowCoherent(isBuy, book, lut, activeCounts, bestPrice, p, c, order);
          }
          book := book[p := book[p][c := book[p][c].(quantity := 0)]];
          book := book[p := book[p] + [order]];
          lut := lut[order.systemId := Some(Slot(p, |book[p]| - 1))];
          if TickOf(order) != p {
            MisplacedIncoherent(isBuy, book, lut, activeCounts, bestPrice, p, |book[p]| - 1);
          }
        }
      }
    }

    // `was` is the quantity the entry had when the structures last agreed: a
    // sweep takes the last of it before it calls this.
    method DeleteOrder(systemId: u32, ghost was: u32)
      requires Sized() && systemId < lutSize && lut[systemId].Some? && IsSlot(book, lut[systemId].value) && was > 0
      requires var s := lut[systemId].value;
        Coherent(isBuy, Put(book, s.row, s.col, book[s.row][s.col].(quantity := was)), lut, activeCounts, bestPrice)
      modifies this
      ensures Valid()
      ensures var s := old(lut[systemId].value);
        && book == Bury(old(book), s.row, s.col)
        && Resting() == Remove(QueueOf(isBuy, Put(old(book), s.row, s.col, old(book[s.row][s.col]).(quantity := was))), systemId)
    {
      hide LutOk, CountsOk, QueueOf, Remove;
      if systemId > lutSize {
        return;
      }
      var order := lut[systemId];
      var p, c := order.value.row, order.value.col;
      ghost var before := Put(book, p, c, book[p][c].(quantity := was));
      SlotIsRight(isBuy, before, lut, activeCounts, bestPrice, systemId);
      BuryCoherent(isBuy, before, lut, activeCounts, bestPrice, p, c);
      assert before[p][c := before[p][c].(quantity := 0)] == book[p][c := book[p][c].(quantity := 0)];
      assert Bury(before, p, c) == Bury(book, p, c);

      book := book[p := book[p][c := book[p][c].(quantity := 0)]];
      lut := lut[systemId := None];
      activeCounts := activeCounts[p := activeCounts[p] - 1];
      if activeCounts[p] == 0 && p == bestPrice {
        GlideBestPrice();
      }
    }

    method GetOptimalPrice() returns (r: nat)
      requires Valid()
      ensures r == bestPrice
      ensures r == if Resting() != [] then TickOf(Resting()[0]) else if isBuy then 0 else maxPrice
    {
      CursorIsHead(isBuy, book, lut, activeCounts, bestPrice);
      return bestPrice;
    }
  }
}
