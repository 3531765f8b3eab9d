// The matching engine (matching/matching.cpp) over two order books.  Its two
// copies of the sweep, one per side, are one method here.  Log records, cycle
// counters and latency vectors are left out.
module MatchingEngine {
  import opened Orders
  import opened PriceTime
  import opened BookRep
  import opened OrderBook
  import opened SweepLoop
  import opened Market
  import opened AckReplay
  import opened RingQueue

  // ----- One hit, on the rows -----

  // Having hit `fills` of level (q, quantity), what remains to be done is level (q', quantity').
  ghost predicate LevelSoFar(q: Queue, tick: int, quantity: u32, fills: seq<Fill>, q': Queue, quantity': u32) {
    var t := LevelMatch(q', tick, quantity');
    LevelMatch(q, tick, quantity) == Sweep(fills + t.fills, t.left, t.rest)
  }

  lemma SoFarStart(q: Queue, tick: int, quantity: u32)
    ensures LevelSoFar(q, tick, quantity, [], q, quantity)
  {
    var t := LevelMatch(q, tick, quantity);
  }

  lemma SoFarStep(q: Queue, tick: int, quantity: u32, fills: seq<Fill>, q1: Queue, quantity1: u32,
                  f: Fill, q2: Queue, quantity2: u32)
    requires LevelSoFar(q, tick, quantity, fills, q1, quantity1)
    requires LevelSoFar(q1, tick, quantity1, [f], q2, quantity2)
    ensures LevelSoFar(q, tick, quantity, fills + [f], q2, quantity2)
  {
    hide LevelMatch;
    var t := LevelMatch(q2, tick, quantity2);
  }

  lemma SoFarEnd(q: Queue, tick: int, quantity: u32, fills: seq<Fill>, q': Queue, quantity': u32)
    requires LevelSoFar(q, tick, quantity, fills, q', quantity')
    requires LevelMatch(q', tick, quantity') == Sweep([], quantity', q')
    ensures LevelMatch(q, tick, quantity) == Sweep(fills, quantity', q')
  {
  }

  lemma LevelStep(x: LOBOrder, back: Queue, quantity: u32)
    requires x.quantity > 0 && quantity > 0
    ensures var trade := Least(x.quantity, quantity);
      var t := LevelMatch(One(x.(quantity := x.quantity - trade)) + back, TickOf(x), quantity - trade);
      LevelMatch([x] + back, TickOf(x), quantity) == Sweep([Fill(x, trade)] + t.fills, t.left, t.rest)
  {
    assert [] + back == back;
  }

  // The entry of the best row that the inner loop stands on is the head of the
  // list, and taking from it is one step of the level.
  lemma HitIsHead(isBuy: bool, rows: seq<Row>, p: nat, i: nat, quantity: u32)
    requires p < |rows| && i < |rows[p]| && rows[p][i].quantity > 0 && quantity > 0 && TickOf(rows[p][i]) == p
    requires Above(isBuy, rows, p) == [] && Live(rows[p][..i]) == []
    ensures var x := rows[p][i];
      var trade := Least(x.quantity, quantity);
      var rows' := Put(rows, p, i, x.(quantity := x.quantity - trade));
      && Above(isBuy, rows', p) == []
      && LevelSoFar(QueueOf(isBuy, rows), p, quantity, [Fill(x, trade)], QueueOf(isBuy, rows'), quantity - trade)
  {
    hide LevelMatch, Live, Band, QueueOf, Tick;
    var x := rows[p][i];
    var x' := x.(quantity := x.quantity - Least(x.quantity, quantity));
    var back := Back(isBuy, rows, p, i);
    CutSlot(isBuy, rows, p, i, x');
    assert [] + One(x') + back == One(x') + back;
    assert [] + One(x) + back == [x] + back;
    LevelStep(x, back, quantity);
    BandFrame(isBuy, rows, p, rows[p][i := x'], 0, Level(isBuy, |rows|, p));
  }

  // Nothing is queued in front of the row the cursor stands on.
  lemma BestRow(isBuy: bool, rows: seq<Row>, lut: seq<Option<Slot>>, counts: seq<int>, best: nat)
    requires Coherent(isBuy, rows, lut, counts, best) && best < |rows|
    ensures Above(isBuy, rows, best) == [] && Live(rows[best][..0]) == []
  {
    EmptyBand(isBuy, rows, 0, Level(isBuy, |rows|, best));
  }

  // A book that is not empty has an order in the row of its cursor.
  lemma BestRowNonempty(isBuy: bool, rows: seq<Row>, lut: seq<Option<Slot>>, counts: seq<int>, best: nat)
    requires Coherent(isBuy, rows, lut, counts, best) && QueueOf(isBuy, rows) != []
    ensures best < |rows| && rows[best] != []
  {
    CursorIsHead(isBuy, rows, lut, counts, best);
  }

  lemma DeadPrefix(row: Row, i: nat)
    requires i < |row| && Live(row[..i]) == [] && row[i].quantity == 0
    ensures Live(row[..i+1]) == []
  {
    assert row[..i+1] == row[..i] + [row[i]];
    LiveAppend(row[..i], [row[i]]);
    LiveOne(row[i]);
  }

  // Past the end of a dead best row there is nothing left at its tick.
  lemma LevelDone(isBuy: bool, rows: seq<Row>, lut: seq<Option<Slot>>, counts: seq<int>, best: int, p: nat, quantity: u32)
    requires Coherent(isBuy, rows, lut, counts, best)
    requires p < |rows| && Above(isBuy, rows, p) == [] && Live(rows[p][..|rows[p]|]) == []
    ensures LevelMatch(QueueOf(isBuy, rows), p, quantity) == Sweep([], quantity, QueueOf(isBuy, rows))
  {
    assert rows[p][..|rows[p]|] == rows[p];
    CutRow(isBuy, rows, p, rows[p]);
    var below := Below(isBuy, rows, p);
    BandElements(isBuy, rows, lut, Level(isBuy, |rows|, p) + 1, |rows|);
    if below != [] { assert below[0] in below; }
  }

  lemma InvSides(maxPrice: nat, lutSize: nat, m: Market)
    requires Inv(maxPrice, lutSize, m)
    ensures Ok(true, m.bids) && Ok(false, m.asks)
  {
  }

  lemma KeepLast(a: LOBAck, room: bool)
    ensures Keep([a], [room]) == if room then [a] else []
  {
    assert [a][1..] == [];
  }

  lemma ThenDid(acks0: seq<LOBAck>, casts0: seq<BroadCast>, a: Outcome, b: Outcome, acks: seq<LOBAck>, casts: seq<BroadCast>)
    requires acks == acks0 + a.acks + b.acks && casts == casts0 + a.casts + b.casts
    ensures acks == acks0 + Then(a, b).acks && casts == casts0 + Then(a, b).casts
  {
  }

  lemma SelfPut(rows: seq<Row>, p: nat, c: nat)
    requires p < |rows| && c < |rows[p]|
    ensures Put(rows, p, c, rows[p][c].(quantity := rows[p][c].quantity)) == rows
  {
    assert rows[p][c := rows[p][c]] == rows[p];
  }

  lemma NoFillsYet(o: LOBOrder, q: Queue, tick: int)
    ensures LevelSoFar(q, tick, o.quantity, [], q, o.quantity) && FillAcks(o, []) == []
  {
    SoFarStart(q, tick, o.quantity);
  }

  lemma LevelOver(q: Queue, tick: int)
    ensures LevelMatch(q, tick, 0) == Sweep([], 0, q)
  {
  }

  class MatchingEngine {
    const maxPrice: nat
    const lutSize: nat
    const buyBook: LimitedOrderBook
    const sellBook: LimitedOrderBook

    // Everything put into the acknowledgement and broadcast queues, and how much
    // of the former the gateway has not read yet, out of `ackSlots` places.
    const ackSlots: nat
    var acks: seq<LOBAck>
    var queued: nat
    var casts: seq<BroadCast>

    // Every acknowledgement the engine made, and whether it was sent or dropped.
    ghost var offered: seq<LOBAck>
    ghost var sent: seq<bool>

    ghost predicate Sides() {
      && buyBook.isBuy && !sellBook.isBuy
      && buyBook.maxPrice == maxPrice == sellBook.maxPrice
      && buyBook.lutSize == lutSize == sellBook.lutSize
    }

    ghost predicate Accounted()
      reads `acks, `queued, `offered, `sent
    {
      && |sent| == |offered| && acks == Keep(offered, sent)
      && queued <= ackSlots && queued <= |acks|
      && (forall i :: 0 <= i < |sent| && !sent[i] ==> |acks| >= ackSlots)
    }

    ghost function TheMarket(): Market
      reads buyBook, sellBook
    {
      Market(buyBook.Resting(), sellBook.Resting(), |buyBook.book| > 0 && buyBook.book[0] != [])
    }

    ghost predicate Valid()
      reads this, buyBook, sellBook
    {
      && Sides() && buyBook.Valid() && sellBook.Valid()
      && Inv(maxPrice, lutSize, TheMarket())
      && Accounted()
    }

    constructor (maxPrice: nat, lutSize: nat, ackSlots: nat)
      ensures this.maxPrice == maxPrice && this.lutSize == lutSize && this.ackSlots == ackSlots
      ensures Valid() && TheMarket() == EMPTY && offered == [] && casts == []
      ensures fresh(buyBook) && fresh(sellBook)
    {
      hide QueueOf, Coherent, Inv;
      this.maxPrice, this.lutSize, this.ackSlots := maxPrice, lutSize, ackSlots;
      var b := new LimitedOrderBook(true, maxPrice, lutSize);
      var s := new LimitedOrderBook(false, maxPrice, lutSize);
      buyBook, sellBook := b, s;
      acks, queued, casts, offered, sent := [], 0, [], [], [];
      EmptyInv(maxPrice, lutSize);
    }

    function BookOf(isBuy: bool): (b: LimitedOrderBook)
    {
      if isBuy then buyBook else sellBook
    }

    // One look for a free slot; the gateway may have read any number of
    // acknowledgements since the last one.
    method AckRoom() returns (room: bool)
      modifies this`queued
      ensures queued <= old(queued) && (room <==> queued < ackSlots)
    {
      var read: nat :| read <= queued;
      queued := queued - read;
      room := queued < ackSlots;
    }

    // Looks for a free slot twice, then drops the message: that happens only if
    // the queue was full on entry and still is.
    method Ack(order: LOBOrder, tick: int, status: char, quantity: u32)
      requires Accounted()
      modifies this`acks, this`offered, this`sent, this`queued
      ensures Accounted()
      ensures var a := LOBAck(order.systemId, tick, quantity, order.orderType, status);
        && offered == old(offered) + [a]
        && if acks == old(acks) + [a] then sent == old(sent) + [true]
           else acks == old(acks) && sent == old(sent) + [false] && old(queued) >= ackSlots && queued == ackSlots
    {
      var a := LOBAck(order.systemId, tick, quantity, order.orderType, status);
      var room := AckRoom();
      if !room {
        room := AckRoom();
      }
      KeepAppend(offered, sent, [a], [room]);
      KeepLast(a, room);
      if room {
        acks := acks + [a];
        queued := queued + 1;
      }
      offered, sent := offered + [a], sent + [room];
    }

    // Nothing sent is taken back.
    twostate predicate Kept()
      reads this
    {
      old(acks) <= acks && old(sent) <= sent
    }

    // Waits for space, so nothing is lost here.
    method ChangeInQuantity(systemId: u32, price: real, quantity: u32, kind: char, side: char)
      modifies this`casts
      ensures casts == old(casts) + [BroadCast(systemId, price, quantity, side, kind)]
    {
      casts := casts + [BroadCast(systemId, price, quantity, side, kind)];
    }

    // Both sides of a trade, the incoming one first.
    method AckTrade(order: LOBOrder, ord: LOBOrder, p: nat, trade: u32)
      requires Accounted() && TickOf(ord) == p
      modifies this`acks, this`offered, this`sent, this`queued
      ensures Accounted() && Kept() && offered == old(offered) + HitAcks(order, Fill(ord, trade))
    {
      hide Tick;
      if order.tradeId == 1 {
        Ack(order, p, 'T', trade);
      }
      if ord.tradeId == 1 {
        Ack(ord, p, 'T', trade);
      }
    }

    // The body of the inner loop: trade with the entry in slot (p, i).
    method HitOrder(opp: LimitedOrderBook, order: LOBOrder, p: nat, i: nat) returns (order': LOBOrder)
      requires opp.Valid() && Accounted() && order.quantity > 0
      requires p < opp.maxPrice && i < |opp.book[p]| && opp.book[p][i].quantity > 0
      modifies opp, this`acks, this`offered, this`sent, this`queued
      ensures opp.Valid() && Accounted() && Kept()
      ensures var x := old(opp.book[p][i]);
        var trade := Least(x.quantity, order.quantity);
        && order' == order.(quantity := order.quantity - trade)
        && opp.book == Put(old(opp.book), p, i, x.(quantity := x.quantity - trade))
        && offered == old(offered) + HitAcks(order, Fill(x, trade))
    {
      hide Coherent, QueueOf, Tick, HitAcks, Accounted;
      var x := opp.book[p][i];
      SlotIsMapped(opp.isBuy, opp.book, opp.lut, opp.activeCounts, opp.bestPrice, p, i);
      var trade := if x.quantity < order.quantity then x.quantity else order.quantity;
      SameAcks(order.(quantity := order.quantity - trade), order, Fill(x, trade));
      order' := order.(quantity := order.quantity - trade);
      if x.quantity > trade {
        ShrinkCoherent(opp.isBuy, opp.book, opp.lut, opp.activeCounts, opp.bestPrice, p, i, x.quantity - trade);
      }
      ghost var before := opp.book;
      opp.book := opp.book[p := opp.book[p][i := x.(quantity := x.quantity - trade)]];
      AckTrade(order', x, p, trade);
      if opp.book[p][i].quantity == 0 {
        assert opp.book[p][i := opp.book[p][i].(quantity := x.quantity)] == before[p];
        assert Put(opp.book, p, i, opp.book[p][i].(quantity := x.quantity)) == before;
        assert opp.book[p][i := opp.book[p][i].(quantity := 0)] == opp.book[p];
        assert Bury(opp.book, p, i) == opp.book;
        opp.DeleteOrder(x.systemId, x.quantity);
      }
    }

    // The inner loop, over the row the far cursor points at.
    method SweepLevel(opp: LimitedOrderBook, order: LOBOrder, best: nat)
      returns (order': LOBOrder, ghost fills: seq<Fill>)
      requires opp.Valid() && Accounted() && order.quantity > 0
      requires best == opp.bestPrice && best < opp.maxPrice
      modifies opp, this`acks, this`offered, this`sent, this`queued
      ensures opp.Valid() && Accounted() && Kept()
      ensures var h := LevelMatch(old(opp.Resting()), best, order.quantity);
        order' == order.(quantity := h.left) && fills == h.fills && opp.Resting() == h.rest
      ensures offered == old(offered) + FillAcks(order, fills)
      ensures forall p :: 0 <= p < opp.maxPrice ==> (opp.book[p] == [] <==> old(opp.book[p]) == [])
    {
      hide Coherent, QueueOf, Tick, Band, LevelMatch, FillAcks, Live, LevelSoFar, HitAcks, Accounted;
      BestRow(opp.isBuy, opp.book, opp.lut, opp.activeCounts, opp.bestPrice);
      order' := order;
      fills := [];
      var n := |opp.book[best]|;
      NoFillsYet(order, opp.Resting(), best);
      for i := 0 to n
        invariant opp.Valid() && Accounted() && Kept() && order'.quantity > 0 && order' == order.(quantity := order'.quantity)
        invariant |opp.book[best]| == n
        invariant Above(opp.isBuy, opp.book, best) == [] && Live(opp.book[best][..i]) == []
        invariant LevelSoFar(old(opp.Resting()), best, order.quantity, fills, opp.Resting(), order'.quantity)
        invariant offered == old(offered) + FillAcks(order, fills)
        invariant forall p :: 0 <= p < opp.maxPrice ==> (opp.book[p] == [] <==> old(opp.book[p]) == [])
      {
        if opp.book[best][i].quantity == 0 {
          DeadPrefix(opp.book[best], i);
          continue;
        }
        ghost var row, q, was := opp.book[best], opp.Resting(), order'.quantity;
        ghost var f := Fill(row[i], Least(row[i].quantity, was));
        SlotIsMapped(opp.isBuy, opp.book, opp.lut, opp.activeCounts, opp.bestPrice, best, i);
        HitIsHead(opp.isBuy, opp.book, best, i, was);
        order' := HitOrder(opp, order', best, i);
        SoFarStep(old(opp.Resting()), best, order.quantity, fills, q, was, f, opp.Resting(), order'.quantity);
        FillAcksAppend(order, fills, f);
        SameAcks(order, order.(quantity := was), f);
        fills := fills + [f];
        if order'.quantity == 0 {
          break;
        }
        assert opp.book[best][..i] == row[..i];
        DeadPrefix(opp.book[best], i);
      }
      if order'.quantity > 0 {
        LevelDone(opp.isBuy, opp.book, opp.lut, opp.activeCounts, opp.bestPrice, best, order'.quantity);
      } else {
        LevelOver(opp.Resting(), best);
      }
      SoFarEnd(old(opp.Resting()), best, order.quantity, fills, opp.Resting(), order'.quantity);
    }

    // Row 0 of this side holds an entry, live or not.
    ghost predicate ZeroRow(isBuy: bool)
      reads BookOf(isBuy)
    {
      |BookOf(isBuy).book| > 0 && BookOf(isBuy).book[0] != []
    }

    // The body of the outer loop.
    method SweepPass(isBuy: bool, order: LOBOrder) returns (order': LOBOrder, more: bool, ghost h: Sweep)
      requires Sides() && BookOf(!isBuy).Valid() && Accounted() && order.quantity > 0
      modifies BookOf(!isBuy), this`acks, this`offered, this`sent, this`queued
      ensures BookOf(!isBuy).Valid() && Accounted() && Kept()
      ensures OnePass(!isBuy, old(BookOf(!isBuy).Resting()), old(ZeroRow(!isBuy)), TickOf(order), order.quantity)
           == if more then Next(h) else Exit
      ensures more ==> order' == order.(quantity := h.left) && BookOf(!isBuy).Resting() == h.rest
                       && offered == old(offered) + FillAcks(order, h.fills)
      ensures !more ==> order' == order && BookOf(!isBuy).Resting() == old(BookOf(!isBuy).Resting())
                        && offered == old(offered)
      ensures ZeroRow(!isBuy) == old(ZeroRow(!isBuy))
    {
      hide Coherent, QueueOf, FillAcks, Tick, Accounted;
      var opp := BookOf(!isBuy);
      order', more, h := order, false, Sweep([], order.quantity, []);
      var best := opp.GetOptimalPrice();
      var price := TickOf(order);
      if isBuy {
        if price < best { return; }
      } else {
        if price > best { return; }
      }
      if opp.Resting() != [] {
        BestRowNonempty(opp.isBuy, opp.book, opp.lut, opp.activeCounts, opp.bestPrice);
      }
      var level := opp.GetOrdersAtPrice(best);
      if level.None? || level.value == [] {
        return;
      }
      more := true;
      ghost var fills;
      order', fills := SweepLevel(opp, order, best);
      h := Sweep(fills, order'.quantity, opp.Resting());
    }

    // The outer loop, which ends because this is not the spinning case.
    method AggressiveMatch(isBuy: bool, order: LOBOrder) returns (order': LOBOrder, ghost fills: seq<Fill>)
      requires Sides() && BookOf(!isBuy).Valid() && Accounted()
      requires Ok(!isBuy, BookOf(!isBuy).Resting())
      requires !Spins(!isBuy, BookOf(!isBuy).Resting(), ZeroRow(!isBuy), TickOf(order), order.quantity)
      modifies BookOf(!isBuy), this`acks, this`offered, this`sent, this`queued
      ensures BookOf(!isBuy).Valid() && Accounted() && Kept()
      ensures Match(!isBuy, old(BookOf(!isBuy).Resting()), TickOf(order), order.quantity)
           == Sweep(fills, order'.quantity, BookOf(!isBuy).Resting())
      ensures order' == order.(quantity := order'.quantity)
      ensures offered == old(offered) + FillAcks(order, fills)
      ensures ZeroRow(!isBuy) == old(ZeroRow(!isBuy))
    {
      hide QueueOf, FillAcks, Tick, Match, OnePass, Spins, SweptSoFar, Ok, Coherent, Accounted;
      var opp := BookOf(!isBuy);
      ghost var q0, zero, limit := opp.Resting(), ZeroRow(!isBuy), TickOf(order);
      order', fills := order, [];
      SweptStart(!isBuy, q0, limit, order.quantity);
      NoFillsYet(order, q0, limit);
      while order'.quantity > 0
        invariant opp.Valid() && Accounted() && Kept() && order' == order.(quantity := order'.quantity)
        invariant SweptSoFar(!isBuy, q0, limit, order.quantity, fills, opp.Resting(), order'.quantity)
        invariant Ok(!isBuy, opp.Resting())
        invariant !Spins(!isBuy, opp.Resting(), zero, limit, order'.quantity)
        invariant offered == old(offered) + FillAcks(order, fills)
        invariant ZeroRow(!isBuy) == zero
        decreases order'.quantity
      {
        ghost var q, was := opp.Resting(), order';
        ghost var h;
        var more;
        order', more, h := SweepPass(isBuy, order');
        if !more {
          break;
        }

        SweptPass(!isBuy, q, zero, limit, was.quantity);
        SweptStep(!isBuy, q0, limit, order.quantity, fills, q, was.quantity, h.fills, opp.Resting(), order'.quantity);
        FillAcksAlike(was, order, h.fills);
        FillAcksConcat(order, fills, h.fills);
        fills := fills + h.fills;
      }
      if order'.quantity == 0 {
        PassOver(!isBuy, opp.Resting(), zero, limit);
      }
      SweptExit(!isBuy, q0, limit, order.quantity, fills, opp.Resting(), order'.quantity, zero);
    }

    // From a market and message history to the present ones by this outcome.
    ghost predicate Did(offered0: seq<LOBAck>, casts0: seq<BroadCast>, out: Outcome)
      reads this, buyBook, sellBook
    {
      TheMarket() == out.market && offered == offered0 + out.acks && casts == casts0 + out.casts
    }

    // The second half of create_order.
    method RestOrder(order: LOBOrder, isBuy: bool)
      requires Sides() && buyBook.Valid() && sellBook.Valid() && Accounted()
      requires isBuy == IsBuy(order) && order.quantity > 0
      requires 0 <= TickOf(order) < maxPrice && order.systemId < lutSize
      requires Find(BookOf(isBuy).Resting(), order.systemId).None?
      modifies this, BookOf(isBuy)
      ensures buyBook.Valid() && sellBook.Valid() && Accounted() && Kept()
      ensures TheMarket() == Rest(old(TheMarket()), order)
      ensures offered == old(offered) + AckFor(order, TickOf(order), 'N', order.quantity)
      ensures casts == old(casts) + [CastFor(order, 'N', isBuy)]
    {
      hide QueueOf, Tick, Coherent, Insert, Find, Accounted;
      if isBuy {
        buyBook.CreateOrder(order);
      } else {
        sellBook.CreateOrder(order);
      }
      ChangeInQuantity(order.systemId, order.price, order.quantity, 'N', if isBuy then 'B' else 'S');
      if order.tradeId == 1 {
        Ack(order, TickOf(order), 'N', order.quantity);
      }
    }

    // Matches the order and rests what is left of it.
    method CreateOrder(order: LOBOrder, isBuy: bool) returns (rem: LOBOrder)
      requires Valid() && isBuy == IsBuy(order) && CanCreate(maxPrice, lutSize, TheMarket(), order)
      modifies this, buyBook, sellBook
      ensures Valid() && Kept() && Did(old(offered), old(casts), Create(old(TheMarket()), order))
      ensures rem == order.(quantity := Match(!isBuy, Side(old(TheMarket()), !isBuy), TickOf(order), order.quantity).left)
    {
      hide QueueOf, FillAcks, Tick, Match, Total, Ok, Coherent, Insert, Find, Inv, Rest, Accounted;
      ghost var m := TheMarket();
      CreateInv(maxPrice, lutSize, m, order);
      InvSides(maxPrice, lutSize, m);
      ghost var fills;
      rem, fills := AggressiveMatch(isBuy, order);
      if rem.quantity > 0 {
        RestOrder(rem, isBuy);
      }
    }

    // `order` is a reference in the C++: either to the request, or (`alias`) to
    // a slot of the book, whose quantity the book has zeroed by the time the
    // messages are written.
    method DeleteOrder(order: LOBOrder, alias: Option<Slot>, isBuy: bool)
      requires Valid() && Find(BookOf(isBuy).Resting(), order.systemId).Some?
      requires alias.Some? ==> order.systemId < lutSize && BookOf(isBuy).lut[order.systemId] == alias
                               && IsSlot(BookOf(isBuy).book, alias.value)
                               && order == BookOf(isBuy).book[alias.value.row][alias.value.col]
      modifies this, BookOf(isBuy)
      ensures Valid() && Kept()
      ensures Did(old(offered), old(casts),
                  Cancel(old(TheMarket()), isBuy, order.systemId, if alias.Some? then order.(quantity := 0) else order))
    {
      hide QueueOf, Tick, Coherent, Remove, Find, Inv, Accounted;
      var book := BookOf(isBuy);
      CancelInv(maxPrice, lutSize, TheMarket(), isBuy, order.systemId, order);
      CoherentFind(isBuy, book.book, book.lut, book.activeCounts, book.bestPrice, order.systemId);
      ghost var s := book.lut[order.systemId].value;
      SelfPut(book.book, s.row, s.col);
      book.DeleteOrder(order.systemId, book.book[s.row][s.col].quantity);

      var seen := if alias.Some? then book.book[alias.value.row][alias.value.col] else order;
      ChangeInQuantity(seen.systemId, seen.price, seen.quantity, 'D', if isBuy then 'B' else 'S');
      if seen.tradeId == 1 {
        Ack(seen, TickOf(seen), 'D', seen.quantity);
      }
    }

    // The quantity branch of updateOrder.  A quantity of zero is reported like
    // any other and leaves the book of that side out of step.
    method ChangeQuantity(order: LOBOrder, isBuy: bool, ghost e: LOBOrder)
      requires Valid() && isBuy == IsBuy(order)
      requires Find(BookOf(isBuy).Resting(), order.systemId) == Some(e) && order.price == e.price && order.quantity != e.quantity
      modifies this, BookOf(isBuy)
      ensures Accounted() && Kept()
      ensures Valid() <==> order.quantity > 0
      ensures Valid() ==> TheMarket() == WithSide(old(TheMarket()), isBuy, Requantify(isBuy, old(BookOf(isBuy).Resting()), order))
      ensures offered == old(offered) + AckFor(order, TickOf(order), 'U', order.quantity)
      ensures casts == old(casts) + [CastFor(order, 'U', isBuy)]
    {
      hide QueueOf, Coherent, Find, Inv, Requantify, Accounted;
      if order.quantity > 0 {
        RequantifyInv(maxPrice, lutSize, TheMarket(), order, e);
      }
      if isBuy {
        buyBook.UpdateOrderQuantity(order);
      } else {
        sellBook.UpdateOrderQuantity(order);
      }
      ChangeInQuantity(order.systemId, order.price, order.quantity, 'U', if isBuy then 'B' else 'S');
      if order.tradeId == 1 {
        Ack(order, TickOf(order), 'U', order.quantity);
      }
    }

    // What the lookup finds is not empty.
    lemma PositiveWhenFound(isBuy: bool, id: u32)
      requires BookOf(isBuy).Valid()
      ensures var e := Find(BookOf(isBuy).Resting(), id); e.Some? ==> e.value.quantity > 0
    {
      hide QueueOf, Find;
      var book := BookOf(isBuy);
      CoherentFind(book.isBuy, book.book, book.lut, book.activeCounts, book.bestPrice, id);
    }

    method UpdateOrder(order: LOBOrder, isBuy: bool) returns (rem: LOBOrder)
      requires Valid() && isBuy == IsBuy(order)
      requires CanUpdate(maxPrice, lutSize, TheMarket(), order) || ZeroUpdate(TheMarket(), order)
      modifies this, buyBook, sellBook
      ensures Accounted() && Kept()
      ensures Valid() <==> !ZeroUpdate(old(TheMarket()), order)
      ensures Valid() ==> Did(old(offered), old(casts), Update(old(TheMarket()), order))
      ensures !Valid() ==> offered == old(offered) + AckFor(order, TickOf(order), 'U', 0)
                           && casts == old(casts) + [CastFor(order, 'U', isBuy)]
      ensures order.reqType == 'u' ==> rem == order.(quantity := Residual(old(TheMarket()), order))
    {
      hide QueueOf, Tick, Coherent, Remove, Find, Inv, Requantify, Create, Cancel, CanCreate, Accounted;
      rem := order;
      var book := BookOf(isBuy);
      PositiveWhenFound(isBuy, order.systemId);
      var slot := book.PeekOrder(order.systemId);
      if slot.None? {
        assert offered + [] == offered && casts + [] == casts;
        return;
      }
      var previous := book.book[slot.value.row][slot.value.col];
      var quantityChange := order.quantity != previous.quantity;
      var priceChange := order.price != previous.price;
      if priceChange {
        ghost var c := Cancel(TheMarket(), isBuy, order.systemId, previous.(quantity := 0));
        DeleteOrder(previous, slot, isBuy);
        rem := CreateOrder(order, isBuy);
        assert offered == old(offered) + (c.acks + Create(c.market, order).acks);
        assert casts == old(casts) + (c.casts + Create(c.market, order).casts);
      } else if quantityChange {
        ChangeQuantity(order, isBuy, previous);
      } else {
        assert offered + [] == offered && casts + [] == casts;
      }
    }

    // The dispatch in readOrder.  `rem` is the request as it is left.
    method ProcessOrder(order: LOBOrder) returns (rem: LOBOrder)
      requires Valid() && Accepts(maxPrice, lutSize, TheMarket(), order)
      modifies this, buyBook, sellBook
      ensures Valid() && Kept() && Did(old(offered), old(casts), Process(old(TheMarket()), order))
      ensures rem == order.(quantity := Residual(old(TheMarket()), order))
    {
      hide QueueOf, Tick, Coherent, Find, Inv, Create, Update, Cancel, Accounted;
      var isBuy := order.orderType == 'b';
      rem := order;
      if order.reqType == 'c' {
        rem := CreateOrder(order, isBuy);
      } else if order.reqType == 'u' {
        rem := UpdateOrder(order, isBuy);
      } else if order.reqType == 'd' {
        DeleteOrder(order, None, isBuy);
      } else {
        assert offered + [] == offered && casts + [] == casts;
      }
    }

    // One turn of the engine's loop: process the oldest request, counting its
    // quantity down in the slot, then release it.  The slot still holds the
    // request as it was left, which the C++ reads once more.
    method ReadOrder(lobOrderQueue: LFQueue<LOBOrder>)
      requires Valid() && lobOrderQueue.Valid()
      requires lobOrderQueue.Contents() != [] ==> Accepts(maxPrice, lutSize, TheMarket(), lobOrderQueue.Contents()[0])
      modifies this, buyBook, sellBook, lobOrderQueue, lobOrderQueue.store
      ensures Valid() && Kept() && lobOrderQueue.Valid()
      ensures old(lobOrderQueue.Contents()) == [] ==>
        lobOrderQueue.Contents() == [] && TheMarket() == old(TheMarket()) && offered == old(offered) && casts == old(casts)
      ensures old(lobOrderQueue.Contents()) != [] ==>
        && lobOrderQueue.Contents() == old(lobOrderQueue.Contents())[1..]
        && var o := old(lobOrderQueue.Contents())[0];
        && Did(old(offered), old(casts), Process(old(TheMarket()), o))
        && lobOrderQueue.store[old(lobOrderQueue.nextReadIndex)] == o.(quantity := Residual(old(TheMarket()), o))
    {
      hide QueueOf, Tick, Coherent, Inv, Process, Accepts, Window, Accounted;
      var slot := lobOrderQueue.GetNextToRead();
      if slot.None? {
        return;
      }
      var rem := ProcessOrder(lobOrderQueue.store[slot.value]);
      lobOrderQueue.Overwrite(slot.value, rem);
      lobOrderQueue.UpdateReadIndex();
    }

    // The engine's thread, terminated after some number of turns: what it did
    // is the run over the requests it took.
    method Serve(lobOrderQueue: LFQueue<LOBOrder>, turns: nat)
      requires Valid() && lobOrderQueue.Valid()
      requires AcceptsAll(maxPrice, lutSize, TheMarket(), lobOrderQueue.Contents())
      modifies this, buyBook, sellBook, lobOrderQueue, lobOrderQueue.store
      ensures Valid() && Kept() && lobOrderQueue.Valid()
      ensures var k := if turns < |old(lobOrderQueue.Contents())| then turns else |old(lobOrderQueue.Contents())|;
        && lobOrderQueue.Contents() == old(lobOrderQueue.Contents())[k..]
        && Did(old(offered), old(casts), Run(old(TheMarket()), old(lobOrderQueue.Contents())[..k]))
    {
      hide QueueOf, Tick, Coherent, Inv, Process, Accepts, AcceptsAll, Run, Window;
      ghost var all, m := lobOrderQueue.Contents(), TheMarket();
      ghost var k, run := 0, Outcome(m, [], [], []);
      RunNothing(m);
      for i := 0 to turns
        invariant Valid() && Kept() && lobOrderQueue.Valid()
        invariant k == (if i < |all| then i else |all|) && lobOrderQueue.Contents() == all[k..]
        invariant run == Run(m, all[..k]) && Did(old(offered), old(casts), run)
      {
        ghost var step := Outcome(run.market, [], [], []);
        if k < |all| {
          RunSnoc(m, all, k);
          AcceptsNext(maxPrice, lutSize, m, all, k);
          step := Process(run.market, all[k]);
        }
        ReadOrder(lobOrderQueue);
        if k < |all| {
          ThenDid(old(offered), old(casts), run, step, offered, casts);
          run, k := Then(run, step), k + 1;
        }
      }
    }

    // Nothing is dropped as long as everything made so far fits the queue.
    lemma FitsQueue()
      requires Accounted() && |offered| <= ackSlots
      ensures acks == offered
    {
      KeepAll(offered, sent);
    }

    // After a run of faithful requests whose acknowledgements all found room,
    // what trader 1 was sent tells it exactly what it has resting in the books.
    lemma TraderOneKnows(reqs: seq<LOBOrder>)
      requires Valid() && Did([], [], Run(EMPTY, reqs))
      requires |Run(EMPTY, reqs).acks| <= ackSlots || forall i :: 0 <= i < |sent| ==> sent[i]
      requires AcceptsAll(maxPrice, lutSize, EMPTY, reqs) && AllFaithful(EMPTY, reqs)
      ensures Replay(true, map[], acks) == ViewOf(buyBook.Resting())
      ensures Replay(false, map[], acks) == ViewOf(sellBook.Resting())
    {
      hide QueueOf, Coherent, Inv, Run, Replay, ViewOf, Accepts, Faithful, Keep;
      assert [] + Run(EMPTY, reqs).acks == Run(EMPTY, reqs).acks;
      KeepAll(offered, sent);
      RunRebuilt(maxPrice, lutSize, reqs);
    }

    // The two cursors are strictly apart, sentinels included, exactly when no
    // ask rests at tick 0.
    lemma CursorsAreApart()
      requires Valid() && maxPrice > 0
      ensures buyBook.bestPrice < sellBook.bestPrice <==> !exists a :: a in sellBook.Resting() && TickOf(a) == 0
    {
      hide QueueOf, Coherent, Inv, Tick;
      CursorIsHead(true, buyBook.book, buyBook.lut, buyBook.activeCounts, buyBook.bestPrice);
      CursorIsHead(false, sellBook.book, sellBook.lut, sellBook.activeCounts, sellBook.bestPrice);
      CursorsApart(maxPrice, lutSize, TheMarket());
    }
  }
}
