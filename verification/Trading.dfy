// What a request may do to the market, in ticks and prices: the limit of an
// incoming order, what is left of it, and where the resting orders come from.
module Trading {
  import opened Orders
  import opened PriceTime
  import opened Market
  import opened Ledger

  // The requests that sweep the far side.
  predicate Sweeps(m: Market, o: LOBOrder) {
    var e := Find(Side(m, IsBuy(o)), o.systemId);
    o.reqType == 'c' || (o.reqType == 'u' && e.Some? && o.price != e.value.price)
  }

  lemma ProcessSweeps(m: Market, o: LOBOrder)
    ensures var b, p := IsBuy(o), Process(m, o);
      var r := Match(!b, Side(m, !b), TickOf(o), o.quantity);
      if Sweeps(m, o) then p.fills == r.fills && Side(p.market, !b) == r.rest && Residual(m, o) == r.left
      else p.fills == [] && Side(p.market, !b) == Side(m, !b) && Residual(m, o) == o.quantity
  {
    hide Match, Find, Insert, Remove, FillAcks, Tick, Requantify;
    var b := IsBuy(o);
    CreateSides(m, o);
    if o.reqType == 'u' && Find(Side(m, b), o.systemId).Some? {
      var e := Find(Side(m, b), o.systemId).value;
      var c := Cancel(m, b, o.systemId, e.(quantity := 0));
      CreateSides(c.market, o);
      assert c.fills + Create(c.market, o).fills == Create(c.market, o).fills;
    }
  }

  // A buy trades at no tick above its own and a sell at none below; if some of
  // it is left, every order left on the far side is strictly beyond it.
  lemma WithinLimit(maxPrice: nat, lutSize: nat, m: Market, o: LOBOrder)
    requires Inv(maxPrice, lutSize, m)
    ensures var p := Process(m, o);
      && (forall i :: 0 <= i < |p.fills| ==>
            var tick := TickOf(p.fills[i].resting);
            if o.orderType == 'b' then tick <= TickOf(o) else TickOf(o) <= tick)
      && (Sweeps(m, o) && Residual(m, o) > 0 ==>
            && (o.orderType == 'b' ==> forall x :: x in p.market.asks ==> TickOf(o) < TickOf(x))
            && (o.orderType != 'b' ==> forall x :: x in p.market.bids ==> TickOf(x) < TickOf(o)))
  {
    hide Match, Process, Sweeps, Tick, Ok, Residual;
    var b := IsBuy(o);
    assert SideOk(maxPrice, lutSize, m, !b);
    ProcessSweeps(m, o);
    SweepWithinLimit(!b, Side(m, !b), TickOf(o), o.quantity);
  }

  // The same in prices.  A buy trades with no ask whose price is a full tick
  // above its own, a sell with no bid a full tick below; what is left of either
  // was not wanted at its price or better.
  lemma WithinPrice(maxPrice: nat, lutSize: nat, m: Market, o: LOBOrder)
    requires Inv(maxPrice, lutSize, m)
    ensures var p := Process(m, o);
      && (forall i :: 0 <= i < |p.fills| ==>
            var price := p.fills[i].resting.price;
            if o.orderType == 'b' then o.price >= 0.0 ==> price < o.price + 0.1
            else price >= 0.0 ==> o.price - 0.1 < price)
      && (Sweeps(m, o) && Residual(m, o) > 0 ==>
            && (o.orderType == 'b' ==> forall x :: x in p.market.asks ==> o.price < x.price)
            && (o.orderType != 'b' ==> forall x :: x in p.market.bids ==> x.price < o.price))
  {
    hide Process, Sweeps, Tick, Inv, Residual;
    WithinLimit(maxPrice, lutSize, m, o);
    var p := Process(m, o);
    forall i | 0 <= i < |p.fills|
      ensures var price := p.fills[i].resting.price;
        if o.orderType == 'b' then o.price >= 0.0 ==> price < o.price + 0.1
        else price >= 0.0 ==> o.price - 0.1 < price
    {
      var price := p.fills[i].resting.price;
      assert TickOf(p.fills[i].resting) == Tick(price);
      if o.orderType == 'b' && o.price >= 0.0 { TicksApart(o.price, price); }
      if o.orderType != 'b' && price >= 0.0 { TicksApart(price, o.price); }
    }
    forall x: LOBOrder ensures TickOf(o) < TickOf(x) ==> o.price < x.price {
      if x.price <= o.price { TickMonotone(x.price, o.price); }
    }
    forall x: LOBOrder ensures TickOf(x) < TickOf(o) ==> x.price < o.price {
      if o.price <= x.price { TickMonotone(o.price, x.price); }
    }
  }

  // What the engine leaves of a request is what did not trade.
  lemma ResidualIsUntraded(m: Market, o: LOBOrder)
    ensures Residual(m, o) + Volume(Process(m, o).fills) == o.quantity
  {
    hide Match, Process, Sweeps, Tick, Residual;
    ProcessSweeps(m, o);
    MatchConserves(!IsBuy(o), Side(m, !IsBuy(o)), TickOf(o), o.quantity);
    NoFills(o.systemId);
  }

  // ----- Where resting orders come from -----

  // x is an order of q, unchanged or with less left of it.
  ghost predicate LeftOf(x: LOBOrder, q: Queue) {
    exists y :: y in q && x.quantity <= y.quantity && x == y.(quantity := x.quantity)
  }

  lemma {:induction false} MatchLeaves(restBuy: bool, q: Queue, limit: int, quantity: u32)
    ensures forall x :: x in Match(restBuy, q, limit, quantity).rest ==> LeftOf(x, q)
  {
    hide Tick;
    var r := Match(restBuy, q, limit, quantity);
    if quantity > 0 && q != [] && Crosses(restBuy, limit, TickOf(q[0])) && q[0].quantity <= quantity {
      MatchLeaves(restBuy, q[1..], limit, quantity - q[0].quantity);
    }
    forall x | x in r.rest ensures LeftOf(x, q) {
      if LeftOf(x, q[1..]) {
        var y :| y in q[1..] && x.quantity <= y.quantity && x == y.(quantity := x.quantity);
        assert y in q;
      } else if x in q {
        assert x == x.(quantity := x.quantity);
      } else {
        assert q[0] in q;
      }
    }
  }

  // Nothing rests but what rested before, with no more quantity, and the
  // request itself on its own side, with no more than it asked for: same id,
  // price, trader and kind.
  ghost predicate Provenance(m: Market, o: LOBOrder, after: Market, isBuy: bool) {
    forall x :: x in Side(after, isBuy) ==>
      LeftOf(x, Side(m, isBuy)) || (isBuy == IsBuy(o) && LeftOf(x, [o]))
  }

  lemma CreateProvenance(m: Market, o: LOBOrder, isBuy: bool)
    ensures Provenance(m, o, Create(m, o).market, isBuy)
  {
    hide Match, Tick, Create;
    var b := IsBuy(o);
    var r := Match(!b, Side(m, !b), TickOf(o), o.quantity);
    CreateSides(m, o);
    MatchLeaves(!b, Side(m, !b), TickOf(o), o.quantity);
    assert o in [o];
    forall x | x in Side(Create(m, o).market, isBuy)
      ensures LeftOf(x, Side(m, isBuy)) || (isBuy == b && LeftOf(x, [o]))
    {
      if isBuy == b && x in Side(m, b) { assert x == x.(quantity := x.quantity); }
    }
  }

  lemma ReplaceProvenance(m: Market, e: LOBOrder, o: LOBOrder, isBuy: bool)
    ensures Provenance(m, o, Replace(m, e, o).market, isBuy)
  {
    hide Create, Tick;
    var c := Cancel(m, IsBuy(o), o.systemId, e.(quantity := 0));
    CreateProvenance(c.market, o, isBuy);
  }

  lemma {:induction false} OnlyOne(isBuy: bool, q: Queue, id: u32)
    requires Ok(isBuy, q) && Find(q, id).Some?
    ensures forall x :: x in q && x.systemId == id ==> x == Find(q, id).value
  {
    if q[0].systemId != id { OnlyOne(isBuy, q[1..], id); }
  }

  lemma RequantifyProvenance(m: Market, o: LOBOrder, isBuy: bool)
    requires Ok(IsBuy(o), Side(m, IsBuy(o)))
    ensures Provenance(m, o, WithSide(m, IsBuy(o), Requantify(IsBuy(o), Side(m, IsBuy(o)), o)), isBuy)
  {
    var q := Side(m, IsBuy(o));
    var q' := Requantify(IsBuy(o), q, o);
    SetQuantityPointwise(q, o.systemId, o.quantity);
    assert o in [o];
    if Find(q, o.systemId).Some? { OnlyOne(IsBuy(o), q, o.systemId); }
    forall x | x in q' ensures LeftOf(x, q) || LeftOf(x, [o]) {
      if x !in q && x != o {
        var i :| 0 <= i < |q'| && q'[i] == x;
        assert q[i] in q;
      }
    }
    forall x | x in Side(m, isBuy) ensures LeftOf(x, Side(m, isBuy)) {
    }
  }

  lemma ProcessProvenance(maxPrice: nat, lutSize: nat, m: Market, o: LOBOrder, isBuy: bool)
    requires Inv(maxPrice, lutSize, m)
    ensures Provenance(m, o, Process(m, o).market, isBuy)
  {
    hide Create, Replace, Requantify, Find, Tick, Ok;
    assert SideOk(maxPrice, lutSize, m, IsBuy(o));
    CreateProvenance(m, o, isBuy);
    RequantifyProvenance(m, o, isBuy);
    forall x | x in Side(m, isBuy) ensures LeftOf(x, Side(m, isBuy)) {
      assert x == x.(quantity := x.quantity);
    }
    var e := Find(Side(m, IsBuy(o)), o.systemId);
    if e.Some? { ReplaceProvenance(m, e.value, o, isBuy); }
  }

  // Over any run: whatever rests is one of the requests, as it was sent, with
  // no more quantity than it asked for.
  lemma {:induction false} RunProvenance(maxPrice: nat, lutSize: nat, reqs: seq<LOBOrder>, isBuy: bool)
    requires AcceptsAll(maxPrice, lutSize, EMPTY, reqs)
    ensures forall x :: x in Side(Run(EMPTY, reqs).market, isBuy) ==>
              exists i :: 0 <= i < |reqs| && x.quantity <= reqs[i].quantity
                          && x == reqs[i].(quantity := x.quantity) && isBuy == (x.orderType == 'b')
  {
    if reqs != [] {
      var init, o := reqs[..|reqs|-1], reqs[|reqs|-1];
      RunProvenance(maxPrice, lutSize, init, isBuy);
      RunInv(maxPrice, lutSize, init);
      ProcessProvenance(maxPrice, lutSize, Run(EMPTY, init).market, o, isBuy);
      RunLast(EMPTY, reqs);
      hide Run, Process, Accepts, AcceptsAll, Inv;
      forall x | x in Side(Run(EMPTY, reqs).market, isBuy)
        ensures exists i :: 0 <= i < |reqs| && x.quantity <= reqs[i].quantity
                            && x == reqs[i].(quantity := x.quantity) && isBuy == (x.orderType == 'b')
      {
        if LeftOf(x, Side(Run(EMPTY, init).market, isBuy)) {
          var y :| y in Side(Run(EMPTY, init).market, isBuy) && x.quantity <= y.quantity && x == y.(quantity := x.quantity);
          var i :| 0 <= i < |init| && y.quantity <= init[i].quantity && y == init[i].(quantity := y.quantity);
          assert reqs[i] == init[i];
        } else {
          assert reqs[|reqs|-1] == o;
        }
      }
    }
  }
}
