// Nothing is created or lost: quantities per side and per order, over any run.
module Ledger {
  import opened Orders
  import opened PriceTime
  import opened Market

  // What requests put into and take out of one side, before any trading.
  datatype Flow = Flow(created: nat, increased: nat, decreased: nat, cancelled: nat)

  const ZERO := Flow(0, 0, 0, 0)

  function Plus(a: Flow, b: Flow): Flow {
    Flow(a.created + b.created, a.increased + b.increased, a.decreased + b.decreased, a.cancelled + b.cancelled)
  }

  function Net(f: Flow): int {
    f.created + f.increased - f.decreased - f.cancelled
  }

  // The flow of one request, read off the request and the quantity its id rests with.
  function FlowOf(m: Market, o: LOBOrder): Flow {
    var e := Find(Side(m, IsBuy(o)), o.systemId);
    if o.reqType == 'c' then Flow(o.quantity, 0, 0, 0)
    else if o.reqType == 'd' && e.Some? then Flow(0, 0, 0, e.value.quantity)
    else if o.reqType == 'u' && e.Some? then
      if o.price != e.value.price then Flow(o.quantity, 0, 0, e.value.quantity)
      else if o.quantity > e.value.quantity then Flow(0, o.quantity - e.value.quantity, 0, 0)
      else Flow(0, 0, e.value.quantity - o.quantity, 0)
    else ZERO
  }

  function SideFlow(m: Market, o: LOBOrder, isBuy: bool): Flow {
    if IsBuy(o) == isBuy then FlowOf(m, o) else ZERO
  }

  function RunFlow(m: Market, reqs: seq<LOBOrder>, isBuy: bool): Flow {
    if reqs == [] then ZERO
    else
      var init := reqs[..|reqs|-1];
      Plus(RunFlow(m, init, isBuy), SideFlow(Run(m, init).market, reqs[|reqs|-1], isBuy))
  }

  lemma {:induction false} VolumeAppend(a: seq<Fill>, b: seq<Fill>)
    ensures Volume(a + b) == Volume(a) + Volume(b)
  {
    if a == [] {
      assert a + b == b;
    } else {
      VolumeAppend(a[1..], b);
      assert (a + b)[1..] == a[1..] + b;
    }
  }

  // ----- Per side -----

  // Both sides lose the traded volume, and change otherwise only by the request.
  ghost predicate Balanced(before: Market, after: Outcome, net: int, isBuy: bool) {
    && Total(Side(after.market, isBuy)) + Volume(after.fills) == Total(Side(before, isBuy)) + net
    && Total(Side(after.market, !isBuy)) + Volume(after.fills) == Total(Side(before, !isBuy))
  }

  lemma CreateBalanced(m: Market, o: LOBOrder)
    ensures Balanced(m, Create(m, o), o.quantity, IsBuy(o))
  {
    var b := IsBuy(o);
    var r := Match(!b, Side(m, !b), TickOf(o), o.quantity);
    MatchConserves(!b, Side(m, !b), TickOf(o), o.quantity);
    InsertTotal(b, Side(m, b), o.(quantity := r.left));
  }

  lemma ReplaceBalanced(m: Market, e: LOBOrder, o: LOBOrder)
    requires Ok(IsBuy(o), Side(m, IsBuy(o))) && Find(Side(m, IsBuy(o)), o.systemId) == Some(e)
    ensures Balanced(m, Replace(m, e, o), o.quantity - e.quantity, IsBuy(o))
  {
    hide Total, Volume, Remove, Find, Create;
    var c := Cancel(m, IsBuy(o), o.systemId, e.(quantity := 0));
    RemoveTotal(IsBuy(o), Side(m, IsBuy(o)), o.systemId);
    CreateBalanced(c.market, o);
    assert c.fills + Create(c.market, o).fills == Create(c.market, o).fills;
  }

  lemma RequantifyTotal(isBuy: bool, q: Queue, o: LOBOrder)
    requires Ok(isBuy, q) && Find(q, o.systemId).Some?
    ensures Total(Requantify(isBuy, q, o)) + Find(q, o.systemId).value.quantity == Total(q) + o.quantity
  {
    SetQuantityTotal(isBuy, q, o.systemId, o.quantity);
    RemoveTotal(isBuy, q, o.systemId);
    InsertTotal(isBuy, Remove(q, o.systemId), o);
  }

  lemma IdleBalanced(m: Market, isBuy: bool)
    ensures Balanced(m, Outcome(m, [], [], []), 0, isBuy)
  {
  }

  lemma RequantifyBalanced(m: Market, e: LOBOrder, o: LOBOrder)
    requires Ok(IsBuy(o), Side(m, IsBuy(o))) && Find(Side(m, IsBuy(o)), o.systemId) == Some(e) && o.price == e.price
    ensures Balanced(m, Update(m, o), o.quantity - e.quantity, IsBuy(o))
  {
    hide Find, Requantify, Total, Ok, Tick;
    RequantifyTotal(IsBuy(o), Side(m, IsBuy(o)), o);
  }

  lemma UpdateBalanced(m: Market, o: LOBOrder)
    requires Ok(IsBuy(o), Side(m, IsBuy(o))) && o.reqType == 'u'
    ensures Balanced(m, Update(m, o), Net(FlowOf(m, o)), IsBuy(o))
  {
    hide Balanced, Find, Requantify, Replace, Ok, Tick;
    IdleBalanced(m, IsBuy(o));
    match Find(Side(m, IsBuy(o)), o.systemId)
    case None =>
    case Some(e) => if o.price != e.price { ReplaceBalanced(m, e, o); } else { RequantifyBalanced(m, e, o); }
  }

  lemma CancelBalanced(m: Market, isBuy: bool, id: u32, seen: LOBOrder)
    requires Ok(isBuy, Side(m, isBuy)) && Find(Side(m, isBuy), id).Some?
    ensures Balanced(m, Cancel(m, isBuy, id, seen), 0 - Find(Side(m, isBuy), id).value.quantity, isBuy)
  {
    hide Find, Remove, Ok, Total;
    RemoveTotal(isBuy, Side(m, isBuy), id);
  }

  lemma ProcessBalanced(maxPrice: nat, lutSize: nat, m: Market, o: LOBOrder)
    requires Inv(maxPrice, lutSize, m) && Accepts(maxPrice, lutSize, m, o)
    ensures Balanced(m, Process(m, o), Net(FlowOf(m, o)), IsBuy(o))
  {
    hide Balanced, Find, Create, Update, Cancel, Ok, Tick, CanCreate, CanUpdate;
    assert SideOk(maxPrice, lutSize, m, IsBuy(o));
    IdleBalanced(m, IsBuy(o));
    if o.reqType == 'c' {
      CreateBalanced(m, o);
    } else if o.reqType == 'd' {
      CancelBalanced(m, IsBuy(o), o.systemId, o);
    } else if o.reqType == 'u' {
      UpdateBalanced(m, o);
    }
  }

  lemma NothingYet()
    ensures Run(EMPTY, []) == Outcome(EMPTY, [], [], []) && Total([]) == 0 && Volume([]) == 0
  {
  }

  lemma OneMoreBalanced(maxPrice: nat, lutSize: nat, r: Outcome, o: LOBOrder, isBuy: bool, flow: Flow)
    requires Inv(maxPrice, lutSize, r.market) && Accepts(maxPrice, lutSize, r.market, o)
    requires Total(Side(r.market, isBuy)) == Net(flow) - Volume(r.fills)
    ensures var t := Then(r, Process(r.market, o));
      Total(Side(t.market, isBuy)) == Net(Plus(flow, SideFlow(r.market, o, isBuy))) - Volume(t.fills)
  {
    hide Process, FlowOf, Total, Accepts, Inv, Volume;
    ProcessBalanced(maxPrice, lutSize, r.market, o);
    VolumeAppend(r.fills, Process(r.market, o).fills);
  }

  // On each side: resting = created + increases - decreases - cancelled -
  // executed, with the same executed volume on both.
  lemma {:induction false} RunBalanced(maxPrice: nat, lutSize: nat, reqs: seq<LOBOrder>, isBuy: bool)
    requires AcceptsAll(maxPrice, lutSize, EMPTY, reqs)
    ensures Total(Side(Run(EMPTY, reqs).market, isBuy))
         == Net(RunFlow(EMPTY, reqs, isBuy)) - Volume(Run(EMPTY, reqs).fills)
  {
    hide Run, Process, SideFlow, Plus, Then, Total, Accepts, Inv, Volume;
    NothingYet();
    if reqs != [] {
      var init, o := reqs[..|reqs|-1], reqs[|reqs|-1];
      RunLast(EMPTY, reqs);
      RunBalanced(maxPrice, lutSize, init, isBuy);
      RunInv(maxPrice, lutSize, init);
      OneMoreBalanced(maxPrice, lutSize, Run(EMPTY, init), o, isBuy, RunFlow(EMPTY, init, isBuy));
    }
  }

  // ----- Per order -----

  function RestingQty(q: Queue, id: u32): nat {
    match Find(q, id) case None => 0 case Some(e) => e.quantity
  }

  // How much of the fills was taken from resting order `id`.
  function HitQty(fills: seq<Fill>, id: u32): nat {
    if fills == [] then 0
    else (if fills[0].resting.systemId == id then fills[0].quantity else 0) + HitQty(fills[1..], id)
  }

  // The quantity of order (isBuy, id) that trades while `o` is processed.
  function TradedBy(o: LOBOrder, fills: seq<Fill>, isBuy: bool, id: u32): nat {
    if IsBuy(o) != isBuy then HitQty(fills, id)
    else if o.systemId == id then Volume(fills)
    else 0
  }

  function Traded(m: Market, reqs: seq<LOBOrder>, isBuy: bool, id: u32): nat {
    if reqs == [] then 0
    else
      var init, o := reqs[..|reqs|-1], reqs[|reqs|-1];
      Traded(m, init, isBuy, id) + TradedBy(o, Process(Run(m, init).market, o).fills, isBuy, id)
  }

  function OrderNet(m: Market, o: LOBOrder, isBuy: bool, id: u32): int {
    if IsBuy(o) == isBuy && o.systemId == id then Net(FlowOf(m, o)) else 0
  }

  // What the requests about one order put in, less what they took out.
  function Submitted(m: Market, reqs: seq<LOBOrder>, isBuy: bool, id: u32): int {
    if reqs == [] then 0
    else
      var init, o := reqs[..|reqs|-1], reqs[|reqs|-1];
      Submitted(m, init, isBuy, id) + OrderNet(Run(m, init).market, o, isBuy, id)
  }

  lemma {:induction false} InsertFind(isBuy: bool, q: Queue, o: LOBOrder, id: u32)
    requires Find(q, o.systemId).None?
    ensures Find(Insert(isBuy, q, o), id) == if id == o.systemId then Some(o) else Find(q, id)
  {
    if q != [] && !Better(isBuy, TickOf(o), TickOf(q[0])) {
      InsertFind(isBuy, q[1..], o, id);
    }
  }

  lemma {:induction false} RemoveFind(q: Queue, gone: u32, id: u32)
    ensures Find(Remove(q, gone), id) == if id == gone then None else Find(q, id)
  {
    if q != [] {
      RemoveFind(q[1..], gone, id);
      if q[0].systemId != gone { assert Remove(q, gone)[1..] == Remove(q[1..], gone); }
    }
  }

  lemma {:induction false} SetQuantityFind(q: Queue, changed: u32, v: u32, id: u32)
    ensures Find(SetQuantity(q, changed, v), id)
         == match Find(q, id) case None => None case Some(e) => Some(if id == changed then e.(quantity := v) else e)
  {
    if q != [] {
      SetQuantityFind(q[1..], changed, v, id);
    }
  }

  lemma {:induction false} MatchPerOrder(restBuy: bool, q: Queue, limit: int, quantity: u32, id: u32)
    requires Ok(restBuy, q)
    ensures var r := Match(restBuy, q, limit, quantity);
      RestingQty(r.rest, id) + HitQty(r.fills, id) == RestingQty(q, id)
  {
    var r := Match(restBuy, q, limit, quantity);
    if quantity == 0 || q == [] || !Crosses(restBuy, limit, TickOf(q[0])) {
    } else if q[0].quantity <= quantity {
      var t := Match(restBuy, q[1..], limit, quantity - q[0].quantity);
      MatchPerOrder(restBuy, q[1..], limit, quantity - q[0].quantity, id);
      assert r.fills[1..] == t.fills;
      if q[0].systemId == id { assert Find(q[1..], id).None?; }
    } else {
      assert r.rest[1..] == q[1..];
      assert r.fills[1..] == [];
    }
  }

  // One order, one request.
  ghost predicate OrderBalanced(before: Market, after: Outcome, o: LOBOrder, net: int, isBuy: bool, id: u32) {
    RestingQty(Side(after.market, isBuy), id) + TradedBy(o, after.fills, isBuy, id)
    == RestingQty(Side(before, isBuy), id) + net
  }

  lemma CreateOrderBalanced(m: Market, o: LOBOrder, isBuy: bool, id: u32)
    requires Ok(!IsBuy(o), Side(m, !IsBuy(o)))
    requires Match(!IsBuy(o), Side(m, !IsBuy(o)), TickOf(o), o.quantity).left > 0 ==>
               Find(Side(m, IsBuy(o)), o.systemId).None?
    ensures OrderBalanced(m, Create(m, o), o,
              if IsBuy(o) == isBuy && o.systemId == id then o.quantity else 0, isBuy, id)
  {
    hide Match, Insert, Find, HitQty, Volume, Create, Tick, Ok;
    CreateSides(m, o);
    var b := IsBuy(o);
    var r := Match(!b, Side(m, !b), TickOf(o), o.quantity);
    if isBuy != b {
      MatchPerOrder(!b, Side(m, !b), TickOf(o), o.quantity, id);
    } else {
      MatchConserves(!b, Side(m, !b), TickOf(o), o.quantity);
      if r.left > 0 { InsertFind(b, Side(m, b), o.(quantity := r.left), id); }
    }
  }

  lemma ReplaceOrderBalanced(m: Market, e: LOBOrder, o: LOBOrder, isBuy: bool, id: u32)
    requires Ok(true, m.bids) && Ok(false, m.asks) && Find(Side(m, IsBuy(o)), o.systemId) == Some(e)
    ensures OrderBalanced(m, Replace(m, e, o), o,
              if IsBuy(o) == isBuy && o.systemId == id then o.quantity - e.quantity else 0, isBuy, id)
  {
    hide Find, Remove, Create, HitQty, Volume;
    var b := IsBuy(o);
    var c := Cancel(m, b, o.systemId, e.(quantity := 0));
    RemoveFind(Side(m, b), o.systemId, id);
    RemoveFind(Side(m, b), o.systemId, o.systemId);
    CreateOrderBalanced(c.market, o, isBuy, id);
    assert c.fills + Create(c.market, o).fills == Create(c.market, o).fills;
  }

  lemma RequantifyFind(isBuy: bool, q: Queue, o: LOBOrder, id: u32)
    requires Find(q, o.systemId).Some?
    ensures var e := Find(q, o.systemId).value;
      Find(Requantify(isBuy, q, o), id)
      == if id != o.systemId then Find(q, id)
         else Some(if o.quantity > e.quantity then o else e.(quantity := o.quantity))
  {
    hide Find, Remove, Insert, SetQuantity;
    SetQuantityFind(q, o.systemId, o.quantity, id);
    RemoveFind(q, o.systemId, id);
    RemoveFind(q, o.systemId, o.systemId);
    InsertFind(isBuy, Remove(q, o.systemId), o, id);
  }

  lemma RequantifyQty(isBuy: bool, q: Queue, o: LOBOrder, id: u32)
    requires Find(q, o.systemId).Some?
    ensures RestingQty(Requantify(isBuy, q, o), id)
         == RestingQty(q, id) + (if id == o.systemId then o.quantity - Find(q, id).value.quantity else 0)
  {
    hide Find, Requantify;
    RequantifyFind(isBuy, q, o, id);
  }

  lemma IdleOrderBalanced(m: Market, o: LOBOrder, isBuy: bool, id: u32)
    ensures OrderBalanced(m, Outcome(m, [], [], []), o, 0, isBuy, id)
  {
    hide RestingQty;
  }

  lemma NoFills(id: u32)
    ensures HitQty([], id) == 0 && Volume([]) == 0
  {
  }

  lemma RequantifyOrderBalanced(m: Market, e: LOBOrder, o: LOBOrder, isBuy: bool, id: u32)
    requires Find(Side(m, IsBuy(o)), o.systemId) == Some(e) && o.price == e.price
    ensures OrderBalanced(m, Update(m, o), o,
              if IsBuy(o) == isBuy && o.systemId == id then o.quantity - e.quantity else 0, isBuy, id)
  {
    hide Find, Requantify, RestingQty, HitQty, Volume, Tick;
    NoFills(id);
    RequantifyQty(IsBuy(o), Side(m, IsBuy(o)), o, id);
  }

  lemma UpdateOrderBalanced(m: Market, o: LOBOrder, isBuy: bool, id: u32)
    requires Ok(true, m.bids) && Ok(false, m.asks) && o.reqType == 'u'
    ensures OrderBalanced(m, Update(m, o), o, OrderNet(m, o, isBuy, id), isBuy, id)
  {
    hide OrderBalanced, Find, Replace, Requantify, Tick, Ok;
    IdleOrderBalanced(m, o, isBuy, id);
    match Find(Side(m, IsBuy(o)), o.systemId)
    case None =>
    case Some(e) =>
      if o.price != e.price { ReplaceOrderBalanced(m, e, o, isBuy, id); }
      else { RequantifyOrderBalanced(m, e, o, isBuy, id); }
  }

  lemma CancelOrderBalanced(m: Market, o: LOBOrder, isBuy: bool, id: u32)
    requires Find(Side(m, IsBuy(o)), o.systemId).Some?
    ensures OrderBalanced(m, Cancel(m, IsBuy(o), o.systemId, o), o,
              if IsBuy(o) == isBuy && o.systemId == id then 0 - Find(Side(m, IsBuy(o)), id).value.quantity else 0, isBuy, id)
  {
    hide Find, Remove, HitQty, Volume, Tick;
    NoFills(id);
    RemoveFind(Side(m, IsBuy(o)), o.systemId, id);
  }

  lemma ProcessOrderBalanced(maxPrice: nat, lutSize: nat, m: Market, o: LOBOrder, isBuy: bool, id: u32)
    requires Inv(maxPrice, lutSize, m) && Accepts(maxPrice, lutSize, m, o)
    ensures OrderBalanced(m, Process(m, o), o, OrderNet(m, o, isBuy, id), isBuy, id)
  {
    hide OrderBalanced, Find, Create, Update, Cancel, Tick, Ok;
    assert SideOk(maxPrice, lutSize, m, true) && SideOk(maxPrice, lutSize, m, false);
    IdleOrderBalanced(m, o, isBuy, id);
    if o.reqType == 'c' {
      CreateOrderBalanced(m, o, isBuy, id);
    } else if o.reqType == 'd' {
      CancelOrderBalanced(m, o, isBuy, id);
    } else if o.reqType == 'u' {
      UpdateOrderBalanced(m, o, isBuy, id);
    }
  }

  // For every order and every run: what was submitted under its id has traded
  // or is still resting.
  lemma {:induction false} RunOrderBalanced(maxPrice: nat, lutSize: nat, reqs: seq<LOBOrder>, isBuy: bool, id: u32)
    requires AcceptsAll(maxPrice, lutSize, EMPTY, reqs)
    ensures Submitted(EMPTY, reqs, isBuy, id)
         == Traded(EMPTY, reqs, isBuy, id) + RestingQty(Side(Run(EMPTY, reqs).market, isBuy), id)
  {
    if reqs != [] {
      var init, o := reqs[..|reqs|-1], reqs[|reqs|-1];
      RunOrderBalanced(maxPrice, lutSize, init, isBuy, id);
      RunInv(maxPrice, lutSize, init);
      ProcessOrderBalanced(maxPrice, lutSize, Run(EMPTY, init).market, o, isBuy, id);
    }
  }
}
