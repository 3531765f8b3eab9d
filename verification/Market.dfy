// What the matching engine does to an abstract market: two price-time lists
// (matching/matching.cpp:74-295).  One request goes in; fills, private
// acknowledgements and public broadcasts come out.
module Market {
  import opened Orders
  import opened PriceTime
  import opened SweepLoop

  // `bidZero` records whether an order has ever rested in row 0 of the buy
  // book.  It is the only thing tombstones can be observed by.
  datatype Market = Market(bids: Queue, asks: Queue, bidZero: bool)

  const EMPTY := Market([], [], false)

  function Side(m: Market, isBuy: bool): Queue {
    if isBuy then m.bids else m.asks
  }

  function WithSide(m: Market, isBuy: bool, q: Queue): Market {
    if isBuy then m.(bids := q) else m.(asks := q)
  }

  datatype Outcome = Outcome(market: Market, fills: seq<Fill>, acks: seq<LOBAck>, casts: seq<BroadCast>)

  // ----- Messages -----

  // Only trader 1 is acknowledged.
  function AckFor(o: LOBOrder, tick: int, status: char, quantity: u32): seq<LOBAck> {
    if o.tradeId == 1 then [LOBAck(o.systemId, tick, quantity, o.orderType, status)] else []
  }

  // Each fill is acknowledged to the incoming side first.
  function HitAcks(o: LOBOrder, f: Fill): seq<LOBAck> {
    AckFor(o, TickOf(f.resting), 'T', f.quantity) + AckFor(f.resting, TickOf(f.resting), 'T', f.quantity)
  }

  function FillAcks(o: LOBOrder, fills: seq<Fill>): seq<LOBAck> {
    if fills == [] then [] else HitAcks(o, fills[0]) + FillAcks(o, fills[1..])
  }

  lemma {:induction false} FillAcksConcat(o: LOBOrder, a: seq<Fill>, b: seq<Fill>)
    ensures FillAcks(o, a + b) == FillAcks(o, a) + FillAcks(o, b)
  {
    hide HitAcks;
    if a == [] {
      assert a + b == b;
    } else {
      FillAcksConcat(o, a[1..], b);
      assert (a + b)[1..] == a[1..] + b;
    }
  }

  lemma FillAcksAppend(o: LOBOrder, fills: seq<Fill>, f: Fill)
    ensures FillAcks(o, fills + [f]) == FillAcks(o, fills) + HitAcks(o, f)
  {
    FillAcksConcat(o, fills, [f]);
  }

  lemma SameAcks(a: LOBOrder, b: LOBOrder, f: Fill)
    requires a == b.(quantity := a.quantity)
    ensures HitAcks(a, f) == HitAcks(b, f)
  {
  }

  lemma {:induction false} FillAcksAlike(a: LOBOrder, b: LOBOrder, fills: seq<Fill>)
    requires a.systemId == b.systemId && a.tradeId == b.tradeId && a.orderType == b.orderType
    ensures FillAcks(a, fills) == FillAcks(b, fills)
  {
    if fills != [] { FillAcksAlike(a, b, fills[1..]); }
  }

  // The acknowledgements that found room, of those the engine made.
  function Keep(acks: seq<LOBAck>, kept: seq<bool>): (r: seq<LOBAck>)
    ensures |r| <= |acks| && forall a :: a in r ==> a in acks
  {
    if acks == [] || kept == [] then []
    else (if kept[0] then [acks[0]] else []) + Keep(acks[1..], kept[1..])
  }

  lemma {:induction false} KeepAppend(a: seq<LOBAck>, ka: seq<bool>, b: seq<LOBAck>, kb: seq<bool>)
    requires |a| == |ka|
    ensures Keep(a + b, ka + kb) == Keep(a, ka) + Keep(b, kb)
  {
    if a == [] {
      assert a + b == b && ka + kb == kb;
    } else {
      KeepAppend(a[1..], ka[1..], b, kb);
      assert (a + b)[1..] == a[1..] + b && (ka + kb)[1..] == ka[1..] + kb;
    }
  }

  lemma {:induction false} KeepAll(acks: seq<LOBAck>, kept: seq<bool>)
    requires |acks| == |kept|
    ensures (forall i :: 0 <= i < |kept| ==> kept[i]) ==> Keep(acks, kept) == acks
    ensures (exists i :: 0 <= i < |kept| && !kept[i]) ==> |Keep(acks, kept)| < |acks|
  {
    if acks != [] {
      KeepAll(acks[1..], kept[1..]);
      assert forall i :: 0 < i < |kept| ==> kept[i] == kept[1..][i-1];
    }
  }

  function CastFor(o: LOBOrder, kind: char, isBuy: bool): BroadCast {
    BroadCast(o.systemId, o.price, o.quantity, if isBuy then 'B' else 'S', kind)
  }

  // ----- Requests -----

  function Rest(m: Market, o: LOBOrder): Market {
    var b := IsBuy(o);
    WithSide(m, b, Insert(b, Side(m, b), o)).(bidZero := m.bidZero || (b && TickOf(o) == 0))
  }

  function Create(m: Market, o: LOBOrder): Outcome {
    var b := IsBuy(o);
    var r := Match(!b, Side(m, !b), TickOf(o), o.quantity);
    var swept := WithSide(m, !b, r.rest);
    var acks := FillAcks(o, r.fills);
    if r.left == 0 then Outcome(swept, r.fills, acks, [])
    else
      var rem := o.(quantity := r.left);
      Outcome(Rest(swept, rem), r.fills, acks + AckFor(rem, TickOf(rem), 'N', rem.quantity), [CastFor(rem, 'N', b)])
  }

  // Takes the order off the book; `seen` is the record the messages are made from.
  function Cancel(m: Market, isBuy: bool, id: u32, seen: LOBOrder): Outcome {
    Outcome(WithSide(m, isBuy, Remove(Side(m, isBuy), id)), [],
            AckFor(seen, TickOf(seen), 'D', seen.quantity), [CastFor(seen, 'D', isBuy)])
  }

  function Then(a: Outcome, b: Outcome): Outcome {
    Outcome(b.market, a.fills + b.fills, a.acks + b.acks, a.casts + b.casts)
  }

  // A create leaves the sweep's leftovers on the far side and at most one more
  // order, the unfilled rest of the request, on its own side.
  lemma CreateSides(m: Market, o: LOBOrder)
    ensures var b := IsBuy(o);
      var r := Match(!b, Side(m, !b), TickOf(o), o.quantity);
      var c := Create(m, o);
      && c.fills == r.fills
      && Side(c.market, !b) == r.rest
      && Side(c.market, b) == if r.left == 0 then Side(m, b) else Insert(b, Side(m, b), o.(quantity := r.left))
  {
  }

  // A new price is a cancel followed by a fresh create.  The cancel is made
  // from the stored entry, which the book has just set to quantity zero.
  function Replace(m: Market, e: LOBOrder, o: LOBOrder): Outcome {
    var c := Cancel(m, IsBuy(o), o.systemId, e.(quantity := 0));
    Then(c, Create(c.market, o))
  }

  function Update(m: Market, o: LOBOrder): Outcome {
    var b := IsBuy(o);
    match Find(Side(m, b), o.systemId)
    case None => Outcome(m, [], [], [])
    case Some(e) =>
      if o.price != e.price then Replace(m, e, o)
      else if o.quantity == e.quantity then Outcome(m, [], [], [])
      else Outcome(WithSide(m, b, Requantify(b, Side(m, b), o)), [],
                   AckFor(o, TickOf(o), 'U', o.quantity), [CastFor(o, 'U', b)])
  }

  function Process(m: Market, o: LOBOrder): Outcome {
    if o.reqType == 'c' then Create(m, o)
    else if o.reqType == 'u' then Update(m, o)
    else if o.reqType == 'd' then Cancel(m, IsBuy(o), o.systemId, o)
    else Outcome(m, [], [], [])
  }

  // What the engine leaves of the quantity in a request, which it counts down in place.
  function Residual(m: Market, o: LOBOrder): (r: u32)
    ensures r <= o.quantity
  {
    var b := IsBuy(o);
    if o.reqType == 'c' then Match(!b, Side(m, !b), TickOf(o), o.quantity).left
    else if o.reqType == 'u' then
      match Find(Side(m, b), o.systemId)
      case None => o.quantity
      case Some(e) => if o.price == e.price then o.quantity
                      else Match(!b, Side(m, !b), TickOf(o), o.quantity).left
    else o.quantity
  }

  // ----- What the engine needs of a request -----

  // A sweep that ends; for whatever is left over, a row and an unused id.
  predicate CanCreate(maxPrice: nat, lutSize: nat, m: Market, o: LOBOrder) {
    var b := IsBuy(o);
    && TickOf(o) >= 0
    && !Spins(!b, Side(m, !b), m.bidZero, TickOf(o), o.quantity)
    && (Match(!b, Side(m, !b), TickOf(o), o.quantity).left > 0 ==>
          TickOf(o) < maxPrice && o.systemId < lutSize && Find(Side(m, b), o.systemId).None?)
  }

  predicate CanUpdate(maxPrice: nat, lutSize: nat, m: Market, o: LOBOrder) {
    match Find(Side(m, IsBuy(o)), o.systemId)
    case None => true
    case Some(e) =>
      if o.price != e.price
      then CanCreate(maxPrice, lutSize, Cancel(m, IsBuy(o), o.systemId, e.(quantity := 0)).market, o)
      else o.quantity > 0
  }

  // An update that keeps the price of a live order and leaves it no quantity.
  predicate ZeroUpdate(m: Market, o: LOBOrder) {
    var e := Find(Side(m, IsBuy(o)), o.systemId);
    e.Some? && o.price == e.value.price && o.quantity == 0
  }

  predicate Accepts(maxPrice: nat, lutSize: nat, m: Market, o: LOBOrder) {
    && (o.reqType == 'c' ==> CanCreate(maxPrice, lutSize, m, o))
    && (o.reqType == 'u' ==> CanUpdate(maxPrice, lutSize, m, o))
    && (o.reqType == 'd' ==> Find(Side(m, IsBuy(o)), o.systemId).Some?)
  }

  // ----- The invariant -----

  predicate Fits(maxPrice: nat, lutSize: nat, bidZero: bool, isBuy: bool, o: LOBOrder) {
    && IsBuy(o) == isBuy && 0 <= TickOf(o) < maxPrice && o.systemId < lutSize
    && (isBuy && TickOf(o) == 0 ==> bidZero)
  }

  ghost predicate Uncrossed(m: Market) {
    forall b, a :: b in m.bids && a in m.asks ==> TickOf(b) < TickOf(a)
  }

  ghost predicate SideOk(maxPrice: nat, lutSize: nat, m: Market, isBuy: bool) {
    Ok(isBuy, Side(m, isBuy)) && forall o :: o in Side(m, isBuy) ==> Fits(maxPrice, lutSize, m.bidZero, isBuy, o)
  }

  ghost predicate Inv(maxPrice: nat, lutSize: nat, m: Market) {
    SideOk(maxPrice, lutSize, m, true) && SideOk(maxPrice, lutSize, m, false) && Uncrossed(m)
  }

  lemma EmptyInv(maxPrice: nat, lutSize: nat)
    ensures Inv(maxPrice, lutSize, EMPTY)
  {
  }

  lemma CancelInv(maxPrice: nat, lutSize: nat, m: Market, isBuy: bool, id: u32, seen: LOBOrder)
    requires Inv(maxPrice, lutSize, m)
    ensures Inv(maxPrice, lutSize, Cancel(m, isBuy, id, seen).market)
    ensures Find(Side(Cancel(m, isBuy, id, seen).market, isBuy), id).None?
  {
    RemoveOk(isBuy, Side(m, isBuy), id);
  }

  lemma SweepInv(maxPrice: nat, lutSize: nat, m: Market, restBuy: bool, limit: int, quantity: u32)
    requires Inv(maxPrice, lutSize, m)
    ensures Inv(maxPrice, lutSize, WithSide(m, restBuy, Match(restBuy, Side(m, restBuy), limit, quantity).rest))
  {
    MatchOk(restBuy, Side(m, restBuy), limit, quantity);
  }

  lemma RestInv(maxPrice: nat, lutSize: nat, m: Market, o: LOBOrder)
    requires Inv(maxPrice, lutSize, m)
    requires o.quantity > 0 && 0 <= TickOf(o) < maxPrice && o.systemId < lutSize
    requires Find(Side(m, IsBuy(o)), o.systemId).None?
    requires forall x :: x in Side(m, !IsBuy(o)) ==> !Crosses(!IsBuy(o), TickOf(o), TickOf(x))
    ensures Inv(maxPrice, lutSize, Rest(m, o))
  {
    InsertOk(IsBuy(o), Side(m, IsBuy(o)), o);
  }

  lemma CreateInv(maxPrice: nat, lutSize: nat, m: Market, o: LOBOrder)
    requires Inv(maxPrice, lutSize, m) && CanCreate(maxPrice, lutSize, m, o)
    ensures Inv(maxPrice, lutSize, Create(m, o).market)
  {
    var b := IsBuy(o);
    var r := Match(!b, Side(m, !b), TickOf(o), o.quantity);
    SweepInv(maxPrice, lutSize, m, !b, TickOf(o), o.quantity);
    if r.left > 0 {
      MatchOk(!b, Side(m, !b), TickOf(o), o.quantity);
      RestInv(maxPrice, lutSize, WithSide(m, !b, r.rest), o.(quantity := r.left));
    }
  }

  lemma RequantifyMembers(isBuy: bool, q: Queue, o: LOBOrder, e: LOBOrder)
    requires Find(q, o.systemId) == Some(e) && o.price == e.price && IsBuy(o) == IsBuy(e)
    ensures forall x :: x in Requantify(isBuy, q, o) ==>
              exists y :: y in q && x.systemId == y.systemId && x.price == y.price && IsBuy(x) == IsBuy(y)
  {
    SetQuantityMembers(q, o.systemId, o.quantity);
  }

  lemma RequantifyInv(maxPrice: nat, lutSize: nat, m: Market, o: LOBOrder, e: LOBOrder)
    requires Inv(maxPrice, lutSize, m)
    requires Find(Side(m, IsBuy(o)), o.systemId) == Some(e) && o.price == e.price && o.quantity > 0
    ensures Inv(maxPrice, lutSize, WithSide(m, IsBuy(o), Requantify(IsBuy(o), Side(m, IsBuy(o)), o)))
  {
    hide Ok, Find, Requantify, Tick;
    var b, q := IsBuy(o), Side(m, IsBuy(o));
    RequantifyOk(b, q, o);
    RequantifyMembers(b, q, o, e);
  }

  // Every accepted request keeps both lists well formed and the book uncrossed.
  lemma ProcessInv(maxPrice: nat, lutSize: nat, m: Market, o: LOBOrder)
    requires Inv(maxPrice, lutSize, m) && Accepts(maxPrice, lutSize, m, o)
    ensures Inv(maxPrice, lutSize, Process(m, o).market)
  {
    if o.reqType == 'c' {
      CreateInv(maxPrice, lutSize, m, o);
    } else if o.reqType == 'u' {
      match Find(Side(m, IsBuy(o)), o.systemId)
      case None =>
      case Some(e) =>
        if o.price != e.price {
          CancelInv(maxPrice, lutSize, m, IsBuy(o), o.systemId, e.(quantity := 0));
          CreateInv(maxPrice, lutSize, Cancel(m, IsBuy(o), o.systemId, e.(quantity := 0)).market, o);
        } else {
          RequantifyInv(maxPrice, lutSize, m, o, e);
        }
    } else if o.reqType == 'd' {
      CancelInv(maxPrice, lutSize, m, IsBuy(o), o.systemId, o);
    }
  }

  // ----- Runs -----

  function Run(m: Market, reqs: seq<LOBOrder>): Outcome {
    if reqs == [] then Outcome(m, [], [], [])
    else
      var r := Run(m, reqs[..|reqs|-1]);
      Then(r, Process(r.market, reqs[|reqs|-1]))
  }

  lemma RunSnoc(m: Market, reqs: seq<LOBOrder>, k: nat)
    requires k < |reqs|
    ensures Run(m, reqs[..k+1]) == Then(Run(m, reqs[..k]), Process(Run(m, reqs[..k]).market, reqs[k]))
  {
    assert reqs[..k+1][..k] == reqs[..k];
  }

  // Each request is acceptable when its turn comes.
  predicate AcceptsAll(maxPrice: nat, lutSize: nat, m: Market, reqs: seq<LOBOrder>) {
    reqs == [] ||
    (&& AcceptsAll(maxPrice, lutSize, m, reqs[..|reqs|-1])
     && Accepts(maxPrice, lutSize, Run(m, reqs[..|reqs|-1]).market, reqs[|reqs|-1]))
  }

  lemma RunLast(m: Market, reqs: seq<LOBOrder>)
    requires reqs != []
    ensures var r := Run(m, reqs[..|reqs|-1]);
      Run(m, reqs) == Then(r, Process(r.market, reqs[|reqs|-1]))
  {
  }

  lemma {:induction false} AcceptsNext(maxPrice: nat, lutSize: nat, m: Market, reqs: seq<LOBOrder>, k: nat)
    requires AcceptsAll(maxPrice, lutSize, m, reqs) && k < |reqs|
    ensures Accepts(maxPrice, lutSize, Run(m, reqs[..k]).market, reqs[k])
  {
    hide Accepts, Run;
    var init := reqs[..|reqs|-1];
    if k < |init| {
      AcceptsNext(maxPrice, lutSize, m, init, k);
      assert init[..k] == reqs[..k] && init[k] == reqs[k];
    }
  }

  lemma AcceptsSnoc(maxPrice: nat, lutSize: nat, m: Market, reqs: seq<LOBOrder>, k: nat)
    requires k < |reqs| && AcceptsAll(maxPrice, lutSize, m, reqs[..k])
    requires Accepts(maxPrice, lutSize, Run(m, reqs[..k]).market, reqs[k])
    ensures AcceptsAll(maxPrice, lutSize, m, reqs[..k+1])
  {
    hide Accepts, Run;
    assert reqs[..k+1][..k] == reqs[..k];
  }

  lemma RunNothing(m: Market)
    ensures Run(m, []) == Outcome(m, [], [], [])
  {
  }

  function BestBid(m: Market): int {
    if m.bids == [] then 0 else TickOf(m.bids[0])
  }

  function BestAsk(maxPrice: nat, m: Market): int {
    if m.asks == [] then maxPrice else TickOf(m.asks[0])
  }

  lemma HeadIsBest(isBuy: bool, q: Queue)
    requires Ok(isBuy, q) && q != []
    ensures forall o :: o in q ==> !Better(isBuy, TickOf(o), TickOf(q[0]))
  {
    forall o | o in q ensures !Better(isBuy, TickOf(o), TickOf(q[0])) {
      if o != q[0] { assert o in q[1..]; }
    }
  }

  lemma CursorsApart(maxPrice: nat, lutSize: nat, m: Market)
    requires Inv(maxPrice, lutSize, m) && maxPrice > 0
    ensures BestBid(m) < BestAsk(maxPrice, m) <==> !exists a :: a in m.asks && TickOf(a) == 0
  {
    if m.asks != [] { assert m.asks[0] in m.asks; HeadIsBest(false, m.asks); }
    if m.bids != [] { assert m.bids[0] in m.bids; }
  }

  // After every run the book is uncrossed; the two cursors, sentinels
  // included, are strictly apart exactly when no ask rests at tick 0.
  lemma {:induction false} RunInv(maxPrice: nat, lutSize: nat, reqs: seq<LOBOrder>)
    requires AcceptsAll(maxPrice, lutSize, EMPTY, reqs)
    ensures Inv(maxPrice, lutSize, Run(EMPTY, reqs).market)
    ensures var m := Run(EMPTY, reqs).market;
      maxPrice > 0 ==> (BestBid(m) < BestAsk(maxPrice, m) <==> !exists a :: a in m.asks && TickOf(a) == 0)
  {
    if reqs != [] {
      var init := reqs[..|reqs|-1];
      RunInv(maxPrice, lutSize, init);
      ProcessInv(maxPrice, lutSize, Run(EMPTY, init).market, reqs[|reqs|-1]);
    }
    if maxPrice > 0 { CursorsApart(maxPrice, lutSize, Run(EMPTY, reqs).market); }
  }

  // ----- A new price is a cancel and a fresh create -----

  // The list with the request type of its orders forgotten; nothing reads it
  // once an order rests.
  function Plain(q: Queue): Queue {
    seq(|q|, i requires 0 <= i < |q| => q[i].(reqType := '-'))
  }

  lemma PlainCons(o: LOBOrder, q: Queue)
    ensures Plain([o] + q) == [o.(reqType := '-')] + Plain(q)
  {
  }

  lemma {:induction false} InsertPlain(isBuy: bool, q: Queue, o: LOBOrder, kind: char)
    ensures Plain(Insert(isBuy, q, o)) == Plain(Insert(isBuy, q, o.(reqType := kind)))
  {
    if q != [] && !Better(isBuy, TickOf(o), TickOf(q[0])) {
      InsertPlain(isBuy, q[1..], o, kind);
      PlainCons(q[0], Insert(isBuy, q[1..], o));
      PlainCons(q[0], Insert(isBuy, q[1..], o.(reqType := kind)));
    } else {
      PlainCons(o, q);
      PlainCons(o.(reqType := kind), q);
    }
  }

  // An update to a new price trades and leaves the market exactly as a delete
  // of the resting order followed by a create would, although its messages are
  // made from the slot that the delete has just zeroed.
  lemma ReplaceIsDeleteThenCreate(m: Market, o: LOBOrder)
    requires o.reqType == 'u' && Find(Side(m, IsBuy(o)), o.systemId).Some?
    requires Find(Side(m, IsBuy(o)), o.systemId).value.price != o.price
    ensures var e := Find(Side(m, IsBuy(o)), o.systemId).value;
      var one := Process(m, o);
      var two := Process(Process(m, o.(reqType := 'd')).market, o.(reqType := 'c'));
      && one.fills == two.fills
      && one.market.bidZero == two.market.bidZero
      && Plain(one.market.bids) == Plain(two.market.bids) && Plain(one.market.asks) == Plain(two.market.asks)
      && one.acks == AckFor(e, TickOf(e), 'D', 0) + two.acks
  {
    hide Find, Insert, Match, FillAcks, Tick;
    var b := IsBuy(o);
    var e := Find(Side(m, b), o.systemId).value;
    var c := Cancel(m, b, o.systemId, e.(quantity := 0));
    var o' := o.(reqType := 'c');
    var r := Match(!b, Side(c.market, !b), TickOf(o), o.quantity);
    InsertPlain(b, Side(c.market, b), o.(quantity := r.left), 'c');
    FillAcksAlike(o, o', r.fills);
  }

  // ----- A run that arms the spinning sweep -----

  // One lot bid and sold at tick 0; the next sell at tick 0 never returns.
  lemma TickZeroSpins(n: nat)
    ensures var bid := LOBOrder(0, 0.0, 1, 1, 'b', 'c');
      var ask := LOBOrder(1, 0.0, 1, 1, 's', 'c');
      var m := Process(Process(EMPTY, bid).market, ask).market;
      && m == Market([], [], true)
      && AfterPasses(n, true, m.bidZero, TickOf(ask), Sweep([], 1, m.bids)) == None
      && !Accepts(10, 10, m, ask.(systemId := 2))
  {
    var bid, ask := LOBOrder(0, 0.0, 1, 1, 'b', 'c'), LOBOrder(1, 0.0, 1, 1, 's', 'c');
    LoopSpins(n, true, 0, Sweep([], 1, []));
  }
}
