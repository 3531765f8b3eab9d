// Trader 1 can rebuild its own resting orders from the acknowledgements alone
// (matching/matching.cpp:162-167, 193-230, 261-265, 339-350, 401-412, 421-439).
module AckReplay {
  import opened Orders
  import opened PriceTime
  import opened Market
  import opened Ledger

  datatype Line = Line(tick: int, quantity: int)

  type View = map<u32, Line>

  // Trader 1's resting orders on one side.
  function ViewOf(q: Queue): View {
    if q == [] then map[]
    else if q[0].tradeId == 1 then ViewOf(q[1..])[q[0].systemId := Line(TickOf(q[0]), q[0].quantity)]
    else ViewOf(q[1..])
  }

  // How trader 1 reads one acknowledgement: N and U set, D removes, T takes
  // the traded quantity off an order it knows to be resting.
  function Apply(isBuy: bool, v: View, a: LOBAck): View {
    if (a.side == 'b') != isBuy then v
    else if a.status == 'N' || a.status == 'U' then v[a.systemId := Line(a.price, a.quantity)]
    else if a.status == 'D' then v - {a.systemId}
    else if a.status == 'T' && a.systemId in v then
      var left := v[a.systemId].quantity - a.quantity;
      if left > 0 then v[a.systemId := v[a.systemId].(quantity := left)] else v - {a.systemId}
    else v
  }

  function Replay(isBuy: bool, v: View, acks: seq<LOBAck>): View
    decreases |acks|
  {
    if acks == [] then v else Replay(isBuy, Apply(isBuy, v, acks[0]), acks[1..])
  }

  lemma {:induction false} ReplayAppend(isBuy: bool, v: View, a: seq<LOBAck>, b: seq<LOBAck>)
    ensures Replay(isBuy, v, a + b) == Replay(isBuy, Replay(isBuy, v, a), b)
    decreases |a|
  {
    if a == [] {
      assert a + b == b;
    } else {
      ReplayAppend(isBuy, Apply(isBuy, v, a[0]), a[1..], b);
      assert (a + b)[1..] == a[1..] + b;
    }
  }

  lemma ReplayOne(isBuy: bool, v: View, o: LOBOrder, tick: int, status: char, quantity: u32)
    ensures Replay(isBuy, v, AckFor(o, tick, status, quantity))
         == if o.tradeId == 1 then Apply(isBuy, v, LOBAck(o.systemId, tick, quantity, o.orderType, status)) else v
  {
    if o.tradeId == 1 {
      var a := LOBAck(o.systemId, tick, quantity, o.orderType, status);
    }
  }

  // ----- The view as a lookup -----

  function LineOf(e: Option<LOBOrder>): Option<Line> {
    if e.Some? && e.value.tradeId == 1 then Some(Line(TickOf(e.value), e.value.quantity)) else None
  }

  function Look(v: View, id: u32): Option<Line> {
    if id in v then Some(v[id]) else None
  }

  lemma {:induction false} LookView(isBuy: bool, q: Queue, id: u32)
    requires Ok(isBuy, q)
    ensures Look(ViewOf(q), id) == LineOf(Find(q, id))
  {
    if q != [] {
      LookView(isBuy, q[1..], id);
      if q[0].systemId == id { assert Find(q[1..], id).None?; }
    }
  }

  lemma SameView(v: View, w: View)
    requires forall id: u32 :: Look(v, id) == Look(w, id)
    ensures v == w
  {
    forall id: u32 ensures id in v <==> id in w { assert Look(v, id) == Look(w, id); }
    forall id: u32 | id in v ensures v[id] == w[id] { assert Look(v, id) == Look(w, id); }
  }

  // v with the line of `id` replaced by what e shows.
  function Shown(v: View, id: u32, e: Option<LOBOrder>): View {
    match LineOf(e) case Some(l) => v[id := l] case None => v - {id}
  }

  // If only one id changed in the list, only its line changes in the view.
  lemma ViewChange(isBuy: bool, q: Queue, q': Queue, id: u32)
    requires Ok(isBuy, q) && Ok(isBuy, q')
    requires forall x: u32 :: x != id ==> Find(q', x) == Find(q, x)
    ensures ViewOf(q') == Shown(ViewOf(q), id, Find(q', id))
  {
    forall x: u32 ensures Look(ViewOf(q'), x) == Look(Shown(ViewOf(q), id, Find(q', id)), x) {
      LookView(isBuy, q, x);
      LookView(isBuy, q', x);
    }
    SameView(ViewOf(q'), Shown(ViewOf(q), id, Find(q', id)));
  }

  lemma ViewInsert(isBuy: bool, q: Queue, o: LOBOrder)
    requires Ok(isBuy, q) && o.quantity > 0 && Find(q, o.systemId).None?
    ensures ViewOf(Insert(isBuy, q, o)) == Shown(ViewOf(q), o.systemId, Some(o))
  {
    InsertOk(isBuy, q, o);
    forall x: u32 ensures Find(Insert(isBuy, q, o), x) == if x == o.systemId then Some(o) else Find(q, x) {
      InsertFind(isBuy, q, o, x);
    }
    ViewChange(isBuy, q, Insert(isBuy, q, o), o.systemId);
  }

  lemma ViewRemove(isBuy: bool, q: Queue, id: u32)
    requires Ok(isBuy, q)
    ensures ViewOf(Remove(q, id)) == Shown(ViewOf(q), id, None)
  {
    RemoveOk(isBuy, q, id);
    forall x: u32 ensures Find(Remove(q, id), x) == if x == id then None else Find(q, x) {
      RemoveFind(q, id, x);
    }
    ViewChange(isBuy, q, Remove(q, id), id);
  }

  lemma ViewRequantify(isBuy: bool, q: Queue, o: LOBOrder)
    requires Ok(isBuy, q) && Find(q, o.systemId).Some? && o.quantity > 0
    ensures var e := Find(q, o.systemId).value;
      ViewOf(Requantify(isBuy, q, o))
      == Shown(ViewOf(q), o.systemId, Some(if o.quantity > e.quantity then o else e.(quantity := o.quantity)))
  {
    var q' := Requantify(isBuy, q, o);
    RequantifyOk(isBuy, q, o);
    forall x: u32 | x != o.systemId ensures Find(q', x) == Find(q, x) {
      RequantifyFind(isBuy, q, o, x);
    }
    RequantifyFind(isBuy, q, o, o.systemId);
    ViewChange(isBuy, q, q', o.systemId);
  }

  // ----- A sweep -----

  lemma NoFillsReplay(isBuy: bool, v: View, o: LOBOrder)
    ensures Replay(isBuy, v, FillAcks(o, [])) == v
  {
  }

  lemma OkTail(isBuy: bool, q: Queue)
    requires Ok(isBuy, q) && q != []
    ensures Ok(isBuy, q[1..]) && q[0].quantity > 0
  {
  }

  lemma ReplayHit(restBuy: bool, v: View, o: LOBOrder, fills: seq<Fill>)
    requires fills != [] && IsBuy(o) != restBuy && IsBuy(fills[0].resting) == restBuy
    ensures var f := fills[0];
      Replay(restBuy, v, FillAcks(o, fills))
      == Replay(restBuy,
           if f.resting.tradeId == 1
           then Apply(restBuy, v, LOBAck(f.resting.systemId, TickOf(f.resting), f.quantity, f.resting.orderType, 'T'))
           else v,
           FillAcks(o, fills[1..]))
  {
    var f := fills[0];
    var mine, theirs := AckFor(o, TickOf(f.resting), 'T', f.quantity), AckFor(f.resting, TickOf(f.resting), 'T', f.quantity);
    ReplayAppend(restBuy, v, mine + theirs, FillAcks(o, fills[1..]));
    ReplayAppend(restBuy, v, mine, theirs);
    ReplayOne(restBuy, v, o, TickOf(f.resting), 'T', f.quantity);
    ReplayOne(restBuy, v, f.resting, TickOf(f.resting), 'T', f.quantity);
  }

  lemma HeadLine(restBuy: bool, q: Queue, quantity: u32)
    requires Ok(restBuy, q) && q != [] && IsBuy(q[0]) == restBuy && 0 < quantity <= q[0].quantity
    ensures var left := q[0].quantity - quantity;
      (if q[0].tradeId == 1
       then Apply(restBuy, ViewOf(q), LOBAck(q[0].systemId, TickOf(q[0]), quantity, q[0].orderType, 'T'))
       else ViewOf(q))
      == if left > 0 then ViewOf([q[0].(quantity := left)] + q[1..]) else ViewOf(q[1..])
  {
    LookView(restBuy, q[1..], q[0].systemId);
  }

  // The first order hit: replaying its T leaves the view of what is left of the list.
  lemma ReplayHead(restBuy: bool, q: Queue, o: LOBOrder, limit: int, quantity: u32)
    requires Ok(restBuy, q) && q != [] && IsBuy(o) != restBuy && IsBuy(q[0]) == restBuy
    requires quantity > 0 && Crosses(restBuy, limit, TickOf(q[0]))
    ensures var fills := Match(restBuy, q, limit, quantity).fills;
      if q[0].quantity <= quantity
      then Replay(restBuy, ViewOf(q), FillAcks(o, fills))
        == Replay(restBuy, ViewOf(q[1..]), FillAcks(o, Match(restBuy, q[1..], limit, quantity - q[0].quantity).fills))
      else Replay(restBuy, ViewOf(q), FillAcks(o, fills)) == ViewOf(Match(restBuy, q, limit, quantity).rest)
  {
    var r := Match(restBuy, q, limit, quantity);
    ReplayHit(restBuy, ViewOf(q), o, r.fills);
    HeadLine(restBuy, q, r.fills[0].quantity);
  }

  // The far side: every fill of a trader-1 order is one T.
  lemma {:induction false} ReplaySweep(restBuy: bool, q: Queue, o: LOBOrder, limit: int, quantity: u32)
    requires Ok(restBuy, q) && IsBuy(o) != restBuy
    requires forall x :: x in q ==> IsBuy(x) == restBuy
    ensures var r := Match(restBuy, q, limit, quantity);
      Replay(restBuy, ViewOf(q), FillAcks(o, r.fills)) == ViewOf(r.rest)
  {
    hide ViewOf, Apply, Ok, FillAcks, Replay, Tick;
    if quantity == 0 || q == [] || !Crosses(restBuy, limit, TickOf(q[0])) {
      NoFillsReplay(restBuy, ViewOf(q), o);
    } else {
      OkTail(restBuy, q);
      ReplayHead(restBuy, q, o, limit, quantity);
      if q[0].quantity <= quantity {
        ReplaySweep(restBuy, q[1..], o, limit, quantity - q[0].quantity);
      }
    }
  }

  // On the near side a fill shows only as the T of the incoming order.
  lemma ReplayNearHit(isBuy: bool, v: View, o: LOBOrder, fills: seq<Fill>)
    requires fills != [] && IsBuy(o) == isBuy && IsBuy(fills[0].resting) != isBuy
    ensures var f := fills[0];
      Replay(isBuy, v, FillAcks(o, fills))
      == Replay(isBuy,
           if o.tradeId == 1
           then Apply(isBuy, v, LOBAck(o.systemId, TickOf(f.resting), f.quantity, o.orderType, 'T'))
           else v,
           FillAcks(o, fills[1..]))
  {
    var f := fills[0];
    var mine, theirs := AckFor(o, TickOf(f.resting), 'T', f.quantity), AckFor(f.resting, TickOf(f.resting), 'T', f.quantity);
    ReplayAppend(isBuy, v, mine + theirs, FillAcks(o, fills[1..]));
    ReplayAppend(isBuy, v, mine, theirs);
    ReplayOne(isBuy, v, o, TickOf(f.resting), 'T', f.quantity);
    var w := Replay(isBuy, v, mine);
    ReplayOne(isBuy, w, f.resting, TickOf(f.resting), 'T', f.quantity);
  }

  // It does not change while trader 1 has nothing resting under the incoming id.
  lemma {:induction false} ReplayNear(isBuy: bool, v: View, o: LOBOrder, fills: seq<Fill>)
    requires IsBuy(o) == isBuy && (o.tradeId != 1 || o.systemId !in v)
    requires forall i :: 0 <= i < |fills| ==> IsBuy(fills[i].resting) != isBuy
    ensures Replay(isBuy, v, FillAcks(o, fills)) == v
  {
    if fills != [] {
      ReplayNearHit(isBuy, v, o, fills);
      ReplayNear(isBuy, v, o, fills[1..]);
    }
  }

  // Otherwise every T is taken off the wrong order.
  lemma {:induction false} ReplayNearWrong(isBuy: bool, v: View, o: LOBOrder, fills: seq<Fill>)
    requires IsBuy(o) == isBuy && o.tradeId == 1
    requires forall i :: 0 <= i < |fills| ==> IsBuy(fills[i].resting) != isBuy && fills[i].quantity > 0
    ensures var w := Replay(isBuy, v, FillAcks(o, fills));
      o.systemId in w ==> o.systemId in v && w[o.systemId].quantity <= v[o.systemId].quantity - |fills|
  {
    if fills != [] {
      var f := fills[0];
      ReplayNearHit(isBuy, v, o, fills);
      ReplayNearWrong(isBuy, Apply(isBuy, v, LOBAck(o.systemId, TickOf(f.resting), f.quantity, o.orderType, 'T')), o, fills[1..]);
    }
  }

  // ----- One request -----

  ghost predicate Rebuilt(before: Market, acks: seq<LOBAck>, after: Market, isBuy: bool) {
    Replay(isBuy, ViewOf(Side(before, isBuy)), acks) == ViewOf(Side(after, isBuy))
  }

  predicate CreateFaithful(m: Market, o: LOBOrder) {
    match Find(Side(m, IsBuy(o)), o.systemId)
    case None => true
    case Some(e) => e.tradeId == 1 && o.tradeId == 1 ==> o.quantity == 0
  }

  // Whether the acknowledgements of this request tell trader 1 the whole truth.
  // Plain deletes and quantity updates are acknowledged by the trader id in the
  // request, not the one on the resting order; and a create that fills under
  // an id trader 1 already has resting is taken for fills of the resting order.
  predicate Faithful(m: Market, o: LOBOrder) {
    match Find(Side(m, IsBuy(o)), o.systemId)
    case None => true
    case Some(e) =>
      if o.reqType == 'c' then CreateFaithful(m, o)
      else if o.reqType == 'd' then e.tradeId == 1 ==> o.tradeId == 1
      else if o.reqType == 'u' && o.price == e.price && o.quantity < e.quantity then e.tradeId == 1 <==> o.tradeId == 1
      else if o.reqType == 'u' && o.price == e.price && o.quantity > e.quantity then e.tradeId == 1 ==> o.tradeId == 1
      else true
  }

  lemma FillsAreThere(maxPrice: nat, lutSize: nat, m: Market, o: LOBOrder)
    requires SideOk(maxPrice, lutSize, m, !IsBuy(o))
    ensures var r := Match(!IsBuy(o), Side(m, !IsBuy(o)), TickOf(o), o.quantity);
      && (forall i :: 0 <= i < |r.fills| ==> IsBuy(r.fills[i].resting) != IsBuy(o) && r.fills[i].quantity > 0)
      && (r.left < o.quantity <==> r.fills != [])
  {
    var q := Side(m, !IsBuy(o));
    var fills := Match(!IsBuy(o), q, TickOf(o), o.quantity).fills;
    MatchIsSweep(!IsBuy(o), q, TickOf(o), o.quantity);
    forall i | 0 <= i < |fills| ensures IsBuy(fills[i].resting) != IsBuy(o) && fills[i].quantity > 0 {
      assert GoodHit(!IsBuy(o), TickOf(o), fills[i], q[i]);
      assert q[i] in q;
    }
  }

  // The T messages of a create leave the view of its own side alone exactly
  // when it is faithful.
  lemma CreateNear(maxPrice: nat, lutSize: nat, m: Market, o: LOBOrder)
    requires Inv(maxPrice, lutSize, m) && CanCreate(maxPrice, lutSize, m, o)
    ensures var b := IsBuy(o);
      var r := Match(!b, Side(m, !b), TickOf(o), o.quantity);
      var v := ViewOf(Side(m, b));
      && (Replay(b, v, FillAcks(o, r.fills)) == v <==> CreateFaithful(m, o))
      && (r.left > 0 ==> CreateFaithful(m, o))
  {
    hide Ok, Find, Match, ViewOf, FillAcks, Tick, Replay, Volume;
    var b := IsBuy(o);
    var r := Match(!b, Side(m, !b), TickOf(o), o.quantity);
    var v := ViewOf(Side(m, b));
    assert SideOk(maxPrice, lutSize, m, b) && SideOk(maxPrice, lutSize, m, !b);
    LookView(b, Side(m, b), o.systemId);
    FillsAreThere(maxPrice, lutSize, m, o);
    if o.tradeId != 1 || o.systemId !in v {
      ReplayNear(b, v, o, r.fills);
    } else if r.fills == [] {
      NoFillsReplay(b, v, o);
    } else {
      ReplayNearWrong(b, v, o, r.fills);
    }
  }

  lemma CreateRebuilt(maxPrice: nat, lutSize: nat, m: Market, o: LOBOrder, isBuy: bool)
    requires Inv(maxPrice, lutSize, m) && CanCreate(maxPrice, lutSize, m, o)
    ensures Rebuilt(m, Create(m, o).acks, Create(m, o).market, isBuy) <==> (IsBuy(o) == isBuy ==> CreateFaithful(m, o))
  {
    hide Ok, Find, Insert, Match, ViewOf, FillAcks, Tick, Replay;
    var b := IsBuy(o);
    var q := Side(m, !b);
    var r := Match(!b, q, TickOf(o), o.quantity);
    var rem := o.(quantity := r.left);
    var v := ViewOf(Side(m, isBuy));
    CreateSides(m, o);
    ReplayAppend(isBuy, v, FillAcks(o, r.fills), AckFor(rem, TickOf(rem), 'N', rem.quantity));
    ReplayOne(isBuy, Replay(isBuy, v, FillAcks(o, r.fills)), rem, TickOf(rem), 'N', rem.quantity);
    if isBuy != b {
      ReplaySweep(!b, q, o, TickOf(o), o.quantity);
    } else {
      CreateNear(maxPrice, lutSize, m, o);
      if r.left > 0 {
        LookView(b, Side(m, b), o.systemId);
        assert o.systemId !in v && v - {o.systemId} == v;
        ViewInsert(b, Side(m, b), rem);
      }
    }
  }

  lemma CancelRebuilt(m: Market, o: LOBOrder, seen: LOBOrder, isBuy: bool)
    requires Ok(IsBuy(o), Side(m, IsBuy(o))) && IsBuy(seen) == IsBuy(o) && seen.systemId == o.systemId
    ensures var c := Cancel(m, IsBuy(o), o.systemId, seen);
      Rebuilt(m, c.acks, c.market, isBuy) <==>
      (IsBuy(o) == isBuy && LineOf(Find(Side(m, isBuy), o.systemId)).Some? ==> seen.tradeId == 1)
  {
    hide Ok, Find, Remove, ViewOf, Tick, Replay;
    var v := ViewOf(Side(m, isBuy));
    ReplayOne(isBuy, v, seen, TickOf(seen), 'D', seen.quantity);
    if isBuy == IsBuy(o) {
      ViewRemove(isBuy, Side(m, isBuy), o.systemId);
      LookView(isBuy, Side(m, isBuy), o.systemId);
      var c := Cancel(m, IsBuy(o), o.systemId, seen);
    }
  }

  lemma RequantifyRebuilt(m: Market, e: LOBOrder, o: LOBOrder, isBuy: bool)
    requires Ok(IsBuy(o), Side(m, IsBuy(o))) && Find(Side(m, IsBuy(o)), o.systemId) == Some(e)
    requires o.price == e.price && o.quantity != e.quantity && o.quantity > 0 && o.reqType == 'u'
    ensures Rebuilt(m, Update(m, o).acks, Update(m, o).market, isBuy) <==> (IsBuy(o) == isBuy ==> Faithful(m, o))
  {
    hide Ok, Find, Requantify, ViewOf, Tick, Replay;
    var v := ViewOf(Side(m, isBuy));
    ReplayOne(isBuy, v, o, TickOf(o), 'U', o.quantity);
    if isBuy == IsBuy(o) {
      ViewRequantify(isBuy, Side(m, isBuy), o);
      LookView(isBuy, Side(m, isBuy), o.systemId);
    }
  }

  // A replace is always told truthfully: its D is made from the resting order,
  // its T and N from the request.
  lemma ReplaceRebuilt(maxPrice: nat, lutSize: nat, m: Market, e: LOBOrder, o: LOBOrder, isBuy: bool)
    requires Inv(maxPrice, lutSize, m) && Find(Side(m, IsBuy(o)), o.systemId) == Some(e) && o.price != e.price
    requires CanUpdate(maxPrice, lutSize, m, o)
    ensures Rebuilt(m, Replace(m, e, o).acks, Replace(m, e, o).market, isBuy)
  {
    hide Ok, Find, Create, ViewOf, Tick, Replay, CanCreate;
    var b := IsBuy(o);
    var c := Cancel(m, b, o.systemId, e.(quantity := 0));
    CancelRebuilt(m, o, e.(quantity := 0), isBuy);
    CancelInv(maxPrice, lutSize, m, b, o.systemId, e.(quantity := 0));
    CreateRebuilt(maxPrice, lutSize, c.market, o, isBuy);
    RemoveOk(b, Side(m, b), o.systemId);
    ReplayAppend(isBuy, ViewOf(Side(m, isBuy)), c.acks, Create(c.market, o).acks);
  }

  lemma UpdateRebuilt(maxPrice: nat, lutSize: nat, m: Market, o: LOBOrder, isBuy: bool)
    requires Inv(maxPrice, lutSize, m) && o.reqType == 'u' && CanUpdate(maxPrice, lutSize, m, o)
    ensures Rebuilt(m, Update(m, o).acks, Update(m, o).market, isBuy) <==> (IsBuy(o) == isBuy ==> Faithful(m, o))
  {
    match Find(Side(m, IsBuy(o)), o.systemId)
    case None =>
    case Some(e) =>
      if o.price != e.price {
        ReplaceRebuilt(maxPrice, lutSize, m, e, o, isBuy);
      } else if o.quantity != e.quantity {
        RequantifyRebuilt(m, e, o, isBuy);
      }
  }

  lemma ReplayNothing(v: View, w: View)
    ensures Replay(true, v, []) == v && Replay(false, w, []) == w
  {
  }

  // The acknowledgements of one request rebuild trader 1's orders on both
  // sides exactly when the request is faithful.
  lemma ProcessRebuilt(maxPrice: nat, lutSize: nat, m: Market, o: LOBOrder)
    requires Inv(maxPrice, lutSize, m) && Accepts(maxPrice, lutSize, m, o)
    ensures var p := Process(m, o);
      (Rebuilt(m, p.acks, p.market, true) && Rebuilt(m, p.acks, p.market, false)) <==> Faithful(m, o)
  {
    hide Ok, Find, Create, Cancel, Update, ViewOf, Tick, Replay;
    if o.reqType == 'c' {
      CreateRebuilt(maxPrice, lutSize, m, o, true);
      CreateRebuilt(maxPrice, lutSize, m, o, false);
    } else if o.reqType == 'u' {
      UpdateRebuilt(maxPrice, lutSize, m, o, true);
      UpdateRebuilt(maxPrice, lutSize, m, o, false);
    } else if o.reqType == 'd' {
      CancelRebuilt(m, o, o, true);
      CancelRebuilt(m, o, o, false);
    } else {
      ReplayNothing(ViewOf(m.bids), ViewOf(m.asks));
    }
  }

  // Each request is faithful when its turn comes.
  predicate AllFaithful(m: Market, reqs: seq<LOBOrder>) {
    reqs == [] ||
    (AllFaithful(m, reqs[..|reqs|-1]) && Faithful(Run(m, reqs[..|reqs|-1]).market, reqs[|reqs|-1]))
  }

  // Over any run of faithful requests the whole acknowledgement stream,
  // replayed from nothing, gives id, side, tick and remaining quantity of every
  // order of trader 1.
  lemma {:induction false} RunRebuilt(maxPrice: nat, lutSize: nat, reqs: seq<LOBOrder>)
    requires AcceptsAll(maxPrice, lutSize, EMPTY, reqs)
    requires AllFaithful(EMPTY, reqs)
    ensures var r := Run(EMPTY, reqs);
      Replay(true, map[], r.acks) == ViewOf(r.market.bids) && Replay(false, map[], r.acks) == ViewOf(r.market.asks)
  {
    if reqs != [] {
      var init, o := reqs[..|reqs|-1], reqs[|reqs|-1];
      var r := Run(EMPTY, init);
      RunRebuilt(maxPrice, lutSize, init);
      RunInv(maxPrice, lutSize, init);
      ProcessRebuilt(maxPrice, lutSize, r.market, o);
      ReplayAppend(true, map[], r.acks, Process(r.market, o).acks);
      ReplayAppend(false, map[], r.acks, Process(r.market, o).acks);
    }
  }

  // Trader 2 cancels an order of trader 1: the order is gone, trader 1 is not told.
  lemma ForeignDeleteHidden()
    ensures var mine := LOBOrder(0, 0.5, 7, 1, 'b', 'c');
      var m := Market([mine], [], false);
      var p := Process(m, mine.(tradeId := 2, reqType := 'd'));
      && p.market == EMPTY && p.acks == []
      && Replay(true, ViewOf(m.bids), p.acks) == map[0 := Line(5, 7)] && ViewOf(p.market.bids) == map[]
  {
    var mine := LOBOrder(0, 0.5, 7, 1, 'b', 'c');
  }
}
