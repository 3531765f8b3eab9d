// What the engine reports of a request, read literally: the trades told to
// trader 1, and the broadcasts, from which anyone can follow both books.
module Tape {
  import opened Orders
  import opened PriceTime
  import opened Market
  import opened Ledger
  import opened AckReplay
  import opened Trading

  // ----- Trades told to trader 1 -----

  predicate IsTrade(a: LOBAck, isBuy: bool) {
    a.status == 'T' && (a.side == 'b') == isBuy
  }

  // The trades told about orders of one side.
  function Trades(acks: seq<LOBAck>, isBuy: bool): seq<LOBAck> {
    if acks == [] then []
    else (if IsTrade(acks[0], isBuy) then [acks[0]] else []) + Trades(acks[1..], isBuy)
  }

  lemma {:induction false} TradesAppend(a: seq<LOBAck>, b: seq<LOBAck>, isBuy: bool)
    ensures Trades(a + b, isBuy) == Trades(a, isBuy) + Trades(b, isBuy)
  {
    hide IsTrade;
    if a == [] {
      assert a + b == b;
    } else {
      TradesAppend(a[1..], b, isBuy);
      assert (a + b)[0] == a[0] && (a + b)[1..] == a[1..] + b;
      var h := if IsTrade(a[0], isBuy) then [a[0]] else [];
      assert h + (Trades(a[1..], isBuy) + Trades(b, isBuy)) == (h + Trades(a[1..], isBuy)) + Trades(b, isBuy);
    }
  }

  lemma TradesOne(o: LOBOrder, tick: int, status: char, quantity: u32, isBuy: bool)
    ensures Trades(AckFor(o, tick, status, quantity), isBuy)
         == if o.tradeId == 1 && status == 'T' && IsBuy(o) == isBuy
            then [LOBAck(o.systemId, tick, quantity, o.orderType, 'T')] else []
  {
    var acks := AckFor(o, tick, status, quantity);
    if acks != [] { assert acks[1..] == []; }
  }

  // The fills that took from orders of trader 1.
  function Mine(fills: seq<Fill>): seq<Fill> {
    if fills == [] then []
    else (if fills[0].resting.tradeId == 1 then [fills[0]] else []) + Mine(fills[1..])
  }

  // Told of each fill: the taker if it is trader 1, at the tick of the order it hit.
  ghost predicate TakerTold(told: seq<LOBAck>, o: LOBOrder, fills: seq<Fill>) {
    && |told| == (if o.tradeId == 1 then |fills| else 0)
    && forall i :: 0 <= i < |told| ==>
         told[i] == LOBAck(o.systemId, TickOf(fills[i].resting), fills[i].quantity, o.orderType, 'T')
  }

  // And the owner of the order that was hit, at that order's own tick.
  ghost predicate MakerTold(told: seq<LOBAck>, mine: seq<Fill>) {
    && |told| == |mine|
    && forall i :: 0 <= i < |told| ==>
         told[i] == LOBAck(mine[i].resting.systemId, TickOf(mine[i].resting), mine[i].quantity, mine[i].resting.orderType, 'T')
  }

  lemma NoTrades(o: LOBOrder, isBuy: bool)
    ensures Trades([], isBuy) == [] && FillAcks(o, []) == []
  {
  }

  lemma HitTold(o: LOBOrder, f: Fill, isBuy: bool)
    requires IsBuy(f.resting) != IsBuy(o)
    ensures var who := if isBuy == IsBuy(o) then o else f.resting;
      Trades(HitAcks(o, f), isBuy)
      == if who.tradeId == 1
         then [LOBAck(who.systemId, TickOf(f.resting), f.quantity, who.orderType, 'T')] else []
  {
    hide Tick, AckFor, Trades;
    var tick := TickOf(f.resting);
    var mine, theirs := AckFor(o, tick, 'T', f.quantity), AckFor(f.resting, tick, 'T', f.quantity);
    TradesAppend(mine, theirs, isBuy);
    TradesOne(o, tick, 'T', f.quantity, isBuy);
    TradesOne(f.resting, tick, 'T', f.quantity, isBuy);
  }

  lemma {:induction false} FillsTold(o: LOBOrder, fills: seq<Fill>)
    requires forall i :: 0 <= i < |fills| ==> IsBuy(fills[i].resting) != IsBuy(o)
    ensures TakerTold(Trades(FillAcks(o, fills), IsBuy(o)), o, fills)
    ensures MakerTold(Trades(FillAcks(o, fills), !IsBuy(o)), Mine(fills))
  {
    hide Tick, HitAcks, Trades;
    NoTrades(o, true);
    NoTrades(o, false);
    if fills != [] {
      var f, t := fills[0], FillAcks(o, fills[1..]);
      FillsTold(o, fills[1..]);
      HitTold(o, f, true);
      HitTold(o, f, false);
      TradesAppend(HitAcks(o, f), t, true);
      TradesAppend(HitAcks(o, f), t, false);
    }
  }

  lemma CreateTrades(m: Market, o: LOBOrder, isBuy: bool)
    ensures Trades(Create(m, o).acks, isBuy) == Trades(FillAcks(o, Create(m, o).fills), isBuy)
  {
    hide Match, FillAcks, Tick, AckFor, Insert;
    var r := Match(!IsBuy(o), Side(m, !IsBuy(o)), TickOf(o), o.quantity);
    var rem := o.(quantity := r.left);
    TradesAppend(FillAcks(o, r.fills), AckFor(rem, TickOf(rem), 'N', rem.quantity), isBuy);
    TradesOne(rem, TickOf(rem), 'N', rem.quantity, isBuy);
  }

  // Whatever else a request is told about, its trades are those of its fills.
  lemma ProcessTrades(m: Market, o: LOBOrder, isBuy: bool)
    ensures Trades(Process(m, o).acks, isBuy) == Trades(FillAcks(o, Process(m, o).fills), isBuy)
  {
    hide Create, Find, Requantify, Remove, FillAcks, Trades, AckFor, Tick;
    NoTrades(o, isBuy);
    CreateTrades(m, o, isBuy);
    TradesOne(o, TickOf(o), 'D', o.quantity, isBuy);
    TradesOne(o, TickOf(o), 'U', o.quantity, isBuy);
    var e := Find(Side(m, IsBuy(o)), o.systemId);
    if o.reqType == 'u' && e.Some? {
      var seen := e.value.(quantity := 0);
      var c := Cancel(m, IsBuy(o), o.systemId, seen);
      CreateTrades(c.market, o, isBuy);
      TradesOne(seen, TickOf(seen), 'D', 0, isBuy);
      TradesAppend(c.acks, Create(c.market, o).acks, isBuy);
      assert c.fills + Create(c.market, o).fills == Create(c.market, o).fills;
    }
  }

  // The trades of a request as trader 1 is told of them: on the side of the
  // request exactly its own fills, in order, each at the tick of the order it
  // hit; on the far side exactly the fills of trader 1's orders, in order, each
  // at that order's tick.  Nobody else is told anything.
  lemma TradesAreTold(maxPrice: nat, lutSize: nat, m: Market, o: LOBOrder)
    requires Inv(maxPrice, lutSize, m)
    ensures var p := Process(m, o);
      && TakerTold(Trades(p.acks, o.orderType == 'b'), o, p.fills)
      && MakerTold(Trades(p.acks, o.orderType != 'b'), Mine(p.fills))
  {
    hide Process, Trades, Mine, TakerTold, MakerTold, Sweeps, Tick, Ok, Match, FillAcks;
    assert SideOk(maxPrice, lutSize, m, !IsBuy(o));
    ProcessSweeps(m, o);
    FillsAreThere(maxPrice, lutSize, m, o);
    FillsTold(o, Process(m, o).fills);
    ProcessTrades(m, o, true);
    ProcessTrades(m, o, false);
  }

  // Tick times quantity, summed.
  function Value(told: seq<LOBAck>): int {
    if told == [] then 0 else told[0].price * told[0].quantity + Value(told[1..])
  }

  function Worth(fills: seq<Fill>): int {
    if fills == [] then 0 else TickOf(fills[0].resting) * fills[0].quantity + Worth(fills[1..])
  }

  lemma {:induction false} ToldIsWorth(told: seq<LOBAck>, fills: seq<Fill>)
    requires |told| == |fills|
    requires forall i :: 0 <= i < |told| ==> told[i].price == TickOf(fills[i].resting) && told[i].quantity == fills[i].quantity
    ensures Value(told) == Worth(fills)
  {
    hide Tick;
    if told != [] { ToldIsWorth(told[1..], fills[1..]); }
  }

  // What trader 1 pays or receives by what it is told is what its trades are worth.
  lemma ValueIsTold(maxPrice: nat, lutSize: nat, m: Market, o: LOBOrder)
    requires Inv(maxPrice, lutSize, m)
    ensures var p := Process(m, o);
      && Value(Trades(p.acks, o.orderType == 'b')) == (if o.tradeId == 1 then Worth(p.fills) else 0)
      && Value(Trades(p.acks, o.orderType != 'b')) == Worth(Mine(p.fills))
  {
    hide Process, Trades, Mine, Worth, Inv, Tick;
    TradesAreTold(maxPrice, lutSize, m, o);
    var p := Process(m, o);
    if o.tradeId == 1 { ToldIsWorth(Trades(p.acks, o.orderType == 'b'), p.fills); }
    ToldIsWorth(Trades(p.acks, o.orderType != 'b'), Mine(p.fills));
  }

  lemma {:induction false} FillsInTurn(o: LOBOrder, fills: seq<Fill>)
    requires o.tradeId == 1 && forall i :: 0 <= i < |fills| ==> fills[i].resting.tradeId == 1
    ensures var acks := FillAcks(o, fills);
      |acks| == 2 * |fills| && forall i :: 0 <= i < |fills| ==>
        && acks[2 * i].systemId == o.systemId && acks[2 * i + 1].systemId == fills[i].resting.systemId
        && acks[2 * i].status == acks[2 * i + 1].status == 'T'
  {
    hide Tick;
    if fills != [] {
      FillsInTurn(o, fills[1..]);
      var acks, t := FillAcks(o, fills), FillAcks(o, fills[1..]);
      forall i | 0 <= i < |fills|
        ensures acks[2 * i].systemId == o.systemId && acks[2 * i + 1].systemId == fills[i].resting.systemId
                && acks[2 * i].status == acks[2 * i + 1].status == 'T'
      {
        if i > 0 { assert acks[2 * i] == t[2 * (i - 1)] && acks[2 * i + 1] == t[2 * (i - 1) + 1]; }
      }
    }
  }

  // A create that trades with trader 1's own orders only is told fill by fill,
  // to the taker first.
  lemma TakerFirst(m: Market, o: LOBOrder)
    requires o.reqType == 'c' && o.tradeId == 1
    requires forall i :: 0 <= i < |Process(m, o).fills| ==> Process(m, o).fills[i].resting.tradeId == 1
    ensures var p := Process(m, o);
      2 * |p.fills| <= |p.acks| && forall i :: 0 <= i < |p.fills| ==>
        && p.acks[2 * i].systemId == o.systemId && p.acks[2 * i + 1].systemId == p.fills[i].resting.systemId
        && p.acks[2 * i].status == p.acks[2 * i + 1].status == 'T'
  {
    hide Match, Tick, Insert, FillAcks;
    FillsInTurn(o, Process(m, o).fills);
  }

  // ----- Broadcasts -----

  datatype Offer = Offer(price: real, quantity: int)

  type Picture = map<u32, Offer>

  // One side of the book by order id.
  function PictureOf(q: Queue): Picture {
    if q == [] then map[] else PictureOf(q[1..])[q[0].systemId := Offer(q[0].price, q[0].quantity)]
  }

  // How an onlooker reads one broadcast: N adds, U sets, D removes.
  function Read(isBuy: bool, v: Picture, c: BroadCast): Picture {
    if c.side != (if isBuy then 'B' else 'S') then v
    else if c.kind == 'N' || c.kind == 'U' then v[c.systemId := Offer(c.price, c.quantity)]
    else if c.kind == 'D' then v - {c.systemId}
    else v
  }

  function Watch(isBuy: bool, v: Picture, casts: seq<BroadCast>): Picture
    decreases |casts|
  {
    if casts == [] then v else Watch(isBuy, Read(isBuy, v, casts[0]), casts[1..])
  }

  // Fills are not broadcast: this is how one that hears of them takes them off.
  function TakeOff(v: Picture, fills: seq<Fill>): Picture
    decreases |fills|
  {
    if fills == [] then v
    else
      var id := fills[0].resting.systemId;
      var left := if id in v then v[id].quantity - fills[0].quantity else 0;
      TakeOff(if left > 0 then v[id := v[id].(quantity := left)] else v - {id}, fills[1..])
  }

  function SeenAs(e: Option<LOBOrder>): Option<Offer> {
    match e case None => None case Some(o) => Some(Offer(o.price, o.quantity))
  }

  function OfferAt(v: Picture, id: u32): Option<Offer> {
    if id in v then Some(v[id]) else None
  }

  lemma {:induction false} PictureFind(q: Queue, id: u32)
    ensures OfferAt(PictureOf(q), id) == SeenAs(Find(q, id))
  {
    if q != [] { PictureFind(q[1..], id); }
  }

  lemma SamePicture(v: Picture, w: Picture)
    requires forall id: u32 :: OfferAt(v, id) == OfferAt(w, id)
    ensures v == w
  {
    forall id: u32 ensures id in v <==> id in w { assert OfferAt(v, id) == OfferAt(w, id); }
    forall id: u32 | id in v ensures v[id] == w[id] { assert OfferAt(v, id) == OfferAt(w, id); }
  }

  // If only one id changed in the list, only its line changes in the picture.
  lemma PictureChange(q: Queue, q': Queue, id: u32)
    requires forall x: u32 :: x != id ==> Find(q', x) == Find(q, x)
    ensures PictureOf(q') == match SeenAs(Find(q', id)) case Some(l) => PictureOf(q)[id := l] case None => PictureOf(q) - {id}
  {
    hide Find, PictureOf;
    var w := match SeenAs(Find(q', id)) case Some(l) => PictureOf(q)[id := l] case None => PictureOf(q) - {id};
    forall x: u32 ensures OfferAt(PictureOf(q'), x) == OfferAt(w, x) {
      PictureFind(q, x);
      PictureFind(q', x);
    }
    SamePicture(PictureOf(q'), w);
  }

  lemma PictureInsert(isBuy: bool, q: Queue, o: LOBOrder)
    requires Find(q, o.systemId).None?
    ensures PictureOf(Insert(isBuy, q, o)) == PictureOf(q)[o.systemId := Offer(o.price, o.quantity)]
  {
    hide Find, Insert, PictureOf;
    forall x: u32 ensures Find(Insert(isBuy, q, o), x) == if x == o.systemId then Some(o) else Find(q, x) {
      InsertFind(isBuy, q, o, x);
    }
    PictureChange(q, Insert(isBuy, q, o), o.systemId);
  }

  lemma PictureRemove(q: Queue, id: u32)
    ensures PictureOf(Remove(q, id)) == PictureOf(q) - {id}
  {
    hide Find, Remove, PictureOf;
    forall x: u32 ensures Find(Remove(q, id), x) == if x == id then None else Find(q, x) {
      RemoveFind(q, id, x);
    }
    PictureChange(q, Remove(q, id), id);
  }

  lemma PictureRequantify(isBuy: bool, q: Queue, o: LOBOrder)
    requires Find(q, o.systemId).Some? && o.price == Find(q, o.systemId).value.price
    ensures PictureOf(Requantify(isBuy, q, o)) == PictureOf(q)[o.systemId := Offer(o.price, o.quantity)]
  {
    hide Find, Requantify, PictureOf;
    forall x: u32 | x != o.systemId ensures Find(Requantify(isBuy, q, o), x) == Find(q, x) {
      RequantifyFind(isBuy, q, o, x);
    }
    RequantifyFind(isBuy, q, o, o.systemId);
    PictureChange(q, Requantify(isBuy, q, o), o.systemId);
  }

  lemma OkFresh(isBuy: bool, q: Queue)
    requires Ok(isBuy, q) && q != []
    ensures Find(q[1..], q[0].systemId).None?
  {
  }

  // The head of a list as one fill leaves it.
  lemma HeadOff(isBuy: bool, q: Queue, quantity: u32)
    requires Ok(isBuy, q) && q != [] && 0 < quantity <= q[0].quantity
    ensures var left := q[0].quantity - quantity;
      TakeOff(PictureOf(q), [Fill(q[0], quantity)])
      == if left > 0 then PictureOf([q[0].(quantity := left)] + q[1..]) else PictureOf(q[1..])
  {
    hide Find, Tick;
    var f := [Fill(q[0], quantity)];
    assert f[1..] == [];
    PictureFind(q[1..], q[0].systemId);
    OkFresh(isBuy, q);
  }

  lemma TakeOffCons(v: Picture, f: Fill, fills: seq<Fill>)
    ensures TakeOff(v, [f] + fills) == TakeOff(TakeOff(v, [f]), fills)
  {
    assert ([f] + fills)[1..] == fills && [f][1..] == [];
  }

  lemma OkTails(isBuy: bool, q: Queue)
    requires Ok(isBuy, q)
    ensures q != [] ==> Ok(isBuy, q[1..]) && q[0].quantity > 0
  {
  }

  lemma NothingOff(v: Picture)
    ensures TakeOff(v, []) == v
  {
  }

  // Taking a sweep's fills off the picture of the list leaves that of the rest.
  lemma {:induction false} PictureSweep(restBuy: bool, q: Queue, limit: int, quantity: u32)
    requires Ok(restBuy, q)
    ensures var r := Match(restBuy, q, limit, quantity);
      TakeOff(PictureOf(q), r.fills) == PictureOf(r.rest)
  {
    hide PictureOf, TakeOff, Ok, Tick;
    OkTails(restBuy, q);
    if quantity == 0 || q == [] || !Crosses(restBuy, limit, TickOf(q[0])) {
      NothingOff(PictureOf(q));
    } else if q[0].quantity <= quantity {
      var t := Match(restBuy, q[1..], limit, quantity - q[0].quantity);
      HeadOff(restBuy, q, q[0].quantity);
      TakeOffCons(PictureOf(q), Fill(q[0], q[0].quantity), t.fills);
      PictureSweep(restBuy, q[1..], limit, quantity - q[0].quantity);
    } else {
      HeadOff(restBuy, q, quantity);
    }
  }

  // What an onlooker knows of one side after a request, given that it hears of
  // the fills as well.
  function Follow(isBuy: bool, v: Picture, o: LOBOrder, p: Outcome): Picture {
    Watch(isBuy, if (o.orderType == 'b') == isBuy then v else TakeOff(v, p.fills), p.casts)
  }

  lemma WatchNone(isBuy: bool, v: Picture)
    ensures Watch(isBuy, v, []) == v
  {
  }

  lemma WatchOne(isBuy: bool, v: Picture, c: BroadCast)
    ensures Watch(isBuy, v, [c]) == Read(isBuy, v, c)
  {
    assert [c][1..] == [];
  }

  lemma {:induction false} WatchAppend(isBuy: bool, v: Picture, a: seq<BroadCast>, b: seq<BroadCast>)
    ensures Watch(isBuy, v, a + b) == Watch(isBuy, Watch(isBuy, v, a), b)
    decreases |a|
  {
    if a == [] {
      assert a + b == b;
    } else {
      WatchAppend(isBuy, Read(isBuy, v, a[0]), a[1..], b);
      assert (a + b)[1..] == a[1..] + b;
    }
  }

  // The picture after a request is right.
  ghost predicate Followed(before: Market, o: LOBOrder, p: Outcome, isBuy: bool) {
    Follow(isBuy, PictureOf(Side(before, isBuy)), o, p) == PictureOf(Side(p.market, isBuy))
  }

  lemma CreateFollowed(m: Market, o: LOBOrder, isBuy: bool)
    requires Ok(!IsBuy(o), Side(m, !IsBuy(o)))
    requires Match(!IsBuy(o), Side(m, !IsBuy(o)), TickOf(o), o.quantity).left > 0 ==>
               Find(Side(m, IsBuy(o)), o.systemId).None?
    ensures Followed(m, o, Create(m, o), isBuy)
  {
    hide Match, Insert, Find, PictureOf, TakeOff, Watch, Tick, Ok, FillAcks;
    var b := IsBuy(o);
    var r := Match(!b, Side(m, !b), TickOf(o), o.quantity);
    var rem := o.(quantity := r.left);
    var v := if b == isBuy then PictureOf(Side(m, isBuy)) else TakeOff(PictureOf(Side(m, isBuy)), r.fills);
    CreateSides(m, o);
    WatchNone(isBuy, v);
    WatchOne(isBuy, v, CastFor(rem, 'N', b));
    if isBuy == b {
      if r.left > 0 { PictureInsert(b, Side(m, b), rem); }
    } else {
      PictureSweep(!b, Side(m, !b), TickOf(o), o.quantity);
    }
  }

  lemma CancelFollowed(m: Market, o: LOBOrder, seen: LOBOrder, isBuy: bool)
    requires seen.systemId == o.systemId
    ensures Followed(m, o, Cancel(m, IsBuy(o), o.systemId, seen), isBuy)
  {
    hide Remove, PictureOf, TakeOff, Watch, Tick;
    var v := PictureOf(Side(m, isBuy));
    WatchOne(isBuy, v, CastFor(seen, 'D', IsBuy(o)));
    NothingOff(v);
    PictureRemove(Side(m, isBuy), o.systemId);
  }

  lemma RequantifyFollowed(m: Market, e: LOBOrder, o: LOBOrder, isBuy: bool)
    requires o.reqType == 'u' && Find(Side(m, IsBuy(o)), o.systemId) == Some(e)
    requires o.price == e.price && o.quantity != e.quantity
    ensures Followed(m, o, Update(m, o), isBuy)
  {
    hide Find, Requantify, PictureOf, TakeOff, Watch, Tick;
    var v := PictureOf(Side(m, isBuy));
    WatchOne(isBuy, v, CastFor(o, 'U', IsBuy(o)));
    NothingOff(v);
    PictureRequantify(IsBuy(o), Side(m, IsBuy(o)), o);
  }

  lemma ReplaceFollowed(m: Market, e: LOBOrder, o: LOBOrder, isBuy: bool)
    requires Ok(!IsBuy(o), Side(m, !IsBuy(o))) && e.systemId == o.systemId
    ensures Followed(m, o, Replace(m, e, o), isBuy)
  {
    hide Find, Create, Remove, PictureOf, TakeOff, Watch, Tick, Ok, Match;
    var b := IsBuy(o);
    var c := Cancel(m, b, o.systemId, e.(quantity := 0));
    var d := Create(c.market, o);
    RemoveFind(Side(m, b), o.systemId, o.systemId);
    CreateFollowed(c.market, o, isBuy);
    assert c.fills + d.fills == d.fills;
    var v := if b == isBuy then PictureOf(Side(m, isBuy)) else TakeOff(PictureOf(Side(m, isBuy)), d.fills);
    WatchAppend(isBuy, v, c.casts, d.casts);
    WatchOne(isBuy, v, CastFor(e.(quantity := 0), 'D', b));
    PictureRemove(Side(m, isBuy), o.systemId);
  }

  lemma NothingFollowed(m: Market, o: LOBOrder, isBuy: bool)
    ensures Followed(m, o, Outcome(m, [], [], []), isBuy)
  {
  }

  // One request: its broadcasts, and its fills, turn the right picture of
  // either book into the right picture, id by id, price and quantity.
  lemma ProcessFollowed(maxPrice: nat, lutSize: nat, m: Market, o: LOBOrder, isBuy: bool)
    requires Inv(maxPrice, lutSize, m) && Accepts(maxPrice, lutSize, m, o)
    ensures Followed(m, o, Process(m, o), isBuy)
  {
    hide Followed, Find, Create, Cancel, Replace, Tick, Ok, Match;
    assert SideOk(maxPrice, lutSize, m, !IsBuy(o));
    NothingFollowed(m, o, isBuy);
    var e := Find(Side(m, IsBuy(o)), o.systemId);
    if o.reqType == 'c' {
      CreateFollowed(m, o, isBuy);
    } else if o.reqType == 'd' {
      CancelFollowed(m, o, o, isBuy);
    } else if o.reqType == 'u' && e.Some? {
      if o.price != e.value.price { ReplaceFollowed(m, e.value, o, isBuy); }
      else if o.quantity != e.value.quantity { RequantifyFollowed(m, e.value, o, isBuy); }
    }
  }

  // The picture after a whole run.
  function FollowRun(isBuy: bool, m: Market, reqs: seq<LOBOrder>): Picture {
    if reqs == [] then PictureOf(Side(m, isBuy))
    else
      var init, o := reqs[..|reqs|-1], reqs[|reqs|-1];
      Follow(isBuy, FollowRun(isBuy, m, init), o, Process(Run(m, init).market, o))
  }

  // Over any run, broadcasts and fills give both books exactly.
  lemma {:induction false} RunFollowed(maxPrice: nat, lutSize: nat, reqs: seq<LOBOrder>, isBuy: bool)
    requires AcceptsAll(maxPrice, lutSize, EMPTY, reqs)
    ensures FollowRun(isBuy, EMPTY, reqs) == PictureOf(Side(Run(EMPTY, reqs).market, isBuy))
  {
    if reqs != [] {
      var init, o := reqs[..|reqs|-1], reqs[|reqs|-1];
      RunFollowed(maxPrice, lutSize, init, isBuy);
      RunInv(maxPrice, lutSize, init);
      ProcessFollowed(maxPrice, lutSize, Run(EMPTY, init).market, o, isBuy);
      RunLast(EMPTY, reqs);
      hide Run, Process, Follow, PictureOf;
    }
  }

  lemma {:induction false} FollowWithoutFills(reqs: seq<LOBOrder>, isBuy: bool)
    requires Run(EMPTY, reqs).fills == []
    ensures FollowRun(isBuy, EMPTY, reqs) == Watch(isBuy, map[], Run(EMPTY, reqs).casts)
  {
    if reqs != [] {
      var init, o := reqs[..|reqs|-1], reqs[|reqs|-1];
      RunLast(EMPTY, reqs);
      var r := Run(EMPTY, init);
      var p := Process(r.market, o);
      hide Run, Process, Watch, TakeOff;
      assert r.fills == [] && p.fills == [];
      FollowWithoutFills(init, isBuy);
      NothingOff(FollowRun(isBuy, EMPTY, init));
      WatchAppend(isBuy, map[], r.casts, p.casts);
    }
  }

  // Over a run without fills the broadcasts alone do: folded from nothing they
  // are id, price and quantity of everything that rests.
  lemma {:induction false} RunBroadcast(maxPrice: nat, lutSize: nat, reqs: seq<LOBOrder>, isBuy: bool)
    requires AcceptsAll(maxPrice, lutSize, EMPTY, reqs) && Run(EMPTY, reqs).fills == []
    ensures Watch(isBuy, map[], Run(EMPTY, reqs).casts) == PictureOf(Side(Run(EMPTY, reqs).market, isBuy))
  {
    RunFollowed(maxPrice, lutSize, reqs, isBuy);
    FollowWithoutFills(reqs, isBuy);
  }

  // Every broadcast changes the picture: nothing is said twice.
  predicate AllTell(isBuy: bool, v: Picture, casts: seq<BroadCast>)
    decreases |casts|
  {
    casts == [] || (Read(isBuy, v, casts[0]) != v && AllTell(isBuy, Read(isBuy, v, casts[0]), casts[1..]))
  }

  lemma OneTells(isBuy: bool, v: Picture, c: BroadCast)
    requires Read(isBuy, v, c) != v
    ensures AllTell(isBuy, v, [c])
  {
    assert [c][1..] == [];
  }

  lemma CreateTells(m: Market, o: LOBOrder)
    requires Match(!IsBuy(o), Side(m, !IsBuy(o)), TickOf(o), o.quantity).left > 0 ==>
               Find(Side(m, IsBuy(o)), o.systemId).None?
    ensures AllTell(IsBuy(o), PictureOf(Side(m, IsBuy(o))), Create(m, o).casts)
    ensures |Create(m, o).casts| <= 1
  {
    hide Match, Find, PictureOf, Tick, FillAcks, Insert;
    var b := IsBuy(o);
    var r := Match(!b, Side(m, !b), TickOf(o), o.quantity);
    var v := PictureOf(Side(m, b));
    if r.left > 0 {
      PictureFind(Side(m, b), o.systemId);
      var c := CastFor(o.(quantity := r.left), 'N', b);
      assert o.systemId !in v && o.systemId in Read(b, v, c);
      OneTells(b, v, c);
    }
  }

  lemma CancelTells(m: Market, isBuy: bool, seen: LOBOrder)
    requires Find(Side(m, isBuy), seen.systemId).Some?
    ensures AllTell(isBuy, PictureOf(Side(m, isBuy)), Cancel(m, isBuy, seen.systemId, seen).casts)
  {
    hide Find, PictureOf, Tick;
    var v := PictureOf(Side(m, isBuy));
    PictureFind(Side(m, isBuy), seen.systemId);
    var c := CastFor(seen, 'D', isBuy);
    assert seen.systemId in v && seen.systemId !in Read(isBuy, v, c);
    OneTells(isBuy, v, c);
  }

  lemma UpdateTells(m: Market, e: LOBOrder, o: LOBOrder)
    requires o.reqType == 'u' && Find(Side(m, IsBuy(o)), o.systemId) == Some(e)
    requires o.price == e.price && o.quantity != e.quantity
    ensures AllTell(IsBuy(o), PictureOf(Side(m, IsBuy(o))), Update(m, o).casts)
  {
    hide Find, PictureOf, Tick, Requantify;
    var b := IsBuy(o);
    var v := PictureOf(Side(m, b));
    PictureFind(Side(m, b), o.systemId);
    var c := CastFor(o, 'U', b);
    assert v[o.systemId] == Offer(e.price, e.quantity) && Read(b, v, c)[o.systemId] == Offer(o.price, o.quantity);
    OneTells(b, v, c);
  }

  lemma ReplaceTells(m: Market, e: LOBOrder, o: LOBOrder)
    requires Find(Side(m, IsBuy(o)), o.systemId) == Some(e)
    ensures AllTell(IsBuy(o), PictureOf(Side(m, IsBuy(o))), Replace(m, e, o).casts)
  {
    hide Find, PictureOf, Tick, Remove, Create, Match;
    var b := IsBuy(o);
    var v := PictureOf(Side(m, b));
    var seen := e.(quantity := 0);
    var c := Cancel(m, b, o.systemId, seen);
    var cast := CastFor(seen, 'D', b);
    RemoveFind(Side(m, b), o.systemId, o.systemId);
    CancelTells(m, b, seen);
    PictureRemove(Side(m, b), o.systemId);
    assert Read(b, v, cast) == PictureOf(Side(c.market, b));
    CreateTells(c.market, o);
    assert Replace(m, e, o).casts == [cast] + Create(c.market, o).casts;
    assert ([cast] + Create(c.market, o).casts)[1..] == Create(c.market, o).casts;
  }

  // A request broadcasts about its own side only, and nothing it broadcasts is redundant.
  lemma ProcessTells(maxPrice: nat, lutSize: nat, m: Market, o: LOBOrder)
    requires Inv(maxPrice, lutSize, m) && Accepts(maxPrice, lutSize, m, o)
    ensures var b := o.orderType == 'b';
      AllTell(b, PictureOf(Side(m, b)), Process(m, o).casts)
  {
    hide Find, PictureOf, Tick, Create, Cancel, Replace, Match;
    var e := Find(Side(m, IsBuy(o)), o.systemId);
    if o.reqType == 'c' {
      CreateTells(m, o);
    } else if o.reqType == 'd' {
      CancelTells(m, IsBuy(o), o);
    } else if o.reqType == 'u' && e.Some? {
      if o.price != e.value.price { ReplaceTells(m, e.value, o); }
      else if o.quantity != e.value.quantity { UpdateTells(m, e.value, o); }
    }
  }

  // ----- Notices: what trader 1 is told apart from trades -----

  function Notices(acks: seq<LOBAck>): seq<LOBAck> {
    if acks == [] then []
    else (if acks[0].status != 'T' then [acks[0]] else []) + Notices(acks[1..])
  }

  lemma {:induction false} NoticesAppend(a: seq<LOBAck>, b: seq<LOBAck>)
    ensures Notices(a + b) == Notices(a) + Notices(b)
  {
    if a == [] {
      assert a + b == b;
    } else {
      NoticesAppend(a[1..], b);
      assert (a + b)[0] == a[0] && (a + b)[1..] == a[1..] + b;
      var h := if a[0].status != 'T' then [a[0]] else [];
      assert h + (Notices(a[1..]) + Notices(b)) == (h + Notices(a[1..])) + Notices(b);
    }
  }

  // Each broadcast as a notice to trader 1, if it is trader 1's: `was` is the
  // order that a D is about, `o` the one that anything else is about.
  function Mirror(casts: seq<BroadCast>, was: LOBOrder, o: LOBOrder): seq<LOBAck> {
    if casts == [] then []
    else
      var c := casts[0];
      var about := if c.kind == 'D' then was else o;
      (if about.tradeId == 1 then [LOBAck(c.systemId, Tick(c.price), c.quantity, about.orderType, c.kind)] else [])
      + Mirror(casts[1..], was, o)
  }

  lemma NoticesOne(o: LOBOrder, kind: char, isBuy: bool, was: LOBOrder, now: LOBOrder)
    requires kind != 'T'
    requires var about := if kind == 'D' then was else now;
      about.tradeId == o.tradeId && about.orderType == o.orderType
    ensures Notices(AckFor(o, TickOf(o), kind, o.quantity)) == Mirror([CastFor(o, kind, isBuy)], was, now)
  {
    var acks, c := AckFor(o, TickOf(o), kind, o.quantity), CastFor(o, kind, isBuy);
    assert [c][1..] == [];
    if acks != [] { assert acks[1..] == []; }
  }

  lemma TradesNoNotice(o: LOBOrder, f: Fill)
    ensures Notices(HitAcks(o, f)) == []
  {
    hide Tick;
    var mine, theirs := AckFor(o, TickOf(f.resting), 'T', f.quantity), AckFor(f.resting, TickOf(f.resting), 'T', f.quantity);
    NoticesAppend(mine, theirs);
    if mine != [] { assert mine[1..] == []; }
    if theirs != [] { assert theirs[1..] == []; }
  }

  lemma {:induction false} FillsNoNotice(o: LOBOrder, fills: seq<Fill>)
    ensures Notices(FillAcks(o, fills)) == []
  {
    hide Tick;
    if fills != [] {
      FillsNoNotice(o, fills[1..]);
      NoticesAppend(HitAcks(o, fills[0]), FillAcks(o, fills[1..]));
      TradesNoNotice(o, fills[0]);
    }
  }

  lemma CreateNotices(m: Market, o: LOBOrder, was: LOBOrder)
    ensures Notices(Create(m, o).acks) == Mirror(Create(m, o).casts, was, o)
  {
    hide Match, FillAcks, Tick, Insert, Notices, AckFor;
    var b := IsBuy(o);
    var r := Match(!b, Side(m, !b), TickOf(o), o.quantity);
    var rem := o.(quantity := r.left);
    FillsNoNotice(o, r.fills);
    NoticesAppend(FillAcks(o, r.fills), AckFor(rem, TickOf(rem), 'N', rem.quantity));
    NoticesOne(rem, 'N', b, was, o);
    assert [] + Mirror([CastFor(rem, 'N', b)], was, o) == Mirror([CastFor(rem, 'N', b)], was, o);
  }

  lemma MirrorCons(c: BroadCast, casts: seq<BroadCast>, was: LOBOrder, o: LOBOrder)
    ensures Mirror([c] + casts, was, o) == Mirror([c], was, o) + Mirror(casts, was, o)
  {
    hide Tick;
    assert ([c] + casts)[1..] == casts && [c][1..] == [];
  }

  lemma NoNotice(was: LOBOrder, o: LOBOrder)
    ensures Notices([]) == Mirror([], was, o) == []
  {
  }

  // Apart from trades, trader 1 is told of exactly what is broadcast about its
  // orders, in the same words: id, tick of the price, quantity, kind.
  lemma NoticesMatchBroadcasts(m: Market, o: LOBOrder)
    ensures var p, e := Process(m, o), Find(Side(m, o.orderType == 'b'), o.systemId);
      Notices(p.acks) == Mirror(p.casts, if o.reqType == 'u' && e.Some? then e.value else o, o)
  {
    hide Create, Find, Requantify, Remove, Notices, Mirror, AckFor, Tick;
    var b := IsBuy(o);
    var e := Find(Side(m, b), o.systemId);
    NoNotice(o, o);
    CreateNotices(m, o, o);
    NoticesOne(o, 'D', b, o, o);
    if e.Some? {
      var was := e.value;
      var seen := was.(quantity := 0);
      var c := Cancel(m, b, o.systemId, seen);
      NoNotice(was, o);
      NoticesOne(o, 'U', b, was, o);
      NoticesOne(seen, 'D', b, was, o);
      CreateNotices(c.market, o, was);
      NoticesAppend(c.acks, Create(c.market, o).acks);
      MirrorCons(CastFor(seen, 'D', b), Create(c.market, o).casts, was, o);
    }
  }

  // The words of a delete: a plain one is announced as it was asked for, one
  // that makes way for a new price with the old price and nothing left.
  lemma DeleteAnnounced(m: Market, o: LOBOrder)
    ensures o.reqType == 'd' ==>
      Process(m, o).casts == [BroadCast(o.systemId, o.price, o.quantity, if o.orderType == 'b' then 'B' else 'S', 'D')]
    ensures o.reqType == 'u' && Sweeps(m, o) ==>
      var e, casts := Find(Side(m, o.orderType == 'b'), o.systemId), Process(m, o).casts;
      e.Some? && casts != [] &&
      casts[0] == BroadCast(o.systemId, e.value.price, 0, if o.orderType == 'b' then 'B' else 'S', 'D')
  {
    hide Create, Tick;
  }
}
