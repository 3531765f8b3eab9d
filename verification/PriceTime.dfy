// The reference matcher: one side of the market as a plain list, best price
// first and oldest first within a price.  No tombstones, no lookup table, no
// counters, no cursor.
module PriceTime {
  import opened Orders

  type Queue = seq<LOBOrder>

  // Tick a has strict priority over tick b among resting orders of one side.
  predicate Better(isBuy: bool, a: int, b: int) {
    if isBuy then a > b else a < b
  }

  // An incoming order with this limit may trade with a resting order at `tick`.
  predicate Crosses(restBuy: bool, limit: int, tick: int) {
    !Better(restBuy, limit, tick)
  }

  // Priority order, distinct ids, nothing empty.
  ghost predicate Ok(isBuy: bool, q: Queue) {
    q == [] ||
    (&& q[0].quantity > 0
     && (forall o :: o in q[1..] ==> o.systemId != q[0].systemId && !Better(isBuy, TickOf(o), TickOf(q[0])))
     && Ok(isBuy, q[1..]))
  }

  function Find(q: Queue, id: u32): (r: Option<LOBOrder>)
    ensures r.Some? ==> r.value in q && r.value.systemId == id
    ensures r.None? ==> forall o :: o in q ==> o.systemId != id
  {
    if q == [] then None
    else if q[0].systemId == id then Some(q[0])
    else Find(q[1..], id)
  }

  // A new order goes behind everything at a better or equal price.
  function Insert(isBuy: bool, q: Queue, o: LOBOrder): (r: Queue)
    ensures forall x :: x in r <==> x == o || x in q
  {
    if q == [] || Better(isBuy, TickOf(o), TickOf(q[0])) then [o] + q
    else [q[0]] + Insert(isBuy, q[1..], o)
  }

  function Remove(q: Queue, id: u32): (r: Queue)
    ensures forall x :: x in r <==> x in q && x.systemId != id
  {
    if q == [] then []
    else if q[0].systemId == id then Remove(q[1..], id)
    else [q[0]] + Remove(q[1..], id)
  }

  function SetQuantity(q: Queue, id: u32, quantity: u32): (r: Queue)
    ensures |r| == |q|
  {
    if q == [] then []
    else [if q[0].systemId == id then q[0].(quantity := quantity) else q[0]] + SetQuantity(q[1..], id, quantity)
  }

  // Same-price update: a smaller quantity keeps the place in the queue, a
  // larger one sends the request to the back of its price.
  function Requantify(isBuy: bool, q: Queue, o: LOBOrder): Queue {
    match Find(q, o.systemId)
    case None => q
    case Some(e) =>
      if o.quantity == e.quantity then q
      else if o.quantity < e.quantity then SetQuantity(q, o.systemId, o.quantity)
      else Insert(isBuy, Remove(q, o.systemId), o)
  }

  function Total(q: Queue): nat {
    if q == [] then 0 else q[0].quantity + Total(q[1..])
  }

  // ----- Matching -----

  // A resting order as it was when it was hit, and how much of it traded.
  datatype Fill = Fill(resting: LOBOrder, quantity: u32)

  datatype Sweep = Sweep(fills: seq<Fill>, left: u32, rest: Queue)

  function Match(restBuy: bool, q: Queue, limit: int, quantity: u32): (r: Sweep)
    ensures r.left <= quantity
  {
    if quantity == 0 || q == [] || !Crosses(restBuy, limit, TickOf(q[0])) then
      Sweep([], quantity, q)
    else if q[0].quantity <= quantity then
      var r := Match(restBuy, q[1..], limit, quantity - q[0].quantity);
      Sweep([Fill(q[0], q[0].quantity)] + r.fills, r.left, r.rest)
    else
      Sweep([Fill(q[0], quantity)], 0, [q[0].(quantity := q[0].quantity - quantity)] + q[1..])
  }

  function Volume(fills: seq<Fill>): nat {
    if fills == [] then 0 else fills[0].quantity + Volume(fills[1..])
  }

  predicate GoodHit(restBuy: bool, limit: int, f: Fill, o: LOBOrder) {
    f.resting == o && Crosses(restBuy, limit, TickOf(o)) && 0 < f.quantity <= o.quantity
  }

  // The fills hit a prefix of the queue in queue order, all but the last in full.
  ghost predicate HitsPrefix(restBuy: bool, limit: int, fills: seq<Fill>, q: Queue) {
    && |fills| <= |q|
    && (forall i :: 0 <= i < |fills| ==> GoodHit(restBuy, limit, fills[i], q[i]))
    && (forall i :: 0 <= i < |fills| - 1 ==> fills[i].quantity == q[i].quantity)
  }

  // What such fills leave: the unhit suffix, behind the last order hit if it survives.
  ghost function Leftover(fills: seq<Fill>, q: Queue): Queue
    requires |fills| <= |q|
  {
    var n := |fills|;
    if n > 0 && fills[n-1].quantity < q[n-1].quantity
    then [q[n-1].(quantity := q[n-1].quantity - fills[n-1].quantity)] + q[n..]
    else q[n..]
  }

  // What a price-time sweep is, without saying how to compute one.  It stops
  // early only when nothing that is left crosses.
  ghost predicate IsSweep(restBuy: bool, q: Queue, limit: int, quantity: u32, r: Sweep) {
    && HitsPrefix(restBuy, limit, r.fills, q)
    && r.left + Volume(r.fills) == quantity
    && r.rest == Leftover(r.fills, q)
    && (r.left > 0 && r.rest != [] ==> !Crosses(restBuy, limit, TickOf(r.rest[0])))
  }

  lemma HitsCons(restBuy: bool, limit: int, f: Fill, fs: seq<Fill>, q: Queue)
    requires q != []
    ensures HitsPrefix(restBuy, limit, [f] + fs, q) <==>
            GoodHit(restBuy, limit, f, q[0]) && HitsPrefix(restBuy, limit, fs, q[1..])
            && (fs != [] ==> f.quantity == q[0].quantity)
  {
  }

  lemma LeftoverCons(f: Fill, fs: seq<Fill>, q: Queue)
    requires |fs| < |q|
    requires fs != [] || f.quantity == q[0].quantity
    ensures Leftover([f] + fs, q) == Leftover(fs, q[1..])
  {
  }

  // One more order hit in full in front of a sweep is again a sweep.
  lemma SweepCons(restBuy: bool, q: Queue, limit: int, quantity: u32, t: Sweep)
    requires q != [] && 0 < q[0].quantity <= quantity && Crosses(restBuy, limit, TickOf(q[0]))
    requires IsSweep(restBuy, q[1..], limit, quantity - q[0].quantity, t)
    ensures IsSweep(restBuy, q, limit, quantity, Sweep([Fill(q[0], q[0].quantity)] + t.fills, t.left, t.rest))
  {
  }

  lemma {:induction false} MatchIsSweep(restBuy: bool, q: Queue, limit: int, quantity: u32)
    requires Ok(restBuy, q)
    ensures IsSweep(restBuy, q, limit, quantity, Match(restBuy, q, limit, quantity))
  {
    if quantity == 0 || q == [] || !Crosses(restBuy, limit, TickOf(q[0])) {
    } else if q[0].quantity <= quantity {
      MatchIsSweep(restBuy, q[1..], limit, quantity - q[0].quantity);
      SweepCons(restBuy, q, limit, quantity, Match(restBuy, q[1..], limit, quantity - q[0].quantity));
    } else {
      var f := Fill(q[0], quantity);
      assert HitsPrefix(restBuy, limit, [f], q);
      assert [f][1..] == [];
    }
  }

  lemma NoHits(q: Queue)
    ensures Leftover([], q) == q
  {
  }

  lemma SomeHit(restBuy: bool, limit: int, fills: seq<Fill>, q: Queue)
    requires HitsPrefix(restBuy, limit, fills, q)
    ensures |fills| <= |q|
  {
  }

  lemma PartialHit(f: Fill, q: Queue)
    requires q != [] && f.quantity < q[0].quantity
    ensures Leftover([f], q) == [q[0].(quantity := q[0].quantity - f.quantity)] + q[1..]
    ensures Volume([f]) == f.quantity
  {
  }

  // The description leaves no freedom: the reference matcher is the only sweep.
  lemma {:induction false} SweepIsMatch(restBuy: bool, q: Queue, limit: int, quantity: u32, r: Sweep)
    requires Ok(restBuy, q)
    requires IsSweep(restBuy, q, limit, quantity, r)
    ensures r == Match(restBuy, q, limit, quantity)
  {
    hide HitsPrefix, Leftover, Tick;
    if r.fills == [] {
      NoHits(q);
    } else {
      var f, fs := r.fills[0], r.fills[1..];
      assert r.fills == [f] + fs;
      SomeHit(restBuy, limit, r.fills, q);
      HitsCons(restBuy, limit, f, fs, q);
      if f.quantity == q[0].quantity {
        LeftoverCons(f, fs, q);
        SweepIsMatch(restBuy, q[1..], limit, quantity - f.quantity, Sweep(fs, r.left, r.rest));
      } else {
        assert fs == [] && r.fills == [f];
        PartialHit(f, q);
      }
    }
  }

  lemma {:induction false} OkIndexed(isBuy: bool, q: Queue, i: nat, j: nat)
    requires Ok(isBuy, q) && i < j < |q|
    ensures q[i].systemId != q[j].systemId
    ensures if isBuy then TickOf(q[j]) <= TickOf(q[i]) else TickOf(q[i]) <= TickOf(q[j])
  {
    if i == 0 { assert q[j] in q[1..]; } else { OkIndexed(isBuy, q[1..], i - 1, j - 1); }
  }

  lemma SurvivorIsBehind(restBuy: bool, q: Queue, fills: seq<Fill>, i: nat, x: LOBOrder)
    requires Ok(restBuy, q) && i < |fills| <= |q| && fills[i].resting == q[i] && x in Leftover(fills, q)
    ensures if restBuy then TickOf(x) <= TickOf(q[i]) else TickOf(q[i]) <= TickOf(x)
    ensures i < |fills| - 1 ==> x.systemId != q[i].systemId
  {
    hide Ok, Tick;
    var n := |fills|;
    if x in q[n..] {
      var k :| 0 <= k < |q[n..]| && q[n..][k] == x;
      OkIndexed(restBuy, q, i, n + k);
    } else if i < n - 1 {
      OkIndexed(restBuy, q, i, n - 1);
    }
  }

  // Trades walk away from the best price; what survives is nowhere ahead of
  // anything that traded, and of the orders hit only the last can survive.
  lemma SweepShape(restBuy: bool, q: Queue, limit: int, quantity: u32)
    requires Ok(restBuy, q)
    ensures var r := Match(restBuy, q, limit, quantity);
      && (forall i, j :: 0 <= i < j < |r.fills| ==>
            var first, later := TickOf(r.fills[i].resting), TickOf(r.fills[j].resting);
            if restBuy then later <= first else first <= later)
      && (forall i, x :: 0 <= i < |r.fills| && x in r.rest ==>
            var traded, kept := TickOf(r.fills[i].resting), TickOf(x);
            && (if restBuy then kept <= traded else traded <= kept)
            && (i < |r.fills| - 1 ==> x.systemId != r.fills[i].resting.systemId))
  {
    hide Tick, Match;
    var r := Match(restBuy, q, limit, quantity);
    var n := |r.fills|;
    MatchIsSweep(restBuy, q, limit, quantity);
    hide Ok, Leftover;
    forall i, j | 0 <= i < j < n
      ensures var first, later := TickOf(r.fills[i].resting), TickOf(r.fills[j].resting);
        if restBuy then later <= first else first <= later
    {
      OkIndexed(restBuy, q, i, j);
    }
    forall i, x | 0 <= i < n && x in r.rest
      ensures var traded, kept := TickOf(r.fills[i].resting), TickOf(x);
        && (if restBuy then kept <= traded else traded <= kept)
        && (i < n - 1 ==> x.systemId != r.fills[i].resting.systemId)
    {
      SurvivorIsBehind(restBuy, q, r.fills, i, x);
    }
  }

  // Where a new order goes: behind every order at a better or equal price, in
  // front of every order at a worse one; nobody else moves.
  lemma {:induction false} InsertPlaces(isBuy: bool, q: Queue, o: LOBOrder) returns (k: nat)
    requires Ok(isBuy, q)
    ensures k <= |q| && Insert(isBuy, q, o) == q[..k] + [o] + q[k..]
    ensures forall i :: 0 <= i < k ==> if isBuy then TickOf(o) <= TickOf(q[i]) else TickOf(q[i]) <= TickOf(o)
    ensures forall i :: k <= i < |q| ==> if isBuy then TickOf(q[i]) < TickOf(o) else TickOf(o) < TickOf(q[i])
  {
    if q == [] || Better(isBuy, TickOf(o), TickOf(q[0])) {
      k := 0;
      forall i | 0 <= i < |q| ensures if isBuy then TickOf(q[i]) < TickOf(o) else TickOf(o) < TickOf(q[i]) {
        if i > 0 { OkIndexed(isBuy, q, 0, i); }
      }
    } else {
      var j := InsertPlaces(isBuy, q[1..], o);
      k := j + 1;
      assert q[..k] == [q[0]] + q[1..][..j] && q[k..] == q[1..][j..];
    }
  }

  lemma {:induction false} SetQuantityPointwise(q: Queue, id: u32, quantity: u32)
    ensures forall i :: 0 <= i < |q| ==>
              SetQuantity(q, id, quantity)[i] == if q[i].systemId == id then q[i].(quantity := quantity) else q[i]
  {
    if q != [] {
      SetQuantityPointwise(q[1..], id, quantity);
    }
  }

  // ----- What the operations keep -----

  lemma {:induction false} InsertOk(isBuy: bool, q: Queue, o: LOBOrder)
    requires Ok(isBuy, q) && o.quantity > 0 && Find(q, o.systemId).None?
    ensures Ok(isBuy, Insert(isBuy, q, o))
  {
    if q != [] && !Better(isBuy, TickOf(o), TickOf(q[0])) {
      InsertOk(isBuy, q[1..], o);
    }
  }

  lemma {:induction false} RemoveOk(isBuy: bool, q: Queue, id: u32)
    requires Ok(isBuy, q)
    ensures Ok(isBuy, Remove(q, id)) && Find(Remove(q, id), id).None?
  {
    if q != [] {
      RemoveOk(isBuy, q[1..], id);
    }
  }

  lemma SetQuantityMembers(q: Queue, id: u32, quantity: u32)
    ensures forall x :: x in SetQuantity(q, id, quantity) ==>
              exists y :: y in q && x.systemId == y.systemId && x.price == y.price && x.orderType == y.orderType
  {
    SetQuantityPointwise(q, id, quantity);
    var r := SetQuantity(q, id, quantity);
    forall x | x in r
      ensures exists y :: y in q && x.systemId == y.systemId && x.price == y.price && x.orderType == y.orderType
    {
      var i :| 0 <= i < |r| && r[i] == x;
    }
  }

  lemma {:induction false} SetQuantityOk(isBuy: bool, q: Queue, id: u32, quantity: u32)
    requires Ok(isBuy, q) && quantity > 0
    ensures Ok(isBuy, SetQuantity(q, id, quantity))
  {
    if q != [] {
      SetQuantityOk(isBuy, q[1..], id, quantity);
      SetQuantityMembers(q[1..], id, quantity);
    }
  }

  lemma RequantifyOk(isBuy: bool, q: Queue, o: LOBOrder)
    requires Ok(isBuy, q) && o.quantity > 0
    ensures Ok(isBuy, Requantify(isBuy, q, o))
  {
    SetQuantityOk(isBuy, q, o.systemId, o.quantity);
    RemoveOk(isBuy, q, o.systemId);
    InsertOk(isBuy, Remove(q, o.systemId), o);
  }

  // A sweep keeps the list well formed and adds no order to it.
  lemma {:induction false} MatchOk(restBuy: bool, q: Queue, limit: int, quantity: u32)
    requires Ok(restBuy, q)
    ensures var r := Match(restBuy, q, limit, quantity);
      && Ok(restBuy, r.rest)
      && (forall x :: x in r.rest ==>
            exists y :: y in q && x.systemId == y.systemId && x.price == y.price && x.orderType == y.orderType && x.tradeId == y.tradeId)
      && (r.left > 0 ==> forall x :: x in r.rest ==> !Crosses(restBuy, limit, TickOf(x)))
  {
    var r := Match(restBuy, q, limit, quantity);
    if quantity == 0 || q == [] || !Crosses(restBuy, limit, TickOf(q[0])) {
      forall x | x in q && quantity > 0 ensures !Crosses(restBuy, limit, TickOf(x)) {
        if x != q[0] { assert x in q[1..]; }
      }
    } else if q[0].quantity <= quantity {
      MatchOk(restBuy, q[1..], limit, quantity - q[0].quantity);
    } else {
      forall x | x in r.rest
        ensures exists y :: y in q && x.systemId == y.systemId && x.price == y.price && x.orderType == y.orderType && x.tradeId == y.tradeId
      {
        if x == r.rest[0] { assert q[0] in q; } else { assert x in q[1..]; }
      }
    }
  }

  // What the limit of an incoming order means: it trades at no tick beyond it,
  // and if it is not used up, everything left is beyond it.
  lemma SweepWithinLimit(restBuy: bool, q: Queue, limit: int, quantity: u32)
    requires Ok(restBuy, q)
    ensures var r := Match(restBuy, q, limit, quantity);
      && |r.fills| <= |q|
      && (forall i :: 0 <= i < |r.fills| ==>
            var tick := TickOf(r.fills[i].resting);
            && r.fills[i].resting == q[i]
            && if restBuy then limit <= tick else tick <= limit)
      && (r.left > 0 ==> forall x :: x in r.rest ==>
            if restBuy then TickOf(x) < limit else limit < TickOf(x))
  {
    hide Ok, Tick;
    MatchIsSweep(restBuy, q, limit, quantity);
    MatchOk(restBuy, q, limit, quantity);
    var r := Match(restBuy, q, limit, quantity);
    forall i | 0 <= i < |r.fills| ensures GoodHit(restBuy, limit, r.fills[i], q[i]) {
    }
  }

  // ----- Conservation -----

  lemma {:induction false} InsertTotal(isBuy: bool, q: Queue, o: LOBOrder)
    ensures Total(Insert(isBuy, q, o)) == Total(q) + o.quantity
  {
    if q != [] && !Better(isBuy, TickOf(o), TickOf(q[0])) {
      InsertTotal(isBuy, q[1..], o);
    }
  }

  lemma {:induction false} RemoveAbsent(q: Queue, id: u32)
    requires Find(q, id).None?
    ensures Remove(q, id) == q
  {
    if q != [] { assert q[0] in q; RemoveAbsent(q[1..], id); }
  }

  lemma {:induction false} RemoveTotal(isBuy: bool, q: Queue, id: u32)
    requires Ok(isBuy, q) && Find(q, id).Some?
    ensures Total(Remove(q, id)) + Find(q, id).value.quantity == Total(q)
  {
    if q[0].systemId == id {
      RemoveAbsent(q[1..], id);
    } else {
      RemoveTotal(isBuy, q[1..], id);
    }
  }

  lemma {:induction false} SetQuantityTotal(isBuy: bool, q: Queue, id: u32, quantity: u32)
    requires Ok(isBuy, q)
    ensures Find(q, id).None? ==> SetQuantity(q, id, quantity) == q
    ensures Find(q, id).Some? ==> Total(SetQuantity(q, id, quantity)) + Find(q, id).value.quantity == Total(q) + quantity
  {
    if q != [] {
      SetQuantityTotal(isBuy, q[1..], id, quantity);
      if q[0].systemId == id { assert Find(q[1..], id).None?; }
    }
  }

  // What leaves the incoming order is exactly what leaves the resting side.
  lemma {:induction false} MatchConserves(restBuy: bool, q: Queue, limit: int, quantity: u32)
    ensures var r := Match(restBuy, q, limit, quantity);
      && r.left + Volume(r.fills) == quantity
      && Total(r.rest) + Volume(r.fills) == Total(q)
  {
    if quantity > 0 && q != [] && Crosses(restBuy, limit, TickOf(q[0])) && q[0].quantity <= quantity {
      MatchConserves(restBuy, q[1..], limit, quantity - q[0].quantity);
    }
  }

  // ----- Lists taken apart at one order -----

  lemma {:induction false} OkParts(isBuy: bool, f: Queue, x: LOBOrder, b: Queue)
    requires Ok(isBuy, f + [x] + b)
    ensures forall y :: y in f || y in b ==> y.systemId != x.systemId
  {
    var q := f + [x] + b;
    if f != [] {
      assert q[1..] == f[1..] + [x] + b;
      OkParts(isBuy, f[1..], x, b);
    }
  }

  lemma {:induction false} FindSplice(isBuy: bool, f: Queue, x: LOBOrder, b: Queue)
    requires Ok(isBuy, f + [x] + b)
    ensures Find(f + [x] + b, x.systemId) == Some(x)
  {
    var q := f + [x] + b;
    if f != [] {
      assert q[1..] == f[1..] + [x] + b;
      FindSplice(isBuy, f[1..], x, b);
    }
  }

  lemma {:induction false} RemoveSplice(isBuy: bool, f: Queue, x: LOBOrder, b: Queue)
    requires Ok(isBuy, f + [x] + b)
    ensures Remove(f + [x] + b, x.systemId) == f + b
  {
    var q := f + [x] + b;
    if f == [] {
      RemoveAbsent(b, x.systemId);
    } else {
      assert q[1..] == f[1..] + [x] + b;
      RemoveSplice(isBuy, f[1..], x, b);
    }
  }

  lemma {:induction false} SetQuantitySplice(isBuy: bool, f: Queue, x: LOBOrder, b: Queue, v: u32)
    requires Ok(isBuy, f + [x] + b)
    ensures SetQuantity(f + [x] + b, x.systemId, v) == f + [x.(quantity := v)] + b
  {
    var q := f + [x] + b;
    if f == [] {
      SetQuantityTotal(isBuy, b, x.systemId, v);
    } else {
      assert q[1..] == f[1..] + [x] + b;
      SetQuantitySplice(isBuy, f[1..], x, b, v);
    }
  }

  lemma {:induction false} InsertSplice(isBuy: bool, f: Queue, b: Queue, o: LOBOrder)
    requires forall y :: y in f ==> !Better(isBuy, TickOf(o), TickOf(y))
    requires b != [] ==> Better(isBuy, TickOf(o), TickOf(b[0]))
    ensures Insert(isBuy, f + b, o) == f + [o] + b
  {
    if f != [] {
      assert (f + b)[1..] == f[1..] + b;
      InsertSplice(isBuy, f[1..], b, o);
    }
  }

  // ----- Quantity updates and queue priority -----

  function Ids(q: Queue): seq<u32> {
    seq(|q|, i requires 0 <= i < |q| => q[i].systemId)
  }

  lemma {:induction false} RemoveSetQuantity(q: Queue, id: u32, quantity: u32)
    ensures Remove(SetQuantity(q, id, quantity), id) == Remove(q, id)
  {
    if q != [] {
      RemoveSetQuantity(q[1..], id, quantity);
    }
  }

  // A decrease keeps every order in its place, and changes nothing but one quantity.
  lemma DecreaseKeepsPlaces(isBuy: bool, q: Queue, o: LOBOrder)
    requires Find(q, o.systemId).Some? && o.quantity <= Find(q, o.systemId).value.quantity
    ensures var q' := Requantify(isBuy, q, o);
      && Ids(q') == Ids(q) && Remove(q', o.systemId) == Remove(q, o.systemId)
      && forall i :: 0 <= i < |q| ==> q'[i] == if q[i].systemId == o.systemId && o.quantity < Find(q, o.systemId).value.quantity
                                               then q[i].(quantity := o.quantity) else q[i]
  {
    hide Find, Insert, Remove, Tick, SetQuantity;
    SetQuantityPointwise(q, o.systemId, o.quantity);
    RemoveSetQuantity(q, o.systemId, o.quantity);
  }

  // An increase moves exactly that order, to the back of its price: the others
  // keep their order.
  lemma IncreaseGoesToBack(isBuy: bool, q: Queue, o: LOBOrder) returns (k: nat)
    requires Ok(isBuy, q) && Find(q, o.systemId).Some? && o.quantity > Find(q, o.systemId).value.quantity
    ensures var q' := Requantify(isBuy, q, o);
      && Remove(q', o.systemId) == Remove(q, o.systemId)
      && k < |q'| && q'[k] == o
      && forall j :: k < j < |q'| ==> if isBuy then TickOf(q'[j]) < TickOf(o) else TickOf(o) < TickOf(q'[j])
  {
    hide Ok, Find, Remove, Insert, Tick;
    var others := Remove(q, o.systemId);
    RemoveOk(isBuy, q, o.systemId);
    InsertOk(isBuy, others, o);
    k := InsertPlaces(isBuy, others, o);
    RemoveSplice(isBuy, others[..k], o, others[k..]);
    var q' := Insert(isBuy, others, o);
  }
}
