// The outer loop of a sweep, pass by pass (matching/matching.cpp:302-355 and
// 363-417), and exactly when it ends.
module SweepLoop {
  import opened Orders
  import opened PriceTime

  function Least(a: u32, b: u32): u32 {
    if a < b then a else b
  }

  // One trade with the head of the list.
  function OneHit(q: Queue, quantity: u32): Sweep
    requires q != []
  {
    var trade := Least(q[0].quantity, quantity);
    Sweep([Fill(q[0], trade)], quantity - trade,
          (if q[0].quantity > trade then [q[0].(quantity := q[0].quantity - trade)] else []) + q[1..])
  }

  // The inner loop: hit the orders at one tick.
  function LevelMatch(q: Queue, tick: int, quantity: u32): (r: Sweep)
    ensures r.left <= quantity
  {
    if quantity == 0 || q == [] || TickOf(q[0]) != tick then
      Sweep([], quantity, q)
    else if q[0].quantity <= quantity then
      var r := LevelMatch(q[1..], tick, quantity - q[0].quantity);
      Sweep([Fill(q[0], q[0].quantity)] + r.fills, r.left, r.rest)
    else
      Sweep([Fill(q[0], quantity)], 0, [q[0].(quantity := q[0].quantity - quantity)] + q[1..])
  }

  datatype Pass = Exit | Next(hit: Sweep)

  // One pass.  With no live order left, the cursor of the buy book stands on
  // row 0; if that row holds tombstones (`zeroRow`) and the limit is tick 0,
  // neither break is taken and the pass changes nothing.
  function OnePass(restBuy: bool, q: Queue, zeroRow: bool, limit: int, quantity: u32): Pass {
    if quantity == 0 then Exit
    else if q == [] then
      if restBuy && zeroRow && limit <= 0 then Next(Sweep([], quantity, [])) else Exit
    else if !Crosses(restBuy, limit, TickOf(q[0])) then Exit
    else Next(LevelMatch(q, TickOf(q[0]), quantity))
  }

  // The sweep after at most n passes from s, if it has ended by then.
  function AfterPasses(n: nat, restBuy: bool, zeroRow: bool, limit: int, s: Sweep): Option<Sweep> {
    match OnePass(restBuy, s.rest, zeroRow, limit, s.left)
    case Exit => Some(s)
    case Next(h) => if n == 0 then None
                    else AfterPasses(n - 1, restBuy, zeroRow, limit, Sweep(s.fills + h.fills, h.left, h.rest))
  }

  // A sell at tick 0, larger than everything bid for, when some bid has ever
  // rested at tick 0.
  predicate Spins(restBuy: bool, q: Queue, zeroRow: bool, limit: int, quantity: u32) {
    restBuy && zeroRow && limit <= 0 && quantity > Total(q)
  }

  // A level is a prefix of the whole sweep.
  lemma {:induction false} LevelThenMatch(restBuy: bool, q: Queue, tick: int, limit: int, quantity: u32)
    requires Crosses(restBuy, limit, tick)
    ensures var h := LevelMatch(q, tick, quantity);
      var t := Match(restBuy, h.rest, limit, h.left);
      Match(restBuy, q, limit, quantity) == Sweep(h.fills + t.fills, t.left, t.rest)
  {
    hide Tick;
    var h := LevelMatch(q, tick, quantity);
    var t := Match(restBuy, h.rest, limit, h.left);
    if quantity == 0 || q == [] || TickOf(q[0]) != tick {
      assert [] + t.fills == t.fills;
    } else if q[0].quantity <= quantity {
      LevelThenMatch(restBuy, q[1..], tick, limit, quantity - q[0].quantity);
      var f := [Fill(q[0], q[0].quantity)];
      var h' := LevelMatch(q[1..], tick, quantity - q[0].quantity);
      assert f + (h'.fills + t.fills) == (f + h'.fills) + t.fills;
    }
  }

  lemma {:induction false} LevelConserves(q: Queue, tick: int, quantity: u32)
    ensures var h := LevelMatch(q, tick, quantity);
      h.left + Volume(h.fills) == quantity && Total(h.rest) + Volume(h.fills) == Total(q)
  {
    if quantity > 0 && q != [] && TickOf(q[0]) == tick && q[0].quantity <= quantity {
      LevelConserves(q[1..], tick, quantity - q[0].quantity);
    }
  }

  lemma {:induction false} LevelOk(restBuy: bool, q: Queue, tick: int, quantity: u32)
    requires Ok(restBuy, q)
    ensures var h := LevelMatch(q, tick, quantity);
      && Ok(restBuy, h.rest)
      && (forall x :: x in h.rest ==> exists y :: y in q && x.price == y.price)
  {
    var h := LevelMatch(q, tick, quantity);
    if quantity == 0 || q == [] || TickOf(q[0]) != tick {
    } else if q[0].quantity <= quantity {
      LevelOk(restBuy, q[1..], tick, quantity - q[0].quantity);
    } else {
      forall x | x in h.rest ensures exists y :: y in q && x.price == y.price {
        if x == h.rest[0] { assert q[0] in q; } else { assert x in q[1..]; }
      }
    }
  }

  lemma {:induction false} LevelNoGrowth(q: Queue, tick: int, quantity: u32)
    ensures |LevelMatch(q, tick, quantity).rest| <= |q|
  {
    if quantity != 0 && q != [] && TickOf(q[0]) == tick && q[0].quantity <= quantity {
      LevelNoGrowth(q[1..], tick, quantity - q[0].quantity);
    }
  }

  // A pass that goes on over a nonempty book makes progress.
  lemma {:induction false} LevelProgress(q: Queue, tick: int, quantity: u32)
    requires q != [] && TickOf(q[0]) == tick && quantity > 0
    ensures var h := LevelMatch(q, tick, quantity);
      h.left == 0 || |h.rest| < |q|
  {
    if q[0].quantity <= quantity {
      LevelNoGrowth(q[1..], tick, quantity - q[0].quantity);
    }
  }

  // ----- A sweep in progress -----

  // Having hit `fills` of sweep (q, quantity), what remains to be done is sweep (q', quantity').
  ghost predicate SweptSoFar(restBuy: bool, q: Queue, limit: int, quantity: u32, fills: seq<Fill>, q': Queue, quantity': u32) {
    var t := Match(restBuy, q', limit, quantity');
    Match(restBuy, q, limit, quantity) == Sweep(fills + t.fills, t.left, t.rest)
  }

  lemma SweptStart(restBuy: bool, q: Queue, limit: int, quantity: u32)
    ensures SweptSoFar(restBuy, q, limit, quantity, [], q, quantity)
  {
    var t := Match(restBuy, q, limit, quantity);
  }

  lemma SweptExit(restBuy: bool, q: Queue, limit: int, quantity: u32, fills: seq<Fill>, q': Queue, quantity': u32, zeroRow: bool)
    requires SweptSoFar(restBuy, q, limit, quantity, fills, q', quantity')
    requires OnePass(restBuy, q', zeroRow, limit, quantity').Exit?
    ensures Match(restBuy, q, limit, quantity) == Sweep(fills, quantity', q')
  {
  }

  // Nothing left to trade: the sweep is what was done so far.
  lemma SweptOver(restBuy: bool, q: Queue, limit: int, quantity: u32, fills: seq<Fill>, q': Queue, quantity': u32)
    requires SweptSoFar(restBuy, q, limit, quantity, fills, q', quantity')
    requires quantity' == 0 || q' == [] || !Crosses(restBuy, limit, TickOf(q'[0]))
    ensures Match(restBuy, q, limit, quantity) == Sweep(fills, quantity', q')
  {
  }

  lemma OneHitOk(restBuy: bool, q: Queue, quantity: u32)
    requires Ok(restBuy, q) && quantity > 0 && q != []
    ensures var h := OneHit(q, quantity);
      h.left < quantity && Ok(restBuy, h.rest)
  {
    hide Tick, Better;
    var h := OneHit(q, quantity);
    if q[0].quantity > quantity {
      assert h.rest[1..] == q[1..];
    } else {
      assert h.rest == q[1..];
    }
  }

  lemma MatchHead(restBuy: bool, q: Queue, limit: int, quantity: u32)
    requires quantity > 0 && q != [] && Crosses(restBuy, limit, TickOf(q[0]))
    ensures Match(restBuy, q, limit, quantity)
         == if q[0].quantity <= quantity then
              var t := Match(restBuy, q[1..], limit, quantity - q[0].quantity);
              Sweep([Fill(q[0], q[0].quantity)] + t.fills, t.left, t.rest)
            else Sweep([Fill(q[0], quantity)], 0, [q[0].(quantity := q[0].quantity - quantity)] + q[1..])
  {
    hide Tick, Crosses;
  }

  lemma MatchNothing(restBuy: bool, q: Queue, limit: int)
    ensures Match(restBuy, q, limit, 0) == Sweep([], 0, q)
  {
  }

  // A single trade is progress toward the result of the whole sweep.
  lemma SweptHit(restBuy: bool, q: Queue, limit: int, quantity: u32)
    requires Ok(restBuy, q) && quantity > 0 && q != [] && Crosses(restBuy, limit, TickOf(q[0]))
    ensures var h := OneHit(q, quantity);
      h.left < quantity && Ok(restBuy, h.rest) && SweptSoFar(restBuy, q, limit, quantity, h.fills, h.rest, h.left)
  {
    hide Tick, Ok, Match, Crosses;
    OneHitOk(restBuy, q, quantity);
    MatchHead(restBuy, q, limit, quantity);
    var h := OneHit(q, quantity);
    if q[0].quantity <= quantity {
      assert h.rest == q[1..] && h.fills == [Fill(q[0], q[0].quantity)];
    } else {
      MatchNothing(restBuy, h.rest, limit);
      assert h.fills + [] == h.fills;
    }
  }

  // So is a pass that does not spin.
  lemma SweptPass(restBuy: bool, q: Queue, zeroRow: bool, limit: int, quantity: u32)
    requires Ok(restBuy, q) && !Spins(restBuy, q, zeroRow, limit, quantity)
    requires OnePass(restBuy, q, zeroRow, limit, quantity).Next?
    ensures var h := OnePass(restBuy, q, zeroRow, limit, quantity).hit;
      && h.left < quantity && Ok(restBuy, h.rest)
      && !Spins(restBuy, h.rest, zeroRow, limit, h.left)
      && SweptSoFar(restBuy, q, limit, quantity, h.fills, h.rest, h.left)
  {
    LevelThenMatch(restBuy, q, TickOf(q[0]), limit, quantity);
    LevelConserves(q, TickOf(q[0]), quantity);
    LevelOk(restBuy, q, TickOf(q[0]), quantity);
  }

  lemma PassOver(restBuy: bool, q: Queue, zeroRow: bool, limit: int)
    ensures OnePass(restBuy, q, zeroRow, limit, 0) == Exit
  {
  }

  lemma SweptStep(restBuy: bool, q: Queue, limit: int, quantity: u32, fills: seq<Fill>, q1: Queue, quantity1: u32,
                  more: seq<Fill>, q2: Queue, quantity2: u32)
    requires SweptSoFar(restBuy, q, limit, quantity, fills, q1, quantity1)
    requires SweptSoFar(restBuy, q1, limit, quantity1, more, q2, quantity2)
    ensures SweptSoFar(restBuy, q, limit, quantity, fills + more, q2, quantity2)
  {
    hide Match;
    var t := Match(restBuy, q2, limit, quantity2);
  }

  // ----- When the loop ends -----

  // If it does not spin, the loop ends within one pass per resting order, and
  // with the result of the reference matcher.
  lemma {:induction false} LoopEnds(n: nat, restBuy: bool, zeroRow: bool, limit: int, s: Sweep)
    requires Ok(restBuy, s.rest) && !Spins(restBuy, s.rest, zeroRow, limit, s.left)
    requires n >= |s.rest| || s.left == 0
    ensures var m := Match(restBuy, s.rest, limit, s.left);
      AfterPasses(n, restBuy, zeroRow, limit, s) == Some(Sweep(s.fills + m.fills, m.left, m.rest))
    decreases n
  {
    hide Match, LevelMatch, Ok, Total, Tick;
    match OnePass(restBuy, s.rest, zeroRow, limit, s.left)
    case Exit =>
      SweptStart(restBuy, s.rest, limit, s.left);
      SweptExit(restBuy, s.rest, limit, s.left, [], s.rest, s.left, zeroRow);
      assert s.fills + [] == s.fills;
    case Next(h) =>
      SweptPass(restBuy, s.rest, zeroRow, limit, s.left);
      LevelProgress(s.rest, TickOf(s.rest[0]), s.left);
      var t := Match(restBuy, h.rest, limit, h.left);
      assert s.fills + h.fills + t.fills == s.fills + (h.fills + t.fills);
      LoopEnds(n - 1, restBuy, zeroRow, limit, Sweep(s.fills + h.fills, h.left, h.rest));
  }

  lemma {:induction false} LoopSpins(n: nat, zeroRow: bool, limit: int, s: Sweep)
    requires Ok(true, s.rest) && Spins(true, s.rest, zeroRow, limit, s.left)
    requires forall o :: o in s.rest ==> TickOf(o) >= 0
    ensures AfterPasses(n, true, zeroRow, limit, s) == None
    decreases n
  {
    if s.rest != [] { assert s.rest[0] in s.rest; }
    var h := OnePass(true, s.rest, zeroRow, limit, s.left).hit;
    if n > 0 {
      if s.rest != [] {
        LevelConserves(s.rest, TickOf(s.rest[0]), s.left);
        LevelOk(true, s.rest, TickOf(s.rest[0]), s.left);
      }
      LoopSpins(n - 1, zeroRow, limit, Sweep(s.fills + h.fills, h.left, h.rest));
    }
  }

  // The sweep ends if and only if it is not the spinning case.
  lemma EndsExactlyWhen(restBuy: bool, q: Queue, zeroRow: bool, limit: int, quantity: u32)
    requires Ok(restBuy, q) && forall o :: o in q ==> TickOf(o) >= 0
    ensures (exists n: nat :: AfterPasses(n, restBuy, zeroRow, limit, Sweep([], quantity, q)).Some?)
       <==> !Spins(restBuy, q, zeroRow, limit, quantity)
  {
    var s := Sweep([], quantity, q);
    if Spins(restBuy, q, zeroRow, limit, quantity) {
      forall n: nat ensures AfterPasses(n, restBuy, zeroRow, limit, s).None? {
        LoopSpins(n, zeroRow, limit, s);
      }
    } else {
      LoopEnds(|q|, restBuy, zeroRow, limit, s);
    }
  }
}
