// A same-price update to quantity 0 (header/lob_struct.h:124-126) leaves a
// tombstone that is still mapped and still counted.  The sweep over rows, lookup
// table, counters and cursor, and exactly when it ends after such an update.
module ZeroUpdate {
  import opened Orders
  import opened PriceTime
  import opened BookRep
  import opened SweepLoop
  import opened MatchingEngine

  datatype Store = Store(rows: seq<Row>, lut: seq<Option<Slot>>, counts: seq<int>, best: nat)

  predicate Shaped(b: Store) {
    |b.counts| == |b.rows| && b.best <= |b.rows|
  }

  ghost predicate Agrees(isBuy: bool, b: Store) {
    Coherent(isBuy, b.rows, b.lut, b.counts, b.best)
  }

  // ----- The loops of the source on a book in any condition -----

  function Glide(isBuy: bool, counts: seq<int>, best: nat): (r: nat)
    requires best <= |counts|
    ensures r <= |counts|
    decreases if isBuy then best else |counts| - best
  {
    if best == |counts| || counts[best] != 0 || (isBuy && best == 0) then best
    else if isBuy then Glide(isBuy, counts, best - 1)
    else Glide(isBuy, counts, best + 1)
  }

  predicate SameShape(rows: seq<Row>, rows': seq<Row>) {
    |rows'| == |rows| && forall p :: 0 <= p < |rows| ==> |rows'[p]| == |rows[p]|
  }

  // deleteOrder, for an id that is mapped.
  function Erase(isBuy: bool, b: Store, id: u32): (r: Store)
    requires Shaped(b)
    ensures Shaped(r) && SameShape(b.rows, r.rows)
  {
    if id < |b.lut| && b.lut[id].Some? && IsSlot(b.rows, b.lut[id].value) then
      var s := b.lut[id].value;
      var counts := b.counts[s.row := b.counts[s.row] - 1];
      Store(Bury(b.rows, s.row, s.col), b.lut[id := None], counts,
            if counts[s.row] == 0 && s.row == b.best then Glide(isBuy, counts, b.best) else b.best)
    else b
  }

  // Trade with the live entry in slot (k, i).
  function Hit(isBuy: bool, b: Store, k: nat, i: nat, quantity: u32): (r: Store)
    requires Shaped(b) && k < |b.rows| && i < |b.rows[k]|
    ensures Shaped(r) && SameShape(b.rows, r.rows)
  {
    var x := b.rows[k][i];
    var rest := x.quantity - Least(x.quantity, quantity);
    var b' := b.(rows := Put(b.rows, k, i, x.(quantity := rest)));
    if rest == 0 then Erase(isBuy, b', x.systemId) else b'
  }

  datatype Turn = Turn(book: Store, left: u32)

  // The inner loop, from column i of row k on.
  function HitRow(isBuy: bool, b: Store, k: nat, i: nat, quantity: u32): (r: Turn)
    requires Shaped(b) && k < |b.rows| && i <= |b.rows[k]|
    ensures Shaped(r.book) && SameShape(b.rows, r.book.rows)
    decreases |b.rows[k]| - i
  {
    if quantity == 0 || i == |b.rows[k]| then Turn(b, quantity)
    else
      var x := b.rows[k][i];
      if x.quantity == 0 then HitRow(isBuy, b, k, i + 1, quantity)
      else HitRow(isBuy, Hit(isBuy, b, k, i, quantity), k, i + 1, quantity - Least(x.quantity, quantity))
  }

  // One pass of the outer loop, or None where it breaks.
  function RowPass(isBuy: bool, b: Store, limit: int, quantity: u32): (r: Option<Turn>)
    requires Shaped(b)
    ensures r.Some? ==> Shaped(r.value.book)
  {
    if quantity == 0 || !Crosses(isBuy, limit, b.best) || b.best == |b.rows| || b.rows[b.best] == [] then None
    else Some(HitRow(isBuy, b, b.best, 0, quantity))
  }

  // The sweep after at most n passes, if it has ended by then.
  function AfterRowPasses(n: nat, isBuy: bool, b: Store, limit: int, quantity: u32): Option<Turn>
    requires Shaped(b)
  {
    match RowPass(isBuy, b, limit, quantity)
    case None => Some(Turn(b, quantity))
    case Some(t) => if n == 0 then None else AfterRowPasses(n - 1, isBuy, t.book, limit, t.left)
  }

  ghost predicate Ends(isBuy: bool, b: Store, limit: int, quantity: u32)
    requires Shaped(b)
  {
    exists n: nat :: AfterRowPasses(n, isBuy, b, limit, quantity).Some?
  }

  // ----- One hit -----

  lemma {:induction false} GlideStops(isBuy: bool, counts: seq<int>, best: nat)
    requires best < |counts| && forall p :: 0 <= p < |counts| && Better(isBuy, p, best) ==> counts[p] == 0
    ensures CursorOk(isBuy, counts, Glide(isBuy, counts, best))
    decreases if isBuy then best else |counts| - best
  {
    if counts[best] != 0 || (isBuy && best == 0) {
    } else if isBuy {
      GlideStops(isBuy, counts, best - 1);
    } else if best + 1 < |counts| {
      GlideStops(isBuy, counts, best + 1);
    }
  }

  lemma PutPut(rows: seq<Row>, k: nat, i: nat, x: LOBOrder, y: LOBOrder)
    requires k < |rows| && i < |rows[k]|
    ensures Put(Put(rows, k, i, x), k, i, y) == Put(rows, k, i, y)
  {
    assert rows[k][i := x][i := y] == rows[k][i := y];
  }

  lemma PutApart(rows: seq<Row>, k: nat, i: nat, x: LOBOrder, p: nat, c: nat, y: LOBOrder)
    requires k < |rows| && i < |rows[k]| && p < |rows| && c < |rows[p]| && (k, i) != (p, c)
    ensures Put(Put(rows, k, i, x), p, c, y) == Put(Put(rows, p, c, y), k, i, x)
  {
    if k == p { assert rows[k][i := x][c := y] == rows[k][c := y][i := x]; }
  }

  lemma HitRows(isBuy: bool, b: Store, k: nat, i: nat, quantity: u32)
    requires Shaped(b) && k < |b.rows| && i < |b.rows[k]|
    requires b.rows[k][i].systemId < |b.lut| && b.lut[b.rows[k][i].systemId] == Some(Slot(k, i))
    ensures var x := b.rows[k][i];
      Hit(isBuy, b, k, i, quantity).rows == Put(b.rows, k, i, x.(quantity := x.quantity - Least(x.quantity, quantity)))
  {
    var x := b.rows[k][i];
    PutPut(b.rows, k, i, x.(quantity := 0), x.(quantity := 0));
  }

  // A hit keeps the agreement of a book whose structures agree.
  lemma HitAgrees(isBuy: bool, b: Store, k: nat, i: nat, quantity: u32)
    requires Agrees(isBuy, b) && k < |b.rows| && i < |b.rows[k]| && b.rows[k][i].quantity > 0 && quantity > 0
    ensures Shaped(b) && Agrees(isBuy, Hit(isBuy, b, k, i, quantity))
    ensures b.rows[k][i].systemId < |b.lut| && b.lut[b.rows[k][i].systemId] == Some(Slot(k, i))
  {
    hide QueueOf, Tick, LutOk;
    var x := b.rows[k][i];
    var rest := x.quantity - Least(x.quantity, quantity);
    SlotIsMapped(isBuy, b.rows, b.lut, b.counts, b.best, k, i);
    if rest > 0 {
      ShrinkCoherent(isBuy, b.rows, b.lut, b.counts, b.best, k, i, rest);
    } else {
      BuryCoherent(isBuy, b.rows, b.lut, b.counts, b.best, k, i);
      PutPut(b.rows, k, i, x.(quantity := 0), x.(quantity := 0));
      var counts := b.counts[k := b.counts[k] - 1];
      if counts[k] == 0 && k == b.best { GlideStops(isBuy, counts, b.best); }
    }
  }

  // ----- A book with one mapped and counted tombstone -----

  // The same book with the tombstone of slot (p, c) brought back to life.
  function Raised(b: Store, p: nat, c: nat): Store
    requires p < |b.rows| && c < |b.rows[p]|
  {
    b.(rows := Put(b.rows, p, c, b.rows[p][c].(quantity := 1)))
  }

  ghost predicate Haunted(isBuy: bool, b: Store, p: nat, c: nat) {
    && p < |b.rows| && c < |b.rows[p]| && b.rows[p][c].quantity == 0
    && Agrees(isBuy, Raised(b, p, c))
  }

  lemma HitHaunted(isBuy: bool, b: Store, p: nat, c: nat, k: nat, i: nat, quantity: u32)
    requires Haunted(isBuy, b, p, c) && k < |b.rows| && i < |b.rows[k]| && b.rows[k][i].quantity > 0 && quantity > 0
    ensures Shaped(b) && Haunted(isBuy, Hit(isBuy, b, k, i, quantity), p, c)
    ensures var x := b.rows[k][i];
      Hit(isBuy, b, k, i, quantity).rows == Put(b.rows, k, i, x.(quantity := x.quantity - Least(x.quantity, quantity)))
  {
    hide Coherent, Glide;
    var up := Raised(b, p, c);
    var x := b.rows[k][i];
    var x' := x.(quantity := x.quantity - Least(x.quantity, quantity));
    assert up.rows[k][i] == x;
    HitAgrees(isBuy, up, k, i, quantity);
    HitRows(isBuy, b, k, i, quantity);
    HitRows(isBuy, up, k, i, quantity);
    PutApart(b.rows, k, i, x', p, c, b.rows[p][c].(quantity := 1));
    assert Hit(isBuy, up, k, i, quantity) == Raised(Hit(isBuy, b, k, i, quantity), p, c);
  }

  // ----- One pass -----

  lemma {:induction false} TotalAppend(a: Queue, b: Queue)
    ensures Total(a + b) == Total(a) + Total(b)
  {
    if a == [] {
      assert a + b == b;
    } else {
      TotalAppend(a[1..], b);
      assert (a + b)[1..] == a[1..] + b;
    }
  }

  lemma LiveTotal(row: Row, i: nat, v: u32)
    requires i < |row|
    ensures Total(Live(row[i := row[i].(quantity := v)])) == Total(Live(row)) - row[i].quantity + v
  {
    var l, r := Live(row[..i]), Live(row[i+1..]);
    LiveCut(row, i, row[i].(quantity := v));
    LiveCut(row, i, row[i]);
    assert row[i := row[i]] == row;
    TotalAppend(l + One(row[i].(quantity := v)), r);
    TotalAppend(l, One(row[i].(quantity := v)));
    TotalAppend(l + One(row[i]), r);
    TotalAppend(l, One(row[i]));
  }

  // What the inner loop does: only row k changes, it loses what the incoming
  // order loses, and an order that is not used up has emptied it.
  ghost predicate RowHit(b: Store, k: nat, i: nat, quantity: u32, t: Turn) {
    && k < |b.rows| && SameShape(b.rows, t.book.rows) && t.left <= quantity
    && (forall p :: 0 <= p < |b.rows| && p != k ==> t.book.rows[p] == b.rows[p])
    && Total(Live(t.book.rows[k])) + quantity == Total(Live(b.rows[k])) + t.left
    && (t.left > 0 ==> forall j :: i <= j < |b.rows[k]| ==> t.book.rows[k][j].quantity == 0)
    && (forall j :: 0 <= j < i && j < |b.rows[k]| ==> t.book.rows[k][j] == b.rows[k][j])
  }

  lemma {:induction false} HitRowHaunted(isBuy: bool, b: Store, p: nat, c: nat, k: nat, i: nat, quantity: u32)
    requires Shaped(b) && Haunted(isBuy, b, p, c) && k < |b.rows| && i <= |b.rows[k]|
    ensures Haunted(isBuy, HitRow(isBuy, b, k, i, quantity).book, p, c)
    ensures RowHit(b, k, i, quantity, HitRow(isBuy, b, k, i, quantity))
    decreases |b.rows[k]| - i
  {
    hide Haunted, Hit, Live, Total;
    if quantity == 0 || i == |b.rows[k]| {
    } else if b.rows[k][i].quantity == 0 {
      HitRowHaunted(isBuy, b, p, c, k, i + 1, quantity);
    } else {
      var x := b.rows[k][i];
      var trade := Least(x.quantity, quantity);
      HitHaunted(isBuy, b, p, c, k, i, quantity);
      LiveTotal(b.rows[k], i, x.quantity - trade);
      HitRowHaunted(isBuy, Hit(isBuy, b, k, i, quantity), p, c, k, i + 1, quantity - trade);
    }
  }

  // What is still on offer at tick p or better.
  function Reach(isBuy: bool, rows: seq<Row>, p: nat): nat
    requires p < |rows|
  {
    Total(Band(isBuy, rows, 0, Level(isBuy, |rows|, p) + 1))
  }

  lemma {:induction false} BandTotal(isBuy: bool, rows: seq<Row>, k: nat, row: Row, a: nat, b: nat)
    requires k < |rows| && a <= Level(isBuy, |rows|, k) < b <= |rows|
    ensures Total(Band(isBuy, rows[k := row], a, b)) + Total(Live(rows[k]))
         == Total(Band(isBuy, rows, a, b)) + Total(Live(row))
    decreases b - a
  {
    hide Live, Band, Total;
    var rows' := rows[k := row];
    var l := Level(isBuy, |rows|, a);
    BandHead(isBuy, rows, a, b);
    BandHead(isBuy, rows', a, b);
    TotalAppend(Live(rows[l]), Band(isBuy, rows, a + 1, b));
    TotalAppend(Live(rows'[l]), Band(isBuy, rows', a + 1, b));
    if l == k {
      BandFrame(isBuy, rows, k, row, a + 1, b);
    } else {
      BandTotal(isBuy, rows, k, row, a + 1, b);
    }
  }

  lemma {:induction false} NothingLive(row: Row)
    ensures Live(row) == [] <==> forall j :: 0 <= j < |row| ==> row[j].quantity == 0
    ensures Total(Live(row)) == 0 <==> Live(row) == []
  {
    if row != [] {
      NothingLive(row[1..]);
      TotalAppend(One(row[0]), Live(row[1..]));
      assert forall j :: 0 < j < |row| ==> row[j] == row[1..][j-1];
    }
  }

  // The cursor cannot pass the row of the tombstone; any better row it stands
  // on has something to trade.
  lemma HauntedCursor(isBuy: bool, b: Store, p: nat, c: nat)
    requires Haunted(isBuy, b, p, c)
    ensures Shaped(b) && b.best < |b.rows| && b.rows[b.best] != [] && !Better(isBuy, p, b.best)
    ensures Band(isBuy, b.rows, 0, Level(isBuy, |b.rows|, b.best)) == []
    ensures b.best != p ==> Total(Live(b.rows[b.best])) > 0
  {
    hide LutOk, Tick;
    var up := Raised(b, p, c);
    NothingLive(up.rows[p]);
    assert up.rows[p][c].quantity == 1;
    assert b.counts[p] == |Live(up.rows[p])| > 0;
    assert forall q :: 0 <= q < |b.rows| && q != p ==> up.rows[q] == b.rows[q];
    EmptyBand(isBuy, b.rows, 0, Level(isBuy, |b.rows|, b.best));
    NothingLive(b.rows[b.best]);
    NothingLive(up.rows[b.best]);
  }

  // A sweep that may trade at the tombstone's tick and wants more than
  // everything on offer there or better.
  predicate Doomed(isBuy: bool, b: Store, p: nat, limit: int, quantity: u32) {
    p < |b.rows| && Crosses(isBuy, limit, p) && quantity > Reach(isBuy, b.rows, p)
  }

  lemma HauntedPlace(isBuy: bool, b: Store, p: nat, c: nat)
    requires Haunted(isBuy, b, p, c)
    ensures p < |b.rows|
  {
  }

  lemma PassReach(isBuy: bool, b: Store, p: nat, c: nat, limit: int, quantity: u32)
    requires Shaped(b) && Haunted(isBuy, b, p, c) && RowPass(isBuy, b, limit, quantity).Some?
    ensures var t := RowPass(isBuy, b, limit, quantity).value;
      && Haunted(isBuy, t.book, p, c) && |t.book.rows| == |b.rows|
      && Reach(isBuy, t.book.rows, p) + quantity == Reach(isBuy, b.rows, p) + t.left
      && t.left <= quantity
      && (t.left == quantity ==> Total(Live(b.rows[b.best])) == 0)
  {
    hide Haunted, Live, Band, HitRow;
    var t := RowPass(isBuy, b, limit, quantity).value;
    var k := b.best;
    HauntedCursor(isBuy, b, p, c);
    HitRowHaunted(isBuy, b, p, c, k, 0, quantity);
    var row := t.book.rows[k];
    assert t.book.rows == b.rows[k := row];
    HauntedPlace(isBuy, b, p, c);
    BandTotal(isBuy, b.rows, k, row, 0, Level(isBuy, |b.rows|, p) + 1);
    NothingLive(row);
  }

  lemma ReachAtCursor(isBuy: bool, b: Store, p: nat, c: nat)
    requires Haunted(isBuy, b, p, c) && b.best == p
    ensures Reach(isBuy, b.rows, p) == Total(Live(b.rows[p]))
  {
    hide Live, Haunted;
    HauntedCursor(isBuy, b, p, c);
    var k := Level(isBuy, |b.rows|, p);
    BandSplit(isBuy, b.rows, 0, k, k + 1);
    BandHead(isBuy, b.rows, k, k + 1);
    assert Band(isBuy, b.rows, k + 1, k + 1) == [];
    assert Band(isBuy, b.rows, 0, k + 1) == [] + (Live(b.rows[p]) + []) == Live(b.rows[p]);
  }

  // A doomed sweep goes on and stays doomed; any other stops or trades.
  lemma DoomStays(isBuy: bool, b: Store, p: nat, c: nat, limit: int, quantity: u32)
    requires Shaped(b) && Haunted(isBuy, b, p, c)
    ensures match RowPass(isBuy, b, limit, quantity)
      case None => !Doomed(isBuy, b, p, limit, quantity)
      case Some(t) =>
        && Haunted(isBuy, t.book, p, c)
        && (Doomed(isBuy, t.book, p, limit, t.left) <==> Doomed(isBuy, b, p, limit, quantity))
        && (!Doomed(isBuy, b, p, limit, quantity) ==> t.left < quantity)
  {
    hide Haunted, Live, Reach, HitRow;
    HauntedCursor(isBuy, b, p, c);
    HauntedPlace(isBuy, b, p, c);
    if RowPass(isBuy, b, limit, quantity).Some? {
      PassReach(isBuy, b, p, c, limit, quantity);
      if b.best == p { ReachAtCursor(isBuy, b, p, c); }
    }
  }

  lemma {:induction false} DoomedSpins(n: nat, isBuy: bool, b: Store, p: nat, c: nat, limit: int, quantity: u32)
    requires Shaped(b) && Haunted(isBuy, b, p, c) && Doomed(isBuy, b, p, limit, quantity)
    ensures AfterRowPasses(n, isBuy, b, limit, quantity).None?
  {
    hide Haunted, Doomed, RowPass;
    DoomStays(isBuy, b, p, c, limit, quantity);
    if n > 0 {
      var t := RowPass(isBuy, b, limit, quantity).value;
      DoomedSpins(n - 1, isBuy, t.book, p, c, limit, t.left);
    }
  }

  lemma {:induction false} UndoomedEnds(n: nat, isBuy: bool, b: Store, p: nat, c: nat, limit: int, quantity: u32)
    requires Shaped(b) && Haunted(isBuy, b, p, c) && !Doomed(isBuy, b, p, limit, quantity) && n >= quantity
    ensures AfterRowPasses(n, isBuy, b, limit, quantity).Some?
    decreases n
  {
    hide Haunted, Doomed, RowPass;
    DoomStays(isBuy, b, p, c, limit, quantity);
    match RowPass(isBuy, b, limit, quantity)
    case None =>
    case Some(t) => UndoomedEnds(n - 1, isBuy, t.book, p, c, limit, t.left);
  }

  lemma DoomedMeans(isBuy: bool, b: Store, p: nat, limit: int, quantity: u32)
    requires p < |b.rows|
    ensures Doomed(isBuy, b, p, limit, quantity) <==> Crosses(isBuy, limit, p) && quantity > Reach(isBuy, b.rows, p)
  {
  }

  // ----- What is on offer, as a total over the list -----

  // The quantity of the orders at this tick or a better one.
  function OnOffer(q: Queue, isBuy: bool, tick: int): nat {
    if q == [] then 0
    else (if (if isBuy then tick <= TickOf(q[0]) else TickOf(q[0]) <= tick) then q[0].quantity else 0)
         + OnOffer(q[1..], isBuy, tick)
  }

  lemma {:induction false} OnOfferAppend(a: Queue, b: Queue, isBuy: bool, tick: int)
    ensures OnOffer(a + b, isBuy, tick) == OnOffer(a, isBuy, tick) + OnOffer(b, isBuy, tick)
  {
    hide Tick;
    if a == [] {
      assert a + b == b;
    } else {
      OnOfferAppend(a[1..], b, isBuy, tick);
      assert (a + b)[0] == a[0] && (a + b)[1..] == a[1..] + b;
    }
  }

  lemma {:induction false} OnOfferAll(q: Queue, isBuy: bool, tick: int, here: bool)
    requires forall o :: o in q ==> (if isBuy then tick <= TickOf(o) else TickOf(o) <= tick) == here
    ensures OnOffer(q, isBuy, tick) == if here then Total(q) else 0
  {
    if q != [] {
      assert q[0] in q;
      OnOfferAll(q[1..], isBuy, tick, here);
    }
  }

  lemma {:induction false} LiveTicks(row: Row, p: int)
    requires forall c :: 0 <= c < |row| && row[c].quantity > 0 ==> TickOf(row[c]) == p
    ensures forall o :: o in Live(row) ==> TickOf(o) == p
  {
    hide Tick;
    if row != [] {
      LiveTicks(row[1..], p);
      assert row[0].quantity > 0 ==> TickOf(row[0]) == p;
    }
  }

  ghost predicate InTheirRows(rows: seq<Row>) {
    forall p, c :: 0 <= p < |rows| && 0 <= c < |rows[p]| && rows[p][c].quantity > 0 ==> TickOf(rows[p][c]) == p
  }

  lemma {:induction false} BandTicks(isBuy: bool, rows: seq<Row>, a: nat, b: nat)
    requires a <= b <= |rows| && InTheirRows(rows)
    ensures forall o :: o in Band(isBuy, rows, a, b) ==> a <= Level(isBuy, |rows|, TickOf(o)) < b
    decreases b - a
  {
    hide Tick, Live;
    if a < b {
      var p := Level(isBuy, |rows|, a);
      LiveTicks(rows[p], p);
      BandTicks(isBuy, rows, a + 1, b);
    }
  }

  lemma HauntedRows(isBuy: bool, b: Store, p: nat, c: nat)
    requires Haunted(isBuy, b, p, c)
    ensures p < |b.rows| && InTheirRows(b.rows)
  {
    hide Tick, CountsOk, CursorOk;
    var up := Raised(b, p, c);
    forall i, j | 0 <= i < |b.rows| && 0 <= j < |b.rows[i]| && b.rows[i][j].quantity > 0
      ensures TickOf(b.rows[i][j]) == i
    {
      assert up.rows[i][j] == b.rows[i][j];
    }
  }

  lemma ReachIsOnOffer(isBuy: bool, rows: seq<Row>, p: nat)
    requires p < |rows| && InTheirRows(rows)
    ensures Reach(isBuy, rows, p) == OnOffer(QueueOf(isBuy, rows), isBuy, p)
  {
    hide Tick, Live, Band, OnOffer, Total, InTheirRows;
    var k, n := Level(isBuy, |rows|, p) + 1, |rows|;
    var near, far := Band(isBuy, rows, 0, k), Band(isBuy, rows, k, n);
    BandSplit(isBuy, rows, 0, k, n);
    BandTicks(isBuy, rows, 0, k);
    BandTicks(isBuy, rows, k, n);
    OnOfferAppend(near, far, isBuy, p);
    OnOfferAll(near, isBuy, p, true);
    OnOfferAll(far, isBuy, p, false);
  }

  // Whatever was traded since: a sweep never ends if and only if its limit
  // reaches the tombstone's tick and it wants more than is on offer there or better.
  lemma HauntedEnds(isBuy: bool, b: Store, p: nat, c: nat, limit: int, quantity: u32)
    requires Haunted(isBuy, b, p, c)
    ensures Shaped(b) && p < |b.rows|
    ensures !Ends(isBuy, b, limit, quantity) <==>
      (if isBuy then limit <= p else p <= limit) && quantity > OnOffer(QueueOf(isBuy, b.rows), isBuy, p)
  {
    hide Haunted, Doomed, AfterRowPasses, Reach, OnOffer, QueueOf, InTheirRows;
    HauntedCursor(isBuy, b, p, c);
    HauntedRows(isBuy, b, p, c);
    ReachIsOnOffer(isBuy, b.rows, p);
    DoomedMeans(isBuy, b, p, limit, quantity);
    if Doomed(isBuy, b, p, limit, quantity) {
      forall n: nat ensures AfterRowPasses(n, isBuy, b, limit, quantity).None? {
        DoomedSpins(n, isBuy, b, p, c, limit, quantity);
      }
    } else {
      UndoomedEnds(quantity, isBuy, b, p, c, limit, quantity);
    }
  }

  lemma ZeroedIsHaunted(isBuy: bool, b: Store, p: nat, c: nat)
    requires Agrees(isBuy, b) && p < |b.rows| && c < |b.rows[p]| && b.rows[p][c].quantity > 0
    ensures Haunted(isBuy, b.(rows := Bury(b.rows, p, c)), p, c)
    ensures !Agrees(isBuy, b.(rows := Bury(b.rows, p, c)))
  {
    hide Coherent, Tick, QueueOf;
    var x := b.rows[p][c];
    var b' := b.(rows := Bury(b.rows, p, c));
    SlotIsMapped(isBuy, b.rows, b.lut, b.counts, b.best, p, c);
    ShrinkCoherent(isBuy, b.rows, b.lut, b.counts, b.best, p, c, 1);
    PutPut(b.rows, p, c, x.(quantity := 0), x.(quantity := 1));
    TombstoneIncoherent(isBuy, b'.rows, b'.lut, b'.counts, b'.best, x.systemId);
  }

  // The book right after a live order in slot (p, c) was updated to quantity 0.
  lemma ZeroUpdateHangs(isBuy: bool, b: Store, p: nat, c: nat, limit: int, quantity: u32)
    requires Agrees(isBuy, b) && p < |b.rows| && c < |b.rows[p]| && b.rows[p][c].quantity > 0
    ensures var b' := b.(rows := Bury(b.rows, p, c));
      && Shaped(b') && !Agrees(isBuy, b')
      && (!Ends(isBuy, b', limit, quantity) <==>
          (if isBuy then limit <= p else p <= limit) && quantity > OnOffer(QueueOf(isBuy, b'.rows), isBuy, p))
  {
    hide Coherent, Haunted, Ends, Tick, OnOffer, QueueOf;
    ZeroedIsHaunted(isBuy, b, p, c);
    HauntedEnds(isBuy, b.(rows := Bury(b.rows, p, c)), p, c, limit, quantity);
  }

  lemma LivePair(x: LOBOrder, y: LOBOrder)
    ensures Live([x, y]) == One(x) + One(y)
  {
    LiveAppend([x], [y]);
    assert [x] + [y] == [x, y];
  }

  lemma SecondBidReach(rows: seq<Row>)
    requires |rows| == 2 && |rows[1]| == 2 && rows[1][0].quantity == 5 && rows[1][1].quantity == 0
    ensures Reach(true, rows, 1) == 5
  {
    LivePair(rows[1][0], rows[1][1]);
    assert rows[1] == [rows[1][0], rows[1][1]];
    BandHead(true, rows, 0, 1);
    TotalAppend(Live(rows[1]), Band(true, rows, 1, 1));
  }

  // Bids of 5 and 3 at one tick, the second updated to 0: a sell of 5 there
  // ends, a sell of 6 takes the first bid and then never returns.
  lemma SecondBidZeroed()
    ensures var first, second := LOBOrder(0, 0.1, 5, 1, 'b', 'c'), LOBOrder(1, 0.1, 3, 1, 'b', 'c');
      var b := Store([[], [first, second]], [Some(Slot(1, 0)), Some(Slot(1, 1))], [0, 2], 1);
      var b' := b.(rows := [[], [first, second.(quantity := 0)]]);
      && Agrees(true, b)
      && Ends(true, b', 1, 5) && !Ends(true, b', 1, 6)
  {
    hide AfterRowPasses, RowPass, Reach;
    var first, second := LOBOrder(0, 0.1, 5, 1, 'b', 'c'), LOBOrder(1, 0.1, 3, 1, 'b', 'c');
    var rows := [[], [first, second]];
    var b := Store(rows, [Some(Slot(1, 0)), Some(Slot(1, 1))], [0, 2], 1);
    LivePair(first, second);
    assert [first, second][1 := second.(quantity := 0)] == [first, second.(quantity := 0)];
    assert Bury(rows, 1, 1) == [[], [first, second.(quantity := 0)]];
    SecondBidReach(Bury(rows, 1, 1));
    ZeroedIsHaunted(true, b, 1, 1);
    HauntedRows(true, b.(rows := Bury(rows, 1, 1)), 1, 1);
    ReachIsOnOffer(true, Bury(rows, 1, 1), 1);
    hide Coherent, LutOk, CountsOk, CursorOk, OnOffer, QueueOf, InTheirRows, Haunted, Ends;
    ZeroUpdateHangs(true, b, 1, 1, 1, 5);
    ZeroUpdateHangs(true, b, 1, 1, 1, 6);
  }

  // ----- The same loops on a book whose structures agree -----

  lemma {:induction false} HitRowIsLevel(isBuy: bool, b: Store, k: nat, i: nat, quantity: u32)
    requires Agrees(isBuy, b) && Shaped(b) && k < |b.rows| && i <= |b.rows[k]|
    requires Above(isBuy, b.rows, k) == [] && Live(b.rows[k][..i]) == []
    ensures var t, h := HitRow(isBuy, b, k, i, quantity), LevelMatch(QueueOf(isBuy, b.rows), k, quantity);
      Agrees(isBuy, t.book) && t.left == h.left && QueueOf(isBuy, t.book.rows) == h.rest
    decreases |b.rows[k]| - i
  {
    hide Coherent, QueueOf, Band, Live, Tick, LevelMatch, Hit;
    if quantity == 0 {
      LevelOver(QueueOf(isBuy, b.rows), k);
    } else if i == |b.rows[k]| {
      LevelDone(isBuy, b.rows, b.lut, b.counts, b.best, k, quantity);
    } else if b.rows[k][i].quantity == 0 {
      DeadPrefix(b.rows[k], i);
      HitRowIsLevel(isBuy, b, k, i + 1, quantity);
    } else {
      var x := b.rows[k][i];
      var b', left := Hit(isBuy, b, k, i, quantity), quantity - Least(x.quantity, quantity);
      SlotIsMapped(isBuy, b.rows, b.lut, b.counts, b.best, k, i);
      HitAgrees(isBuy, b, k, i, quantity);
      HitRows(isBuy, b, k, i, quantity);
      HitIsHead(isBuy, b.rows, k, i, quantity);
      if left == 0 {
        LevelOver(QueueOf(isBuy, b'.rows), k);
      } else {
        assert b'.rows[k][..i] == b.rows[k][..i];
        DeadPrefix(b'.rows[k], i);
        HitRowIsLevel(isBuy, b', k, i + 1, left);
      }
    }
  }

  lemma NothingToMatch(tick: int, quantity: u32)
    ensures LevelMatch([], tick, quantity) == Sweep([], quantity, [])
  {
  }

  // There a pass over the rows is the pass over the list.
  lemma RowPassIsOnePass(isBuy: bool, b: Store, limit: int, quantity: u32)
    requires Agrees(isBuy, b)
    ensures Shaped(b)
    ensures var p := OnePass(isBuy, QueueOf(isBuy, b.rows), |b.rows| > 0 && b.rows[0] != [], limit, quantity);
      match RowPass(isBuy, b, limit, quantity)
      case None => p == Exit
      case Some(t) => p.Next? && Agrees(isBuy, t.book) && t.left == p.hit.left && QueueOf(isBuy, t.book.rows) == p.hit.rest
  {
    hide LutOk, QueueOf, Tick, LevelMatch, HitRow;
    CursorIsHead(isBuy, b.rows, b.lut, b.counts, b.best);
    if RowPass(isBuy, b, limit, quantity).Some? {
      BestRow(isBuy, b.rows, b.lut, b.counts, b.best);
      HitRowIsLevel(isBuy, b, b.best, 0, quantity);
      NothingToMatch(b.best, quantity);
    } else if QueueOf(isBuy, b.rows) != [] {
      BestRowNonempty(isBuy, b.rows, b.lut, b.counts, b.best);
    }
  }
}
