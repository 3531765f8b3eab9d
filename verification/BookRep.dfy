// How one side of the book is stored: soft-deleted price rows, a lookup table
// from system id to slot, a live counter per row and a best-price cursor
// (header/lob_struct.h).  This module says when the four agree and which
// price-time list they stand for.
module BookRep {
  import opened Orders
  import opened PriceTime

  datatype Slot = Slot(row: nat, col: nat)

  type Row = seq<LOBOrder>

  // An entry of quantity zero is a tombstone.
  function One(x: LOBOrder): Queue {
    if x.quantity > 0 then [x] else []
  }

  // The entries of a row that are not tombstones, in arrival order.
  function Live(row: Row): Queue {
    if row == [] then [] else One(row[0]) + Live(row[1..])
  }

  // Rows from best to worst price are levels 0, 1, 2, ...  (also its own inverse)
  function Level(isBuy: bool, n: nat, k: int): int {
    if isBuy then n - 1 - k else k
  }

  // The live entries of levels a, ..., b-1.
  function Band(isBuy: bool, rows: seq<Row>, a: nat, b: nat): Queue
    requires a <= b <= |rows|
    decreases b - a
  {
    if a == b then [] else Live(rows[Level(isBuy, |rows|, a)]) + Band(isBuy, rows, a + 1, b)
  }

  // The price-time list that the rows stand for.
  function QueueOf(isBuy: bool, rows: seq<Row>): Queue {
    Band(isBuy, rows, 0, |rows|)
  }

  predicate IsSlot(rows: seq<Row>, s: Slot) {
    s.row < |rows| && s.col < |rows[s.row]|
  }

  // The lookup table is a bijection between live ids and live entries.
  ghost predicate LutOk(rows: seq<Row>, lut: seq<Option<Slot>>) {
    && (forall p, c :: 0 <= p < |rows| && 0 <= c < |rows[p]| && rows[p][c].quantity > 0 ==>
          && TickOf(rows[p][c]) == p
          && rows[p][c].systemId < |lut|
          && lut[rows[p][c].systemId] == Some(Slot(p, c)))
    && (forall id :: 0 <= id < |lut| && lut[id].Some? ==>
          && IsSlot(rows, lut[id].value)
          && rows[lut[id].value.row][lut[id].value.col].systemId == id
          && rows[lut[id].value.row][lut[id].value.col].quantity > 0)
  }

  ghost predicate CountsOk(rows: seq<Row>, counts: seq<int>) {
    |counts| == |rows| && forall p :: 0 <= p < |rows| ==> counts[p] == |Live(rows[p])|
  }

  function Sentinel(isBuy: bool, n: nat): nat {
    if isBuy then 0 else n
  }

  // The cursor rests on the best nonempty row, or on the sentinel of its side.
  ghost predicate CursorOk(isBuy: bool, counts: seq<int>, best: int) {
    && 0 <= best <= |counts|
    && (forall p :: 0 <= p < |counts| && Better(isBuy, p, best) ==> counts[p] == 0)
    && (best == Sentinel(isBuy, |counts|) || (best < |counts| && counts[best] != 0))
  }

  ghost predicate Coherent(isBuy: bool, rows: seq<Row>, lut: seq<Option<Slot>>, counts: seq<int>, best: int) {
    LutOk(rows, lut) && CountsOk(rows, counts) && CursorOk(isBuy, counts, best)
  }

  // ----- Cutting rows and lists -----

  lemma Assoc(a: Queue, b: Queue, c: Queue)
    ensures a + (b + c) == (a + b) + c
  {
  }

  lemma Regroup(a: Queue, l: Queue, x: Queue, r: Queue, b: Queue)
    ensures a + (l + x + r) + b == (a + l) + x + (r + b)
  {
  }

  lemma {:induction false} LiveAppend(a: Row, b: Row)
    ensures Live(a + b) == Live(a) + Live(b)
  {
    if a == [] {
      assert a + b == b;
    } else {
      var t := a[1..];
      assert (a + b)[0] == a[0] && (a + b)[1..] == t + b;
      calc {
        Live(a + b);
        One(a[0]) + Live(t + b);
        { LiveAppend(t, b); }
        One(a[0]) + (Live(t) + Live(b));
        { Assoc(One(a[0]), Live(t), Live(b)); }
        Live(a) + Live(b);
      }
    }
  }

  lemma LiveOne(x: LOBOrder)
    ensures Live([x]) == One(x)
  {
  }

  lemma {:induction false} BandSplit(isBuy: bool, rows: seq<Row>, a: nat, b: nat, c: nat)
    requires a <= b <= c <= |rows|
    ensures Band(isBuy, rows, a, c) == Band(isBuy, rows, a, b) + Band(isBuy, rows, b, c)
    decreases b - a
  {
    if a < b { BandSplit(isBuy, rows, a + 1, b, c); }
  }

  lemma BandHead(isBuy: bool, rows: seq<Row>, a: nat, b: nat)
    requires a < b <= |rows|
    ensures Band(isBuy, rows, a, b) == Live(rows[Level(isBuy, |rows|, a)]) + Band(isBuy, rows, a + 1, b)
  {
  }

  // A band does not see rows outside its levels.
  lemma {:induction false} BandFrame(isBuy: bool, rows: seq<Row>, p: nat, row: Row, a: nat, b: nat)
    requires p < |rows| && a <= b <= |rows|
    requires !(a <= Level(isBuy, |rows|, p) < b)
    ensures Band(isBuy, rows[p := row], a, b) == Band(isBuy, rows, a, b)
    decreases b - a
  {
    if a < b { BandFrame(isBuy, rows, p, row, a + 1, b); }
  }

  // What is queued in front of and behind row p.
  function Above(isBuy: bool, rows: seq<Row>, p: nat): Queue
    requires p < |rows|
  {
    Band(isBuy, rows, 0, Level(isBuy, |rows|, p))
  }

  function Below(isBuy: bool, rows: seq<Row>, p: nat): Queue
    requires p < |rows|
  {
    Band(isBuy, rows, Level(isBuy, |rows|, p) + 1, |rows|)
  }

  // Rewriting row p rewrites exactly its stretch of the list.
  lemma CutRow(isBuy: bool, rows: seq<Row>, p: nat, row: Row)
    requires p < |rows|
    ensures QueueOf(isBuy, rows[p := row]) == Above(isBuy, rows, p) + Live(row) + Below(isBuy, rows, p)
    ensures QueueOf(isBuy, rows) == Above(isBuy, rows, p) + Live(rows[p]) + Below(isBuy, rows, p)
  {
    hide Band, Live;
    var n, k := |rows|, Level(isBuy, |rows|, p);
    var rows' := rows[p := row];
    BandSplit(isBuy, rows', 0, k, n);
    BandSplit(isBuy, rows, 0, k, n);
    BandHead(isBuy, rows', k, n);
    BandHead(isBuy, rows, k, n);
    Assoc(Above(isBuy, rows, p), Live(row), Below(isBuy, rows, p));
    Assoc(Above(isBuy, rows, p), Live(rows[p]), Below(isBuy, rows, p));
    BandFrame(isBuy, rows, p, row, 0, k);
    BandFrame(isBuy, rows, p, row, k + 1, n);
  }

  // What is queued in front of and behind slot (p, c).
  function Front(isBuy: bool, rows: seq<Row>, p: nat, c: nat): Queue
    requires p < |rows| && c < |rows[p]|
  {
    Above(isBuy, rows, p) + Live(rows[p][..c])
  }

  function Back(isBuy: bool, rows: seq<Row>, p: nat, c: nat): Queue
    requires p < |rows| && c < |rows[p]|
  {
    Live(rows[p][c+1..]) + Below(isBuy, rows, p)
  }

  function Put(rows: seq<Row>, p: nat, c: nat, x: LOBOrder): (r: seq<Row>)
    requires p < |rows| && c < |rows[p]|
    ensures |r| == |rows|
  {
    rows[p := rows[p][c := x]]
  }

  lemma LiveCut(row: Row, c: nat, x: LOBOrder)
    requires c < |row|
    ensures Live(row[c := x]) == Live(row[..c]) + One(x) + Live(row[c+1..])
  {
    assert row[c := x] == row[..c] + [x] + row[c+1..];
    LiveAppend(row[..c] + [x], row[c+1..]);
    LiveAppend(row[..c], [x]);
    LiveOne(x);
  }

  lemma PutSlot(isBuy: bool, rows: seq<Row>, p: nat, c: nat, x: LOBOrder)
    requires p < |rows| && c < |rows[p]|
    ensures QueueOf(isBuy, Put(rows, p, c, x)) == Front(isBuy, rows, p, c) + One(x) + Back(isBuy, rows, p, c)
  {
    var a, b := Above(isBuy, rows, p), Below(isBuy, rows, p);
    var l, r := Live(rows[p][..c]), Live(rows[p][c+1..]);
    CutRow(isBuy, rows, p, rows[p][c := x]);
    LiveCut(rows[p], c, x);
    Regroup(a, l, One(x), r, b);
  }

  // Overwriting one slot replaces at most one element of the list.
  lemma CutSlot(isBuy: bool, rows: seq<Row>, p: nat, c: nat, x: LOBOrder)
    requires p < |rows| && c < |rows[p]|
    ensures QueueOf(isBuy, Put(rows, p, c, x)) == Front(isBuy, rows, p, c) + One(x) + Back(isBuy, rows, p, c)
    ensures QueueOf(isBuy, rows) == Front(isBuy, rows, p, c) + One(rows[p][c]) + Back(isBuy, rows, p, c)
  {
    PutSlot(isBuy, rows, p, c, x);
    PutSlot(isBuy, rows, p, c, rows[p][c]);
    assert rows[p][c := rows[p][c]] == rows[p];
    assert rows[p := rows[p]] == rows;
  }

  // ----- Coherent storage stands for a well-formed list -----

  // The lookup table leads to this order.
  predicate Located(rows: seq<Row>, lut: seq<Option<Slot>>, o: LOBOrder) {
    && o.quantity > 0
    && o.systemId < |lut| && lut[o.systemId].Some?
    && IsSlot(rows, lut[o.systemId].value)
    && rows[lut[o.systemId].value.row][lut[o.systemId].value.col] == o
    && TickOf(o) == lut[o.systemId].value.row
  }

  lemma NothingIsOk(isBuy: bool)
    ensures Ok(isBuy, [])
  {
  }

  lemma OkCons(isBuy: bool, x: LOBOrder, q: Queue)
    requires Ok(isBuy, q) && x.quantity > 0
    requires forall o :: o in q ==> o.systemId != x.systemId && !Better(isBuy, TickOf(o), TickOf(x))
    ensures Ok(isBuy, [x] + q)
  {
    assert ([x] + q)[1..] == q;
  }

  lemma {:induction false} RowElements(isBuy: bool, rows: seq<Row>, lut: seq<Option<Slot>>, p: nat, a: nat, b: nat)
    requires LutOk(rows, lut) && p < |rows| && a <= b <= |rows[p]|
    ensures forall o :: o in Live(rows[p][a..b]) ==>
              Located(rows, lut, o) && lut[o.systemId].value.row == p && a <= lut[o.systemId].value.col < b
    ensures Ok(isBuy, Live(rows[p][a..b]))
    decreases b - a
  {
    hide Ok, Tick;
    var row := rows[p][a..b];
    NothingIsOk(isBuy);
    if a < b {
      RowElements(isBuy, rows, lut, p, a + 1, b);
      assert row[0] == rows[p][a] && row[1..] == rows[p][a+1..b];
      var t := Live(row[1..]);
      if row[0].quantity == 0 {
        assert Live(row) == [] + t == t;
      } else {
        assert Live(row) == [row[0]] + t;
        OkCons(isBuy, row[0], t);
      }
    }
  }

  lemma {:induction false} OkAppend(isBuy: bool, a: Queue, b: Queue)
    requires Ok(isBuy, a) && Ok(isBuy, b)
    requires forall x, y :: x in a && y in b ==> x.systemId != y.systemId && !Better(isBuy, TickOf(y), TickOf(x))
    ensures Ok(isBuy, a + b)
  {
    if a == [] {
      assert a + b == b;
    } else {
      OkAppend(isBuy, a[1..], b);
      assert (a + b)[1..] == a[1..] + b;
    }
  }

  lemma {:induction false} BandElements(isBuy: bool, rows: seq<Row>, lut: seq<Option<Slot>>, a: nat, b: nat)
    requires LutOk(rows, lut) && a <= b <= |rows|
    ensures forall o :: o in Band(isBuy, rows, a, b) ==>
              Located(rows, lut, o) && a <= Level(isBuy, |rows|, TickOf(o)) < b
    ensures Ok(isBuy, Band(isBuy, rows, a, b))
    decreases b - a
  {
    hide Live, Ok, LutOk, Tick;
    if a == b {
      NothingIsOk(isBuy);
    } else {
      var p := Level(isBuy, |rows|, a);
      RowElements(isBuy, rows, lut, p, 0, |rows[p]|);
      assert rows[p][0..|rows[p]|] == rows[p];
      BandElements(isBuy, rows, lut, a + 1, b);
      OkAppend(isBuy, Live(rows[p]), Band(isBuy, rows, a + 1, b));
    }
  }

  lemma CoherentOk(isBuy: bool, rows: seq<Row>, lut: seq<Option<Slot>>)
    requires LutOk(rows, lut)
    ensures Ok(isBuy, QueueOf(isBuy, rows))
    ensures forall o :: o in QueueOf(isBuy, rows) ==> Located(rows, lut, o)
  {
    BandElements(isBuy, rows, lut, 0, |rows|);
  }

  // A live slot splits the list into what is ahead of it and what is behind it.
  lemma SlotInQueue(isBuy: bool, rows: seq<Row>, lut: seq<Option<Slot>>, p: nat, c: nat)
    requires LutOk(rows, lut) && p < |rows| && c < |rows[p]| && rows[p][c].quantity > 0
    ensures QueueOf(isBuy, rows) == Front(isBuy, rows, p, c) + [rows[p][c]] + Back(isBuy, rows, p, c)
    ensures Ok(isBuy, QueueOf(isBuy, rows))
    ensures Find(QueueOf(isBuy, rows), rows[p][c].systemId) == Some(rows[p][c])
  {
    CutSlot(isBuy, rows, p, c, rows[p][c]);
    CoherentOk(isBuy, rows, lut);
    FindSplice(isBuy, Front(isBuy, rows, p, c), rows[p][c], Back(isBuy, rows, p, c));
  }

  // The lookup table answers exactly as a search of the list would.
  lemma LutIsFind(isBuy: bool, rows: seq<Row>, lut: seq<Option<Slot>>, id: u32)
    requires LutOk(rows, lut)
    ensures var r := Find(QueueOf(isBuy, rows), id);
      if id < |lut| && lut[id].Some?
      then IsSlot(rows, lut[id].value) && r == Some(rows[lut[id].value.row][lut[id].value.col])
      else r == None
  {
    CoherentOk(isBuy, rows, lut);
    if id < |lut| && lut[id].Some? {
      SlotInQueue(isBuy, rows, lut, lut[id].value.row, lut[id].value.col);
    }
  }

  // ----- Changing the quantity of a live slot -----

  lemma ResizeLut(rows: seq<Row>, lut: seq<Option<Slot>>, p: nat, c: nat, v: u32)
    requires LutOk(rows, lut) && p < |rows| && c < |rows[p]| && rows[p][c].quantity > 0 && v > 0
    ensures LutOk(Put(rows, p, c, rows[p][c].(quantity := v)), lut)
  {
  }

  lemma PutCounts(rows: seq<Row>, counts: seq<int>, p: nat, c: nat, x: LOBOrder)
    requires CountsOk(rows, counts) && p < |rows| && c < |rows[p]|
    ensures CountsOk(Put(rows, p, c, x), counts[p := counts[p] - |One(rows[p][c])| + |One(x)|])
  {
    LiveCut(rows[p], c, x);
    LiveCut(rows[p], c, rows[p][c]);
    assert rows[p][c := rows[p][c]] == rows[p];
  }

  lemma ResizeQueue(isBuy: bool, rows: seq<Row>, lut: seq<Option<Slot>>, p: nat, c: nat, v: u32)
    requires LutOk(rows, lut) && p < |rows| && c < |rows[p]| && rows[p][c].quantity > 0 && v > 0
    ensures QueueOf(isBuy, Put(rows, p, c, rows[p][c].(quantity := v)))
         == SetQuantity(QueueOf(isBuy, rows), rows[p][c].systemId, v)
  {
    var x := rows[p][c].(quantity := v);
    SlotInQueue(isBuy, rows, lut, p, c);
    CutSlot(isBuy, rows, p, c, x);
    SetQuantitySplice(isBuy, Front(isBuy, rows, p, c), rows[p][c], Back(isBuy, rows, p, c), v);
  }

  // ----- Turning a live slot into a tombstone -----

  function Bury(rows: seq<Row>, p: nat, c: nat): (r: seq<Row>)
    requires p < |rows| && c < |rows[p]|
    ensures |r| == |rows|
  {
    Put(rows, p, c, rows[p][c].(quantity := 0))
  }

  lemma BuryLut(rows: seq<Row>, lut: seq<Option<Slot>>, p: nat, c: nat)
    requires LutOk(rows, lut) && p < |rows| && c < |rows[p]| && rows[p][c].quantity > 0
    ensures LutOk(Bury(rows, p, c), lut[rows[p][c].systemId := None])
  {
  }

  lemma BuryQueue(isBuy: bool, rows: seq<Row>, lut: seq<Option<Slot>>, p: nat, c: nat)
    requires LutOk(rows, lut) && p < |rows| && c < |rows[p]| && rows[p][c].quantity > 0
    ensures QueueOf(isBuy, Bury(rows, p, c)) == Remove(QueueOf(isBuy, rows), rows[p][c].systemId)
    ensures QueueOf(isBuy, Bury(rows, p, c)) == Front(isBuy, rows, p, c) + Back(isBuy, rows, p, c)
  {
    hide Front, Back, QueueOf, Ok, Remove, Find, Tick;
    SlotInQueue(isBuy, rows, lut, p, c);
    CutSlot(isBuy, rows, p, c, rows[p][c].(quantity := 0));
    RemoveSplice(isBuy, Front(isBuy, rows, p, c), rows[p][c], Back(isBuy, rows, p, c));
  }

  // ----- Appending a live entry to a row -----

  function Push(rows: seq<Row>, p: nat, o: LOBOrder): (r: seq<Row>)
    requires p < |rows|
    ensures |r| == |rows|
  {
    rows[p := rows[p] + [o]]
  }

  lemma PushLut(rows: seq<Row>, lut: seq<Option<Slot>>, p: nat, o: LOBOrder)
    requires LutOk(rows, lut) && p < |rows| && o.quantity > 0 && TickOf(o) == p
    requires o.systemId < |lut| && lut[o.systemId].None?
    ensures LutOk(Push(rows, p, o), lut[o.systemId := Some(Slot(p, |rows[p]|))])
  {
  }

  lemma PushCounts(rows: seq<Row>, counts: seq<int>, p: nat, o: LOBOrder)
    requires CountsOk(rows, counts) && p < |rows| && o.quantity > 0
    ensures CountsOk(Push(rows, p, o), counts[p := counts[p] + 1])
  {
    LiveAppend(rows[p], [o]);
    LiveOne(o);
  }

  // The end of row p in the list: everything up to level p, then o.
  lemma CutEnd(isBuy: bool, rows: seq<Row>, p: nat, o: LOBOrder)
    requires p < |rows| && o.quantity > 0
    ensures var f, b := Above(isBuy, rows, p) + Live(rows[p]), Below(isBuy, rows, p);
      QueueOf(isBuy, rows) == f + b && QueueOf(isBuy, Push(rows, p, o)) == f + [o] + b
  {
    CutRow(isBuy, rows, p, rows[p] + [o]);
    LiveAppend(rows[p], [o]);
    LiveOne(o);
    Assoc(Above(isBuy, rows, p), Live(rows[p]), [o]);
  }

  lemma PushQueue(isBuy: bool, rows: seq<Row>, lut: seq<Option<Slot>>, p: nat, o: LOBOrder)
    requires LutOk(rows, lut) && p < |rows| && o.quantity > 0 && TickOf(o) == p
    ensures QueueOf(isBuy, Push(rows, p, o)) == Insert(isBuy, QueueOf(isBuy, rows), o)
  {
    var f, b := Above(isBuy, rows, p) + Live(rows[p]), Below(isBuy, rows, p);
    var n, k := |rows|, Level(isBuy, |rows|, p);
    CutEnd(isBuy, rows, p, o);
    BandElements(isBuy, rows, lut, 0, k);
    RowElements(isBuy, rows, lut, p, 0, |rows[p]|);
    assert rows[p][0..|rows[p]|] == rows[p];
    BandElements(isBuy, rows, lut, k + 1, n);
    if b != [] { assert b[0] in b; }
    InsertSplice(isBuy, f, b, o);
  }

  // ----- The cursor -----

  lemma {:induction false} EmptyBand(isBuy: bool, rows: seq<Row>, a: nat, b: nat)
    requires a <= b <= |rows|
    requires forall p :: 0 <= p < |rows| && a <= Level(isBuy, |rows|, p) < b ==> Live(rows[p]) == []
    ensures Band(isBuy, rows, a, b) == []
    decreases b - a
  {
    if a < b {
      EmptyBand(isBuy, rows, a + 1, b);
    }
  }

  // The cursor points at the head of the list, or at the sentinel when the list is empty.
  lemma CursorIsHead(isBuy: bool, rows: seq<Row>, lut: seq<Option<Slot>>, counts: seq<int>, best: int)
    requires Coherent(isBuy, rows, lut, counts, best)
    ensures var q := QueueOf(isBuy, rows);
      && best == (if q != [] then TickOf(q[0]) else if isBuy then 0 else |rows|)
      && (q != [] ==> best < |rows| && Above(isBuy, rows, best) == [] && Live(rows[best]) != [])
  {
    var q := QueueOf(isBuy, rows);
    if best < |rows| && counts[best] != 0 {
      EmptyBand(isBuy, rows, 0, Level(isBuy, |rows|, best));
      CutRow(isBuy, rows, best, rows[best]);
      RowElements(isBuy, rows, lut, best, 0, |rows[best]|);
      assert rows[best][0..|rows[best]|] == rows[best];
    } else {
      EmptyBand(isBuy, rows, 0, |rows|);
    }
  }

  // ----- The four structures together -----

  lemma CursorAfterPush(isBuy: bool, rows: seq<Row>, counts: seq<int>, best: int, p: nat)
    requires CountsOk(rows, counts) && CursorOk(isBuy, counts, best) && p < |rows|
    ensures CursorOk(isBuy, counts[p := counts[p] + 1], if Better(isBuy, p, best) then p else best)
  {
  }

  // Create: append the order, note its slot, count it, raise the cursor if it is better.
  lemma CreateCoherent(isBuy: bool, rows: seq<Row>, lut: seq<Option<Slot>>, counts: seq<int>, best: int, o: LOBOrder)
    requires Coherent(isBuy, rows, lut, counts, best)
    requires o.quantity > 0 && 0 <= TickOf(o) < |rows|
    requires o.systemId < |lut| && Find(QueueOf(isBuy, rows), o.systemId).None?
    ensures var p := TickOf(o);
      && |rows| == |counts|
      && Coherent(isBuy, Push(rows, p, o), lut[o.systemId := Some(Slot(p, |rows[p]|))], counts[p := counts[p] + 1],
                  if Better(isBuy, p, best) then p else best)
      && QueueOf(isBuy, Push(rows, p, o)) == Insert(isBuy, QueueOf(isBuy, rows), o)
  {
    var p := TickOf(o);
    LutIsFind(isBuy, rows, lut, o.systemId);
    PushLut(rows, lut, p, o);
    PushCounts(rows, counts, p, o);
    PushQueue(isBuy, rows, lut, p, o);
    CursorAfterPush(isBuy, rows, counts, best, p);
  }

  // Decrease of a live quantity in place.
  lemma ShrinkCoherent(isBuy: bool, rows: seq<Row>, lut: seq<Option<Slot>>, counts: seq<int>, best: int, p: nat, c: nat, v: u32)
    requires Coherent(isBuy, rows, lut, counts, best)
    requires p < |rows| && c < |rows[p]| && rows[p][c].quantity > 0 && v > 0
    ensures var rows' := Put(rows, p, c, rows[p][c].(quantity := v));
      && Coherent(isBuy, rows', lut, counts, best)
      && QueueOf(isBuy, rows') == SetQuantity(QueueOf(isBuy, rows), rows[p][c].systemId, v)
  {
    ResizeLut(rows, lut, p, c, v);
    ResizeQueue(isBuy, rows, lut, p, c, v);
    PutCounts(rows, counts, p, c, rows[p][c].(quantity := v));
  }

  // Increase: bury the old entry and append the request to the same row.
  lemma GrowCoherent(isBuy: bool, rows: seq<Row>, lut: seq<Option<Slot>>, counts: seq<int>, best: int, p: nat, c: nat, o: LOBOrder)
    requires Coherent(isBuy, rows, lut, counts, best)
    requires p < |rows| && c < |rows[p]| && rows[p][c].quantity > 0
    requires o.quantity > 0 && TickOf(o) == p && o.systemId == rows[p][c].systemId
    ensures var rows' := Push(Bury(rows, p, c), p, o);
      && Coherent(isBuy, rows', lut[o.systemId := Some(Slot(p, |rows[p]|))], counts, best)
      && QueueOf(isBuy, rows') == Insert(isBuy, Remove(QueueOf(isBuy, rows), o.systemId), o)
  {
    hide Live, QueueOf, Insert, Remove, Tick;
    var dead, deadLut := Bury(rows, p, c), lut[o.systemId := None];
    BuryLut(rows, lut, p, c);
    BuryQueue(isBuy, rows, lut, p, c);
    PutCounts(rows, counts, p, c, rows[p][c].(quantity := 0));
    PushLut(dead, deadLut, p, o);
    PushQueue(isBuy, dead, deadLut, p, o);
    PushCounts(dead, counts[p := counts[p] - 1], p, o);
  }

  lemma CountPositive(rows: seq<Row>, counts: seq<int>, p: nat, c: nat)
    requires CountsOk(rows, counts) && p < |rows| && c < |rows[p]| && rows[p][c].quantity > 0
    ensures |counts| == |rows| && counts[p] > 0
  {
    LiveCut(rows[p], c, rows[p][c]);
    assert rows[p][c := rows[p][c]] == rows[p];
  }

  lemma CursorAfterBury(isBuy: bool, counts: seq<int>, best: int, p: nat)
    requires CursorOk(isBuy, counts, best) && p < |counts| && counts[p] > 0
    ensures var counts' := counts[p := counts[p] - 1];
      && (forall q :: 0 <= q < |counts| && Better(isBuy, q, best) ==> counts'[q] == 0)
      && 0 <= best <= |counts|
      && (counts'[p] != 0 || p != best ==> CursorOk(isBuy, counts', best))
  {
  }

  // Delete, before the cursor glides.
  lemma BuryCoherent(isBuy: bool, rows: seq<Row>, lut: seq<Option<Slot>>, counts: seq<int>, best: int, p: nat, c: nat)
    requires Coherent(isBuy, rows, lut, counts, best)
    requires p < |rows| && c < |rows[p]| && rows[p][c].quantity > 0
    ensures var rows', counts' := Bury(rows, p, c), counts[p := counts[p] - 1];
      && LutOk(rows', lut[rows[p][c].systemId := None]) && CountsOk(rows', counts')
      && (forall q :: 0 <= q < |rows| && Better(isBuy, q, best) ==> counts'[q] == 0)
      && 0 <= best <= |rows|
      && (counts'[p] != 0 || p != best ==> CursorOk(isBuy, counts', best))
      && QueueOf(isBuy, rows') == Remove(QueueOf(isBuy, rows), rows[p][c].systemId)
  {
    hide QueueOf, Remove, Tick, LutOk, CountsOk, CursorOk;
    BuryLut(rows, lut, p, c);
    BuryQueue(isBuy, rows, lut, p, c);
    PutCounts(rows, counts, p, c, rows[p][c].(quantity := 0));
    CountPositive(rows, counts, p, c);
    CursorAfterBury(isBuy, counts, best, p);
  }

  lemma CoherentFind(isBuy: bool, rows: seq<Row>, lut: seq<Option<Slot>>, counts: seq<int>, best: int, id: u32)
    requires Coherent(isBuy, rows, lut, counts, best)
    ensures var r := Find(QueueOf(isBuy, rows), id);
      if id < |lut| && lut[id].Some?
      then IsSlot(rows, lut[id].value) && r == Some(rows[lut[id].value.row][lut[id].value.col])
           && r.value.quantity > 0 && r.value.systemId == id && TickOf(r.value) == lut[id].value.row
      else r == None
  {
    LutIsFind(isBuy, rows, lut, id);
  }

  // A tombstone that the lookup table still leads to breaks the agreement.
  lemma TombstoneIncoherent(isBuy: bool, rows: seq<Row>, lut: seq<Option<Slot>>, counts: seq<int>, best: int, id: u32)
    requires id < |lut| && lut[id].Some? && IsSlot(rows, lut[id].value)
    requires rows[lut[id].value.row][lut[id].value.col].quantity == 0
    ensures !Coherent(isBuy, rows, lut, counts, best)
  {
  }

  lemma SlotIsMapped(isBuy: bool, rows: seq<Row>, lut: seq<Option<Slot>>, counts: seq<int>, best: int, p: nat, c: nat)
    requires Coherent(isBuy, rows, lut, counts, best)
    requires p < |rows| && c < |rows[p]| && rows[p][c].quantity > 0
    ensures rows[p][c].systemId < |lut| && lut[rows[p][c].systemId] == Some(Slot(p, c)) && TickOf(rows[p][c]) == p
  {
  }

  lemma SlotIsRight(isBuy: bool, rows: seq<Row>, lut: seq<Option<Slot>>, counts: seq<int>, best: int, id: nat)
    requires Coherent(isBuy, rows, lut, counts, best) && id < |lut| && lut[id].Some?
    ensures IsSlot(rows, lut[id].value) && |counts| == |rows|
    ensures rows[lut[id].value.row][lut[id].value.col].systemId == id
  {
  }

  // An entry in a row that is not its tick's breaks it too.
  lemma MisplacedIncoherent(isBuy: bool, rows: seq<Row>, lut: seq<Option<Slot>>, counts: seq<int>, best: int, p: nat, c: nat)
    requires p < |rows| && c < |rows[p]| && rows[p][c].quantity > 0 && TickOf(rows[p][c]) != p
    ensures !Coherent(isBuy, rows, lut, counts, best)
  {
  }

  // So do two live entries under one id.
  lemma DuplicateIncoherent(isBuy: bool, rows: seq<Row>, lut: seq<Option<Slot>>, counts: seq<int>, best: int, a: Slot, b: Slot)
    requires IsSlot(rows, a) && IsSlot(rows, b) && a != b
    requires rows[a.row][a.col].quantity > 0 && rows[b.row][b.col].quantity > 0
    requires rows[a.row][a.col].systemId == rows[b.row][b.col].systemId
    ensures !Coherent(isBuy, rows, lut, counts, best)
  {
  }

  // ----- The orders at one tick -----

  function OrdersAt(q: Queue, tick: int): Queue {
    if q == [] then []
    else (if TickOf(q[0]) == tick then [q[0]] else []) + OrdersAt(q[1..], tick)
  }

  lemma {:induction false} OrdersAtAppend(a: Queue, b: Queue, tick: int)
    ensures OrdersAt(a + b, tick) == OrdersAt(a, tick) + OrdersAt(b, tick)
  {
    hide Tick;
    if a == [] {
      assert a + b == b;
    } else {
      OrdersAtAppend(a[1..], b, tick);
      assert (a + b)[0] == a[0] && (a + b)[1..] == a[1..] + b;
      Assoc(if TickOf(a[0]) == tick then [a[0]] else [], OrdersAt(a[1..], tick), OrdersAt(b, tick));
    }
  }

  lemma {:induction false} OrdersAtAll(q: Queue, tick: int, here: bool)
    requires forall o :: o in q ==> (TickOf(o) == tick) == here
    ensures OrdersAt(q, tick) == if here then q else []
  {
    if q != [] {
      assert q[0] in q;
      OrdersAtAll(q[1..], tick, here);
    }
  }

  lemma RowTicks(isBuy: bool, rows: seq<Row>, lut: seq<Option<Slot>>, p: nat)
    requires LutOk(rows, lut) && p < |rows|
    ensures forall o :: o in Live(rows[p]) ==> (TickOf(o) == p) == true
    ensures forall o :: o in Above(isBuy, rows, p) || o in Below(isBuy, rows, p) ==> (TickOf(o) == p) == false
  {
    hide Live, Band, Tick, Ok, LutOk;
    var k := Level(isBuy, |rows|, p);
    BandElements(isBuy, rows, lut, 0, k);
    BandElements(isBuy, rows, lut, k + 1, |rows|);
    RowElements(isBuy, rows, lut, p, 0, |rows[p]|);
    assert rows[p][0..|rows[p]|] == rows[p];
  }

  // The live entries of a row are the stretch of the list at its tick.
  lemma RowIsStretch(isBuy: bool, rows: seq<Row>, lut: seq<Option<Slot>>, p: nat)
    requires LutOk(rows, lut) && p < |rows|
    ensures Live(rows[p]) == OrdersAt(QueueOf(isBuy, rows), p)
  {
    hide OrdersAt, Live, Band, Tick, LutOk, QueueOf, Above, Below;
    var a, b := Above(isBuy, rows, p), Below(isBuy, rows, p);
    CutRow(isBuy, rows, p, rows[p]);
    RowTicks(isBuy, rows, lut, p);
    OrdersAtAppend(a + Live(rows[p]), b, p);
    OrdersAtAppend(a, Live(rows[p]), p);
    OrdersAtAll(a, p, false);
    OrdersAtAll(b, p, false);
    OrdersAtAll(Live(rows[p]), p, true);
  }

  // A row's counter is the number of orders resting at its tick.
  lemma CountIsOrders(isBuy: bool, rows: seq<Row>, lut: seq<Option<Slot>>, counts: seq<int>, best: int, p: nat)
    requires Coherent(isBuy, rows, lut, counts, best) && p < |rows|
    ensures |counts| == |rows| && counts[p] == |OrdersAt(QueueOf(isBuy, rows), p)|
  {
    hide LutOk, QueueOf, OrdersAt, Live;
    RowIsStretch(isBuy, rows, lut, p);
  }
}
