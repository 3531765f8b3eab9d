// The single-producer single-consumer ring (header/lock_free_queue.h).
//
// First as a state machine over its atomic steps, so that the two threads
// interleave arbitrarily and each may act on an old copy of the other's index;
// then as the class its callers use.
module RingQueue {
  import opened Orders

  // ----- Index arithmetic shared by both -----

  // The index after i.
  function Succ(i: nat, n: nat): (j: nat)
    requires i < n
    ensures j == if i + 1 < n then i + 1 else 0
  {
    (i + 1) % n
  }

  predicate FullTest(w: nat, r: nat, n: nat)
    requires w < n
  {
    Succ(w, n) == r
  }

  // size() of two loaded indices.
  function SizeOf(w: nat, r: nat, n: nat): int {
    if w >= r then w - r else n - r + w
  }

  // The index of item number k: going round the ring.
  function Wrap(k: nat, n: nat): (j: nat)
    requires n > 0
    ensures j < n
  {
    if k < n then k else Wrap(k - n, n)
  }

  // The index i places after index r, i being at most once round.
  function At(r: nat, i: nat, n: nat): (j: nat)
    requires r < n && i <= n
    ensures j < n
  {
    if r + i < n then r + i else r + i - n
  }

  lemma ModUnique(q: int, x: int, n: int)
    requires n > 0 && 0 <= x < n
    ensures (q * n + x) % n == x
  {
    var y := q * n + x;
    var d := y / n - q;
    assert d >= 1 ==> n * d >= n;
    assert d <= -1 ==> n * d <= -n;
  }

  lemma {:induction false} WrapIsMod(k: nat, n: nat)
    requires n > 0
    ensures Wrap(k, n) == k % n
  {
    if k >= n {
      WrapIsMod(k - n, n);
      var q, x := (k - n) / n, (k - n) % n;
      assert k - n == q * n + x && (q + 1) * n == q * n + n;
      ModUnique(q + 1, x, n);
    }
  }

  lemma {:induction false} WrapAdd(k: nat, i: nat, n: nat)
    requires n > 0 && i <= n
    ensures Wrap(k + i, n) == At(Wrap(k, n), i, n)
  {
    if k >= n { WrapAdd(k - n, i, n); }
  }

  lemma WrapSucc(k: nat, n: nat)
    requires n > 0
    ensures Succ(Wrap(k, n), n) == Wrap(k + 1, n)
  {
    WrapAdd(k, 1, n);
  }

  // Items less than n apart have different indices.
  lemma WrapApart(a: nat, b: nat, n: nat)
    requires a < b < a + n
    ensures Wrap(a, n) != Wrap(b, n)
  {
    WrapAdd(a, b - a, n);
  }

  // Whatever two item numbers the indices were loaded at, size() is the one
  // number below n that leads round the ring from the read index to the write
  // index; it is exact when neither had moved in between.
  lemma SizeIsDifference(w: nat, r: nat, n: nat)
    requires n > 0
    ensures var k := SizeOf(Wrap(w, n), Wrap(r, n), n);
      && 0 <= k < n && Wrap(r + k, n) == Wrap(w, n)
      && (r <= w < r + n ==> k == w - r)
  {
    WrapAdd(r, SizeOf(Wrap(w, n), Wrap(r, n), n), n);
    if r <= w < r + n { WrapAdd(r, w - r, n); }
  }

  // ----- The two threads -----

  // `seen` is a copy of the other side's index; `at` is the number of items
  // that side had released or published when the copy was made.
  datatype Producer =
    | PIdle                              // between calls
    | PCompare(seen: nat, at: nat)       // in getNextToWriteTo, read index loaded
    | PHas                               // owns the slot at the write index
    | PCheck(seen: nat, at: nat)         // in updateWriteIndex, read index loaded
    | PChecked                           // its ASSERT held
    | PFailed                            // its ASSERT fired

  datatype Consumer<T> =
    | CIdle
    | CCompare(seen: nat, at: nat)
    | CHas(got: seq<T>)                  // owns the slot at the read index; what it read there
    | CCheck(seen: nat, at: nat)
    | CChecked
    | CFailed

  // `published` and `consumed` record every item ever passed over.
  datatype Ring<T> = Ring(store: seq<T>, w: nat, r: nat, p: Producer, c: Consumer<T>,
                          published: seq<T>, consumed: seq<T>)

  function Start<T>(n: nat, blank: T): Ring<T> {
    Ring(seq(n, _ => blank), 0, 0, PIdle, CIdle, [], [])
  }

  datatype Step<T> = PLoad | PDecide | PFill(v: T) | PReload | PAssert | PPublish
                | CLoad | CDecide | CRead | CReload | CAssert | CRelease

  // One atomic step; a step whose thread is elsewhere does nothing.
  function Do<T>(s: Ring<T>, step: Step<T>): (s': Ring<T>)
    requires s.w < |s.store| && s.r < |s.store|
    ensures s'.w < |s'.store| && s'.r < |s'.store|
  {
    var n := |s.store|;
    match step
    case PLoad => if s.p.PIdle? then s.(p := PCompare(s.r, |s.consumed|)) else s
    case PDecide => if s.p.PCompare? then s.(p := if FullTest(s.w, s.p.seen, n) then PIdle else PHas) else s
    case PFill(v) => if s.p.PHas? then s.(store := s.store[s.w := v]) else s
    case PReload => if s.p.PHas? then s.(p := PCheck(s.r, |s.consumed|)) else s
    case PAssert => if s.p.PCheck? then s.(p := if FullTest(s.w, s.p.seen, n) then PFailed else PChecked) else s
    case PPublish => if s.p.PChecked? then
                       s.(w := Succ(s.w, n), p := PIdle, published := s.published + [s.store[s.w]])
                     else s
    case CLoad => if s.c.CIdle? then s.(c := CCompare(s.w, |s.published|)) else s
    case CDecide => if s.c.CCompare? then s.(c := if s.r == s.c.seen then CIdle else CHas([])) else s
    case CRead => if s.c.CHas? then s.(c := CHas(s.c.got + [s.store[s.r]])) else s
    case CReload => if s.c.CHas? then s.(c := CCheck(s.w, |s.published|)) else s
    case CAssert => if s.c.CCheck? then s.(c := if s.r == s.c.seen then CFailed else CChecked) else s
    case CRelease => if s.c.CChecked? then
                       s.(r := Succ(s.r, n), c := CIdle, consumed := s.consumed + [s.store[s.r]])
                     else s
  }

  // Indices are counters reduced modulo n, at most n-1 items are held, and the
  // window between the counters holds exactly the items not yet consumed.
  ghost predicate Indexed<T>(s: Ring<T>) {
    var n, w, r := |s.store|, |s.published|, |s.consumed|;
    && n > 0 && s.w == Wrap(w, n) && s.r == Wrap(r, n) && r <= w < r + n
    && s.consumed == s.published[..r]
    && forall k :: r <= k < w ==> s.store[Wrap(k, n)] == s.published[k]
  }

  ghost predicate ProducerOk<T>(s: Ring<T>) {
    var n, w, r := |s.store|, |s.published|, |s.consumed|;
    match s.p
    case PIdle => true
    case PCompare(seen, at) => n > 0 && seen == Wrap(at, n) && at <= r && w < at + n
    case PHas => w + 1 < r + n
    case PCheck(seen, at) => n > 0 && seen == Wrap(at, n) && at <= r && w + 1 < at + n
    case PChecked => w + 1 < r + n
    case PFailed => false
  }

  ghost predicate ConsumerOk<T>(s: Ring<T>) {
    var n, w, r := |s.store|, |s.published|, |s.consumed|;
    match s.c
    case CIdle => true
    case CCompare(seen, at) => n > 0 && seen == Wrap(at, n) && r <= at <= w
    case CHas(got) => r < w && forall i :: 0 <= i < |got| ==> got[i] == s.published[r]
    case CCheck(seen, at) => n > 0 && seen == Wrap(at, n) && r < at <= w
    case CChecked => r < w
    case CFailed => false
  }

  ghost predicate RingOk<T>(s: Ring<T>) {
    Indexed(s) && ProducerOk(s) && ConsumerOk(s)
  }

  // The tests the code makes on the indices, for a copy of the other index
  // that may be old.
  lemma FullTestMeans(w: nat, at: nat, n: nat)
    requires n > 0 && at <= w < at + n
    ensures FullTest(Wrap(w, n), Wrap(at, n), n) <==> w + 1 == at + n
  {
    WrapSucc(w, n);
    WrapAdd(at, w + 1 - at, n);
  }

  lemma EmptyTestMeans(r: nat, at: nat, n: nat)
    requires n > 0 && r <= at < r + n
    ensures Wrap(r, n) == Wrap(at, n) <==> r == at
  {
    WrapAdd(r, at - r, n);
  }

  lemma FillKeeps<T>(s: Ring<T>, v: T)
    requires RingOk(s) && s.p.PHas?
    ensures RingOk(s.(store := s.store[s.w := v]))
  {
    var n, w, r := |s.store|, |s.published|, |s.consumed|;
    forall k | r <= k < w ensures s.store[s.w := v][Wrap(k, n)] == s.published[k] {
      WrapApart(k, w, n);
    }
  }

  lemma PublishKeeps<T>(s: Ring<T>)
    requires RingOk(s) && s.p.PChecked?
    ensures RingOk(Do(s, PPublish))
  {
    hide Wrap, Succ;
    WrapSucc(|s.published|, |s.store|);
  }

  lemma ReleaseKeeps<T>(s: Ring<T>)
    requires RingOk(s) && s.c.CChecked?
    ensures RingOk(Do(s, CRelease))
  {
    hide Wrap, Succ;
    WrapSucc(|s.consumed|, |s.store|);
  }

  lemma StepKeeps<T>(s: Ring<T>, step: Step<T>)
    requires RingOk(s)
    ensures RingOk(Do(s, step)) && |Do(s, step).store| == |s.store|
  {
    hide Wrap, Succ;
    var n, w, r := |s.store|, |s.published|, |s.consumed|;
    match step
    case PLoad =>
    case PDecide => if s.p.PCompare? { FullTestMeans(w, s.p.at, n); }
    case PFill(v) => if s.p.PHas? { FillKeeps(s, v); }
    case PReload =>
    case PAssert => if s.p.PCheck? { FullTestMeans(w, s.p.at, n); }
    case PPublish => if s.p.PChecked? { PublishKeeps(s); }
    case CLoad =>
    case CDecide => if s.c.CCompare? { EmptyTestMeans(r, s.c.at, n); }
    case CRead =>
    case CReload =>
    case CAssert => if s.c.CCheck? { EmptyTestMeans(r, s.c.at, n); }
    case CRelease => if s.c.CChecked? { ReleaseKeeps(s); }
  }

  ghost function After<T>(n: nat, blank: T, steps: seq<Step<T>>): (s: Ring<T>)
    requires n > 0
    ensures RingOk(s) && |s.store| == n
  {
    if steps == [] then Start(n, blank)
    else
      var s := After(n, blank, steps[..|steps|-1]);
      StepKeeps(s, steps[|steps|-1]);
      Do(s, steps[|steps|-1])
  }

  // The FIFO the ring stands for.
  ghost function Pending<T>(s: Ring<T>): seq<T>
    requires RingOk(s)
  {
    s.published[|s.consumed|..]
  }

  // Every atomic step is a FIFO step: publishing appends what the producer last
  // wrote, releasing removes the head, which is what every read in that window
  // returned, and nothing else changes the queue.
  lemma StepIsFifo<T>(s: Ring<T>, step: Step<T>)
    requires RingOk(s)
    ensures RingOk(Do(s, step))
    ensures var q, s' := Pending(s), Do(s, step);
      if step.PPublish? && s.p.PChecked? then Pending(s') == q + [s.store[s.w]]
      else if step.CRelease? && s.c.CChecked? then
        q != [] && Pending(s') == q[1..] && s'.consumed == s.consumed + [q[0]]
      else Pending(s') == q
    ensures step.CRead? && s.c.CHas? ==>
      Pending(s) != [] && Do(s, step).c.got == s.c.got + [Pending(s)[0]]
    ensures Do(s, step).store == if step.PFill? && s.p.PHas? then s.store[s.w := step.v] else s.store
  {
    hide Wrap, Succ;
    StepKeeps(s, step);
    var r := |s.consumed|;
    if r < |s.published| { assert s.store[Wrap(r, |s.store|)] == s.published[r]; }
  }

  // Under every interleaving: what was consumed is a prefix of what was
  // published, at most n-1 items are held, neither ASSERT has fired, the
  // producer's slot is outside the consumer's window, and the two slots differ.
  lemma EveryInterleaving<T>(n: nat, blank: T, steps: seq<Step<T>>)
    requires n > 0
    ensures var s := After(n, blank, steps);
      var w, r := |s.published|, |s.consumed|;
      && s.consumed <= s.published
      && |Pending(s)| <= n - 1
      && !s.p.PFailed? && !s.c.CFailed?
      && (s.p.PHas? || s.p.PCheck? || s.p.PChecked? ==> forall k :: r <= k < w ==> Wrap(k, n) != s.w)
      && (s.c.CHas? || s.c.CCheck? || s.c.CChecked? ==> Pending(s) != [] && s.store[s.r] == Pending(s)[0])
  {
    var s := After(n, blank, steps);
    var w, r := |s.published|, |s.consumed|;
    forall k | r <= k < w ensures Wrap(k, n) != s.w { WrapApart(k, w, n); }
    if r < w { assert s.store[Wrap(r, n)] == s.published[r]; }
  }

  // ----- Whole operations -----

  // Get a slot, fill it in, publish it.
  function Publish<T>(s: Ring<T>, v: T): Ring<T>
    requires s.w < |s.store| && s.r < |s.store|
  {
    Do(Do(Do(Do(Do(Do(s, PLoad), PDecide), PFill(v)), PReload), PAssert), PPublish)
  }

  // Get a slot, read it, release it.
  function Consume<T>(s: Ring<T>): Ring<T>
    requires s.w < |s.store| && s.r < |s.store|
  {
    Do(Do(Do(Do(Do(Do(s, CLoad), CDecide), CRead), CReload), CAssert), CRelease)
  }

  // What the indices say when both sides look at once.
  lemma Exact<T>(s: Ring<T>)
    requires RingOk(s)
    ensures s.w < |s.store| && s.r < |s.store| && |s.consumed| <= |s.published|
    ensures FullTest(s.w, s.r, |s.store|) <==> |Pending(s)| == |s.store| - 1
    ensures s.r == s.w <==> Pending(s) == []
    ensures Pending(s) != [] ==> s.store[s.r] == Pending(s)[0]
  {
    hide Wrap, Succ, FullTest, ProducerOk, ConsumerOk;
    var w, r, n := |s.published|, |s.consumed|, |s.store|;
    FullTestMeans(w, r, n);
    EmptyTestMeans(r, w, n);
    if r < w { assert s.store[Wrap(r, n)] == s.published[r]; }
  }

  lemma PublishIsOk<T>(s: Ring<T>, v: T)
    requires RingOk(s)
    ensures RingOk(Publish(s, v))
  {
    Exact(s);
    hide RingOk, Do;
    var s1 := Do(s, PLoad);
    StepKeeps(s, PLoad);
    var s2 := Do(s1, PDecide);
    StepKeeps(s1, PDecide);
    var s3 := Do(s2, PFill(v));
    StepKeeps(s2, PFill(v));
    var s4 := Do(s3, PReload);
    StepKeeps(s3, PReload);
    var s5 := Do(s4, PAssert);
    StepKeeps(s4, PAssert);
    StepKeeps(s5, PPublish);
  }

  // Wherever the consumer is, a publication that nothing interrupts appends
  // one item, or changes nothing when n-1 are held.
  lemma WholePublish<T>(s: Ring<T>, v: T)
    requires RingOk(s) && s.p.PIdle?
    ensures var s' := Publish(s, v);
      && s' == (if |Pending(s)| == |s.store| - 1 then s
                else s.(store := s.store[s.w := v], w := Succ(s.w, |s.store|), published := s.published + [v]))
      && RingOk(s')
      && Pending(s') == Pending(s) + (if |Pending(s)| == |s.store| - 1 then [] else [v])
  {
    hide RingOk, Succ, FullTest;
    Exact(s);
    var n := |s.store|;
    var s2 := Do(Do(s, PLoad), PDecide);
    if FullTest(s.w, s.r, n) {
      assert s2 == s;
    } else {
      assert s2 == s.(p := PHas);
      var s3 := Do(s2, PFill(v));
      var s5 := Do(Do(s3, PReload), PAssert);
      assert s5 == s3.(p := PChecked);
    }
    PublishIsOk(s, v);
  }

  lemma ConsumeIsOk<T>(s: Ring<T>)
    requires RingOk(s)
    ensures RingOk(Consume(s))
  {
    Exact(s);
    hide RingOk, Do;
    var s1 := Do(s, CLoad);
    StepKeeps(s, CLoad);
    var s2 := Do(s1, CDecide);
    StepKeeps(s1, CDecide);
    var s3 := Do(s2, CRead);
    StepKeeps(s2, CRead);
    var s4 := Do(s3, CReload);
    StepKeeps(s3, CReload);
    var s5 := Do(s4, CAssert);
    StepKeeps(s4, CAssert);
    StepKeeps(s5, CRelease);
  }

  // A consumption that nothing interrupts removes the head, or changes nothing
  // when there is none.
  lemma WholeConsume<T>(s: Ring<T>)
    requires RingOk(s) && s.c.CIdle?
    ensures var s' := Consume(s);
      && s' == (if Pending(s) == [] then s
                else s.(r := Succ(s.r, |s.store|), consumed := s.consumed + [Pending(s)[0]]))
      && RingOk(s')
      && Pending(s') == (if Pending(s) == [] then [] else Pending(s)[1..])
  {
    hide RingOk, Succ;
    Exact(s);
    var s2 := Do(Do(s, CLoad), CDecide);
    if s.r == s.w {
      assert s2 == s;
    } else {
      var s3 := Do(s2, CRead);
      var s5 := Do(Do(s3, CReload), CAssert);
      assert s5 == s.(c := CChecked);
    }
    ConsumeIsOk(s);
  }

  // ----- The class, as one thread at a time sees it -----

  // The k items from index r on.
  function Window<T>(store: seq<T>, r: nat, k: nat): (q: seq<T>)
    requires r < |store| && k <= |store|
    ensures |q| == k
  {
    seq(k, i requires 0 <= i < k => store[At(r, i, |store|)])
  }

  // The sequential queue and the ring agree on what is pending.
  lemma PendingIsWindow<T>(s: Ring<T>)
    requires RingOk(s)
    ensures Pending(s) == Window(s.store, s.r, |s.published| - |s.consumed|)
  {
    var n, w, r := |s.store|, |s.published|, |s.consumed|;
    forall i | 0 <= i < w - r ensures Pending(s)[i] == s.store[At(s.r, i, n)] {
      WrapAdd(r, i, n);
    }
  }

  lemma WindowPush<T>(store: seq<T>, r: nat, k: nat)
    requires r < |store| && k < |store|
    ensures Window(store, r, k + 1) == Window(store, r, k) + [store[At(r, k, |store|)]]
  {
  }

  lemma WindowPop<T>(store: seq<T>, r: nat, k: nat)
    requires 0 < k <= |store| && r < |store|
    ensures Window(store, r, k)[1..] == Window(store, Succ(r, |store|), k - 1)
    ensures Window(store, r, k)[0] == store[r]
  {
  }

  // The write index is where the window ends, and lies outside it.  The full
  // test is exact, and moving an index changes the size by one.
  lemma Indices(w: nat, r: nat, n: nat)
    requires w < n && r < n
    ensures var k := SizeOf(w, r, n);
      && 0 <= k < n && At(r, k, n) == w
      && (forall i :: 0 <= i < k ==> At(r, i, n) != w)
      && (FullTest(w, r, n) <==> k == n - 1)
      && (!FullTest(w, r, n) ==> SizeOf(Succ(w, n), r, n) == k + 1)
      && (w != r ==> k > 0 && SizeOf(w, Succ(r, n), n) == k - 1)
  {
  }

  class LFQueue<T> {
    const store: array<T>
    var nextWriteIndex: nat
    var nextReadIndex: nat

    ghost predicate Valid()
      reads this
    {
      nextWriteIndex < store.Length && nextReadIndex < store.Length
    }

    ghost function Contents(): seq<T>
      reads this, store
      requires Valid()
    {
      Window(store[..], nextReadIndex, SizeOf(nextWriteIndex, nextReadIndex, store.Length))
    }

    constructor (numElems: nat, blank: T)
      requires numElems > 0
      ensures Valid() && Contents() == [] && store.Length == numElems && fresh(store)
    {
      store := new T[numElems](_ => blank);
      nextWriteIndex, nextReadIndex := 0, 0;
    }

    lemma Bounded()
      requires Valid()
      ensures |Contents()| <= store.Length - 1
    {
      Indices(nextWriteIndex, nextReadIndex, store.Length);
    }

    // The slot to fill in, or None for the null pointer.
    method GetNextToWriteTo() returns (slot: Option<nat>)
      requires Valid()
      ensures slot == if |Contents()| == store.Length - 1 then None else Some(nextWriteIndex)
    {
      Indices(nextWriteIndex, nextReadIndex, store.Length);
      return if FullTest(nextWriteIndex, nextReadIndex, store.Length) then None else Some(nextWriteIndex);
    }

    // What a producer does through the pointer it was given.
    method Fill(slot: nat, x: T)
      requires Valid() && slot == nextWriteIndex
      modifies store
      ensures Contents() == old(Contents()) && store[..] == old(store[..])[slot := x]
    {
      hide At;
      Indices(nextWriteIndex, nextReadIndex, store.Length);
      store[slot] := x;
      assert store[..] == old(store[..])[slot := x];
      assert Contents() == old(Contents());
    }

    // The precondition is the ASSERT.
    method UpdateWriteIndex()
      requires Valid() && |Contents()| < store.Length - 1
      modifies this`nextWriteIndex
      ensures Valid() && Contents() == old(Contents()) + [old(store[nextWriteIndex])]
      ensures nextWriteIndex == Succ(old(nextWriteIndex), store.Length)
    {
      Indices(nextWriteIndex, nextReadIndex, store.Length);
      WindowPush(store[..], nextReadIndex, SizeOf(nextWriteIndex, nextReadIndex, store.Length));
      nextWriteIndex := (nextWriteIndex + 1) % store.Length;
    }

    method GetNextToRead() returns (slot: Option<nat>)
      requires Valid()
      ensures slot == if Contents() == [] then None else Some(nextReadIndex)
      ensures slot.Some? ==> store[slot.value] == Contents()[0]
    {
      Indices(nextWriteIndex, nextReadIndex, store.Length);
      if nextReadIndex == nextWriteIndex {
        return None;
      }
      WindowPop(store[..], nextReadIndex, SizeOf(nextWriteIndex, nextReadIndex, store.Length));
      return Some(nextReadIndex);
    }

    // What a consumer may do to the item it is reading.
    method Overwrite(slot: nat, x: T)
      requires Valid() && Contents() != [] && slot == nextReadIndex
      modifies store
      ensures Contents() == old(Contents())[0 := x] && store[..] == old(store[..])[slot := x]
    {
      Indices(nextWriteIndex, nextReadIndex, store.Length);
      store[slot] := x;
      assert store[..] == old(store[..])[slot := x];
      assert Contents() == old(Contents())[0 := x];
    }

    method UpdateReadIndex()
      requires Valid() && Contents() != []
      modifies this`nextReadIndex
      ensures Valid() && Contents() == old(Contents())[1..]
      ensures nextReadIndex == Succ(old(nextReadIndex), store.Length)
    {
      Indices(nextWriteIndex, nextReadIndex, store.Length);
      WindowPop(store[..], nextReadIndex, SizeOf(nextWriteIndex, nextReadIndex, store.Length));
      nextReadIndex := (nextReadIndex + 1) % store.Length;
    }

    method Size() returns (k: int)
      requires Valid()
      ensures k == |Contents()|
    {
      Indices(nextWriteIndex, nextReadIndex, store.Length);
      var w := nextWriteIndex;
      var r := nextReadIndex;
      if w >= r { return w - r; }
      return store.Length - r + w;
    }
  }
}
