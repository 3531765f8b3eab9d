// The classes take the steps of the state machines: every method call, made
// while its thread is at rest, is a sequence of atomic steps, which the other
// threads may therefore interleave with as System and RingQueue let them.
module Simulation {
  import opened Orders
  import opened PriceTime
  import opened BookRep
  import opened SweepLoop
  import opened Market
  import opened MatchingEngine
  import opened RingQueue
  import opened Gateway
  import S = System

  // ----- The queue and the ring -----

  ghost predicate AtRest<T>(q: LFQueue<T>, s: Ring<T>)
    reads q, q.store
  {
    && q.Valid() && RingOk(s) && s.p.PIdle? && s.c.CIdle?
    && q.store[..] == s.store && q.nextWriteIndex == s.w && q.nextReadIndex == s.r
  }

  lemma RestContents<T>(q: LFQueue<T>, s: Ring<T>)
    requires AtRest(q, s)
    ensures q.Contents() == Pending(s)
  {
    hide Window, Wrap;
    PendingIsWindow(s);
    SizeIsDifference(|s.published|, |s.consumed|, |s.store|);
  }

  lemma PublishFrom<T>(q: LFQueue<T>, x: T, s: Ring<T>)
    requires AtRest(q, s)
    ensures RingOk(Publish(s, x)) && s.w < |s.store|
    ensures Publish(s, x) == if |q.Contents()| == |s.store| - 1 then s
                             else s.(store := s.store[s.w := x], w := Succ(s.w, |s.store|), published := s.published + [x])
  {
    hide RingOk, Publish, Window, Succ, FullTest, Pending;
    RestContents(q, s);
    WholePublish(s, x);
    Exact(s);
  }

  // What a producer does with the queue.
  method PublishItem<T>(q: LFQueue<T>, x: T, ghost s: Ring<T>)
    requires AtRest(q, s)
    modifies q, q.store
    ensures AtRest(q, Publish(s, x))
    ensures q.Contents() == Pending(Publish(s, x))
  {
    hide RingOk, Publish, Window, Succ, Pending;
    PublishFrom(q, x, s);
    var slot := q.GetNextToWriteTo();
    q.Bounded();
    if slot.Some? {
      q.Fill(slot.value, x);
      q.UpdateWriteIndex();
    }
    RestContents(q, Publish(s, x));
  }

  // What a consumer does with it.
  method ConsumeItem<T>(q: LFQueue<T>, ghost s: Ring<T>) returns (x: Option<T>)
    requires AtRest(q, s)
    modifies q
    ensures AtRest(q, Consume(s))
    ensures q.Contents() == Pending(Consume(s))
    ensures x == if Pending(s) == [] then None else Some(Pending(s)[0])
  {
    RestContents(q, s);
    WholeConsume(s);
    hide RingOk, Consume, Window, Succ, Pending;
    x := None;
    var slot := q.GetNextToRead();
    if slot.Some? {
      x := Some(q.store[slot.value]);
      q.UpdateReadIndex();
    }
    RestContents(q, Consume(s));
  }

  // ----- The gateway -----

  // The gateway object and its queues, between two calls, are this state of the
  // system.  The engine may be inside a sweep, having counted down the request
  // in its slot; `read` user acknowledgements have been taken by the client.
  ghost predicate GatewayIs(l: S.Limits, g: OrderGateway, s: S.Sys, read: nat)
    reads g, g.lobOrderQueue, g.lobOrderQueue.store, g.lobAckQueue, g.lobAckQueue.store
    reads g.sniperOrderQueue, g.sniperOrderQueue.store, g.mmOrderQueue, g.mmOrderQueue.store
    reads g.sniperOrderAck, g.sniperOrderAck.store
  {
    && g.IdsOk() && g.QueuesOk() && |g.lut| == l.gatewayLut
    && s.gateway == S.Polling
    && g.sniperOrderQueue.Contents() == s.sniper && g.mmOrderQueue.Contents() == s.mm
    && g.Assigned() == S.OrderIds(s.numbered)
    && s.processed <= |s.forwarded| && (s.sweep.Some? ==> s.processed < |s.forwarded|)
    && g.lobOrderQueue.Contents() == S.Todo(s)
    && s.released <= |s.engineAcks| && g.lobAckQueue.Contents() == s.engineAcks[s.released..]
    && read <= |s.userAcks| && g.sniperOrderAck.Contents() == s.userAcks[read..]
  }

  lemma {:induction false} FromCons(l: S.Limits, s: S.Sys, step: S.Step, steps: seq<S.Step>)
    requires S.SysOk(l, s) && l.gatewayLut <= l.engineLut && !step.Submit? && S.StepsOk(l, steps)
    ensures S.SysOk(l, S.Do(l, s, step)) && S.StepsOk(l, [step] + steps)
    ensures S.From(l, s, [step] + steps) == S.From(l, S.Do(l, s, step), steps)
  {
    hide S.SysOk, S.Do;
    S.StepKeeps(l, s, step);
    var all := [step] + steps;
    if steps == [] {
      assert all[..|all|-1] == [];
    } else {
      FromCons(l, s, step, steps[..|steps|-1]);
      assert all[..|all|-1] == [step] + steps[..|steps|-1];
    }
  }

  lemma FromTwo(l: S.Limits, s: S.Sys, a: S.Step, b: S.Step)
    requires S.SysOk(l, s) && l.gatewayLut <= l.engineLut && !a.Submit? && !b.Submit?
    ensures S.StepsOk(l, [a, b]) && S.From(l, s, [a, b]) == S.Do(l, S.Do(l, s, a), b)
  {
    hide S.SysOk, S.Do;
    FromCons(l, s, a, [b]);
    FromCons(l, S.Do(l, s, a), b, []);
    assert [a] + [b] == [a, b] && [b] + [] == [b];
  }

  // Taking an order and releasing it, on the state.
  lemma TakenAndReleased(l: S.Limits, s: S.Sys, mm: bool, room: bool)
    requires s.processed <= |s.forwarded| && (s.sweep.Some? ==> s.processed < |s.forwarded|)
    requires s.gateway == S.Polling && S.Inbox(s, mm) != [] && |s.numbered| < l.gatewayLut && |s.numbered| < U32_SIZE
    ensures var q := S.Inbox(s, mm);
      var s' := S.Do(l, S.Do(l, s, S.Take(mm, room)), S.ReleaseOrder);
      var sent := if room then [ToLOB(q[0], |s.numbered|)] else [];
      && s'.gateway == S.Polling && S.Inbox(s', mm) == q[1..] && S.Inbox(s', !mm) == S.Inbox(s, !mm)
      && S.OrderIds(s'.numbered) == S.OrderIds(s.numbered) + [ToI64(q[0].orderId)]
      && s'.forwarded == s.forwarded + sent && s'.processed == s.processed && s'.sweep == s.sweep
      && S.Todo(s') == S.Todo(s) + sent
      && s'.released == s.released && s'.engineAcks == s.engineAcks && s'.userAcks == s.userAcks
  {
    hide ToLOB, ToI64;
  }

  // One order polled is two steps of the system, or none.
  method PollOrders(l: S.Limits, g: OrderGateway, mm: bool, ghost s: S.Sys, ghost read: nat) returns (ghost steps: seq<S.Step>)
    requires S.SysOk(l, s) && l.gatewayLut <= l.engineLut && GatewayIs(l, g, s, read)
    requires S.Inbox(s, mm) != [] ==> |s.numbered| < l.gatewayLut
    modifies g, g.lobOrderQueue, g.lobOrderQueue.store, g.sniperOrderQueue, g.mmOrderQueue
    ensures S.Inbox(s, mm) == [] ==> steps == []
    ensures S.Inbox(s, mm) != [] ==> exists room :: steps == [S.Take(mm, room), S.ReleaseOrder]
    ensures S.StepsOk(l, steps) && GatewayIs(l, g, S.From(l, s, steps), read)
  {
    hide S.SysOk, Window, ToLOB, ToI64, S.Do;
    ghost var room := |g.lobOrderQueue.Contents()| < g.lobOrderQueue.store.Length - 1;
    steps := [];
    if S.Inbox(s, mm) != [] {
      steps := [S.Take(mm, room), S.ReleaseOrder];
      FromTwo(l, s, S.Take(mm, room), S.ReleaseOrder);
      TakenAndReleased(l, s, mm, room);
    }
    g.PollOrders(if mm then g.mmOrderQueue else g.sniperOrderQueue);
  }

  lemma PublishedAndReleased(l: S.Limits, s: S.Sys)
    requires S.SysOk(l, s) && s.gateway == S.Polling && s.released < |s.engineAcks|
    ensures var a := s.engineAcks[s.released];
      && a.systemId < |s.numbered|
      && S.Do(l, S.Do(l, s, S.PublishAck), S.ReleaseAck)
         == s.(released := s.released + 1, userAcks := s.userAcks + [Translate(a, S.OrderIds(s.numbered)[a.systemId])])
  {
    hide S.ClientSide, S.RequestsOk, S.EngineOk, Translate, Keep;
    assert s.engineAcks[s.released] in s.engineAcks;
  }

  // So is one acknowledgement.
  method PollAcks(l: S.Limits, g: OrderGateway, ghost s: S.Sys, ghost read: nat) returns (ghost steps: seq<S.Step>)
    requires S.SysOk(l, s) && l.gatewayLut <= l.engineLut && GatewayIs(l, g, s, read)
    modifies g.lobAckQueue, g.sniperOrderAck, g.sniperOrderAck.store
    ensures steps == [] || steps == [S.PublishAck, S.ReleaseAck]
    ensures steps == [] ==>
      s.released == |s.engineAcks| || |s.userAcks[read..]| >= g.sniperOrderAck.store.Length - 1
    ensures S.StepsOk(l, steps) && GatewayIs(l, g, S.From(l, s, steps), read)
  {
    hide S.SysOk, Window, Translate, S.Do;
    steps := [];
    g.sniperOrderAck.Bounded();
    if s.released < |s.engineAcks| && |g.sniperOrderAck.Contents()| < g.sniperOrderAck.store.Length - 1 {
      steps := [S.PublishAck, S.ReleaseAck];
      PublishedAndReleased(l, s);
      FromTwo(l, s, S.PublishAck, S.ReleaseAck);
    }
    g.PollAcks();
  }

  // ----- The engine -----

  // The engine object and its queue, between two requests.
  ghost predicate EngineIs(l: S.Limits, e: MatchingEngine, q: LFQueue<LOBOrder>, s: S.Sys)
    reads e, e.buyBook, e.sellBook, q, q.store
  {
    && e.Valid() && q.Valid() && e.maxPrice == l.maxPrice && e.lutSize == l.engineLut
    && s.sweep.None? && s.processed <= |s.forwarded|
    && e.TheMarket() == s.market && e.offered == s.offered && e.sent == s.kept && e.acks == s.engineAcks
    && q.Contents() == s.forwarded[s.processed..]
  }

  // What the sweep going on will still do: its trades, its acknowledgements and
  // the market it leaves.
  function Ahead(s: S.Sys): Sweep
    requires s.sweep.Some?
  {
    var o := s.sweep.value.order;
    Match(!IsBuy(o), S.Far(s), TickOf(o), o.quantity)
  }

  function AcksAhead(s: S.Sys): seq<LOBAck>
    requires s.sweep.Some?
  {
    var rem := s.sweep.value.order.(quantity := Ahead(s).left);
    FillAcks(s.sweep.value.order, Ahead(s).fills)
    + (if rem.quantity == 0 then [] else AckFor(rem, TickOf(rem), 'N', rem.quantity))
  }

  function MarketAhead(s: S.Sys): Market
    requires s.sweep.Some?
  {
    var rem := s.sweep.value.order.(quantity := Ahead(s).left);
    var m := WithSide(s.market, !IsBuy(rem), Ahead(s).rest);
    if rem.quantity == 0 then m else Rest(m, rem)
  }

  lemma OneHitAcks(o: LOBOrder, f: Fill, fills: seq<Fill>)
    ensures FillAcks(o, [f] + fills) == HitAcks(o, f) + FillAcks(o, fills)
  {
    assert ([f] + fills)[1..] == fills;
  }

  // One trade of it.
  lemma TradeAhead(l: S.Limits, s: S.Sys, kept: seq<bool>)
    requires S.SysOk(l, s) && s.sweep.Some? && S.CanTrade(s)
    requires var o := s.sweep.value.order; |kept| == |HitAcks(o, OneHit(S.Far(s), o.quantity).fills[0])|
    ensures var s', o := S.TradeOnce(s, kept), s.sweep.value.order;
      var acks := HitAcks(o, OneHit(S.Far(s), o.quantity).fills[0]);
      && s'.sweep.Some? && s'.sweep.value.order.quantity < o.quantity
      && s' == S.Offer(s, acks, kept).(market := s'.market, sweep := s'.sweep)
      && AcksAhead(s) == acks + AcksAhead(s') && MarketAhead(s) == MarketAhead(s')
  {
    hide S.ClientSide, S.RequestsOk, S.AcksOk, Tick, Match, Keep, FillAcks, HitAcks, Ok, Run, AcceptsAll, Accepts;
    var s', o := S.TradeOnce(s, kept), s.sweep.value.order;
    var h := OneHit(S.Far(s), o.quantity);
    SweptHit(!IsBuy(o), S.Far(s), TickOf(o), o.quantity);
    OneHitAcks(o, h.fills[0], Ahead(s').fills);
    FillAcksAlike(o, s'.sweep.value.order, Ahead(s').fills);
    assert h.fills == [h.fills[0]];
  }

  lemma OfferTwice(s: S.Sys, a: seq<LOBAck>, ka: seq<bool>, b: seq<LOBAck>, kb: seq<bool>, m: Market, w: Option<S.Sweeping>)
    requires |a| == |ka|
    ensures var s' := S.Offer(s, a, ka).(market := m, sweep := w);
      S.Offer(s', b, kb) == S.Offer(s, a + b, ka + kb).(market := m, sweep := w)
  {
    hide Keep;
    KeepAppend(a, ka, b, kb);
    assert s.offered + a + b == s.offered + (a + b) && s.kept + ka + kb == s.kept + (ka + kb);
    assert s.engineAcks + Keep(a, ka) + Keep(b, kb) == s.engineAcks + (Keep(a, ka) + Keep(b, kb));
  }

  lemma NoneAhead(s: S.Sys)
    requires s.sweep.Some? && !S.CanTrade(s)
    ensures var o := s.sweep.value.order;
      && AcksAhead(s) == (if o.quantity == 0 then [] else AckFor(o, TickOf(o), 'N', o.quantity))
      && MarketAhead(s) == (if o.quantity == 0 then s.market else Rest(s.market, o))
  {
    hide Insert, Tick;
  }

  lemma AtLeast(l: S.Limits, s: S.Sys, acks: seq<LOBAck>)
    requires S.SysOk(l, s) && s.sweep.Some? && S.CanTrade(s)
    requires acks == HitAcks(s.sweep.value.order, OneHit(S.Far(s), s.sweep.value.order.quantity).fills[0])
    ensures |acks| <= |AcksAhead(s)|
  {
    hide S.SysOk, HitAcks;
    TradeAhead(l, s, seq(|acks|, _ => true));
  }

  // Whatever finds room, the rest of a sweep is a sequence of steps.
  lemma {:induction false} SweepSteps(l: S.Limits, s: S.Sys, kept: seq<bool>) returns (steps: seq<S.Step>)
    requires S.SysOk(l, s) && l.gatewayLut <= l.engineLut && s.sweep.Some? && |kept| == |AcksAhead(s)|
    ensures S.StepsOk(l, steps)
    ensures S.From(l, s, steps)
         == S.Offer(s, AcksAhead(s), kept).(market := MarketAhead(s), sweep := None, processed := s.processed + 1)
    decreases s.sweep.value.order.quantity
  {
    hide S.SysOk, AcksAhead, MarketAhead, HitAcks, AckFor, Keep, S.Far;
    var o := s.sweep.value.order;
    if S.CanTrade(s) {
      var acks := HitAcks(o, OneHit(S.Far(s), o.quantity).fills[0]);
      AtLeast(l, s, acks);
      var now, later := kept[..|acks|], kept[|acks|..];
      var s' := S.Do(l, s, S.Trade(now));
      TradeAhead(l, s, now);
      S.StepKeeps(l, s, S.Trade(now));
      var rest := SweepSteps(l, s', later);
      steps := [S.Trade(now)] + rest;
      FromCons(l, s, S.Trade(now), rest);
      OfferTwice(s, acks, now, AcksAhead(s'), later, s'.market, s'.sweep);
      assert kept == now + later;
    } else {
      NoneAhead(s);
      S.StepKeeps(l, s, S.Finish(kept));
      steps := [S.Finish(kept)];
      FromCons(l, s, S.Finish(kept), []);
      assert [S.Finish(kept)] + [] == steps;
    }
  }

  // A create taken up, and all that is ahead of it.
  lemma CreateAhead(s: S.Sys, o: LOBOrder)
    requires o.reqType == 'c'
    ensures var s1 := s.(sweep := Some(S.Sweeping(o, [])));
      AcksAhead(s1) == Process(s.market, o).acks && MarketAhead(s1) == Process(s.market, o).market
  {
    hide Match, FillAcks, Insert, Tick;
    var s1 := s.(sweep := Some(S.Sweeping(o, [])));
    if Ahead(s1).left == 0 {
      assert FillAcks(o, Ahead(s1).fills) + [] == FillAcks(o, Ahead(s1).fills);
    }
  }

  lemma NextIsAccepted(l: S.Limits, s: S.Sys)
    requires S.SysOk(l, s) && l.gatewayLut <= l.engineLut && s.sweep.None? && s.processed < |s.forwarded|
    requires s.forwarded[s.processed].reqType != 'd'
    ensures Accepts(l.maxPrice, l.engineLut, s.market, s.forwarded[s.processed])
  {
    hide S.EngineOk, S.RequestsOk, S.ClientSide, S.AcksOk, Accepts;
    S.NextRequest(l, s);
  }

  // One request, processed whole, on the state.
  lemma RequestSteps(l: S.Limits, s: S.Sys, kept: seq<bool>) returns (steps: seq<S.Step>)
    requires S.SysOk(l, s) && l.gatewayLut <= l.engineLut && s.sweep.None? && s.processed < |s.forwarded|
    requires s.forwarded[s.processed].reqType != 'd'
    requires |kept| == |Process(s.market, s.forwarded[s.processed]).acks|
    ensures Accepts(l.maxPrice, l.engineLut, s.market, s.forwarded[s.processed])
    ensures S.StepsOk(l, steps)
    ensures var p := Process(s.market, s.forwarded[s.processed]);
      S.From(l, s, steps) == S.Offer(s, p.acks, kept).(market := p.market, processed := s.processed + 1)
  {
    hide S.EngineOk, S.RequestsOk, S.ClientSide, S.AcksOk, Process, Accepts, Keep, AcksAhead, MarketAhead;
    var o := s.forwarded[s.processed];
    S.NextRequest(l, s);
    var s1 := S.Do(l, s, S.Begin(kept));
    S.StepKeeps(l, s, S.Begin(kept));
    if o.reqType == 'c' {
      CreateAhead(s, o);
      var rest := SweepSteps(l, s1, kept);
      steps := [S.Begin(kept)] + rest;
      FromCons(l, s, S.Begin(kept), rest);
    } else {
      steps := [S.Begin(kept)];
      FromCons(l, s, S.Begin(kept), []);
      assert [S.Begin(kept)] + [] == steps;
    }
  }

  lemma Marked(e: MatchingEngine, s: S.Sys, acks: seq<LOBAck>, mask: seq<bool>)
    requires e.Accounted() && e.offered == s.offered + acks && |s.kept| == |s.offered|
    requires s.kept <= e.sent && mask == e.sent[|s.kept|..]
    requires s.engineAcks == Keep(s.offered, s.kept)
    ensures |mask| == |acks| && e.sent == s.kept + mask && e.acks == s.engineAcks + Keep(acks, mask)
  {
    hide Keep;
    KeepAppend(s.offered, s.kept, acks, mask);
  }

  // One turn of the engine is a sequence of steps of the system, trade by trade.
  method ReadOrder(l: S.Limits, e: MatchingEngine, q: LFQueue<LOBOrder>, ghost s: S.Sys) returns (ghost steps: seq<S.Step>)
    requires S.SysOk(l, s) && l.gatewayLut <= l.engineLut && EngineIs(l, e, q, s)
    requires s.processed < |s.forwarded| ==> s.forwarded[s.processed].reqType != 'd'
    modifies e, e.buyBook, e.sellBook, q, q.store
    ensures S.StepsOk(l, steps) && EngineIs(l, e, q, S.From(l, s, steps))
    ensures S.From(l, s, steps).processed == if s.processed < |s.forwarded| then s.processed + 1 else s.processed
  {
    hide S.SysOk, Window, Process, Accepts, Coherent, QueueOf, Inv, Keep;
    steps := [];
    ghost var acks := [];
    ghost var mask := [];
    if s.processed < |s.forwarded| {
      acks := Process(s.market, s.forwarded[s.processed]).acks;
      NextIsAccepted(l, s);
    }
    e.ReadOrder(q);
    if s.processed < |s.forwarded| {
      mask := e.sent[|s.kept|..];
      Marked(e, s, acks, mask);
      steps := RequestSteps(l, s, mask);
      assert s.forwarded[s.processed..][1..] == s.forwarded[s.processed + 1..];
    } else {
      assert S.From(l, s, steps) == s;
    }
  }

  // The objects as they are wired together at the start, with queues of n slots.
  method Boot(l: S.Limits, n: nat) returns (g: OrderGateway, e: MatchingEngine)
    requires n > 0 && l.gatewayLut <= U32_SIZE / 2
    ensures GatewayIs(l, g, S.INITIAL, 0) && EngineIs(l, e, g.lobOrderQueue, S.INITIAL)
    ensures g.lobOrderQueue.store.Length == n && g.lobAckQueue.store.Length == n && e.ackSlots == n - 1
    ensures g.sniperOrderQueue.store.Length == n && g.sniperOrderAck.store.Length == n && g.mmOrderQueue.store.Length == n
  {
    hide Window, Coherent, QueueOf, Inv;
    var lob := new LFQueue<LOBOrder>(n, LOBOrder(0, 0.0, 0, 0, ' ', ' '));
    var lobAck := new LFQueue<LOBAck>(n, LOBAck(0, 0, 0, ' ', ' '));
    var sniper := new LFQueue<UserOrder>(n, UserOrder(0, 0, ' ', ' ', 0.0, 0));
    var sniperAck := new LFQueue<UserAck>(n, UserAck(0, 0, 0, ' ', ' '));
    var mm := new LFQueue<UserOrder>(n, UserOrder(0, 0, ' ', ' ', 0.0, 0));
    g := new OrderGateway(lob, lobAck, sniper, sniperAck, mm, l.gatewayLut);
    e := new MatchingEngine(l.maxPrice, l.engineLut, n - 1);
  }
}
