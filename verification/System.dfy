// Clients, gateway and engine together, interleaved arbitrarily.  The queues
// between them are FIFOs (RingQueue.StepIsFifo, and Simulation for the code
// that uses them); the ones behind the gateway are given by everything ever
// published into them and how far their reader has got.
module System {
  import opened Orders
  import opened PriceTime
  import opened SweepLoop
  import opened Market
  import opened Ledger
  import opened Gateway

  // Where the gateway thread is: it publishes before it releases its input.
  datatype GatewayAt = Polling | Forwarded(mm: bool) | Acked

  // A create being swept: the request with what is left of it, and its trades so far.
  datatype Sweeping = Sweeping(order: LOBOrder, fills: seq<Fill>)

  datatype Sys = Sys(
    // what each client ever submitted, and its queue
    sentSniper: seq<UserOrder>, sentMm: seq<UserOrder>,
    sniper: seq<UserOrder>, mm: seq<UserOrder>,
    // the orders by system id, and which queue each was taken from
    gateway: GatewayAt, numbered: seq<UserOrder>, fromMm: seq<bool>,
    // gateway to engine
    forwarded: seq<LOBOrder>, processed: nat,
    // the engine: its books, the sweep it is in, the acknowledgements it made
    // and which of them it sent
    market: Market, sweep: Option<Sweeping>, offered: seq<LOBAck>, kept: seq<bool>,
    // engine to gateway, gateway to client
    engineAcks: seq<LOBAck>, released: nat, userAcks: seq<UserAck>)

  const INITIAL := Sys([], [], [], [], Polling, [], [], [], 0, EMPTY, None, [], [], [], 0, [])

  datatype Limits = Limits(maxPrice: nat, engineLut: nat, gatewayLut: nat)

  // `room` and `kept` are what the queues happened to have space for.
  datatype Step =
    | Submit(order: UserOrder, mm: bool)
    | Take(mm: bool, room: bool)
    | ReleaseOrder
    | Begin(kept: seq<bool>)
    | Trade(kept: seq<bool>)
    | Finish(kept: seq<bool>)
    | PublishAck
    | ReleaseAck

  function Inbox(s: Sys, mm: bool): seq<UserOrder> {
    if mm then s.mm else s.sniper
  }

  function Sent(s: Sys, mm: bool): seq<UserOrder> {
    if mm then s.sentMm else s.sentSniper
  }

  function OrderIds(orders: seq<UserOrder>): seq<i64> {
    seq(|orders|, i requires 0 <= i < |orders| => ToI64(orders[i].orderId))
  }

  // The far side of the request being swept.
  function Far(s: Sys): Queue
    requires s.sweep.Some?
  {
    Side(s.market, !IsBuy(s.sweep.value.order))
  }

  // It has something left and something to trade with.
  predicate CanTrade(s: Sys)
    requires s.sweep.Some?
  {
    var o := s.sweep.value.order;
    o.quantity > 0 && Far(s) != [] && Crosses(!IsBuy(o), TickOf(o), TickOf(Far(s)[0]))
  }

  function Offer(s: Sys, acks: seq<LOBAck>, kept: seq<bool>): Sys {
    s.(offered := s.offered + acks, kept := s.kept + kept, engineAcks := s.engineAcks + Keep(acks, kept))
  }

  // The engine takes up the next request; a create starts to sweep, anything
  // else is done at once.
  function BeginRequest(l: Limits, s: Sys, kept: seq<bool>): Sys {
    if s.sweep.Some? || s.processed >= |s.forwarded|
       || !Accepts(l.maxPrice, l.engineLut, s.market, s.forwarded[s.processed]) then s
    else
      var o := s.forwarded[s.processed];
      if o.reqType == 'c' then s.(sweep := Some(Sweeping(o, [])))
      else
        var p := Process(s.market, o);
        if |kept| != |p.acks| then s
        else Offer(s, p.acks, kept).(market := p.market, processed := s.processed + 1)
  }

  // One trade, acknowledged to both sides.
  function TradeOnce(s: Sys, kept: seq<bool>): Sys {
    if s.sweep.None? || !CanTrade(s) then s
    else
      var o := s.sweep.value.order;
      var h := OneHit(Far(s), o.quantity);
      var acks := HitAcks(o, h.fills[0]);
      if |kept| != |acks| then s
      else Offer(s, acks, kept).(market := WithSide(s.market, !IsBuy(o), h.rest),
                                 sweep := Some(Sweeping(o.(quantity := h.left), s.sweep.value.fills + h.fills)))
  }

  // The sweep is over: what is left rests, and the request is released.
  function FinishRequest(s: Sys, kept: seq<bool>): Sys {
    if s.sweep.None? || CanTrade(s) then s
    else
      var o := s.sweep.value.order;
      var acks := if o.quantity == 0 then [] else AckFor(o, TickOf(o), 'N', o.quantity);
      if |kept| != |acks| then s
      else Offer(s, acks, kept).(market := if o.quantity == 0 then s.market else Rest(s.market, o),
                                 sweep := None, processed := s.processed + 1)
  }

  // One step of one thread; a step that is not possible does nothing.
  function Do(l: Limits, s: Sys, step: Step): Sys {
    match step
    case Submit(o, mm) =>
      if mm then s.(mm := s.mm + [o], sentMm := s.sentMm + [o])
      else s.(sniper := s.sniper + [o], sentSniper := s.sentSniper + [o])
    case Take(mm, room) =>
      var q := Inbox(s, mm);
      if s.gateway != Polling || q == [] || |s.numbered| >= l.gatewayLut || |s.numbered| >= U32_SIZE then s
      else s.(gateway := Forwarded(mm), numbered := s.numbered + [q[0]], fromMm := s.fromMm + [mm],
              forwarded := if room then s.forwarded + [ToLOB(q[0], |s.numbered|)] else s.forwarded)
    case ReleaseOrder =>
      if !s.gateway.Forwarded? then s
      else if s.gateway.mm then s.(gateway := Polling, mm := if s.mm == [] then [] else s.mm[1..])
      else s.(gateway := Polling, sniper := if s.sniper == [] then [] else s.sniper[1..])
    case Begin(kept) => BeginRequest(l, s, kept)
    case Trade(kept) => TradeOnce(s, kept)
    case Finish(kept) => FinishRequest(s, kept)
    case PublishAck =>
      if s.gateway != Polling || s.released >= |s.engineAcks| then s
      else
        var a := s.engineAcks[s.released];
        s.(gateway := Acked, userAcks := s.userAcks + [Translate(a, OrderIdOf(OrderIds(s.numbered), a.systemId))])
    case ReleaseAck =>
      if s.gateway != Acked then s else s.(gateway := Polling, released := s.released + 1)
  }

  // What a client may ask for: a tick inside the book, and no bid at tick 0.
  predicate ClientOk(l: Limits, o: UserOrder) {
    0 <= Tick(o.price) < l.maxPrice && (o.orderType == 'b' ==> Tick(o.price) > 0)
  }

  // ----- The invariant: clients -----

  function Count(flags: seq<bool>, flag: bool): nat {
    var n := |flags|;
    if n == 0 then 0 else Count(flags[..n-1], flag) + (if flags[n-1] == flag then 1 else 0)
  }

  // The orders taken from one queue, in the order they were numbered.
  function Taken(numbered: seq<UserOrder>, fromMm: seq<bool>, mm: bool): (r: seq<UserOrder>)
    requires |numbered| == |fromMm|
    ensures |r| == Count(fromMm, mm)
  {
    var n := |numbered|;
    if n == 0 then []
    else Taken(numbered[..n-1], fromMm[..n-1], mm) + (if fromMm[n-1] == mm then [numbered[n-1]] else [])
  }

  // What is queued and has not been numbered.
  function Waiting(s: Sys, mm: bool): seq<UserOrder> {
    if s.gateway == Forwarded(mm) && Inbox(s, mm) != [] then Inbox(s, mm)[1..] else Inbox(s, mm)
  }

  // What a client sent has been numbered, each order once and in order, or is waiting.
  ghost predicate ClientSide(s: Sys, mm: bool) {
    && |s.numbered| == |s.fromMm|
    && Sent(s, mm) == Taken(s.numbered, s.fromMm, mm) + Waiting(s, mm)
    && (s.gateway == Forwarded(mm) ==> Inbox(s, mm) != [])
  }

  // ----- The invariant: requests -----

  // The engine's requests are the clients' orders under fresh, rising ids.
  ghost predicate RequestsOk(l: Limits, s: Sys) {
    && |s.numbered| <= l.gatewayLut && |s.numbered| <= U32_SIZE
    && (forall i :: 0 <= i < |s.forwarded| ==>
          s.forwarded[i].systemId < |s.numbered|
          && s.forwarded[i] == ToLOB(s.numbered[s.forwarded[i].systemId], s.forwarded[i].systemId))
    && (forall i, j :: 0 <= i < j < |s.forwarded| ==> s.forwarded[i].systemId < s.forwarded[j].systemId)
    && (forall o :: o in s.numbered || o in s.sniper || o in s.mm ==> ClientOk(l, o))
  }

  // ----- The invariant: engine -----

  ghost predicate AllBelow(m: Market, n: nat) {
    (forall x :: x in m.bids ==> x.systemId < n) && (forall x :: x in m.asks ==> x.systemId < n)
  }

  // The system id of the next request, or the next one to be assigned.
  function NextId(s: Sys): nat {
    if s.processed < |s.forwarded| then s.forwarded[s.processed].systemId else |s.numbered|
  }

  function Done(s: Sys): Outcome
    requires s.processed <= |s.forwarded|
  {
    Run(EMPTY, s.forwarded[..s.processed])
  }

  // Between requests the engine has done the run over those it took; inside a
  // sweep, what remains to be done is the sweep of what is left.
  ghost predicate SweepOk(s: Sys)
    requires s.processed <= |s.forwarded|
  {
    match s.sweep
    case None => s.market == Done(s).market && s.offered == Done(s).acks
    case Some(w) =>
      && s.processed < |s.forwarded|
      && var o := s.forwarded[s.processed];
      && var b := IsBuy(o);
      && o.reqType == 'c' && w.order == o.(quantity := w.order.quantity)
      && s.market == WithSide(Done(s).market, !b, Far(s)) && Ok(!b, Far(s))
      && SweptSoFar(!b, Side(Done(s).market, !b), TickOf(o), o.quantity, w.fills, Far(s), w.order.quantity)
      && s.offered == Done(s).acks + FillAcks(o, w.fills)
  }

  ghost predicate EngineOk(l: Limits, s: Sys) {
    && s.processed <= |s.forwarded|
    && AcceptsAll(l.maxPrice, l.engineLut, EMPTY, s.forwarded[..s.processed])
    && SweepOk(s)
    && (s.sweep.Some? ==> Accepts(l.maxPrice, l.engineLut, Done(s).market, s.forwarded[s.processed]))
    && !s.market.bidZero
    && AllBelow(s.market, NextId(s))
    && (forall i :: 0 <= i < s.processed ==> s.forwarded[i].reqType != 'd')
  }

  // ----- The invariant: acknowledgements -----

  // User acks are the translated engine acks, in order, each once; the last one
  // published may not have been released yet.
  ghost predicate AcksOk(s: Sys) {
    && |s.kept| == |s.offered| && s.engineAcks == Keep(s.offered, s.kept)
    && (forall a :: a in s.offered ==> a.systemId < |s.numbered|)
    && s.released + (if s.gateway == Acked then 1 else 0) <= |s.engineAcks|
    && |s.userAcks| == s.released + (if s.gateway == Acked then 1 else 0)
    && (forall i :: 0 <= i < |s.userAcks| ==>
          s.engineAcks[i].systemId < |s.numbered|
          && s.userAcks[i] == Translate(s.engineAcks[i], ToI64(s.numbered[s.engineAcks[i].systemId].orderId)))
  }

  ghost predicate SysOk(l: Limits, s: Sys) {
    ClientSide(s, true) && ClientSide(s, false) && RequestsOk(l, s) && EngineOk(l, s) && AcksOk(s)
  }

  // ----- Every step keeps the invariant: clients and gateway -----

  // A step of another thread does not disturb the engine.
  lemma EngineSame(l: Limits, s: Sys, s': Sys)
    requires EngineOk(l, s)
    requires s.forwarded <= s'.forwarded && s'.processed == s.processed
    requires s'.market == s.market && s'.sweep == s.sweep && s'.offered == s.offered
    requires NextId(s) <= NextId(s')
    ensures EngineOk(l, s')
  {
    hide Run, SweptSoFar, Ok, FillAcks, Tick, Accepts, AcceptsAll;
    assert s'.forwarded[..s.processed] == s.forwarded[..s.processed];
  }

  lemma TakenSnoc(numbered: seq<UserOrder>, fromMm: seq<bool>, o: UserOrder, mm: bool, side: bool)
    requires |numbered| == |fromMm|
    ensures Taken(numbered + [o], fromMm + [mm], side) == Taken(numbered, fromMm, side) + (if mm == side then [o] else [])
  {
    assert (numbered + [o])[..|numbered|] == numbered && (fromMm + [mm])[..|numbered|] == fromMm;
  }

  lemma HeadMoves(t: seq<UserOrder>, q: seq<UserOrder>)
    requires q != []
    ensures t + q == (t + [q[0]]) + q[1..]
  {
  }

  lemma TakeClient(l: Limits, s: Sys, mm: bool, room: bool, side: bool)
    requires ClientSide(s, side)
    ensures ClientSide(Do(l, s, Take(mm, room)), side)
  {
    hide Taken, ToLOB;
    var q, t := Inbox(s, mm), Taken(s.numbered, s.fromMm, side);
    var s' := Do(l, s, Take(mm, room));
    if s'.gateway != s.gateway {
      TakenSnoc(s.numbered, s.fromMm, q[0], mm, side);
      if mm == side {
        assert Waiting(s, side) == q && Waiting(s', side) == q[1..];
        HeadMoves(t, q);
      } else {
        assert t + [] == t && Waiting(s', side) == Waiting(s, side);
      }
    }
  }

  lemma ReleaseClient(l: Limits, s: Sys, side: bool)
    requires ClientSide(s, side)
    ensures ClientSide(Do(l, s, ReleaseOrder), side)
  {
    hide Taken;
  }

  lemma SubmitClient(l: Limits, s: Sys, o: UserOrder, mm: bool, side: bool)
    requires ClientSide(s, side)
    ensures ClientSide(Do(l, s, Submit(o, mm)), side)
  {
    hide Taken;
    var s' := Do(l, s, Submit(o, mm));
    var t := Taken(s.numbered, s.fromMm, side);
    if mm == side {
      assert Waiting(s', side) == Waiting(s, side) + [o];
      assert t + (Waiting(s, side) + [o]) == (t + Waiting(s, side)) + [o];
    }
  }

  lemma SubmitKeeps(l: Limits, s: Sys, o: UserOrder, mm: bool)
    requires SysOk(l, s) && ClientOk(l, o)
    ensures SysOk(l, Do(l, s, Submit(o, mm)))
  {
    hide EngineOk, Tick, Translate, Keep, ClientSide;
    var s' := Do(l, s, Submit(o, mm));
    SubmitClient(l, s, o, mm, true);
    SubmitClient(l, s, o, mm, false);
    EngineSame(l, s, s');
  }

  lemma TakeKeeps(l: Limits, s: Sys, mm: bool, room: bool)
    requires SysOk(l, s)
    ensures SysOk(l, Do(l, s, Take(mm, room)))
  {
    hide EngineOk, Tick, Translate, Keep, ClientSide, ClientOk;
    var s' := Do(l, s, Take(mm, room));
    TakeClient(l, s, mm, room, true);
    TakeClient(l, s, mm, room, false);
    if s' != s { EngineSame(l, s, s'); }
  }

  lemma ReleaseKeeps(l: Limits, s: Sys)
    requires SysOk(l, s)
    ensures SysOk(l, Do(l, s, ReleaseOrder))
  {
    hide EngineOk, Tick, Translate, Keep, ClientSide, ClientOk;
    ReleaseClient(l, s, true);
    ReleaseClient(l, s, false);
    EngineSame(l, s, Do(l, s, ReleaseOrder));
  }

  lemma AckKeeps(l: Limits, s: Sys, step: Step)
    requires SysOk(l, s) && (step.PublishAck? || step.ReleaseAck?)
    ensures SysOk(l, Do(l, s, step))
  {
    hide EngineOk, Tick, Translate, Keep, Taken, ClientOk;
    EngineSame(l, s, Do(l, s, step));
  }

  // ----- Every step keeps the invariant: the engine -----

  lemma NothingToOffer(s: Sys)
    ensures Offer(s, [], []) == s
  {
    assert s.offered + [] == s.offered && s.engineAcks + [] == s.engineAcks && s.kept + [] == s.kept;
  }

  // A step of the engine does not disturb clients and gateway.
  lemma GatewaySame(l: Limits, s: Sys, s': Sys)
    requires ClientSide(s, true) && ClientSide(s, false) && RequestsOk(l, s)
    requires s'.sentSniper == s.sentSniper && s'.sentMm == s.sentMm && s'.sniper == s.sniper && s'.mm == s.mm
    requires s'.gateway == s.gateway && s'.numbered == s.numbered && s'.fromMm == s.fromMm && s'.forwarded == s.forwarded
    ensures ClientSide(s', true) && ClientSide(s', false) && RequestsOk(l, s')
  {
    hide Taken, ClientOk, ToLOB;
  }

  lemma SameAcksOk(s: Sys, s': Sys)
    requires AcksOk(s) && s'.offered == s.offered && s'.kept == s.kept && s'.engineAcks == s.engineAcks
    requires s'.numbered == s.numbered && s'.gateway == s.gateway && s'.released == s.released && s'.userAcks == s.userAcks
    ensures AcksOk(s')
  {
    hide Keep, Translate;
  }

  // More acknowledgements, some of them sent.
  lemma OfferKeeps(s: Sys, acks: seq<LOBAck>, kept: seq<bool>)
    requires AcksOk(s) && |kept| == |acks| && forall a :: a in acks ==> a.systemId < |s.numbered|
    ensures AcksOk(Offer(s, acks, kept))
  {
    hide Keep, Translate;
    KeepAppend(s.offered, s.kept, acks, kept);
  }

  lemma RequestTick(l: Limits, s: Sys, i: nat)
    requires RequestsOk(l, s) && i < |s.forwarded|
    ensures var o := s.forwarded[i];
      0 <= TickOf(o) < l.maxPrice && o.systemId < l.gatewayLut && (IsBuy(o) ==> TickOf(o) > 0)
  {
    hide Tick;
    assert ClientOk(l, s.numbered[s.forwarded[i].systemId]);
  }

  lemma Unused(m: Market, o: LOBOrder)
    requires AllBelow(m, o.systemId)
    ensures Find(Side(m, IsBuy(o)), o.systemId).None?
  {
  }

  // Within the limits the engine can take the next request exactly when it is
  // not a delete: a delete always carries a number that nothing rests under.
  lemma NextRequest(l: Limits, s: Sys)
    requires RequestsOk(l, s) && EngineOk(l, s) && s.processed < |s.forwarded| && l.gatewayLut <= l.engineLut
    requires s.sweep.None?
    ensures var o := s.forwarded[s.processed];
      && (Accepts(l.maxPrice, l.engineLut, s.market, o) <==> o.reqType != 'd')
      && (o.reqType != 'c' && o.reqType != 'd' ==> Process(s.market, o) == Outcome(s.market, [], [], []))
  {
    var o := s.forwarded[s.processed];
    hide Match, SweepOk, AcceptsAll, Tick, RequestsOk;
    Unused(s.market, o);
    RequestTick(l, s, s.processed);
  }

  // The run over the requests up to and including the next one.
  lemma DoneNext(l: Limits, s: Sys, s': Sys)
    requires s.processed < |s.forwarded| && s'.forwarded == s.forwarded && s'.processed == s.processed + 1
    requires AcceptsAll(l.maxPrice, l.engineLut, EMPTY, s.forwarded[..s.processed])
    requires Accepts(l.maxPrice, l.engineLut, Done(s).market, s.forwarded[s.processed])
    ensures Done(s') == Then(Done(s), Process(Done(s).market, s.forwarded[s.processed]))
    ensures AcceptsAll(l.maxPrice, l.engineLut, EMPTY, s'.forwarded[..s'.processed])
  {
    hide Run, Accepts, AcceptsAll, Process;
    RunSnoc(EMPTY, s.forwarded, s.processed);
    AcceptsSnoc(l.maxPrice, l.engineLut, EMPTY, s.forwarded, s.processed);
  }

  lemma NextRises(l: Limits, s: Sys, s': Sys)
    requires RequestsOk(l, s) && s.processed < |s.forwarded| && s'.forwarded == s.forwarded
    requires s'.processed == s.processed + 1 && s'.numbered == s.numbered
    ensures NextId(s) < NextId(s')
  {
    hide ToLOB, ClientOk;
  }

  lemma BeginSweep(l: Limits, s: Sys)
    requires EngineOk(l, s) && s.processed < |s.forwarded| && s.sweep.None?
    requires var o := s.forwarded[s.processed]; o.reqType == 'c' && Accepts(l.maxPrice, l.engineLut, s.market, o)
    ensures EngineOk(l, s.(sweep := Some(Sweeping(s.forwarded[s.processed], []))))
  {
    hide Run, AcceptsAll, Accepts, Tick, Ok, SweptSoFar;
    var o := s.forwarded[s.processed];
    RunInv(l.maxPrice, l.engineLut, s.forwarded[..s.processed]);
    assert SideOk(l.maxPrice, l.engineLut, s.market, !IsBuy(o));
    SweptStart(!IsBuy(o), Side(s.market, !IsBuy(o)), TickOf(o), o.quantity);
    assert s.offered + FillAcks(o, []) == s.offered;
  }

  // An update never finds its order, and nothing else is a request.
  lemma SkipRequest(l: Limits, s: Sys)
    requires EngineOk(l, s) && RequestsOk(l, s) && s.processed < |s.forwarded| && s.sweep.None?
    requires var o := s.forwarded[s.processed];
      && o.reqType != 'd' && Accepts(l.maxPrice, l.engineLut, s.market, o)
      && Process(s.market, o) == Outcome(s.market, [], [], [])
    ensures EngineOk(l, s.(processed := s.processed + 1))
  {
    hide Run, AcceptsAll, Accepts, Tick, Process, ToLOB, ClientOk;
    var s' := s.(processed := s.processed + 1);
    DoneNext(l, s, s');
    NextRises(l, s, s');
    assert s.offered + [] == s.offered;
  }

  lemma BeginKeeps(l: Limits, s: Sys, kept: seq<bool>)
    requires SysOk(l, s) && l.gatewayLut <= l.engineLut
    ensures SysOk(l, Do(l, s, Begin(kept)))
  {
    hide EngineOk, AcksOk, ClientSide, RequestsOk, Accepts, Process, Keep;
    var s' := Do(l, s, Begin(kept));
    GatewaySame(l, s, s');
    if s.sweep.None? && s.processed < |s.forwarded| {
      var o := s.forwarded[s.processed];
      NextRequest(l, s);
      if Accepts(l.maxPrice, l.engineLut, s.market, o) {
        if o.reqType == 'c' {
          BeginSweep(l, s);
        } else {
          SkipRequest(l, s);
          if kept == [] {
            assert s' == s.(processed := s.processed + 1) by { NothingToOffer(s); }
          }
        }
        if s' != s { SameAcksOk(s, s'); }
      }
    }
  }

  lemma BelowNext(l: Limits, s: Sys)
    requires RequestsOk(l, s) && EngineOk(l, s) && s.sweep.Some?
    ensures NextId(s) == s.sweep.value.order.systemId < |s.numbered|
    ensures forall x :: x in Far(s) ==> x.systemId < NextId(s)
  {
    hide Run, AcceptsAll, Accepts, Tick, Ok, SweptSoFar, FillAcks, ToLOB, ClientOk;
  }

  lemma TradeEngine(l: Limits, s: Sys, kept: seq<bool>)
    requires RequestsOk(l, s) && EngineOk(l, s) && s.sweep.Some? && CanTrade(s)
    ensures EngineOk(l, TradeOnce(s, kept))
  {
    hide Run, AcceptsAll, Accepts, Tick, Ok, SweptSoFar, FillAcks, ToLOB, ClientOk, HitAcks, Keep, Match;
    var o, w := s.forwarded[s.processed], s.sweep.value;
    var h := OneHit(Far(s), w.order.quantity);
    var q0 := Side(Done(s).market, !IsBuy(o));
    BelowNext(l, s);
    SweptHit(!IsBuy(o), Far(s), TickOf(o), w.order.quantity);
    SweptStep(!IsBuy(o), q0, TickOf(o), o.quantity, w.fills, Far(s), w.order.quantity, h.fills, h.rest, h.left);
    FillAcksAppend(o, w.fills, h.fills[0]);
    SameAcks(w.order, o, h.fills[0]);
    assert h.fills == [h.fills[0]];
  }

  lemma HitAcksBelow(o: LOBOrder, f: Fill, n: nat)
    requires o.systemId < n && f.resting.systemId < n
    ensures forall a :: a in HitAcks(o, f) ==> a.systemId < n
  {
  }

  lemma TradeKeeps(l: Limits, s: Sys, kept: seq<bool>)
    requires SysOk(l, s)
    ensures SysOk(l, Do(l, s, Trade(kept)))
  {
    hide EngineOk, AcksOk, ClientSide, RequestsOk, Keep, HitAcks, Tick;
    GatewaySame(l, s, Do(l, s, Trade(kept)));
    if s.sweep.Some? && CanTrade(s) {
      var o := s.sweep.value.order;
      var f := OneHit(Far(s), o.quantity).fills[0];
      TradeEngine(l, s, kept);
      BelowNext(l, s);
      HitAcksBelow(o, f, |s.numbered|);
      if |kept| == |HitAcks(o, f)| {
        OfferKeeps(s, HitAcks(o, f), kept);
        SameAcksOk(Offer(s, HitAcks(o, f), kept), Do(l, s, Trade(kept)));
      }
    }
  }

  lemma CreateBidZero(m: Market, o: LOBOrder)
    requires !m.bidZero && (IsBuy(o) ==> TickOf(o) > 0)
    ensures !Create(m, o).market.bidZero
  {
  }

  // The sweep that is over is the create that was asked for.
  lemma SweepIsCreate(s: Sys)
    requires s.processed <= |s.forwarded| && SweepOk(s) && s.sweep.Some? && !CanTrade(s)
    ensures var w := s.sweep.value;
      var c := Create(Done(s).market, s.forwarded[s.processed]);
      && c.fills == w.fills
      && c.market == (if w.order.quantity == 0 then s.market else Rest(s.market, w.order))
      && Done(s).acks + c.acks == s.offered
           + (if w.order.quantity == 0 then [] else AckFor(w.order, TickOf(w.order), 'N', w.order.quantity))
  {
    hide Run, Tick, Ok, FillAcks, Match, Insert;
    var o, w := s.forwarded[s.processed], s.sweep.value;
    SweptOver(!IsBuy(o), Side(Done(s).market, !IsBuy(o)), TickOf(o), o.quantity, w.fills, Far(s), w.order.quantity);
    if w.order.quantity == 0 { assert s.offered + [] == s.offered; }
  }

  lemma FinishEngine(l: Limits, s: Sys, kept: seq<bool>)
    requires RequestsOk(l, s) && EngineOk(l, s) && s.sweep.Some? && !CanTrade(s)
    ensures EngineOk(l, FinishRequest(s, kept))
  {
    hide Run, AcceptsAll, Accepts, Tick, Ok, SweptSoFar, FillAcks, ToLOB, Keep, Match, Create, AckFor;
    var s' := FinishRequest(s, kept);
    var o, w := s.forwarded[s.processed], s.sweep.value;
    if s' != s {
      SweepIsCreate(s);
      DoneNext(l, s, s');
      NextRises(l, s, s');
      BelowNext(l, s);
      RequestTick(l, s, s.processed);
      CreateBidZero(Done(s).market, o);
    }
  }

  lemma FinishKeeps(l: Limits, s: Sys, kept: seq<bool>)
    requires SysOk(l, s)
    ensures SysOk(l, Do(l, s, Finish(kept)))
  {
    hide EngineOk, AcksOk, ClientSide, RequestsOk, Keep, Tick;
    GatewaySame(l, s, Do(l, s, Finish(kept)));
    if s.sweep.Some? && !CanTrade(s) {
      var o := s.sweep.value.order;
      var acks := if o.quantity == 0 then [] else AckFor(o, TickOf(o), 'N', o.quantity);
      FinishEngine(l, s, kept);
      BelowNext(l, s);
      if |kept| == |acks| {
        OfferKeeps(s, acks, kept);
        SameAcksOk(Offer(s, acks, kept), Do(l, s, Finish(kept)));
      }
    }
  }

  lemma StepKeeps(l: Limits, s: Sys, step: Step)
    requires SysOk(l, s) && l.gatewayLut <= l.engineLut
    requires step.Submit? ==> ClientOk(l, step.order)
    ensures SysOk(l, Do(l, s, step))
  {
    hide SysOk, Do;
    match step
    case Submit(o, mm) => SubmitKeeps(l, s, o, mm);
    case Take(mm, room) => TakeKeeps(l, s, mm, room);
    case ReleaseOrder => ReleaseKeeps(l, s);
    case Begin(kept) => BeginKeeps(l, s, kept);
    case Trade(kept) => TradeKeeps(l, s, kept);
    case Finish(kept) => FinishKeeps(l, s, kept);
    case PublishAck => AckKeeps(l, s, step);
    case ReleaseAck => AckKeeps(l, s, step);
  }

  ghost predicate StepsOk(l: Limits, steps: seq<Step>) {
    forall step :: step in steps && step.Submit? ==> ClientOk(l, step.order)
  }

  // The state after any interleaving of the threads, from a given state on.
  ghost function From(l: Limits, s: Sys, steps: seq<Step>): (r: Sys)
    requires SysOk(l, s) && l.gatewayLut <= l.engineLut && StepsOk(l, steps)
    ensures SysOk(l, r)
  {
    if steps == [] then s
    else
      var t := From(l, s, steps[..|steps|-1]);
      StepKeeps(l, t, steps[|steps|-1]);
      Do(l, t, steps[|steps|-1])
  }

  lemma InitialOk(l: Limits)
    ensures SysOk(l, INITIAL)
  {
  }

  ghost function After(l: Limits, steps: seq<Step>): (r: Sys)
    requires l.gatewayLut <= l.engineLut && StepsOk(l, steps)
    ensures SysOk(l, r)
  {
    InitialOk(l);
    From(l, INITIAL, steps)
  }

  // ----- Which submitted order a system id belongs to, and back -----

  // The system id given to order number k of one queue.
  function IdOf(fromMm: seq<bool>, mm: bool, k: nat): (id: nat)
    requires k < Count(fromMm, mm)
    ensures id < |fromMm| && fromMm[id] == mm && Count(fromMm[..id], mm) == k
  {
    var n := |fromMm|;
    if fromMm[n-1] == mm && Count(fromMm[..n-1], mm) == k then n - 1
    else
      var id := IdOf(fromMm[..n-1], mm, k);
      assert fromMm[..n-1][..id] == fromMm[..id];
      id
  }

  // The number of an order among those of its own queue.
  function PlaceOf(fromMm: seq<bool>, id: nat): nat
    requires id < |fromMm|
  {
    Count(fromMm[..id], fromMm[id])
  }

  lemma {:induction false} TakenAt(numbered: seq<UserOrder>, fromMm: seq<bool>, id: nat)
    requires |numbered| == |fromMm| && id < |numbered|
    ensures var taken := Taken(numbered, fromMm, fromMm[id]);
      PlaceOf(fromMm, id) < |taken| && taken[PlaceOf(fromMm, id)] == numbered[id]
  {
    var n := |numbered|;
    if id < n - 1 {
      TakenAt(numbered[..n-1], fromMm[..n-1], id);
      assert fromMm[..n-1][..id] == fromMm[..id];
    }
  }

  // A numbered order is the one its client submitted at the same place.
  lemma NumberedIsSent(s: Sys, id: nat)
    requires ClientSide(s, true) && ClientSide(s, false) && id < |s.numbered|
    ensures var mm, k := s.fromMm[id], PlaceOf(s.fromMm, id);
      k < |Sent(s, mm)| && Sent(s, mm)[k] == s.numbered[id]
  {
    hide Taken, Count;
    TakenAt(s.numbered, s.fromMm, id);
  }

  // ----- Accounting for one order -----

  // What the engine still has to do, the rest of the sweep it is in first.
  function Todo(s: Sys): seq<LOBOrder>
    requires s.processed <= |s.forwarded| && (s.sweep.Some? ==> s.processed < |s.forwarded|)
  {
    if s.sweep.Some? then [s.sweep.value.order] + s.forwarded[s.processed+1..] else s.forwarded[s.processed..]
  }

  function QueuedQty(reqs: seq<LOBOrder>, id: nat): nat {
    if reqs == [] then 0
    else (if reqs[0].systemId == id then reqs[0].quantity else 0) + QueuedQty(reqs[1..], id)
  }

  function TradedNow(s: Sys, isBuy: bool, id: u32): nat
    requires s.processed <= |s.forwarded|
  {
    Traded(EMPTY, s.forwarded[..s.processed], isBuy, id)
    + match s.sweep case None => 0 case Some(w) => TradedBy(w.order, w.fills, isBuy, id)
  }

  function RestingNow(s: Sys, isBuy: bool, id: u32): nat {
    RestingQty(Side(s.market, isBuy), id)
  }

  predicate Reached(s: Sys, id: nat) {
    exists i :: 0 <= i < |s.forwarded| && s.forwarded[i].systemId == id
  }

  lemma {:induction false} QueuedNot(reqs: seq<LOBOrder>, id: nat)
    requires forall i :: 0 <= i < |reqs| ==> reqs[i].systemId != id
    ensures QueuedQty(reqs, id) == 0
  {
    if reqs != [] { QueuedNot(reqs[1..], id); }
  }

  lemma {:induction false} QueuedOnce(reqs: seq<LOBOrder>, i: nat)
    requires i < |reqs| && forall j :: 0 <= j < |reqs| && j != i ==> reqs[j].systemId != reqs[i].systemId
    ensures QueuedQty(reqs, reqs[i].systemId) == reqs[i].quantity
  {
    if i == 0 { QueuedNot(reqs[1..], reqs[0].systemId); } else { QueuedOnce(reqs[1..], i - 1); }
  }

  // Only its own request submits anything under an id.
  lemma {:induction false} SubmittedNot(reqs: seq<LOBOrder>, isBuy: bool, id: u32)
    requires forall i :: 0 <= i < |reqs| ==> reqs[i].systemId != id
    ensures Submitted(EMPTY, reqs, isBuy, id) == 0
  {
    hide Run, FlowOf;
    if reqs != [] { SubmittedNot(reqs[..|reqs|-1], isBuy, id); }
  }

  lemma {:induction false} SubmittedOnce(reqs: seq<LOBOrder>, i: nat)
    requires i < |reqs| && reqs[i].reqType == 'c'
    requires forall j :: 0 <= j < |reqs| && j != i ==> reqs[j].systemId != reqs[i].systemId
    ensures Submitted(EMPTY, reqs, IsBuy(reqs[i]), reqs[i].systemId) == reqs[i].quantity
  {
    hide Run, Find;
    var init := reqs[..|reqs|-1];
    if i == |init| {
      SubmittedNot(init, IsBuy(reqs[i]), reqs[i].systemId);
    } else {
      SubmittedOnce(init, i);
    }
  }

  lemma {:induction false} HitQtyAppend(a: seq<Fill>, b: seq<Fill>, id: u32)
    ensures HitQty(a + b, id) == HitQty(a, id) + HitQty(b, id)
  {
    if a == [] {
      assert a + b == b;
    } else {
      HitQtyAppend(a[1..], b, id);
      assert (a + b)[1..] == a[1..] + b;
    }
  }

  // In the middle of a sweep nothing is lost either: what was taken from a
  // resting order and what is left of it, what the incoming order has traded
  // and what is left of that, add up.
  lemma SweptAccount(restBuy: bool, q: Queue, limit: int, quantity: u32, fills: seq<Fill>, q': Queue, left: u32, id: u32)
    requires Ok(restBuy, q) && Ok(restBuy, q') && SweptSoFar(restBuy, q, limit, quantity, fills, q', left)
    ensures RestingQty(q', id) + HitQty(fills, id) == RestingQty(q, id)
    ensures left + Volume(fills) == quantity
  {
    hide Match, Find, Ok, HitQty, Volume;
    var t := Match(restBuy, q', limit, left);
    MatchPerOrder(restBuy, q, limit, quantity, id);
    MatchPerOrder(restBuy, q', limit, left, id);
    MatchConserves(restBuy, q, limit, quantity);
    MatchConserves(restBuy, q', limit, left);
    HitQtyAppend(fills, t.fills, id);
    VolumeAppend(fills, t.fills);
  }

  // What of order (isBuy, id) is still to be matched in the sweep going on.
  function InSweep(s: Sys, isBuy: bool, id: u32): nat {
    match s.sweep
    case None => 0
    case Some(w) => if IsBuy(w.order) == isBuy && w.order.systemId == id then w.order.quantity else 0
  }

  // And what it started the sweep with.
  function Started(s: Sys, isBuy: bool, id: u32): nat
    requires s.sweep.Some? ==> s.processed < |s.forwarded|
  {
    if s.sweep.None? then 0
    else
      var o := s.forwarded[s.processed];
      if IsBuy(o) == isBuy && o.systemId == id then o.quantity else 0
  }

  lemma OrderAccount(l: Limits, s: Sys, isBuy: bool, id: u32)
    requires EngineOk(l, s)
    ensures TradedNow(s, isBuy, id) + RestingNow(s, isBuy, id) + InSweep(s, isBuy, id)
         == Submitted(EMPTY, s.forwarded[..s.processed], isBuy, id) + Started(s, isBuy, id)
  {
    hide Run, AcceptsAll, Accepts, Ok, SweptSoFar, Find, Tick, HitQty, Volume, FillAcks, Traded, Submitted;
    RunOrderBalanced(l.maxPrice, l.engineLut, s.forwarded[..s.processed], isBuy, id);
    if s.sweep.Some? {
      var o, w := s.forwarded[s.processed], s.sweep.value;
      RunInv(l.maxPrice, l.engineLut, s.forwarded[..s.processed]);
      assert SideOk(l.maxPrice, l.engineLut, Done(s).market, !IsBuy(o));
      SweptAccount(!IsBuy(o), Side(Done(s).market, !IsBuy(o)), TickOf(o), o.quantity, w.fills, Far(s), w.order.quantity, id);
    }
  }

  lemma Rising(l: Limits, s: Sys, i: nat, j: nat)
    requires RequestsOk(l, s) && i < |s.forwarded| && j < |s.forwarded|
    ensures s.forwarded[i].systemId == s.forwarded[j].systemId <==> i == j
  {
    hide ToLOB, ClientOk;
    if i < j { assert s.forwarded[i].systemId < s.forwarded[j].systemId; }
    if j < i { assert s.forwarded[j].systemId < s.forwarded[i].systemId; }
  }

  lemma TodoIds(l: Limits, s: Sys)
    requires EngineOk(l, s)
    ensures |Todo(s)| == |s.forwarded| - s.processed
    ensures s.sweep.Some? ==> |Todo(s)| > 0 && Todo(s)[0] == s.sweep.value.order
    ensures forall j :: 0 <= j < |Todo(s)| ==> Todo(s)[j].systemId == s.forwarded[s.processed + j].systemId
    ensures forall j :: 0 <= j < |Todo(s)| && (j > 0 || s.sweep.None?) ==> Todo(s)[j] == s.forwarded[s.processed + j]
  {
    hide Run, AcceptsAll, Accepts, Ok, SweptSoFar, FillAcks, Tick;
  }

  lemma EngineShape(l: Limits, s: Sys)
    requires EngineOk(l, s)
    ensures s.processed <= |s.forwarded|
    ensures s.sweep.Some? ==>
      && s.processed < |s.forwarded|
      && s.sweep.value.order == s.forwarded[s.processed].(quantity := s.sweep.value.order.quantity)
  {
    hide Run, AcceptsAll, Accepts, Ok, SweptSoFar, FillAcks, Tick;
  }

  // The engine has not been asked for this order at all.
  lemma NeverReached(l: Limits, s: Sys, isBuy: bool, id: u32)
    requires RequestsOk(l, s) && EngineOk(l, s) && !Reached(s, id)
    ensures QueuedQty(Todo(s), id) + TradedNow(s, isBuy, id) + RestingNow(s, isBuy, id) == 0
  {
    hide EngineOk, RequestsOk, TradedNow, RestingNow, Submitted, Todo, QueuedQty;
    EngineShape(l, s);
    TodoIds(l, s);
    OrderAccount(l, s, isBuy, id);
    SubmittedNot(s.forwarded[..s.processed], isBuy, id);
    QueuedNot(Todo(s), id);
  }

  lemma ReachedAt(l: Limits, s: Sys, i: nat)
    requires RequestsOk(l, s) && EngineOk(l, s) && i < |s.forwarded| && s.forwarded[i].reqType == 'c'
    ensures var o := s.forwarded[i];
      QueuedQty(Todo(s), o.systemId) + TradedNow(s, IsBuy(o), o.systemId) + RestingNow(s, IsBuy(o), o.systemId) == o.quantity
  {
    hide EngineOk, RequestsOk, TradedNow, RestingNow, Submitted, Todo, QueuedQty;
    EngineShape(l, s);
    var o, done := s.forwarded[i], s.forwarded[..s.processed];
    TodoIds(l, s);
    OrderAccount(l, s, IsBuy(o), o.systemId);
    forall j | 0 <= j < |s.forwarded| && j != i ensures s.forwarded[j].systemId != o.systemId { Rising(l, s, i, j); }
    if i < s.processed {
      SubmittedOnce(done, i);
      QueuedNot(Todo(s), o.systemId);
    } else {
      var j := i - s.processed;
      SubmittedNot(done, IsBuy(o), o.systemId);
      assert Todo(s)[j].systemId == s.forwarded[s.processed + j].systemId;
      QueuedOnce(Todo(s), j);
    }
  }

  lemma NumberedFits(l: Limits, s: Sys)
    requires RequestsOk(l, s)
    ensures |s.numbered| <= U32_SIZE
  {
  }

  lemma RequestIsOrder(l: Limits, s: Sys, i: nat)
    requires RequestsOk(l, s) && i < |s.forwarded|
    ensures s.forwarded[i].systemId < |s.numbered|
    ensures s.forwarded[i] == ToLOB(s.numbered[s.forwarded[i].systemId], s.forwarded[i].systemId)
  {
    hide ToLOB, ClientOk;
  }

  // ----- End to end -----

  // ----- What rests is what was ordered -----

  // A resting order has price, trader and kind of the order under its number.
  predicate IsOrderOf(s: Sys, x: LOBOrder) {
    && x.systemId < |s.numbered|
    && var o := s.numbered[x.systemId];
    && x.price == o.price && x.tradeId == o.traderId && x.orderType == o.orderType
  }

  ghost predicate BooksOk(s: Sys) {
    && (forall x :: x in s.market.bids ==> IsOrderOf(s, x) && x.orderType == 'b')
    && (forall x :: x in s.market.asks ==> IsOrderOf(s, x) && x.orderType != 'b')
  }

  lemma BooksSame(s: Sys, s': Sys)
    requires BooksOk(s) && s'.market == s.market && s.numbered <= s'.numbered
    ensures BooksOk(s')
  {
  }

  lemma SameFields(s: Sys, x: LOBOrder, y: LOBOrder)
    requires x.systemId < |s.numbered| && y == x.(quantity := y.quantity)
    requires var o := s.numbered[x.systemId]; x.price == o.price && x.tradeId == o.traderId && x.orderType == o.orderType
    ensures IsOrderOf(s, y)
  {
  }

  lemma SweepingIsOrder(l: Limits, s: Sys)
    requires RequestsOk(l, s) && EngineOk(l, s) && s.sweep.Some?
    ensures IsOrderOf(s, s.sweep.value.order)
  {
    hide ClientOk, IsOrderOf, ToLOB;
    EngineShape(l, s);
    var o := s.forwarded[s.processed];
    RequestIsOrder(l, s, s.processed);
    RequestFields(s.numbered[o.systemId], o.systemId);
    assert IsOrderOf(s, s.sweep.value.order) by { SameFields(s, o, s.sweep.value.order); }
  }

  // A trade leaves of an order what it was, with less quantity.
  lemma TradeLeaves(q: Queue, quantity: u32)
    requires q != []
    ensures forall x :: x in OneHit(q, quantity).rest ==> exists y :: y in q && x == y.(quantity := x.quantity)
  {
    var h := OneHit(q, quantity);
    forall x | x in h.rest ensures exists y :: y in q && x == y.(quantity := x.quantity) {
      if x in q[1..] { assert x == x.(quantity := x.quantity); } else { assert q[0] in q; }
    }
  }

  lemma BooksTrade(s: Sys, kept: seq<bool>)
    requires BooksOk(s)
    ensures BooksOk(TradeOnce(s, kept))
  {
    hide Tick, HitAcks, Keep, OneHit;
    if s.sweep.Some? && CanTrade(s) {
      TradeLeaves(Far(s), s.sweep.value.order.quantity);
    }
  }

  lemma BooksFinish(s: Sys, kept: seq<bool>)
    requires BooksOk(s) && (s.sweep.Some? ==> IsOrderOf(s, s.sweep.value.order))
    ensures BooksOk(FinishRequest(s, kept))
  {
    hide Tick, AckFor, Keep, Insert, CanTrade;
  }

  lemma BooksBegin(l: Limits, s: Sys, kept: seq<bool>)
    requires RequestsOk(l, s) && EngineOk(l, s) && l.gatewayLut <= l.engineLut && BooksOk(s)
    ensures BooksOk(BeginRequest(l, s, kept))
  {
    hide RequestsOk, EngineOk, Accepts, Process, Keep, IsOrderOf;
    EngineShape(l, s);
    if s.sweep.None? && s.processed < |s.forwarded| { NextRequest(l, s); }
    if BeginRequest(l, s, kept) != s { BooksSame(s, BeginRequest(l, s, kept)); }
  }

  lemma BooksStep(l: Limits, s: Sys, step: Step)
    requires SysOk(l, s) && l.gatewayLut <= l.engineLut && BooksOk(s)
    ensures BooksOk(Do(l, s, step))
  {
    hide BooksOk, ClientSide, AcksOk, RequestsOk, EngineOk, BeginRequest, TradeOnce, FinishRequest, IsOrderOf, Translate, ToLOB;
    match step
    case Trade(kept) => BooksTrade(s, kept);
    case Finish(kept) =>
      if s.sweep.Some? { SweepingIsOrder(l, s); }
      BooksFinish(s, kept);
    case Begin(kept) => BooksBegin(l, s, kept);
    case _ => BooksSame(s, Do(l, s, step));
  }

  lemma NothingRests()
    ensures BooksOk(INITIAL)
  {
  }

  lemma {:induction false} BooksAfter(l: Limits, steps: seq<Step>)
    requires l.gatewayLut <= l.engineLut && StepsOk(l, steps)
    ensures BooksOk(After(l, steps))
  {
    hide SysOk, Do, BooksOk;
    if steps == [] {
      NothingRests();
    } else {
      var init := steps[..|steps|-1];
      BooksAfter(l, init);
      BooksStep(l, After(l, init), steps[|steps|-1]);
    }
  }

  // What has become of order number k of one client: it is still waiting in its
  // queue, or it has a system id; and if it is a create, its quantity (the low
  // 32 bits) is what the engine still has to do, plus what traded, plus what
  // rests.  All three are zero if the gateway had no room to forward it.  The
  // request sent to the engine is the order field by field, and what rests under
  // its number has its price, trader and kind, on its own side.
  ghost predicate Accounted(s: Sys, mm: bool, k: nat) {
    && k < |Sent(s, mm)| && |s.numbered| == |s.fromMm| <= U32_SIZE
    && s.processed <= |s.forwarded| && (s.sweep.Some? ==> s.processed < |s.forwarded|)
    && var o, n := Sent(s, mm)[k], Count(s.fromMm, mm);
    if k >= n then k - n < |Waiting(s, mm)| && o == Waiting(s, mm)[k - n]
    else
      var id := IdOf(s.fromMm, mm, k);
      && s.numbered[id] == o
      && (forall i :: 0 <= i < |s.forwarded| && s.forwarded[i].systemId == id ==>
            var r := s.forwarded[i];
            && r.price == o.price && r.quantity == o.quantity % 0x1_0000_0000
            && r.tradeId == o.traderId && r.orderType == o.orderType && r.reqType == o.reqType)
      && (forall x :: x in s.market.bids && x.systemId == id ==>
            x.price == o.price && x.tradeId == o.traderId && x.orderType == o.orderType == 'b')
      && (forall x :: x in s.market.asks && x.systemId == id ==>
            x.price == o.price && x.tradeId == o.traderId && x.orderType == o.orderType != 'b')
      && (o.reqType == 'c' ==>
            QueuedQty(Todo(s), id) + TradedNow(s, o.orderType == 'b', id) + RestingNow(s, o.orderType == 'b', id)
            == if Reached(s, id) then o.quantity % U32_SIZE else 0)
  }

  lemma ForwardedFields(l: Limits, s: Sys)
    requires RequestsOk(l, s)
    ensures forall i :: 0 <= i < |s.forwarded| ==>
              var r := s.forwarded[i];
              && r.systemId < |s.numbered|
              && var o := s.numbered[r.systemId];
              && r.price == o.price && r.quantity == o.quantity % 0x1_0000_0000
              && r.tradeId == o.traderId && r.orderType == o.orderType && r.reqType == o.reqType
  {
    hide ToLOB, ClientOk;
    forall i | 0 <= i < |s.forwarded|
      ensures var r := s.forwarded[i];
        && r.systemId < |s.numbered|
        && var o := s.numbered[r.systemId];
        && r.price == o.price && r.quantity == o.quantity % 0x1_0000_0000
        && r.tradeId == o.traderId && r.orderType == o.orderType && r.reqType == o.reqType
    {
      RequestFields(s.numbered[s.forwarded[i].systemId], s.forwarded[i].systemId);
    }
  }

  lemma SentIsAccounted(l: Limits, s: Sys, mm: bool, k: nat)
    requires SysOk(l, s) && BooksOk(s) && k < |Sent(s, mm)|
    ensures Accounted(s, mm, k)
  {
    hide EngineOk, ToLOB, AcksOk, RequestsOk, TradedNow, RestingNow, Todo, QueuedQty, Taken, IdOf, Count;
    EngineShape(l, s);
    NumberedFits(l, s);
    if k < Count(s.fromMm, mm) {
      var id := IdOf(s.fromMm, mm, k);
      TakenAt(s.numbered, s.fromMm, id);
      ForwardedFields(l, s);
      if Reached(s, id) {
        var i :| 0 <= i < |s.forwarded| && s.forwarded[i].systemId == id;
        RequestIsOrder(l, s, i);
        if s.numbered[id].reqType == 'c' { ReachedAt(l, s, i); }
      } else {
        NeverReached(l, s, s.numbered[id].orderType == 'b', id);
      }
    }
  }

  // In every state of every interleaving, for every order either client ever submitted.
  lemma EndToEnd(l: Limits, steps: seq<Step>, mm: bool, k: nat)
    requires l.gatewayLut <= l.engineLut && StepsOk(l, steps)
    requires k < |Sent(After(l, steps), mm)|
    ensures Accounted(After(l, steps), mm, k)
  {
    hide SysOk, Accounted, BooksOk, From;
    BooksAfter(l, steps);
    SentIsAccounted(l, After(l, steps), mm, k);
  }

  // Every acknowledgement a client gets is the translation of the engine's at
  // the same place in its stream, and names an order that a client submitted.
  lemma EveryUserAck(l: Limits, steps: seq<Step>, j: nat)
    requires l.gatewayLut <= l.engineLut && StepsOk(l, steps)
    requires j < |After(l, steps).userAcks|
    ensures var s := After(l, steps);
      && j < |s.engineAcks| && s.engineAcks[j].systemId < |s.numbered| == |s.fromMm|
      && var a, u := s.engineAcks[j], s.userAcks[j];
      var mm, k := s.fromMm[a.systemId], PlaceOf(s.fromMm, a.systemId);
      && k < |Sent(s, mm)|
      && u.orderId == Sent(s, mm)[k].orderId % U32_SIZE
      && u.price == a.price && u.quantity == a.quantity && u.side == a.side && u.status == a.status
  {
    hide EngineOk, RequestsOk, Taken, Count, From, Keep;
    var s := After(l, steps);
    NumberedIsSent(s, s.engineAcks[j].systemId);
    OrderIdSurvives(s.numbered[s.engineAcks[j].systemId].orderId);
  }

  // The acknowledgements the engine has made: those of the run over the
  // requests it took, then those of the sweep it is in.
  function Made(s: Sys): seq<LOBAck>
    requires s.processed <= |s.forwarded|
  {
    Done(s).acks + match s.sweep case None => [] case Some(w) => FillAcks(w.order, w.fills)
  }

  lemma OfferedIsMade(l: Limits, s: Sys)
    requires EngineOk(l, s)
    ensures s.processed <= |s.forwarded| && s.offered == Made(s)
  {
    hide Run, AcceptsAll, Accepts, Ok, SweptSoFar, FillAcks, Tick;
    match s.sweep
    case None => assert s.offered + [] == s.offered;
    case Some(w) => FillAcksAlike(w.order, s.forwarded[s.processed], w.fills);
  }

  // Whatever the queues had room for, the user acknowledgements are the
  // translation of a prefix of what the engine sent, each once and in order; at
  // most the last one is still to be released by the gateway.  The engine sent
  // what found room of the acknowledgements of its run, sweep by sweep.
  lemma UserAcksArePrefix(l: Limits, steps: seq<Step>)
    requires l.gatewayLut <= l.engineLut && StepsOk(l, steps)
    ensures var s := After(l, steps);
      var k := |s.userAcks|;
      && s.released <= k <= s.released + 1 && k <= |s.engineAcks|
      && s.userAcks == seq(k, j requires 0 <= j < k =>
           Translate(s.engineAcks[j], OrderIdOf(OrderIds(s.numbered), s.engineAcks[j].systemId)))
      && s.processed <= |s.forwarded| && |s.kept| == |Made(s)| && s.engineAcks == Keep(Made(s), s.kept)
  {
    hide RequestsOk, EngineOk, From, Translate, Keep, Made;
    var s := After(l, steps);
    OfferedIsMade(l, s);
    forall j | 0 <= j < |s.userAcks|
      ensures s.userAcks[j] == Translate(s.engineAcks[j], OrderIdOf(OrderIds(s.numbered), s.engineAcks[j].systemId))
    {
    }
  }

  // A request that the engine has not finished carries a number that nothing
  // rests under on either side, whatever kind of request it is: so a delete
  // that comes through the gateway never names a live order, and an update
  // finds nothing.
  lemma UnfinishedIsUnknown(l: Limits, steps: seq<Step>, i: nat)
    requires l.gatewayLut <= l.engineLut && StepsOk(l, steps)
    requires After(l, steps).processed <= i < |After(l, steps).forwarded|
    ensures var s := After(l, steps);
      Find(s.market.bids, s.forwarded[i].systemId).None? && Find(s.market.asks, s.forwarded[i].systemId).None?
  {
    hide ClientSide, AcksOk, From, Run, AcceptsAll, Accepts, Ok, SweptSoFar, FillAcks, Tick, ToLOB, ClientOk;
    var s := After(l, steps);
    assert i > s.processed ==> s.forwarded[s.processed].systemId < s.forwarded[i].systemId;
  }
}
