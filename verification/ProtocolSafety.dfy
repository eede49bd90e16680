/** Safety of the call/reply protocol over every interleaving. */
module ProtocolSafety {
  import opened Basics
  import opened Protocol

  lemma {:induction false} OccursPush(q: seq<Item>, x: Item, c: nat)
    ensures Occurs(q + [x], c) == Occurs(q, c) + B(x.cid == c)
  {
    if q == [] {
      assert q + [x] == [x];
      assert Occurs([x], c) == B(x.cid == c) + Occurs([x][1..], c);
    } else {
      assert (q + [x])[1..] == q[1..] + [x];
      OccursPush(q[1..], x, c);
    }
  }

  lemma {:induction false} OccursBound(q: seq<Item>, c: nat, i: nat)
    requires i < |q| && q[i].cid == c
    ensures Occurs(q, c) >= 1
  {
    if i > 0 { OccursBound(q[1..], c, i - 1); }
  }

  lemma OccursOne(x: Item, c: nat)
    ensures Occurs([x], c) == B(x.cid == c)
  {
    assert Occurs([x], c) == B(x.cid == c) + Occurs([x][1..], c);
  }

  lemma InitInv(cfg: Config)
    requires cfg.Valid()
    ensures Inv(cfg, Init(cfg))
  {}

  // ------------------------------------------------------------------ control state

  lemma ControlKeptByServerQueues(cfg: Config, s: State)
    requires Control(cfg, s) && ServerNext(cfg, s).faults == s.faults == {}
    requires s.server.pc.Pop? || s.server.pc.Answer? || s.server.pc.Count? || s.server.pc.Suspended?
    ensures Control(cfg, ServerNext(cfg, s))
  {}

  lemma ControlKeptByServerFlags(cfg: Config, s: State)
    requires Control(cfg, s)
    requires !(s.server.pc.Pop? || s.server.pc.Answer? || s.server.pc.Count? || s.server.pc.Suspended?)
    ensures Control(cfg, ServerNext(cfg, s))
  {}

  lemma ControlKeptByFetch(cfg: Config, s: State)
    requires Control(cfg, s) && s.client.pc.Idle? && Fetch(s).faults == s.faults == {}
    ensures Control(cfg, Fetch(s))
  {}

  lemma ControlKeptByCaller(cfg: Config, s: State, msg: nat)
    requires Control(cfg, s) && RunsCaller(s.client.pc) && s.client.pc.c in s.client.callers
    requires CallerStep(cfg, s, msg).faults == s.faults == {}
    ensures Control(cfg, CallerStep(cfg, s, msg))
  {}

  lemma ControlKeptByReply(cfg: Config, s: State)
    requires Control(cfg, s) && ReplyActive(s.client.pc) && ReplyStep(cfg, s).faults == s.faults == {}
    ensures Control(cfg, ReplyStep(cfg, s))
  {}

  // ------------------------------------------------------------------ callers

  lemma FetchCaller(s: State, c: nat)
    requires CallerOk(s.client, c) && s.client.pc.Idle? && Fetch(s).faults == s.faults == {}
    requires s.client.ready != [] ==> (c in s.client.ready[1..] <==> c in s.client.ready && c != s.client.ready[0])
    ensures CallerOk(Fetch(s).client, c)
  {}

  lemma FetchQueue(cfg: Config, s: State)
    requires QueueOk(cfg, s.client) && s.client.pc.Idle? && Fetch(s).faults == s.faults == {}
    ensures QueueOk(cfg, Fetch(s).client)
  {}

  lemma ClientKeptByFetch(cfg: Config, s: State)
    requires ClientOk(cfg, s.client) && s.client.pc.Idle? && Fetch(s).faults == s.faults == {}
    ensures ClientOk(cfg, Fetch(s).client)
  {
    forall c | c in cfg.order ensures CallerOk(Fetch(s).client, c) {
      assert CallerOk(s.client, c);
      FetchCaller(s, c);
    }
    FetchQueue(cfg, s);
  }

  lemma StartCaller(s: State, c: nat, msg: nat)
    requires CallerOk(s.client, c) && s.client.pc.Check? && CallerOk(s.client, s.client.pc.c)
    ensures CallerOk(StartCall(s, s.client.pc.c, msg).client, c)
  {}

  lemma TakeCaller(s: State, c: nat)
    requires CallerOk(s.client, c) && s.client.pc.Take? && CallerOk(s.client, s.client.pc.c)
    requires Current(s.client.callers, s.client.slots[s.client.pc.c])
    requires s.client.slots[s.client.pc.c].cid == s.client.pc.c
    ensures CallerOk(TakeReply(s, s.client.pc.c).client, c)
  {}

  lemma StepCaller(cfg: Config, s: State, c: nat, msg: nat)
    requires CallerOk(s.client, c) && RunsCaller(s.client.pc) && CallerOk(s.client, s.client.pc.c)
    requires !s.client.pc.Check? && !s.client.pc.Take?
    ensures CallerOk(CallerStep(cfg, s, msg).client, c)
  {}

  lemma StepQueue(cfg: Config, s: State, msg: nat)
    requires QueueOk(cfg, s.client) && RunsCaller(s.client.pc) && s.client.pc.c in s.client.callers
    ensures QueueOk(cfg, CallerStep(cfg, s, msg).client)
  {}

  lemma ClientKeptByStep(cfg: Config, s: State, msg: nat)
    requires ClientOk(cfg, s.client) && RunsCaller(s.client.pc) && Items(s)
    requires s.client.pc.c in s.client.callers
    ensures ClientOk(cfg, CallerStep(cfg, s, msg).client)
  {
    forall c | c in cfg.order ensures CallerOk(CallerStep(cfg, s, msg).client, c) {
      assert CallerOk(s.client, c) && CallerOk(s.client, s.client.pc.c);
      if s.client.pc.Check? {
        StartCaller(s, c, msg);
      } else if s.client.pc.Take? {
        TakeCaller(s, c);
      } else {
        StepCaller(cfg, s, c, msg);
      }
    }
    StepQueue(cfg, s, msg);
  }

  lemma DeliverCaller(cfg: Config, s: State, c: nat)
    requires CallerOk(s.client, c) && s.client.pc.ReplyDeliver?
    requires Deliver(cfg, s, s.client.pc.hand).faults == s.faults == {}
    ensures CallerOk(Deliver(cfg, s, s.client.pc.hand).client, c)
  {}

  lemma ReplyCaller(cfg: Config, s: State, c: nat)
    requires CallerOk(s.client, c) && ReplyActive(s.client.pc) && !s.client.pc.ReplyDeliver?
    ensures CallerOk(ReplyStep(cfg, s).client, c)
  {}

  lemma DeliverQueue(cfg: Config, s: State)
    requires QueueOk(cfg, s.client) && s.client.pc.ReplyDeliver?
    requires Deliver(cfg, s, s.client.pc.hand).faults == s.faults == {}
    requires CallerOk(s.client, s.client.pc.hand.cid)
    ensures QueueOk(cfg, Deliver(cfg, s, s.client.pc.hand).client)
  {}

  lemma ReplyQueue(cfg: Config, s: State)
    requires QueueOk(cfg, s.client) && ReplyActive(s.client.pc) && !s.client.pc.ReplyDeliver?
    ensures QueueOk(cfg, ReplyStep(cfg, s).client)
  {}

  lemma ClientKeptByDeliver(cfg: Config, s: State)
    requires ClientOk(cfg, s.client) && s.client.pc.ReplyDeliver?
    requires Deliver(cfg, s, s.client.pc.hand).faults == s.faults == {}
    ensures ClientOk(cfg, Deliver(cfg, s, s.client.pc.hand).client)
  {
    forall c | c in cfg.order ensures CallerOk(Deliver(cfg, s, s.client.pc.hand).client, c) {
      assert CallerOk(s.client, c);
      DeliverCaller(cfg, s, c);
    }
    assert CallerOk(s.client, s.client.pc.hand.cid);
    DeliverQueue(cfg, s);
  }

  lemma ClientKeptByReply(cfg: Config, s: State)
    requires ClientOk(cfg, s.client) && ReplyActive(s.client.pc) && ReplyStep(cfg, s).faults == s.faults == {}
    ensures ClientOk(cfg, ReplyStep(cfg, s).client)
  {
    if s.client.pc.ReplyDeliver? {
      ClientKeptByDeliver(cfg, s);
    } else {
      forall c | c in cfg.order ensures CallerOk(ReplyStep(cfg, s).client, c) {
        assert CallerOk(s.client, c);
        ReplyCaller(cfg, s, c);
      }
      ReplyQueue(cfg, s);
    }
  }

  // ------------------------------------------------------------------ places and items

  /** Nothing but the slot holds a request of a caller whose slot is full. */
  lemma OnlyInSlot(s: State, c: nat)
    requires OnePlace(s) && c in s.client.slots
    ensures Occurs(s.req.items, c) == Occurs(s.res.items, c) == Occurs(ServerHand(s.server.pc), c)
         == Occurs(ClientHand(s.client.pc), c) == 0
  {
    assert Copies(s, c) <= 1;
  }

  lemma StillCurrent(cs: Callers, cs': Callers, q: seq<Item>, c: nat)
    requires AllCurrent(cs, q) && Occurs(q, c) == 0
    requires forall d :: d in cs && d != c ==> d in cs' && cs'[d].sent == cs[d].sent && cs'[d].got == cs[d].got
    ensures AllCurrent(cs', q)
  {
    forall i | 0 <= i < |q| ensures Current(cs', q[i]) {
      assert Current(cs, q[i]);
      if q[i].cid == c { OccursBound(q, c, i); }
    }
  }

  /** A caller without an outstanding request can change its books without making anybody's item stale. */
  lemma OthersStillCurrent(s: State, c: nat, cs': Callers)
    requires OnePlace(s) && Items(s) && !Pending(s.client.callers, c) && c !in s.client.slots
    requires forall d :: d in s.client.callers && d != c ==> d in cs' && cs'[d] == s.client.callers[d]
    ensures AllCurrent(cs', s.req.items) && AllCurrent(cs', s.res.items) && AllCurrent(cs', ServerHand(s.server.pc))
    ensures forall d :: d in s.client.slots ==> Current(cs', s.client.slots[d]) && s.client.slots[d].cid == d
  {
    assert Copies(s, c) == 0;
    StillCurrent(s.client.callers, cs', s.req.items, c);
    StillCurrent(s.client.callers, cs', s.res.items, c);
    StillCurrent(s.client.callers, cs', ServerHand(s.server.pc), c);
    forall d | d in s.client.slots ensures Current(cs', s.client.slots[d]) && s.client.slots[d].cid == d {
      assert Current(s.client.callers, s.client.slots[d]);
    }
  }

  lemma ItemsKeptByStart(s: State, msg: nat)
    requires s.client.pc.Check? && CallerOk(s.client, s.client.pc.c) && OnePlace(s) && Items(s)
    ensures Items(StartCall(s, s.client.pc.c, msg))
  {
    OthersStillCurrent(s, s.client.pc.c, StartCall(s, s.client.pc.c, msg).client.callers);
  }

  lemma PlacesKeptByStart(s: State, msg: nat)
    requires s.client.pc.Check? && CallerOk(s.client, s.client.pc.c) && OnePlace(s)
    ensures OnePlace(StartCall(s, s.client.pc.c, msg))
  {
    var c, t := s.client.pc.c, StartCall(s, s.client.pc.c, msg);
    forall d ensures Copies(t, d) == B(Pending(t.client.callers, d)) {
      assert Copies(s, d) == B(Pending(s.client.callers, d));
      OccursOne(Item(c, msg), d);
    }
  }

  lemma PlacesKeptByTake(s: State)
    requires s.client.pc.Take? && CallerOk(s.client, s.client.pc.c) && OnePlace(s) && Items(s)
    ensures OnePlace(TakeReply(s, s.client.pc.c)) && Items(TakeReply(s, s.client.pc.c))
  {
    var c, t := s.client.pc.c, TakeReply(s, s.client.pc.c);
    OnlyInSlot(s, c);
    StillCurrent(s.client.callers, t.client.callers, s.req.items, c);
    StillCurrent(s.client.callers, t.client.callers, s.res.items, c);
    StillCurrent(s.client.callers, t.client.callers, ServerHand(s.server.pc), c);
    forall d ensures Copies(t, d) == B(Pending(t.client.callers, d)) {
      assert Copies(s, d) == B(Pending(s.client.callers, d));
    }
  }

  /** The same requests are outstanding. */
  ghost predicate SameBooks(cs: Callers, cs': Callers) {
    && (forall c :: c in cs <==> c in cs')
    && (forall c :: c in cs ==> cs'[c].sent == cs[c].sent && cs'[c].got == cs[c].got)
  }

  lemma AllStillCurrent(cs: Callers, cs': Callers, q: seq<Item>)
    requires AllCurrent(cs, q) && SameBooks(cs, cs')
    ensures AllCurrent(cs', q)
  {
    forall i | 0 <= i < |q| ensures Current(cs', q[i]) {
      assert Current(cs, q[i]);
    }
  }

  /** The same items are in the same places. */
  ghost predicate SamePlaces(s: State, t: State) {
    && t.req.items == s.req.items && t.res.items == s.res.items
    && ServerHand(t.server.pc) == ServerHand(s.server.pc)
    && ClientHand(t.client.pc) == ClientHand(s.client.pc)
    && t.client.slots == s.client.slots
  }

  lemma PlacesFrame(s: State, t: State)
    requires OnePlace(s) && Items(s) && SameBooks(s.client.callers, t.client.callers) && SamePlaces(s, t)
    ensures OnePlace(t) && Items(t)
  {
    var cs, cs' := s.client.callers, t.client.callers;
    AllStillCurrent(cs, cs', s.req.items);
    AllStillCurrent(cs, cs', s.res.items);
    AllStillCurrent(cs, cs', ServerHand(s.server.pc));
    AllStillCurrent(cs, cs', ClientHand(s.client.pc));
    forall c | c in t.client.slots ensures Current(cs', t.client.slots[c]) {
      assert Current(cs, s.client.slots[c]);
    }
    forall c ensures Copies(t, c) == B(Pending(cs', c)) {
      assert Copies(s, c) == B(Pending(cs, c));
    }
  }

  /** An item moves from a hand to the end of a queue. */
  lemma MovedIn(cs: Callers, hand: Item, q: seq<Item>)
    requires AllCurrent(cs, q) && AllCurrent(cs, [hand])
    ensures AllCurrent(cs, q + [hand])
    ensures forall c :: Occurs(q + [hand], c) == Occurs(q, c) + Occurs([hand], c)
  {
    assert Current(cs, [hand][0]);
    forall c ensures Occurs(q + [hand], c) == Occurs(q, c) + Occurs([hand], c) {
      OccursPush(q, hand, c);
      OccursOne(hand, c);
    }
  }

  /** An item moves from the front of a queue to a hand. */
  lemma MovedOut(cs: Callers, q: seq<Item>)
    requires AllCurrent(cs, q) && q != []
    ensures AllCurrent(cs, q[1..]) && AllCurrent(cs, [q[0]])
    ensures forall c :: Occurs(q, c) == Occurs(q[1..], c) + Occurs([q[0]], c)
  {
    assert Current(cs, q[0]);
    forall c ensures Occurs(q, c) == Occurs(q[1..], c) + Occurs([q[0]], c) {
      OccursOne(q[0], c);
    }
  }

  lemma PlacesKeptByPush(cfg: Config, s: State, msg: nat)
    requires OnePlace(s) && Items(s) && s.client.pc.Push? && s.client.pc.c in s.client.callers
    requires |s.req.items| < cfg.capacity
    ensures OnePlace(CallerStep(cfg, s, msg)) && Items(CallerStep(cfg, s, msg))
  {
    var t := CallerStep(cfg, s, msg);
    MovedIn(s.client.callers, s.client.pc.item, s.req.items);
    forall c ensures Copies(t, c) == Copies(s, c) {}
  }

  lemma PlacesKeptByAnswer(cfg: Config, s: State)
    requires OnePlace(s) && Items(s) && s.server.pc.Answer? && |s.res.items| < cfg.capacity
    ensures OnePlace(ServerNext(cfg, s)) && Items(ServerNext(cfg, s))
  {
    var t := ServerNext(cfg, s);
    MovedIn(s.client.callers, s.server.pc.hand, s.res.items);
    forall c ensures Copies(t, c) == Copies(s, c) {}
  }

  lemma PlacesKeptByPop(cfg: Config, s: State)
    requires OnePlace(s) && Items(s) && s.server.pc.Pop? && s.req.items != []
    ensures OnePlace(ServerNext(cfg, s)) && Items(ServerNext(cfg, s))
  {
    var t := ServerNext(cfg, s);
    MovedOut(s.client.callers, s.req.items);
    forall c ensures Copies(t, c) == Copies(s, c) {}
  }

  lemma PlacesKeptByReplyPop(cfg: Config, s: State)
    requires OnePlace(s) && Items(s) && s.client.pc.ReplyPop? && s.res.items != []
    ensures OnePlace(ReplyStep(cfg, s)) && Items(ReplyStep(cfg, s))
  {
    var t := ReplyStep(cfg, s);
    MovedOut(s.client.callers, s.res.items);
    forall c ensures Copies(t, c) == Copies(s, c) {}
  }

  lemma ItemsKeptByDeliver(cfg: Config, s: State)
    requires Items(s) && s.client.pc.ReplyDeliver?
    requires Deliver(cfg, s, s.client.pc.hand).faults == s.faults == {}
    ensures Items(Deliver(cfg, s, s.client.pc.hand))
  {
    var cs, cs' := s.client.callers, Deliver(cfg, s, s.client.pc.hand).client.callers;
    assert Current(cs, ClientHand(s.client.pc)[0]);
    AllStillCurrent(cs, cs', s.req.items);
    AllStillCurrent(cs, cs', s.res.items);
    AllStillCurrent(cs, cs', ServerHand(s.server.pc));
  }

  lemma PlacesKeptByDeliver(cfg: Config, s: State)
    requires OnePlace(s) && s.client.pc.ReplyDeliver?
    requires Deliver(cfg, s, s.client.pc.hand).faults == s.faults == {}
    ensures OnePlace(Deliver(cfg, s, s.client.pc.hand))
  {
    var t := Deliver(cfg, s, s.client.pc.hand);
    forall c ensures Copies(t, c) == B(Pending(t.client.callers, c)) {
      assert Copies(s, c) == B(Pending(s.client.callers, c));
      OccursOne(s.client.pc.hand, c);
    }
  }

  // ------------------------------------------------------------------ no faults

  /** Distinct callers from a sequence fill at most as many entries as the sequence has. */
  lemma {:induction false} Pigeonhole(q: seq<Item>, ids: set<nat>)
    requires forall i :: 0 <= i < |q| ==> q[i].cid in ids
    requires forall c :: Occurs(q, c) <= 1
    ensures |q| <= |ids|
  {
    if q != [] {
      var c := q[0].cid;
      assert Occurs(q, c) == 1 + Occurs(q[1..], c);
      forall i | 0 <= i < |q[1..]| ensures q[1..][i].cid in ids - {c} {
        assert q[1..][i] == q[i + 1];
        if q[1..][i].cid == c { OccursBound(q[1..], c, i); }
      }
      forall d ensures Occurs(q[1..], d) <= 1 {
        assert Occurs(q, d) == B(q[0].cid == d) + Occurs(q[1..], d);
      }
      Pigeonhole(q[1..], ids - {c});
    }
  }

  function Elements(order: seq<nat>): set<nat> { set c | c in order }

  lemma {:induction false} DistinctSize(order: seq<nat>)
    requires forall i, j :: 0 <= i < j < |order| ==> order[i] != order[j]
    ensures |Elements(order)| == |order|
  {
    if order != [] {
      DistinctSize(order[1..]);
      assert Elements(order) == {order[0]} + Elements(order[1..]);
      assert order[0] !in order[1..];
    }
  }

  /** Callers are coroutines, and a coroutine's id is below `MAX_TASK_NUM`; so the 4096 entries of an
      item queue are enough for all of them, however many there are. */
  lemma RealQueuesAreLargeEnough(cfg: Config)
    requires forall i, j :: 0 <= i < j < |cfg.order| ==> cfg.order[i] != cfg.order[j]
    requires forall i :: 0 <= i < |cfg.order| ==> cfg.order[i] < 2048
    requires cfg.capacity == 4096
    ensures cfg.Valid()
  {
    AllBelow(Elements(cfg.order), 2048);
    DistinctSize(cfg.order);
  }

  /** A queue that misses the request of one caller has room for it. */
  lemma HasRoom(cfg: Config, q: seq<Item>, c: nat)
    requires cfg.Valid() && c in cfg.order
    requires forall i :: 0 <= i < |q| ==> q[i].cid in cfg.order
    requires forall d :: Occurs(q, d) <= 1
    requires Occurs(q, c) == 0
    ensures |q| < cfg.capacity
  {
    var all := Elements(cfg.order);
    forall i | 0 <= i < |q| ensures q[i].cid in all - {c} {
      if q[i].cid == c { OccursBound(q, c, i); }
    }
    Pigeonhole(q, all - {c});
    DistinctSize(cfg.order);
    assert |all - {c}| == |all| - 1;
  }

  lemma InOrder(cfg: Config, s: State, q: seq<Item>)
    requires QueueOk(cfg, s.client) && AllCurrent(s.client.callers, q)
    ensures forall i :: 0 <= i < |q| ==> q[i].cid in cfg.order
  {
    forall i | 0 <= i < |q| ensures q[i].cid in cfg.order {
      assert Current(s.client.callers, q[i]);
    }
  }

  lemma PushHasRoom(cfg: Config, s: State)
    requires cfg.Valid() && Inv(cfg, s) && s.client.pc.Push?
    ensures |s.req.items| < cfg.capacity
  {
    var c := s.client.pc.c;
    OccursOne(s.client.pc.item, c);
    assert Copies(s, c) <= 1;
    forall d ensures Occurs(s.req.items, d) <= 1 { assert Copies(s, d) <= 1; }
    InOrder(cfg, s, s.req.items);
    HasRoom(cfg, s.req.items, c);
  }

  lemma AnswerHasRoom(cfg: Config, s: State)
    requires cfg.Valid() && Inv(cfg, s) && s.server.pc.Answer?
    ensures |s.res.items| < cfg.capacity
  {
    var item := s.server.pc.hand;
    assert Current(s.client.callers, ServerHand(s.server.pc)[0]);
    OccursOne(item, item.cid);
    assert Copies(s, item.cid) <= 1;
    forall d ensures Occurs(s.res.items, d) <= 1 { assert Copies(s, d) <= 1; }
    InOrder(cfg, s, s.res.items);
    InOrder(cfg, s, ServerHand(s.server.pc));
    HasRoom(cfg, s.res.items, item.cid);
  }

  /** The reply in the reply coroutine's hand is for a suspended caller with an empty slot. */
  lemma DeliverFaultless(cfg: Config, s: State)
    requires Inv(cfg, s) && s.client.pc.ReplyDeliver?
    ensures Deliver(cfg, s, s.client.pc.hand).faults == {}
  {
    var item := s.client.pc.hand;
    assert Current(s.client.callers, ClientHand(s.client.pc)[0]);
    OccursOne(item, item.cid);
    assert Copies(s, item.cid) <= 1;
    assert CallerOk(s.client, item.cid);
  }

  lemma FetchFaultless(cfg: Config, s: State)
    requires Inv(cfg, s) && s.client.pc.Idle?
    ensures Fetch(s).faults == {}
  {
    if s.client.ready != [] {
      assert CallerOk(s.client, s.client.ready[0]);
    }
  }

  lemma KnownCaller(cfg: Config, s: State)
    requires ClientOk(cfg, s.client)
    ensures RunsCaller(s.client.pc) ==> s.client.pc.c in s.client.callers
  {
    if RunsCaller(s.client.pc) { assert CallerOk(s.client, s.client.pc.c); }
  }

  // ------------------------------------------------------------------ every step, every run

  lemma FlagStepMovesNothing(cfg: Config, s: State, msg: nat)
    requires s.client.pc.LoadFlag? || s.client.pc.StoreFlag? || s.client.pc.Notify? || s.client.pc.Suspend?
    requires s.client.pc.c in s.client.callers
    ensures SamePlaces(s, CallerStep(cfg, s, msg))
    ensures SameBooks(s.client.callers, CallerStep(cfg, s, msg).client.callers)
  {}

  lemma CallerStepKeeps(cfg: Config, s: State, msg: nat)
    requires cfg.Valid() && Inv(cfg, s) && RunsCaller(s.client.pc)
    ensures Inv(cfg, CallerStep(cfg, s, msg))
  {
    var c, t := s.client.pc.c, CallerStep(cfg, s, msg);
    assert CallerOk(s.client, c);
    match s.client.pc {
      case Check(_) =>
        ItemsKeptByStart(s, msg);
        PlacesKeptByStart(s, msg);
      case Take(_) => PlacesKeptByTake(s);
      case Push(_, _) =>
        PushHasRoom(cfg, s);
        PlacesKeptByPush(cfg, s, msg);
      case _ =>
        FlagStepMovesNothing(cfg, s, msg);
        PlacesFrame(s, t);
    }
    ControlKeptByCaller(cfg, s, msg);
    ClientKeptByStep(cfg, s, msg);
  }

  lemma ReplyStepKeeps(cfg: Config, s: State)
    requires Inv(cfg, s) && ReplyActive(s.client.pc)
    ensures Inv(cfg, ReplyStep(cfg, s))
  {
    if s.client.pc.ReplyDeliver? {
      DeliverFaultless(cfg, s);
      ItemsKeptByDeliver(cfg, s);
      PlacesKeptByDeliver(cfg, s);
    } else if s.client.pc.ReplyPop? && s.res.items != [] {
      PlacesKeptByReplyPop(cfg, s);
    } else {
      PlacesFrame(s, ReplyStep(cfg, s));
    }
    ControlKeptByReply(cfg, s);
    ClientKeptByReply(cfg, s);
  }

  lemma FetchMovesNothing(s: State)
    requires s.client.pc.Idle?
    ensures SamePlaces(s, Fetch(s)) && SameBooks(s.client.callers, Fetch(s).client.callers)
  {}

  lemma FetchKeeps(cfg: Config, s: State)
    requires Inv(cfg, s) && s.client.pc.Idle?
    ensures Inv(cfg, Fetch(s))
  {
    FetchFaultless(cfg, s);
    FetchMovesNothing(s);
    PlacesFrame(s, Fetch(s));
    ControlKeptByFetch(cfg, s);
    ClientKeptByFetch(cfg, s);
  }

  lemma ServerMovesNothing(cfg: Config, s: State)
    requires !s.server.pc.Answer? && !(s.server.pc.Pop? && s.req.items != [])
    ensures SamePlaces(s, ServerNext(cfg, s)) && ServerNext(cfg, s).client == s.client
    ensures ServerNext(cfg, s).faults == s.faults
  {}

  lemma PlacesKeptByServer(cfg: Config, s: State)
    requires cfg.Valid() && Inv(cfg, s)
    ensures OnePlace(ServerNext(cfg, s)) && Items(ServerNext(cfg, s))
    ensures ServerNext(cfg, s).faults == {} && ServerNext(cfg, s).client == s.client
  {
    if s.server.pc.Answer? {
      AnswerHasRoom(cfg, s);
      PlacesKeptByAnswer(cfg, s);
    } else if s.server.pc.Pop? && s.req.items != [] {
      PlacesKeptByPop(cfg, s);
    } else {
      ServerMovesNothing(cfg, s);
      PlacesFrame(s, ServerNext(cfg, s));
    }
  }

  lemma ServerKeeps(cfg: Config, s: State)
    requires cfg.Valid() && Inv(cfg, s)
    ensures Inv(cfg, ServerNext(cfg, s))
  {
    PlacesKeptByServer(cfg, s);
    if s.server.pc.Pop? || s.server.pc.Answer? || s.server.pc.Count? || s.server.pc.Suspended? {
      ControlKeptByServerQueues(cfg, s);
    } else {
      ControlKeptByServerFlags(cfg, s);
    }
  }

  lemma ClientInterruptKeeps(cfg: Config, s: State)
    requires Inv(cfg, s)
    ensures Inv(cfg, ClientInterrupt(s))
  {
    var t := ClientInterrupt(s);
    forall c | c in cfg.order ensures CallerOk(t.client, c) {
      assert CallerOk(s.client, c);
    }
    PlacesFrame(s, t);
  }

  lemma ServerInterruptKeeps(cfg: Config, s: State)
    requires Inv(cfg, s)
    ensures Inv(cfg, ServerInterrupt(s))
  {
    PlacesFrame(s, ServerInterrupt(s));
  }

  /** Every action of every thread keeps the invariant. */
  lemma StepKeeps(cfg: Config, s: State, a: Action)
    requires cfg.Valid() && Inv(cfg, s)
    ensures Inv(cfg, Next(cfg, s, a))
  {
    match a {
      case ClientStep(msg) =>
        if s.client.pc.Idle? {
          FetchKeeps(cfg, s);
        } else if ReplyActive(s.client.pc) {
          ReplyStepKeeps(cfg, s);
        } else {
          assert CallerOk(s.client, s.client.pc.c);
          CallerStepKeeps(cfg, s, msg);
        }
      case ServerStep => ServerKeeps(cfg, s);
      case ClientIrq => ClientInterruptKeeps(cfg, s);
      case ServerIrq => ServerInterruptKeeps(cfg, s);
    }
  }

  lemma {:induction false} RunKeeps(cfg: Config, s: State, actions: seq<Action>)
    requires cfg.Valid() && Inv(cfg, s)
    ensures Inv(cfg, Run(cfg, s, actions))
    decreases |actions|
  {
    if actions != [] {
      StepKeeps(cfg, s, actions[0]);
      RunKeeps(cfg, Next(cfg, s, actions[0]), actions[1..]);
    }
  }

  // ------------------------------------------------------------------ the promises of the protocol

  /** The number of calls that the callers have started. */
  function Started(cs: Callers, order: seq<nat>): nat {
    if order == [] then 0
    else (if order[0] in cs then |cs[order[0]].sent| else 0) + Started(cs, order[1..])
  }

  lemma {:induction false} StartedFrame(cs: Callers, cs': Callers, order: seq<nat>)
    requires forall c :: c in order ==> c in cs && c in cs' && |cs'[c].sent| == |cs[c].sent|
    ensures Started(cs', order) == Started(cs, order)
  {
    if order != [] {
      assert order[0] in order;
      assert forall c :: c in order[1..] ==> c in order;
      StartedFrame(cs, cs', order[1..]);
    }
  }

  lemma {:induction false} StartedBump(cs: Callers, cs': Callers, order: seq<nat>, c: nat)
    requires c in order && forall i, j :: 0 <= i < j < |order| ==> order[i] != order[j]
    requires forall d :: d in order ==> d in cs && d in cs'
    requires forall d :: d in order && d != c ==> |cs'[d].sent| == |cs[d].sent|
    requires |cs'[c].sent| == |cs[c].sent| + 1
    ensures Started(cs', order) == Started(cs, order) + 1
  {
    assert order == [order[0]] + order[1..];
    assert forall d :: d in order[1..] ==> d in order;
    if order[0] == c {
      StartedFrame(cs, cs', order[1..]);
    } else {
      StartedBump(cs, cs', order[1..], c);
    }
  }

  ghost predicate SameSent(cs: Callers, cs': Callers, c: nat) {
    c in cs ==> c in cs' && cs'[c].sent == cs[c].sent
  }

  lemma SentKeptByFetch(s: State, c: nat)
    ensures SameSent(s.client.callers, Fetch(s).client.callers, c) && Fetch(s).client.budget == s.client.budget
  {}

  lemma SentKeptByReply(cfg: Config, s: State, c: nat)
    requires ReplyActive(s.client.pc)
    ensures SameSent(s.client.callers, ReplyStep(cfg, s).client.callers, c)
    ensures ReplyStep(cfg, s).client.budget == s.client.budget
  {}

  lemma SentKeptByCaller(cfg: Config, s: State, msg: nat, c: nat)
    requires RunsCaller(s.client.pc) && s.client.pc.c in s.client.callers
    requires !(s.client.pc.Check? && s.client.budget > 0)
    ensures SameSent(s.client.callers, CallerStep(cfg, s, msg).client.callers, c)
    ensures CallerStep(cfg, s, msg).client.budget == s.client.budget
  {}

  lemma StartedByStart(cfg: Config, s: State, msg: nat)
    requires cfg.Valid() && s.client.pc.Check? && s.client.budget > 0 && s.client.pc.c in cfg.order
    requires forall c :: c in cfg.order ==> c in s.client.callers
    ensures Started(StartCall(s, s.client.pc.c, msg).client.callers, cfg.order) + s.client.budget - 1
         == Started(s.client.callers, cfg.order) + s.client.budget
  {
    StartedBump(s.client.callers, StartCall(s, s.client.pc.c, msg).client.callers, cfg.order, s.client.pc.c);
  }

  lemma StartedKept(cfg: Config, s: State, a: Action)
    requires cfg.Valid() && QueueOk(cfg, s.client)
    requires forall c :: c in cfg.order ==> c in s.client.callers
    ensures Started(Next(cfg, s, a).client.callers, cfg.order) + Next(cfg, s, a).client.budget
         == Started(s.client.callers, cfg.order) + s.client.budget
  {
    var cs, t := s.client.callers, Next(cfg, s, a);
    if a.ClientStep? && s.client.pc.Check? && s.client.budget > 0 {
      StartedByStart(cfg, s, a.msg);
    } else {
      forall c | c in cfg.order ensures SameSent(cs, t.client.callers, c) && t.client.budget == s.client.budget {
        if a.ClientStep? {
          if s.client.pc.Idle? {
            SentKeptByFetch(s, c);
          } else if ReplyActive(s.client.pc) {
            SentKeptByReply(cfg, s, c);
          } else {
            SentKeptByCaller(cfg, s, a.msg, c);
          }
        }
      }
      if cfg.order != [] {
        assert SameSent(cs, t.client.callers, cfg.order[0]) && t.client.budget == s.client.budget;
      }
      StartedFrame(cs, t.client.callers, cfg.order);
    }
  }

  lemma {:induction false} StartedKeptByRun(cfg: Config, s: State, actions: seq<Action>)
    requires cfg.Valid() && Inv(cfg, s)
    ensures Started(Run(cfg, s, actions).client.callers, cfg.order) + Run(cfg, s, actions).client.budget
         == Started(s.client.callers, cfg.order) + s.client.budget
    decreases |actions|
  {
    if actions != [] {
      assert forall c :: c in cfg.order ==> CallerOk(s.client, c);
      StartedKept(cfg, s, actions[0]);
      StepKeeps(cfg, s, actions[0]);
      StartedKeptByRun(cfg, Next(cfg, s, actions[0]), actions[1..]);
    }
  }

  lemma {:induction false} NoneStarted(cs: Callers, order: seq<nat>)
    requires forall c :: c in order ==> c in cs && cs[c].sent == []
    ensures Started(cs, order) == 0
  {
    if order != [] {
      assert order[0] in order;
      assert forall c :: c in order[1..] ==> c in order;
      NoneStarted(cs, order[1..]);
    }
  }

  /** In every interleaving: nothing ever faults, so no queue overflows, no full slot is overwritten,
      no reply wakes a caller that does not wait for it and no caller resumes without a reply; every
      caller has obtained exactly the replies to its own requests, in order; an outstanding request is
      in exactly one place; and calls started plus remaining budget is constant. */
  lemma EveryRunMatchesReplies(cfg: Config, actions: seq<Action>)
    requires cfg.Valid()
    ensures var s := Run(cfg, Init(cfg), actions);
      && s.faults == {}
      && (forall c :: c in cfg.order ==> c in s.client.callers && Matched(s.client.callers[c]))
      && (forall c :: Copies(s, c) == B(Pending(s.client.callers, c)))
      && Started(s.client.callers, cfg.order) + s.client.budget == cfg.sendNum
  {
    InitInv(cfg);
    RunKeeps(cfg, Init(cfg), actions);
    var s := Run(cfg, Init(cfg), actions);
    assert forall c :: c in cfg.order ==> CallerOk(s.client, c);
    NoneStarted(Init(cfg).client.callers, cfg.order);
    StartedKeptByRun(cfg, Init(cfg), actions);
  }

  /** When the reply coroutine has left its loop, no request is on its way any more: every caller
      with an outstanding request has its reply in its slot and is ready to run. */
  lemma NobodyWaitsAfterExit(cfg: Config, actions: seq<Action>, c: nat)
    requires cfg.Valid() && c in cfg.order && !Run(cfg, Init(cfg), actions).client.alive
    ensures var s := Run(cfg, Init(cfg), actions);
      && c in s.client.callers && !s.client.callers[c].phase.Waiting?
      && s.client.budget == 0 && s.req.items == s.res.items == []
      && (Pending(s.client.callers, c) ==>
            c in s.client.slots && Current(s.client.callers, s.client.slots[c]) && s.client.slots[c].cid == c)
  {
    InitInv(cfg);
    RunKeeps(cfg, Init(cfg), actions);
    var s := Run(cfg, Init(cfg), actions);
    assert CallerOk(s.client, c);
    assert Copies(s, c) == B(Pending(s.client.callers, c));
  }

  /** The sender goes on to raise the flag and notify exactly if it finds the flag down. */
  lemma FlagDecides(cfg: Config, s: State, msg: nat)
    requires s.client.pc.LoadFlag? ==> s.client.pc.c in s.client.callers
    ensures s.client.pc.LoadFlag? ==>
              Next(cfg, s, ClientStep(msg)).client.pc == if s.req.flag then Suspend(s.client.pc.c) else StoreFlag(s.client.pc.c)
    ensures s.server.pc.LoadReplyFlag? ==>
              Next(cfg, s, ServerStep).server.pc == if s.res.flag then Count else StoreReplyFlag
  {}

  /** Wake-up safety in every interleaving at instruction grain: a flag that is up has its receiver
      active, or a wake on its way, or a sender about to send one. So a receiver that has stopped
      looking, with no wake on its way, has its flag down, and the sender that looks at it next goes on
      to notify. A sender that finds the flag up does not. */
  lemma EveryRunIsWakeSafe(cfg: Config, actions: seq<Action>, msg: nat)
    requires cfg.Valid()
    ensures var s := Run(cfg, Init(cfg), actions);
      && FlagsSafe(s)
      && (ServerParked(s) && !WakePending(s.server.wakes, s.req) && s.client.pc.LoadFlag? ==>
            Next(cfg, s, ClientStep(msg)).client.pc == StoreFlag(s.client.pc.c))
      && (ReplyParked(s) && !WakePending(s.client.wakes, s.res) && s.server.pc.LoadReplyFlag? ==>
            Next(cfg, s, ServerStep).server.pc == StoreReplyFlag)
      && (s.req.flag && s.client.pc.LoadFlag? ==> Next(cfg, s, ClientStep(msg)).client.pc == Suspend(s.client.pc.c))
      && (s.res.flag && s.server.pc.LoadReplyFlag? ==> Next(cfg, s, ServerStep).server.pc == Count)
  {
    InitInv(cfg);
    RunKeeps(cfg, Init(cfg), actions);
    var s := Run(cfg, Init(cfg), actions);
    if s.client.pc.LoadFlag? { assert CallerOk(s.client, s.client.pc.c); }
    FlagDecides(cfg, s, msg);
  }
}
