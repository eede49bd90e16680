/** The asynchronous call/reply protocol of `async_lib.rs` and `ipc_test.rs`.

    Two threads share a request lane and a reply lane, each a queue with a status flag and a
    notification. The client thread runs the caller coroutines and the reply coroutine on one
    executor; the server thread runs the echoing receiver coroutine. A step is one shared access
    (queue operation, flag load, flag store, notification) or one executor fetch, and the two
    threads and their interrupt handlers interleave freely. A queue operation is one step:
    `SharedRing.EveryRunIsAQueue` shows that interleaved operations have the effect of such steps.
  */
module Protocol {

  /** An `IPCItem`: the calling coroutine's id and its message. */
  datatype Item = Item(cid: nat, msg: nat)

  /** A run's parameters: the caller coroutines in spawn order, the number of calls to make,
      the capacity of both item queues, and whether a failed pop and the clearing of the flag
      that follows it are one step (`atomicClear`) or two, as in the code. */
  datatype Config = Config(order: seq<nat>, sendNum: nat, capacity: nat, atomicClear: bool)
  {
    ghost predicate Valid() {
      && (forall i, j :: 0 <= i < j < |order| ==> order[i] != order[j])
      && |order| <= capacity
    }
  }

  datatype Phase = Runnable | Running | Waiting | Woken | Finished

  /** A caller coroutine: its phase, the requests it has sent and the replies it has obtained. */
  datatype Caller = Caller(phase: Phase, sent: seq<Item>, got: seq<Item>)

  type Callers = map<nat, Caller>

  /** What the client thread does next: `Idle` is the executor's fetch, `Check` to `Suspend` and
      `Take` belong to a caller, the rest to the reply coroutine. */
  datatype ClientPc =
    | Idle
    | Check(c: nat) | Push(c: nat, item: Item) | LoadFlag(c: nat) | StoreFlag(c: nat) | Notify(c: nat) | Suspend(c: nat)
    | Take(c: nat)
    | ReplyPop | ReplyDeliver(hand: Item) | ReplyClear | ReplyYield

  /** What the server thread does next. */
  datatype ServerPc =
    | Suspended
    | Pop | Answer(hand: Item) | LoadReplyFlag | StoreReplyFlag | NotifyClient | Count
    | Clear | Yield
    | Exited

  /** Half of a `NewBuffer`: the queued items, the receiver's status flag, and whether a user
      interrupt has been sent that no handler has consumed yet. */
  datatype Lane = Lane(items: seq<Item>, flag: bool, note: bool)

  /** How a receiver coroutine is scheduled: entries in its ready queue, and a deferred wake. */
  datatype Wakes = Wakes(ready: nat, delayed: bool)

  /** The client thread. `ready` is the callers' ready queue, `slots` is `IMMEDIATE_VALUE`, `budget`
      is `MUTE_SEND_NUM`; `stalled` says that a discarded dead id has left its priority bit behind. */
  datatype Client = Client(pc: ClientPc, callers: Callers, ready: seq<nat>, slots: map<nat, Item>,
                           budget: nat, count: nat, alive: bool, wakes: Wakes, stalled: bool)

  datatype Server = Server(pc: ServerPc, wakes: Wakes, count: nat)

  /** What must never happen: an `unwrap` of a full queue or of an empty value slot, a full value
      slot overwritten, a wake of a caller that is not suspended, a fetch that discards a dead id. */
  datatype Fault = QueueFull | EmptySlot | SlotOverwritten | WakeNotWaiting | DeadFetch

  datatype State = State(req: Lane, res: Lane, client: Client, server: Server, faults: set<Fault>)

  datatype Action = ClientStep(msg: nat) | ServerStep | ClientIrq | ServerIrq

  function Init(cfg: Config): State {
    State(Lane([], false, false), Lane([], false, false),
          Client(Idle, map c | c in cfg.order :: Caller(Runnable, [], []), cfg.order, map[],
                 cfg.sendNum, 0, true, Wakes(1, false), false),
          Server(Suspended, Wakes(1, false), 0),
          {})
  }

  // ------------------------------------------------------------------ transitions

  predicate RunsCaller(pc: ClientPc) {
    pc.Check? || pc.Push? || pc.LoadFlag? || pc.StoreFlag? || pc.Notify? || pc.Suspend? || pc.Take?
  }

  predicate ReplyActive(pc: ClientPc) {
    pc.ReplyPop? || pc.ReplyDeliver? || pc.ReplyClear? || pc.ReplyYield?
  }

  function Fail(s: State, f: Fault): State { s.(faults := s.faults + {f}) }

  function SetPhase(cs: Callers, c: nat, phase: Phase): Callers
    requires c in cs
  {
    cs[c := cs[c].(phase := phase)]
  }

  /** `Executor::fetch` on the client thread: deferred wakes first, then the reply coroutine
      (priority 0), then the callers (priority 1) in queue order. */
  function Fetch(s: State): State {
    var cl := s.client;
    var n := cl.wakes.ready + (if cl.wakes.delayed && cl.alive then 1 else 0);
    if n > 0 then
      var w := Wakes(n - 1, false);
      if cl.alive then s.(client := cl.(pc := ReplyPop, wakes := w))
      else Fail(s.(client := cl.(wakes := w, stalled := true)), DeadFetch)
    else if cl.stalled || cl.ready == [] then s.(client := cl.(wakes := Wakes(0, false)))
    else
      var c := cl.ready[0];
      if c !in cl.callers || cl.callers[c].phase.Finished? then
        Fail(s.(client := cl.(wakes := Wakes(0, false), ready := cl.ready[1..], stalled := true)), DeadFetch)
      else
        s.(client := cl.(wakes := Wakes(0, false), ready := cl.ready[1..],
                         callers := SetPhase(cl.callers, c, Running),
                         pc := if cl.callers[c].phase.Woken? then Take(c) else Check(c)))
  }

  /** The test of the remaining budget in `client_call_test` and, if there is some, a new request. */
  function StartCall(s: State, c: nat, msg: nat): State
    requires c in s.client.callers
  {
    var cl := s.client;
    if cl.budget == 0 then s.(client := cl.(pc := Idle, callers := SetPhase(cl.callers, c, Finished)))
    else
      var me := cl.callers[c];
      s.(client := cl.(pc := Push(c, Item(c, msg)), budget := cl.budget - 1,
                       callers := cl.callers[c := me.(sent := me.sent + [Item(c, msg)])]))
  }

  /** The end of `yield_now`: the resumed caller takes its reply out of its slot. */
  function TakeReply(s: State, c: nat): State
    requires c in s.client.callers
  {
    var cl := s.client;
    var me := cl.callers[c];
    if c in cl.slots then
      s.(client := cl.(pc := Check(c), slots := cl.slots - {c},
                       callers := cl.callers[c := me.(got := me.got + [cl.slots[c]])]))
    else Fail(s, EmptySlot)
  }

  /** One step of `client_call_test` and `seL4_Call_with_item`. */
  function CallerStep(cfg: Config, s: State, msg: nat): State
    requires RunsCaller(s.client.pc) && s.client.pc.c in s.client.callers
  {
    var cl := s.client;
    var c := cl.pc.c;
    match cl.pc
    case Check(_) => StartCall(s, c, msg)
    case Push(_, item) =>
      if |s.req.items| < cfg.capacity
      then s.(req := s.req.(items := s.req.items + [item]), client := cl.(pc := LoadFlag(c)))
      else Fail(s, QueueFull)
    case LoadFlag(_) => s.(client := cl.(pc := if s.req.flag then Suspend(c) else StoreFlag(c)))
    case StoreFlag(_) => s.(req := s.req.(flag := true), client := cl.(pc := Notify(c)))
    case Notify(_) => s.(req := s.req.(note := true), client := cl.(pc := Suspend(c)))
    case Suspend(_) => s.(client := cl.(pc := Idle, callers := SetPhase(cl.callers, c, Waiting)))
    case Take(_) => TakeReply(s, c)
  }

  /** The slot store, the wake and the count of `recv_reply_coroutine`. */
  function Deliver(cfg: Config, s: State, item: Item): State {
    var cl := s.client;
    var c := item.cid;
    var last := cl.count + 1 == cfg.sendNum;
    var cl1 := cl.(slots := cl.slots[c := item], count := cl.count + 1,
                   pc := if last then Idle else ReplyPop, alive := !last);
    if c in cl.slots then Fail(s.(client := cl1), SlotOverwritten)
    else if c in cl.callers && cl.callers[c].phase.Waiting? then
      s.(client := cl1.(callers := SetPhase(cl.callers, c, Woken), ready := cl.ready + [c]))
    else Fail(s.(client := cl1), WakeNotWaiting)
  }

  /** One step of `recv_reply_coroutine`. */
  function ReplyStep(cfg: Config, s: State): State
    requires ReplyActive(s.client.pc)
  {
    var cl := s.client;
    match cl.pc
    case ReplyPop =>
      if s.res.items != []
      then s.(res := s.res.(items := s.res.items[1..]), client := cl.(pc := ReplyDeliver(s.res.items[0])))
      else if cfg.atomicClear then s.(res := s.res.(flag := false), client := cl.(pc := ReplyYield))
      else s.(client := cl.(pc := ReplyClear))
    case ReplyDeliver(item) => Deliver(cfg, s, item)
    case ReplyClear => s.(res := s.res.(flag := false), client := cl.(pc := ReplyYield))
    case ReplyYield => s.(client := cl.(pc := Idle))
  }

  function ClientNext(cfg: Config, s: State, msg: nat): State {
    if s.client.pc.Idle? then Fetch(s)
    else if ReplyActive(s.client.pc) then ReplyStep(cfg, s)
    else if s.client.pc.c in s.client.callers then CallerStep(cfg, s, msg)
    else s
  }

  /** One step of `recv_req_coroutine`, or the server executor's fetch when it is suspended. */
  function ServerNext(cfg: Config, s: State): State {
    var sv := s.server;
    match sv.pc
    case Suspended =>
      var n := sv.wakes.ready + (if sv.wakes.delayed then 1 else 0);
      if n > 0 then s.(server := sv.(pc := Pop, wakes := Wakes(n - 1, false))) else s
    case Pop =>
      if s.req.items != []
      then s.(req := s.req.(items := s.req.items[1..]), server := sv.(pc := Answer(s.req.items[0])))
      else if cfg.atomicClear then s.(req := s.req.(flag := false), server := sv.(pc := Yield))
      else s.(server := sv.(pc := Clear))
    case Answer(item) =>
      if |s.res.items| < cfg.capacity
      then s.(res := s.res.(items := s.res.items + [item]), server := sv.(pc := LoadReplyFlag))
      else Fail(s, QueueFull)
    case LoadReplyFlag => s.(server := sv.(pc := if s.res.flag then Count else StoreReplyFlag))
    case StoreReplyFlag => s.(res := s.res.(flag := true), server := sv.(pc := NotifyClient))
    case NotifyClient => s.(res := s.res.(note := true), server := sv.(pc := Count))
    case Count => s.(server := sv.(pc := if sv.count + 1 == cfg.sendNum then Exited else Pop, count := sv.count + 1))
    case Clear => s.(req := s.req.(flag := false), server := sv.(pc := Yield))
    case Yield => s.(server := sv.(pc := Suspended))
    case Exited => s
  }

  /** The client's interrupt handler: a sent notification becomes a deferred wake. */
  function ClientInterrupt(s: State): State {
    if s.res.note
    then s.(res := s.res.(note := false), client := s.client.(wakes := s.client.wakes.(delayed := true)))
    else s
  }

  function ServerInterrupt(s: State): State {
    if s.req.note
    then s.(req := s.req.(note := false), server := s.server.(wakes := s.server.wakes.(delayed := true)))
    else s
  }

  /** The whole system. An action that has nothing to do leaves the state unchanged. */
  function Next(cfg: Config, s: State, a: Action): State {
    match a
    case ClientStep(msg) => ClientNext(cfg, s, msg)
    case ServerStep => ServerNext(cfg, s)
    case ClientIrq => ClientInterrupt(s)
    case ServerIrq => ServerInterrupt(s)
  }

  /** The state after the given actions. */
  function Run(cfg: Config, s: State, actions: seq<Action>): State
    decreases |actions|
  {
    if actions == [] then s else Run(cfg, Next(cfg, s, actions[0]), actions[1..])
  }

  // ------------------------------------------------------------------ places

  function B(b: bool): nat { if b then 1 else 0 }

  /** How often a request of caller `c` occurs in a queue. */
  function Occurs(q: seq<Item>, c: nat): nat {
    if q == [] then 0 else B(q[0].cid == c) + Occurs(q[1..], c)
  }

  function ClientHand(pc: ClientPc): seq<Item> {
    match pc
    case Push(_, item) => [item]
    case ReplyDeliver(item) => [item]
    case _ => []
  }

  function ServerHand(pc: ServerPc): seq<Item> {
    if pc.Answer? then [pc.hand] else []
  }

  /** The number of places that hold a request of caller `c`, counted with multiplicity: its own
      hand before the push, the request queue, the server, the reply queue, the reply coroutine's
      hand, the value slot. */
  function Copies(s: State, c: nat): nat {
    Occurs(s.req.items, c) + Occurs(ServerHand(s.server.pc), c) + Occurs(s.res.items, c)
    + Occurs(ClientHand(s.client.pc), c) + B(c in s.client.slots)
  }

  // ------------------------------------------------------------------ the invariant

  predicate Pending(cs: Callers, c: nat) {
    c in cs && |cs[c].sent| == |cs[c].got| + 1
  }

  /** A caller's replies are its requests, in order, with at most the last one outstanding. */
  ghost predicate Matched(me: Caller) {
    me.sent == me.got || (me.sent != [] && me.sent == me.got + [me.sent[|me.sent| - 1]])
  }

  /** The item is the newest request of the caller that it names, which still waits for its reply. */
  ghost predicate Current(cs: Callers, item: Item) {
    Pending(cs, item.cid) && item == cs[item.cid].sent[|cs[item.cid].sent| - 1]
  }

  ghost predicate AllCurrent(cs: Callers, q: seq<Item>) {
    forall i :: 0 <= i < |q| ==> Current(cs, q[i])
  }

  /** A caller's books agree with its phase. */
  ghost predicate BookOk(cl: Client, c: nat)
    requires c in cl.callers
  {
    var me := cl.callers[c];
    && Matched(me)
    && (me.phase.Waiting? || me.phase.Woken? ==> Pending(cl.callers, c))
    && (me.phase.Runnable? || me.phase.Finished? ==> !Pending(cl.callers, c))
    && (me.phase.Finished? ==> cl.budget == 0)
    && (me.phase.Running? ==> (cl.pc.Check? <==> !Pending(cl.callers, c)))
  }

  /** A caller's phase agrees with the program counter, the ready queue and its value slot. */
  ghost predicate PhaseOk(cl: Client, c: nat)
    requires c in cl.callers
  {
    var phase := cl.callers[c].phase;
    && (phase.Running? <==> RunsCaller(cl.pc) && cl.pc.c == c)
    && (c in cl.ready <==> phase.Runnable? || phase.Woken?)
    && (c in cl.slots <==> phase.Woken? || cl.pc == Take(c))
  }

  ghost predicate CallerOk(cl: Client, c: nat) {
    c in cl.callers && BookOk(cl, c) && PhaseOk(cl, c)
  }

  /** Only live callers are queued and run, and each is queued at most once. */
  ghost predicate QueueOk(cfg: Config, cl: Client) {
    && (forall c :: c in cl.callers ==> c in cfg.order)
    && (forall i :: 0 <= i < |cl.ready| ==> cl.ready[i] in cfg.order)
    && (forall i, j :: 0 <= i < j < |cl.ready| ==> cl.ready[i] != cl.ready[j])
    && (RunsCaller(cl.pc) ==> cl.pc.c in cfg.order)
    && (cl.pc.Push? ==> cl.pc.item.cid == cl.pc.c)
  }

  ghost predicate ClientOk(cfg: Config, cl: Client) {
    && (forall c :: c in cfg.order ==> CallerOk(cl, c))
    && QueueOk(cfg, cl)
  }

  /** An outstanding request is in exactly one place, once; nothing else is anywhere. */
  ghost predicate OnePlace(s: State) {
    forall c :: Copies(s, c) == B(Pending(s.client.callers, c))
  }

  /** Every item anywhere is the current request of the caller that it names. */
  ghost predicate Items(s: State) {
    var cs := s.client.callers;
    && AllCurrent(cs, s.req.items) && AllCurrent(cs, s.res.items)
    && AllCurrent(cs, ServerHand(s.server.pc)) && AllCurrent(cs, ClientHand(s.client.pc))
    && (forall c :: c in s.client.slots ==> Current(cs, s.client.slots[c]) && s.client.slots[c].cid == c)
  }

  predicate Answering(pc: ServerPc) {
    pc.LoadReplyFlag? || pc.StoreReplyFlag? || pc.NotifyClient? || pc.Count?
  }

  /** Calls started plus remaining budget is constant, and every started call is accounted for. */
  ghost predicate Conserved(cfg: Config, s: State) {
    && s.client.budget + |ClientHand(s.client.pc)| + |s.req.items| + |ServerHand(s.server.pc)|
       + |s.res.items| + s.client.count == cfg.sendNum
    && s.server.count + B(Answering(s.server.pc)) == |s.res.items| + B(s.client.pc.ReplyDeliver?) + s.client.count
    && (s.client.alive <==> s.client.count < cfg.sendNum || cfg.sendNum == 0)
    && (s.server.pc.Exited? <==> s.server.count == cfg.sendNum && cfg.sendNum != 0)
  }

  /** The reply coroutine is never queued twice, never queued while it runs, and never after it has
      finished, so no fetch ever discards it. */
  ghost predicate ReplyQueued(cfg: Config, s: State) {
    var cl := s.client;
    && !cl.stalled
    && (ReplyActive(cl.pc) ==> cl.alive)
    && (cl.wakes.ready > 0 ==>
          && cl.wakes == Wakes(1, false) && cl.pc.Idle? && cl.budget == cfg.sendNum
          && cl.alive && !s.res.note)
  }

  /** A wake of the receiver is on its way. */
  predicate WakePending(w: Wakes, lane: Lane) { w.ready > 0 || w.delayed || lane.note }

  /** The receiver coroutine has stopped looking at its queue: it is suspended or about to be. */
  predicate ServerParked(s: State) { s.server.pc.Suspended? || s.server.pc.Yield? }
  predicate ReplyParked(s: State) { s.client.alive && (!ReplyActive(s.client.pc) || s.client.pc.ReplyYield?) }

  /** Wake-up safety at instruction grain: if a flag is up, its receiver still looks at the queue,
      or has finished, or a wake is on its way, or the sender is about to send one. */
  ghost predicate FlagsSafe(s: State) {
    && (s.req.flag && ServerParked(s) ==> WakePending(s.server.wakes, s.req) || s.client.pc.Notify?)
    && (s.res.flag && ReplyParked(s) ==> WakePending(s.client.wakes, s.res) || s.server.pc.NotifyClient?)
  }

  ghost predicate Control(cfg: Config, s: State) {
    && Conserved(cfg, s)
    && ReplyQueued(cfg, s)
    && FlagsSafe(s)
    && (cfg.atomicClear ==> !s.server.pc.Clear? && !s.client.pc.ReplyClear?)
  }

  ghost predicate Inv(cfg: Config, s: State) {
    && s.faults == {}
    && ClientOk(cfg, s.client)
    && OnePlace(s)
    && Items(s)
    && Control(cfg, s)
  }
}
