/** The pending handles and the coroutines that wait for them never get out of step. */
module ListenProofs {
  import opened Basics
  import opened Listen

  lemma {:induction false} OccursPush(q: seq<nat>, x: nat, c: nat)
    ensures Occurs(q + [x], c) == Occurs(q, c) + (if x == c then 1 else 0)
  {
    if q != [] {
      assert (q + [x])[1..] == q[1..] + [x];
      OccursPush(q[1..], x, c);
    }
  }

  lemma {:induction false} MemberOccurs(q: seq<nat>, i: nat)
    requires i < |q|
    ensures Occurs(q, q[i]) > 0
  {
    if i > 0 { MemberOccurs(q[1..], i - 1); }
  }

  lemma {:induction false} WokenPush(tasks: map<nat, Phase>, q: seq<nat>, x: nat, p: nat)
    ensures WokenHandles(tasks, q + [x], p)
         == WokenHandles(tasks, q, p) + (if WokenOn(tasks, x, p) then [tasks[x].handle] else [])
  {
    if q != [] {
      assert (q + [x])[1..] == q[1..] + [x];
      WokenPush(tasks, q[1..], x, p);
    }
  }

  lemma {:induction false} BlockedPush(tasks: map<nat, Phase>, q: seq<nat>, x: nat)
    ensures BlockedHandles(tasks, q + [x])
         == BlockedHandles(tasks, q) + (if x in tasks && tasks[x].Blocked? then [tasks[x].handle] else [])
  {
    if q != [] {
      assert (q + [x])[1..] == q[1..] + [x];
      BlockedPush(tasks, q[1..], x);
    }
  }

  /** A coroutine that is not in a queue can change its phase without changing the queue's handles. */
  lemma {:induction false} HandlesFrame(tasks: map<nat, Phase>, c: nat, phase: Phase, q: seq<nat>, p: nat)
    requires Occurs(q, c) == 0
    ensures WokenHandles(tasks[c := phase], q, p) == WokenHandles(tasks, q, p)
    ensures BlockedHandles(tasks[c := phase], q) == BlockedHandles(tasks, q)
  {
    if q != [] { HandlesFrame(tasks, c, phase, q[1..], p); }
  }

  lemma ExpectedFrame(tasks: map<nat, Phase>, c: nat, phase: Phase, ready: seq<nat>, blocked: seq<nat>, p: nat)
    requires Occurs(ready, c) == 0 && Occurs(blocked, c) == 0
    ensures Expected(tasks[c := phase], ready, blocked, p) == Expected(tasks, ready, blocked, p)
  {
    HandlesFrame(tasks, c, phase, ready, p);
    HandlesFrame(tasks, c, phase, blocked, p);
  }

  function BlockedAt(n: Net, p: nat): seq<nat> { if p in n.table then n.table[p].blocked else [] }

  function SynAt(n: Net, p: nat): seq<nat> { if p in n.table then n.table[p].syn else [] }

  /** Alignment without a case distinction on the table. */
  lemma AlignedIff(n: Net, p: nat)
    ensures AlignedAt(n, p) <==> SynAt(n, p) == Expected(n.tasks, n.ready, BlockedAt(n, p), p)
  {}

  /** A coroutine at the head of the ready queue that is not receiving is nowhere else. */
  lemma HeadIsAlone(n: Net, p: nat)
    requires n.ready != []
    requires PlacedAt(n, n.ready[0]) && n.ready[0] in n.tasks && !n.tasks[n.ready[0]].Receiving?
    ensures Occurs(n.ready[1..], n.ready[0]) == 0 && Occurs(BlockedAt(n, p), n.ready[0]) == 0
    ensures !n.tasks[n.ready[0]].Blocked?
  {
    assert Occurs(n.ready, n.ready[0]) == 1 + Occurs(n.ready[1..], n.ready[0]);
  }

  // ------------------------------------------------------------------ Listen request

  lemma LastWithoutHandle(tasks: map<nat, Phase>, q: seq<nat>, c: nat, p: nat)
    requires !WokenOn(tasks, c, p)
    ensures WokenHandles(tasks, q + [c], p) == WokenHandles(tasks, q, p)
  {
    WokenPush(tasks, q, c, p);
    assert WokenHandles(tasks, q, p) + [] == WokenHandles(tasks, q, p);
  }

  lemma SpawnAligned(n: Net, cid: nat, port: nat, client: nat, p: nat)
    requires AlignedAt(n, p) && cid !in n.tasks && Occurs(n.ready, cid) == 0 && Occurs(BlockedAt(n, p), cid) == 0
    ensures AlignedAt(Step(n, Spawn(cid, port, client)).value, p)
  {
    var phase := Spawned(port, client);
    ExpectedFrame(n.tasks, cid, phase, n.ready, BlockedAt(n, p), p);
    LastWithoutHandle(n.tasks[cid := phase], n.ready, cid, p);
    AlignedIff(n, p);
    AlignedIff(Step(n, Spawn(cid, port, client)).value, p);
  }

  lemma SpawnPlaced(n: Net, cid: nat, port: nat, client: nat, c: nat)
    requires PlacedAt(n, c) && cid !in n.tasks
    ensures PlacedAt(Step(n, Spawn(cid, port, client)).value, c)
  {
    OccursPush(n.ready, cid, c);
  }

  // ------------------------------------------------------------------ first poll

  ghost predicate Starting(n: Net, c: nat, port: nat, client: nat) {
    n.ready != [] && n.ready[0] == c && c in n.tasks && n.tasks[c] == Spawned(port, client) && port != 0
  }

  /** A coroutine that has not listened yet contributes no handle to the ready queue. */
  lemma HeadWithoutHandle(tasks: map<nat, Phase>, c: nat, rest: seq<nat>, p: nat)
    requires !WokenOn(tasks, c, p)
    ensures WokenHandles(tasks, [c] + rest, p) == WokenHandles(tasks, rest, p)
  {
    assert ([c] + rest)[1..] == rest;
  }

  lemma StartExpected(tasks: map<nat, Phase>, c: nat, phase: Phase, rest: seq<nat>, blocked: seq<nat>, p: nat)
    requires phase.Blocked? && Occurs(rest, c) == 0 && Occurs(blocked, c) == 0
    ensures Expected(tasks[c := phase], rest, blocked, p) == Expected(tasks, rest, blocked, p)
    ensures Expected(tasks[c := phase], rest, blocked + [c], p) == Expected(tasks, rest, blocked, p) + [phase.handle]
  {
    var tasks' := tasks[c := phase];
    ExpectedFrame(tasks, c, phase, rest, blocked, p);
    BlockedPush(tasks', blocked, c);
    var w, b, h := WokenHandles(tasks', rest, p), BlockedHandles(tasks', blocked), [phase.handle];
    assert w + (b + h) == (w + b) + h;
  }

  lemma StartAligned(n: Net, c: nat, port: nat, client: nat, p: nat)
    requires AlignedAt(n, p) && Starting(n, c, port, client)
    requires Occurs(n.ready[1..], c) == 0 && Occurs(BlockedAt(n, p), c) == 0
    ensures AlignedAt(Start(n.(ready := n.ready[1..]), c, port, client).value, p)
  {
    assert n.ready == [c] + n.ready[1..];
    HeadWithoutHandle(n.tasks, c, n.ready[1..], p);
    StartExpected(n.tasks, c, Blocked(port, client, n.nextHandle), n.ready[1..], BlockedAt(n, p), p);
    AlignedIff(n, p);
    AlignedIff(Start(n.(ready := n.ready[1..]), c, port, client).value, p);
  }

  lemma StartPlaced(n: Net, c: nat, port: nat, client: nat, d: nat)
    requires PlacedAt(n, d) && PlacedAt(n, c) && Starting(n, c, port, client)
    ensures PlacedAt(Start(n.(ready := n.ready[1..]), c, port, client).value, d)
  {
    OccursPush(BlockedAt(n, port), c, d);
  }

  lemma StartRegistered(n: Net, c: nat, port: nat, client: nat)
    requires Registered(n) && Starting(n, c, port, client)
    ensures Registered(Start(n.(ready := n.ready[1..]), c, port, client).value)
  {}

  // ------------------------------------------------------------------ packet

  ghost predicate Waking(n: Net, c: nat, port: nat, dst: nat) {
    PacketWakes(n.table, port, dst) == Some(c) && c in n.tasks && n.tasks[c].Blocked? && n.tasks[c].port == port
  }

  /** Moving the first blocked coroutine of a port to the end of the ready queue changes no handle. */
  lemma WakeExpected(tasks: map<nat, Phase>, c: nat, ready: seq<nat>, rest: seq<nat>, p: nat)
    requires c in tasks && tasks[c].Blocked? && Occurs(ready, c) == 0 && Occurs(rest, c) == 0
    ensures var tasks' := tasks[c := Woken(tasks[c].port, tasks[c].client, tasks[c].handle)];
      Expected(tasks', ready + [c], rest, p) == Expected(tasks, ready, if p == tasks[c].port then [c] + rest else rest, p)
  {
    var phase := Woken(tasks[c].port, tasks[c].client, tasks[c].handle);
    HandlesFrame(tasks, c, phase, ready, p);
    HandlesFrame(tasks, c, phase, rest, p);
    WokenPush(tasks[c := phase], ready, c, p);
    assert ([c] + rest)[1..] == rest;
    var w, b, h := WokenHandles(tasks, ready, p), BlockedHandles(tasks, rest), [phase.handle];
    assert w + (h + b) == (w + h) + b;
  }

  lemma PacketAligned(n: Net, c: nat, port: nat, dst: nat, p: nat)
    requires AlignedAt(n, p) && Waking(n, c, port, dst) && Occurs(n.ready, c) == 0
    requires Occurs(if p == port then BlockedAt(n, p)[1..] else BlockedAt(n, p), c) == 0
    ensures AlignedAt(Step(n, Packet(port, dst)).value, p)
  {
    var t := Step(n, Packet(port, dst)).value;
    WakeExpected(n.tasks, c, n.ready, BlockedAt(t, p), p);
    assert p == port ==> BlockedAt(n, p) == [c] + BlockedAt(t, p);
    AlignedIff(n, p);
    AlignedIff(t, p);
  }

  lemma PacketPlaced(n: Net, c: nat, port: nat, dst: nat, d: nat)
    requires PlacedAt(n, d) && PlacedAt(n, c) && Waking(n, c, port, dst)
    ensures PlacedAt(Step(n, Packet(port, dst)).value, d)
  {
    OccursPush(n.ready, c, d);
    MemberOccurs(n.table[port].blocked, 0);
  }

  lemma PacketRegistered(n: Net, c: nat, port: nat, dst: nat)
    requires Registered(n) && Waking(n, c, port, dst)
    ensures Registered(Step(n, Packet(port, dst)).value)
  {}

  // ------------------------------------------------------------------ second poll

  ghost predicate Accepting(n: Net, c: nat, port: nat, client: nat, own: nat) {
    n.ready != [] && n.ready[0] == c && c in n.tasks && n.tasks[c] == Woken(port, client, own)
  }

  /** The first pending handle is the one that the accepting coroutine registered itself. */
  lemma AcceptsOwnHandle(n: Net, c: nat, port: nat, client: nat, own: nat)
    requires AlignedAt(n, port) && Accepting(n, c, port, client, own)
    ensures Accepted(n.table, port).Ok? && Accepted(n.table, port).value.0 == own
  {}

  lemma AcceptExpected(tasks: map<nat, Phase>, c: nat, rest: seq<nat>, blocked: seq<nat>, p: nat)
    requires c in tasks && tasks[c].Woken? && Occurs(rest, c) == 0 && Occurs(blocked, c) == 0
    ensures Expected(tasks, [c] + rest, blocked, p) ==
            (if p == tasks[c].port then [tasks[c].handle] else [])
            + Expected(tasks[c := Receiving(tasks[c].handle)], rest, blocked, p)
  {
    ExpectedFrame(tasks, c, Receiving(tasks[c].handle), rest, blocked, p);
    assert ([c] + rest)[1..] == rest;
  }

  lemma AcceptAligned(n: Net, c: nat, port: nat, client: nat, own: nat, p: nat)
    requires AlignedAt(n, p) && Accepting(n, c, port, client, own)
    requires Accepted(n.table, port).Ok? && Accepted(n.table, port).value.0 == own
    requires Occurs(n.ready[1..], c) == 0 && Occurs(BlockedAt(n, p), c) == 0
    ensures AlignedAt(Accepts(n.(ready := n.ready[1..]), c, port, client, own, true).value, p)
  {
    var t := Accepts(n.(ready := n.ready[1..]), c, port, client, own, true).value;
    assert n.ready == [c] + n.ready[1..];
    AcceptExpected(n.tasks, c, n.ready[1..], BlockedAt(n, p), p);
    AlignedIff(n, p);
    AlignedIff(t, p);
  }

  lemma AcceptPlaced(n: Net, c: nat, port: nat, client: nat, own: nat, d: nat)
    requires PlacedAt(n, d) && PlacedAt(n, c) && Accepting(n, c, port, client, own) && Accepted(n.table, port).Ok?
    ensures PlacedAt(Accepts(n.(ready := n.ready[1..]), c, port, client, own, true).value, d)
  {}

  lemma AcceptRegistered(n: Net, c: nat, port: nat, client: nat, own: nat)
    requires Registered(n) && Accepting(n, c, port, client, own)
    requires Accepted(n.table, port).Ok? && Accepted(n.table, port).value.0 == own
    ensures Registered(Accepts(n.(ready := n.ready[1..]), c, port, client, own, true).value)
  {}

  // ------------------------------------------------------------------ receiving coroutines

  /** A receiving coroutine may enter and leave the ready queue at will. */
  lemma ReceiverQueued(n: Net, c: nat, p: nat, d: nat)
    requires c in n.tasks && n.tasks[c].Receiving?
    ensures AlignedAt(n, p) ==> AlignedAt(n.(ready := n.ready + [c]), p)
    ensures PlacedAt(n, d) ==> PlacedAt(n.(ready := n.ready + [c]), d)
  {
    WokenPush(n.tasks, n.ready, c, p);
    OccursPush(n.ready, c, d);
    AlignedIff(n, p);
    AlignedIff(n.(ready := n.ready + [c]), p);
  }

  lemma ReceiverRuns(n: Net, p: nat, d: nat)
    requires n.ready != [] && n.ready[0] in n.tasks && n.tasks[n.ready[0]].Receiving?
    ensures AlignedAt(n, p) ==> AlignedAt(n.(ready := n.ready[1..]), p)
    ensures PlacedAt(n, d) ==> PlacedAt(n.(ready := n.ready[1..]), d)
  {}

  // ------------------------------------------------------------------ every step, every run

  /** The listener uses a real port, and a woken coroutine finds its connection established. */
  predicate Admissible(a: Action) {
    match a
    case Spawn(_, port, _) => port != 0
    case Resume(connected, _) => connected
    case _ => true
  }

  /** Every port that a coroutine still has to listen on is a real one. */
  ghost predicate PortsOk(n: Net) {
    forall c :: c in n.tasks && n.tasks[c].Spawned? ==> n.tasks[c].port != 0
  }

  lemma SpawnKeeps(n: Net, cid: nat, port: nat, client: nat)
    requires Inv(n)
    ensures Inv(Step(n, Spawn(cid, port, client)).value)
  {
    var t := Step(n, Spawn(cid, port, client)).value;
    if cid !in n.tasks {
      assert PlacedAt(n, cid);
      forall p ensures AlignedAt(t, p) {
        assert AlignedAt(n, p);
        SpawnAligned(n, cid, port, client, p);
      }
      forall c ensures PlacedAt(t, c) {
        assert PlacedAt(n, c);
        SpawnPlaced(n, cid, port, client, c);
      }
    }
  }

  lemma PacketKeeps(n: Net, port: nat, dst: nat)
    requires Inv(n)
    ensures Inv(Step(n, Packet(port, dst)).value)
  {
    var t := Step(n, Packet(port, dst)).value;
    if PacketWakes(n.table, port, dst).Some? {
      var c := n.table[port].blocked[0];
      MemberOccurs(n.table[port].blocked, 0);
      assert PlacedAt(n, c);
      forall p ensures AlignedAt(t, p) {
        assert AlignedAt(n, p);
        PacketAligned(n, c, port, dst, p);
      }
      forall d ensures PlacedAt(t, d) {
        assert PlacedAt(n, d);
        PacketPlaced(n, c, port, dst, d);
      }
      PacketRegistered(n, c, port, dst);
    }
  }

  lemma StartKeeps(n: Net, c: nat, port: nat, client: nat)
    requires Inv(n) && Starting(n, c, port, client)
    ensures Inv(Start(n.(ready := n.ready[1..]), c, port, client).value)
  {
    var t := Start(n.(ready := n.ready[1..]), c, port, client).value;
    assert PlacedAt(n, c);
    forall p ensures AlignedAt(t, p) {
      assert AlignedAt(n, p);
      HeadIsAlone(n, p);
      StartAligned(n, c, port, client, p);
    }
    forall d ensures PlacedAt(t, d) {
      assert PlacedAt(n, d);
      StartPlaced(n, c, port, client, d);
    }
    StartRegistered(n, c, port, client);
  }

  lemma AcceptKeeps(n: Net, c: nat, port: nat, client: nat, own: nat)
    requires Inv(n) && Accepting(n, c, port, client, own)
    ensures Accepts(n.(ready := n.ready[1..]), c, port, client, own, true).Ok?
    ensures Inv(Accepts(n.(ready := n.ready[1..]), c, port, client, own, true).value)
  {
    assert AlignedAt(n, port) && PlacedAt(n, c);
    AcceptsOwnHandle(n, c, port, client, own);
    var t := Accepts(n.(ready := n.ready[1..]), c, port, client, own, true).value;
    forall p ensures AlignedAt(t, p) {
      assert AlignedAt(n, p);
      HeadIsAlone(n, p);
      AcceptAligned(n, c, port, client, own, p);
    }
    forall d ensures PlacedAt(t, d) {
      assert PlacedAt(n, d);
      AcceptPlaced(n, c, port, client, own, d);
    }
    AcceptRegistered(n, c, port, client, own);
  }

  lemma ReceiverKeeps(n: Net)
    requires Inv(n) && n.ready != [] && n.ready[0] in n.tasks && n.tasks[n.ready[0]].Receiving?
    ensures Inv(n.(ready := n.ready[1..]))
  {
    var t := n.(ready := n.ready[1..]);
    forall p ensures AlignedAt(t, p) { assert AlignedAt(n, p); ReceiverRuns(n, p, 0); }
    forall d ensures PlacedAt(t, d) { assert PlacedAt(n, d); ReceiverRuns(n, 0, d); }
  }

  lemma WakeReceiverKeeps(n: Net, c: nat)
    requires Inv(n) && c in n.tasks && n.tasks[c].Receiving?
    ensures Inv(n.(ready := n.ready + [c]))
  {
    var t := n.(ready := n.ready + [c]);
    forall p ensures AlignedAt(t, p) { assert AlignedAt(n, p); ReceiverQueued(n, c, p, 0); }
    forall d ensures PlacedAt(t, d) { assert PlacedAt(n, d); ReceiverQueued(n, c, 0, d); }
  }

  lemma ResumeKeeps(n: Net, again: bool)
    requires Inv(n) && PortsOk(n)
    ensures Step(n, Resume(true, again)).Ok? && Inv(Step(n, Resume(true, again)).value)
  {
    if n.ready != [] {
      var c := n.ready[0];
      assert PlacedAt(n, c);
      match n.tasks[c] {
        case Spawned(port, client) => StartKeeps(n, c, port, client);
        case Woken(port, client, own) => AcceptKeeps(n, c, port, client, own);
        case Blocked(_, _, _) => assert false;
        case Receiving(_) =>
          ReceiverKeeps(n);
          if again { WakeReceiverKeeps(n.(ready := n.ready[1..]), c); }
      }
    }
  }

  lemma PortsKept(n: Net, a: Action)
    requires PortsOk(n) && Admissible(a) && Step(n, a).Ok?
    ensures PortsOk(Step(n, a).value)
  {}

  /** No admissible step panics, so `accept` never finds an empty queue, and the invariant is kept. */
  lemma StepKeeps(n: Net, a: Action)
    requires Inv(n) && PortsOk(n) && Admissible(a)
    ensures Step(n, a).Ok? && Inv(Step(n, a).value) && PortsOk(Step(n, a).value)
  {
    match a {
      case Spawn(cid, port, client) => SpawnKeeps(n, cid, port, client);
      case Packet(port, dst) => PacketKeeps(n, port, dst);
      case WakeReceiver(cid) => if cid in n.tasks && n.tasks[cid].Receiving? { WakeReceiverKeeps(n, cid); }
      case Resume(_, again) => ResumeKeeps(n, again);
    }
    PortsKept(n, a);
  }

  function Run(n: Net, actions: seq<Action>): Outcome<Net>
    decreases |actions|
  {
    if actions == [] then Ok(n)
    else
      var n1 :- Step(n, actions[0]);
      Run(n1, actions[1..])
  }

  lemma {:induction false} RunKeeps(n: Net, actions: seq<Action>)
    requires Inv(n) && PortsOk(n) && forall i :: 0 <= i < |actions| ==> Admissible(actions[i])
    ensures Run(n, actions).Ok? && Inv(Run(n, actions).value)
    decreases |actions|
  {
    if actions != [] {
      StepKeeps(n, actions[0]);
      RunKeeps(Step(n, actions[0]).value, actions[1..]);
    }
  }

  /** In every run, the pending handles of a port are those registered by its woken and then its blocked
      coroutines; and every listen reply carries the handle under which `SOCKET_2_CID` finds the
      coroutine that sent it, which receives on that very socket. */
  lemma EveryRunStaysAligned(actions: seq<Action>)
    requires forall i :: 0 <= i < |actions| ==> Admissible(actions[i])
    ensures Run(Init(), actions).Ok?
    ensures var n := Run(Init(), actions).value;
      && (forall p :: p in n.table ==>
            n.table[p].syn == WokenHandles(n.tasks, n.ready, p) + BlockedHandles(n.tasks, n.table[p].blocked))
      && (forall i :: 0 <= i < |n.replies| ==> var r := n.replies[i];
            r.handle in n.sockets && n.sockets[r.handle] == r.sender
            && r.sender in n.tasks && n.tasks[r.sender] == Receiving(r.handle))
  {
    assert Inv(Init());
    RunKeeps(Init(), actions);
    var n := Run(Init(), actions).value;
    forall p | p in n.table
      ensures n.table[p].syn == WokenHandles(n.tasks, n.ready, p) + BlockedHandles(n.tasks, n.table[p].blocked)
    {
      assert AlignedAt(n, p);
    }
  }
}
