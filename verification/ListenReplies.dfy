/** Who is woken, who runs and who is replied to in the listen path. */
module ListenReplies {
  import opened Basics
  import opened Listen
  import opened ListenProofs

  // ------------------------------------------------------------------ one reply for each client

  /** What a Listen request asks for. */
  datatype Ask = Ask(port: nat, client: nat)

  type Asks = map<nat, Ask>

  /** The request for which each coroutine was spawned, after one more action. */
  function Remember(asks: Asks, a: Action): Asks {
    if a.Spawn? && a.cid !in asks then asks[a.cid := Ask(a.port, a.client)] else asks
  }

  ghost predicate Replied(n: Net, c: nat) { exists i :: 0 <= i < |n.replies| && n.replies[i].sender == c }

  /** Until it has accepted, a coroutine carries its own request; it has replied exactly if it has accepted. */
  ghost predicate CarriesAsk(n: Net, asks: Asks, c: nat)
    requires c in n.tasks
  {
    && c in asks
    && (n.tasks[c].Receiving? || (n.tasks[c].port == asks[c].port && n.tasks[c].client == asks[c].client))
    && (Replied(n, c) <==> n.tasks[c].Receiving?)
  }

  /** Every reply goes to the client that its sender was spawned for, and nobody replies twice. */
  ghost predicate RepliesRight(n: Net, asks: Asks) {
    && (forall c :: c in asks <==> c in n.tasks)
    && (forall c :: c in n.tasks ==> CarriesAsk(n, asks, c))
    && (forall i :: 0 <= i < |n.replies| ==> n.replies[i].sender in asks && n.replies[i].client == asks[n.replies[i].sender].client)
    && (forall i, j :: 0 <= i < j < |n.replies| ==> n.replies[i].sender != n.replies[j].sender)
  }

  lemma SpawnRepliesRight(n: Net, asks: Asks, cid: nat, port: nat, client: nat)
    requires RepliesRight(n, asks)
    ensures RepliesRight(Step(n, Spawn(cid, port, client)).value, Remember(asks, Spawn(cid, port, client)))
  {
    var t, asks' := Step(n, Spawn(cid, port, client)).value, Remember(asks, Spawn(cid, port, client));
    forall c | c in t.tasks ensures CarriesAsk(t, asks', c) {
      if c in n.tasks { assert CarriesAsk(n, asks, c); }
    }
  }

  /** A change of phase before `accept` that keeps port and client. */
  lemma PhaseRepliesRight(n: Net, asks: Asks, c: nat, phase: Phase, t: Net)
    requires RepliesRight(n, asks) && c in n.tasks && !n.tasks[c].Receiving? && !phase.Receiving?
    requires phase.port == n.tasks[c].port && phase.client == n.tasks[c].client
    requires t.tasks == n.tasks[c := phase] && t.replies == n.replies
    ensures RepliesRight(t, asks)
  {
    forall d | d in t.tasks ensures CarriesAsk(t, asks, d) {
      assert CarriesAsk(n, asks, d);
    }
  }

  lemma AcceptRepliesRight(n: Net, asks: Asks, c: nat, own: nat, handle: nat, t: Net)
    requires RepliesRight(n, asks) && c in n.tasks && !n.tasks[c].Receiving?
    requires t.tasks == n.tasks[c := Receiving(own)] && t.replies == n.replies + [Reply(n.tasks[c].client, handle, c)]
    ensures RepliesRight(t, asks)
  {
    assert CarriesAsk(n, asks, c);
    assert t.replies[|n.replies|].sender == c;
    forall d | d in t.tasks ensures CarriesAsk(t, asks, d) {
      assert CarriesAsk(n, asks, d);
      if Replied(n, d) {
        var i :| 0 <= i < |n.replies| && n.replies[i].sender == d;
        assert t.replies[i].sender == d;
      }
    }
    forall i | 0 <= i < |n.replies| ensures t.replies[i].sender != c {
      assert t.replies[i] == n.replies[i];
    }
  }

  lemma ResumeRepliesRight(n: Net, asks: Asks, again: bool)
    requires RepliesRight(n, asks) && Step(n, Resume(true, again)).Ok?
    ensures RepliesRight(Step(n, Resume(true, again)).value, asks)
  {
    var t := Step(n, Resume(true, again)).value;
    if n.ready != [] && n.ready[0] in n.tasks {
      var c := n.ready[0];
      match n.tasks[c] {
        case Spawned(port, client) => PhaseRepliesRight(n, asks, c, t.tasks[c], t);
        case Blocked(port, _, own) => AcceptRepliesRight(n, asks, c, own, Accepted(n.table, port).value.0, t);
        case Woken(port, _, own) => AcceptRepliesRight(n, asks, c, own, Accepted(n.table, port).value.0, t);
        case Receiving(_) => SameRepliesRight(n, asks, t);
      }
    } else {
      SameRepliesRight(n, asks, t);
    }
  }

  lemma SameRepliesRight(n: Net, asks: Asks, t: Net)
    requires RepliesRight(n, asks) && t.tasks == n.tasks && t.replies == n.replies
    ensures RepliesRight(t, asks)
  {
    forall c | c in t.tasks ensures CarriesAsk(t, asks, c) { assert CarriesAsk(n, asks, c); }
  }

  lemma StepRepliesRight(n: Net, asks: Asks, a: Action)
    requires RepliesRight(n, asks) && Admissible(a) && Step(n, a).Ok?
    ensures RepliesRight(Step(n, a).value, Remember(asks, a))
  {
    var t := Step(n, a).value;
    match a {
      case Spawn(cid, port, client) => SpawnRepliesRight(n, asks, cid, port, client);
      case Packet(port, dst) =>
        var woken := PacketWakes(n.table, port, dst);
        if woken.Some? && woken.value in n.tasks && n.tasks[woken.value].Blocked? {
          PhaseRepliesRight(n, asks, woken.value, t.tasks[woken.value], t);
        } else {
          SameRepliesRight(n, asks, t);
        }
      case WakeReceiver(_) => SameRepliesRight(n, asks, t);
      case Resume(_, again) => ResumeRepliesRight(n, asks, again);
    }
  }

  function Remembered(asks: Asks, actions: seq<Action>): Asks
    decreases |actions|
  {
    if actions == [] then asks else Remembered(Remember(asks, actions[0]), actions[1..])
  }

  lemma {:induction false} RunRepliesRight(n: Net, asks: Asks, actions: seq<Action>)
    requires RepliesRight(n, asks) && Run(n, actions).Ok? && forall i :: 0 <= i < |actions| ==> Admissible(actions[i])
    ensures RepliesRight(Run(n, actions).value, Remembered(asks, actions))
    decreases |actions|
  {
    if actions != [] {
      StepRepliesRight(n, asks, actions[0]);
      RunRepliesRight(Step(n, actions[0]).value, Remember(asks, actions[0]), actions[1..]);
    }
  }

  /** The action that creates coroutine `c`: the first one to spawn it. */
  ghost predicate Creates(actions: seq<Action>, k: nat, c: nat) {
    && k < |actions| && actions[k].Spawn? && actions[k].cid == c
    && forall j :: 0 <= j < k && actions[j].Spawn? ==> actions[j].cid != c
  }

  lemma {:induction false} RememberedIsFirst(asks: Asks, actions: seq<Action>, c: nat)
    ensures c in asks ==> c in Remembered(asks, actions) && Remembered(asks, actions)[c] == asks[c]
    ensures c !in asks && c in Remembered(asks, actions) ==>
              exists k: nat :: Creates(actions, k, c) && Remembered(asks, actions)[c] == Ask(actions[k].port, actions[k].client)
    decreases |actions|
  {
    if actions != [] {
      var rest := Remember(asks, actions[0]);
      RememberedIsFirst(rest, actions[1..], c);
      if c !in asks && c in Remembered(asks, actions) {
        if c in rest {
          assert Creates(actions, 0, c);
        } else {
          var k: nat :| Creates(actions[1..], k, c) && Remembered(asks, actions)[c] == Ask(actions[1..][k].port, actions[1..][k].client);
          assert actions[1..][k] == actions[k + 1];
          forall j | 0 <= j < k + 1 && actions[j].Spawn? ensures actions[j].cid != c {
            if j > 0 { assert actions[1..][j - 1] == actions[j]; }
          }
          assert Creates(actions, k + 1, c);
        }
      }
    }
  }

  /** In every run: each listen reply goes to the client named by the request that created its sender, no coroutine
      replies twice, and those that have passed `accept` are exactly those that have replied. */
  lemma EveryReplyGoesToItsClient(actions: seq<Action>)
    requires forall i :: 0 <= i < |actions| ==> Admissible(actions[i])
    ensures Run(Init(), actions).Ok?
    ensures var n := Run(Init(), actions).value;
      && (forall i :: 0 <= i < |n.replies| ==>
            exists k: nat :: Creates(actions, k, n.replies[i].sender) && actions[k].client == n.replies[i].client)
      && (forall i, j :: 0 <= i < j < |n.replies| ==> n.replies[i].sender != n.replies[j].sender)
      && (forall c :: c in n.tasks ==> (n.tasks[c].Receiving? <==> Replied(n, c)))
  {
    EveryRunStaysAligned(actions);
    assert RepliesRight(Init(), map[]);
    RunRepliesRight(Init(), map[], actions);
    var n, asks := Run(Init(), actions).value, Remembered(map[], actions);
    forall i | 0 <= i < |n.replies|
      ensures exists k: nat :: Creates(actions, k, n.replies[i].sender) && actions[k].client == n.replies[i].client
    {
      RememberedIsFirst(map[], actions, n.replies[i].sender);
    }
    forall c | c in n.tasks ensures n.tasks[c].Receiving? <==> Replied(n, c) {
      assert CarriesAsk(n, asks, c);
    }
  }

  // ------------------------------------------------------------------ progress

  /** A packet that an open port accepts makes the longest-blocked coroutine of that port ready, behind all that
      are ready already, and leaves its handle pending; any other packet changes nothing. */
  lemma PacketWakesLongestBlocked(n: Net, port: nat, dst: nat)
    requires Inv(n)
    ensures var open := port in n.table && (n.table[port].addr == None || n.table[port].addr == Some(dst))
                        && |n.table[port].syn| < LISTEN_QUEUE_SIZE;
      var r := Step(n, Packet(port, dst));
      && r.Ok?
      && (open && n.table[port].blocked != [] ==>
            var c, t := n.table[port].blocked[0], r.value;
            && c in n.tasks && n.tasks[c].Blocked? && n.tasks[c].port == port
            && t.tasks == n.tasks[c := Woken(port, n.tasks[c].client, n.tasks[c].handle)]
            && t.ready == n.ready + [c]
            && t.table == n.table[port := n.table[port].(blocked := n.table[port].blocked[1..])])
      && (!(open && n.table[port].blocked != []) ==> r.value == n)
  {
    if port in n.table && n.table[port].blocked != [] {
      var c := n.table[port].blocked[0];
      MemberOccurs(n.table[port].blocked, 0);
      assert PlacedAt(n, c);
    }
  }

  /** A woken coroutine whose turn comes replies to its client with its own handle and can be found under it. */
  lemma WokenReplies(n: Net, again: bool)
    requires Inv(n) && n.ready != [] && n.ready[0] in n.tasks && n.tasks[n.ready[0]].Woken?
    ensures var c := n.ready[0];
      var r := Step(n, Resume(true, again));
      && r.Ok?
      && r.value.replies == n.replies + [Reply(n.tasks[c].client, n.tasks[c].handle, c)]
      && r.value.sockets == n.sockets[n.tasks[c].handle := c]
      && r.value.tasks == n.tasks[c := Receiving(n.tasks[c].handle)] && r.value.ready == n.ready[1..]
  {
    var c := n.ready[0];
    assert AlignedAt(n, n.tasks[c].port);
    AcceptsOwnHandle(n, c, n.tasks[c].port, n.tasks[c].client, n.tasks[c].handle);
  }

  /** The coroutine that an action makes ready, and the one that it runs. */
  function Readied(n: Net, a: Action): seq<nat> {
    match a
    case Spawn(cid, _, _) => if cid in n.tasks then [] else [cid]
    case Packet(port, dst) =>
      if port in n.table && (n.table[port].addr == None || n.table[port].addr == Some(dst))
         && |n.table[port].syn| < LISTEN_QUEUE_SIZE && n.table[port].blocked != []
      then [n.table[port].blocked[0]] else []
    case WakeReceiver(cid) => if cid in n.tasks && n.tasks[cid].Receiving? then [cid] else []
    case Resume(_, again) =>
      if again && n.ready != [] && n.ready[0] in n.tasks && n.tasks[n.ready[0]].Receiving? then [n.ready[0]] else []
  }

  function Ran(n: Net, a: Action): seq<nat> { if a.Resume? && n.ready != [] then [n.ready[0]] else [] }

  function AllReadied(n: Net, actions: seq<Action>): seq<nat>
    requires Run(n, actions).Ok?
    decreases |actions|
  {
    if actions == [] then [] else Readied(n, actions[0]) + AllReadied(Step(n, actions[0]).value, actions[1..])
  }

  function AllRan(n: Net, actions: seq<Action>): seq<nat>
    requires Run(n, actions).Ok?
    decreases |actions|
  {
    if actions == [] then [] else Ran(n, actions[0]) + AllRan(Step(n, actions[0]).value, actions[1..])
  }

  lemma StepIsFifo(n: Net, a: Action)
    requires Step(n, a).Ok?
    ensures n.ready + Readied(n, a) == Ran(n, a) + Step(n, a).value.ready
  {
    if a.Resume? && n.ready != [] {
      assert n.ready == [n.ready[0]] + n.ready[1..];
      assert n.ready + Readied(n, a) == [n.ready[0]] + (n.ready[1..] + Readied(n, a));
    }
  }

  /** The coroutines run in exactly the order in which they were made ready. */
  lemma {:induction false} RunIsFifo(n: Net, actions: seq<Action>)
    requires Run(n, actions).Ok?
    ensures n.ready + AllReadied(n, actions) == AllRan(n, actions) + Run(n, actions).value.ready
    decreases |actions|
  {
    if actions != [] {
      var t := Step(n, actions[0]).value;
      StepIsFifo(n, actions[0]);
      RunIsFifo(t, actions[1..]);
      Chain(n.ready, Readied(n, actions[0]), Ran(n, actions[0]), t.ready,
            AllReadied(t, actions[1..]), AllRan(t, actions[1..]), Run(t, actions[1..]).value.ready);
    }
  }
}
