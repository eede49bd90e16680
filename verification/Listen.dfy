/** The listen path of the network server: `listen_table.rs` and `tcp_accept_coroutine` of `net/mod.rs`,
    for coroutine listeners. */
module Listen {
  import opened Basics

  const LISTEN_QUEUE_SIZE: nat := 4096
  const PORT_NUM: nat := 65536

  // ------------------------------------------------------------------ the listen table

  /** A `ListenTableEntry`: the address listened on, the pending handles and the blocked coroutines. */
  datatype Entry = Entry(addr: Option<nat>, syn: seq<nat>, blocked: seq<nat>)

  type Table = map<nat, Entry>

  predicate CanAccept(e: Entry, dst: nat) { e.addr.None? || e.addr.value == dst }

  /** `listen`: the entry is made on first use, with the address of that first call, or any address; then both
      queues grow together. */
  function Listened(t: Table, port: nat, addr: Option<nat>, handle: nat, cid: nat): Table {
    var e := if port in t then t[port] else Entry(addr, [], []);
    t[port := e.(syn := e.syn + [handle], blocked := e.blocked + [cid])]
  }

  /** The coroutine, if any, that a first packet for this port and address wakes. */
  function PacketWakes(t: Table, port: nat, dst: nat): Option<nat> {
    if port in t && CanAccept(t[port], dst) && |t[port].syn| < LISTEN_QUEUE_SIZE && t[port].blocked != []
    then Some(t[port].blocked[0]) else None
  }

  function AfterPacket(t: Table, port: nat, dst: nat): Table {
    if PacketWakes(t, port, dst).Some? then t[port := t[port].(blocked := t[port].blocked[1..])] else t
  }

  /** `accept` up to the check that the socket is connected: the handle and the table without it. A
      missing entry is an error, an empty queue an assertion failure. */
  function Accepted(t: Table, port: nat): Outcome<(nat, Table)> {
    if port !in t || t[port].syn == [] then Panic
    else Ok((t[port].syn[0], t[port := t[port].(syn := t[port].syn[1..])]))
  }

  /** `ListenTableEntry`, with its two deques. */
  class ListenTableEntry {
    const addr: Option<nat>
    var synQueue: seq<nat>
    var blockCids: seq<nat>

    constructor (addr: Option<nat>)
      ensures this.addr == addr && synQueue == blockCids == []
    {
      this.addr := addr;
      synQueue, blockCids := [], [];
    }

    /** The entry as a value. */
    function Value(): Entry
      reads this
    {
      Entry(addr, synQueue, blockCids)
    }
  }

  /** `ListenTable`: a place for an entry for each port. */
  class ListenTable {
    const tcp: array<ListenTableEntry?>

    ghost function Entries(): set<object>
      reads tcp
    {
      set p | 0 <= p < tcp.Length && tcp[p] != null :: tcp[p] as object
    }

    /** There is a place for every port, and no two share an entry. */
    ghost predicate Valid()
      reads tcp
    {
      && tcp.Length == PORT_NUM
      && (forall p, q :: 0 <= p < q < PORT_NUM && tcp[p] != null ==> tcp[p] != tcp[q])
    }

    /** The entries by port. */
    ghost function View(): (t: Table)
      reads tcp, Entries()
    {
      map p: nat | p < tcp.Length && tcp[p] != null :: tcp[p].Value()
    }

    constructor ()
      ensures Valid() && fresh(tcp) && View() == map[]
    {
      tcp := new ListenTableEntry?[PORT_NUM](_ => null);
    }

    /** Registers a socket and the coroutine that will accept it, in the order of the calls. */
    method Listen(port: nat, addr: Option<nat>, handle: nat, cid: nat) returns (ok: bool)
      requires Valid() && port < PORT_NUM
      modifies tcp, Entries()
      ensures Valid()
      ensures ok <==> port != 0
      ensures View() == if ok then Listened(old(View()), port, addr, handle, cid) else old(View())
    {
      if port == 0 {
        return false;
      }
      if tcp[port] == null {
        var entry := new ListenTableEntry(addr);
        tcp[port] := entry;
      }
      var e := tcp[port];
      e.synQueue := e.synQueue + [handle];
      e.blockCids := e.blockCids + [cid];
      return true;
    }

    /** Picks the coroutine to wake for the first packet of a connection. */
    method IncomingTcpPacket(port: nat, dst: nat) returns (woken: Option<nat>)
      requires Valid() && port < PORT_NUM
      modifies Entries()
      ensures Valid()
      ensures woken == PacketWakes(old(View()), port, dst)
      ensures View() == AfterPacket(old(View()), port, dst)
    {
      woken := None;
      var e := tcp[port];
      if e != null {
        if !(e.addr.None? || e.addr.value == dst) || |e.synQueue| >= LISTEN_QUEUE_SIZE {
          return;
        }
        if e.blockCids != [] {
          woken := Some(e.blockCids[0]);
          e.blockCids := e.blockCids[1..];
        }
      }
    }

    /** Hands out the oldest pending handle of a port. */
    method Accept(port: nat) returns (r: Outcome<nat>)
      requires Valid() && port < PORT_NUM
      modifies Entries()
      ensures Valid()
      ensures r.Ok? <==> Accepted(old(View()), port).Ok?
      ensures r.Ok? ==> Accepted(old(View()), port) == Ok((r.value, View()))
      ensures r.Panic? ==> View() == old(View())
    {
      var e := tcp[port];
      if e == null || e.synQueue == [] {
        return Panic;
      }
      r := Ok(e.synQueue[0]);
      e.synQueue := e.synQueue[1..];
      assert View() == Accepted(old(View()), port).value.1;
    }
  }

  // ------------------------------------------------------------------ the accept coroutines

  /** Where a `tcp_accept_coroutine` is: not started, waiting for a packet with its own socket
      registered, woken by one, or past `accept` and receiving on its socket. */
  datatype Phase =
    | Spawned(port: nat, client: nat)
    | Blocked(port: nat, client: nat, handle: nat)
    | Woken(port: nat, client: nat, handle: nat)
    | Receiving(handle: nat)

  /** A listen reply: the calling client, the handle sent, and the coroutine that sent it. */
  datatype Reply = Reply(client: nat, handle: nat, sender: nat)

  /** The server: the table, the coroutines, the ready queue of their priority, the next unused socket
      handle, the replies sent and `SOCKET_2_CID`. */
  datatype Net = Net(table: Table, tasks: map<nat, Phase>, ready: seq<nat>, nextHandle: nat,
                     replies: seq<Reply>, sockets: map<nat, nat>)

  datatype Action =
    | Spawn(cid: nat, port: nat, client: nat)  // a Listen request arrives
    | Packet(port: nat, dst: nat)              // a first packet of a connection arrives
    | WakeReceiver(cid: nat)                   // a receiving coroutine is woken
    | Resume(connected: bool, again: bool)     // the first ready coroutine runs until it suspends

  function Init(): Net { Net(map[], map[], [], 0, [], map[]) }

  /** The first poll: the socket is added to the socket set and the coroutine listens on any address. */
  function Start(n: Net, c: nat, port: nat, client: nat): Outcome<Net> {
    if port == 0 then Panic
    else Ok(n.(table := Listened(n.table, port, None, n.nextHandle, c),
               tasks := n.tasks[c := Blocked(port, client, n.nextHandle)],
               nextHandle := n.nextHandle + 1))
  }

  /** The second poll: the coroutine accepts, replies with the accepted handle and registers itself
      under the handle of the socket that it created. */
  function Accepts(n: Net, c: nat, port: nat, client: nat, own: nat, connected: bool): Outcome<Net> {
    var (handle, table) :- Accepted(n.table, port);
    if !connected then Panic
    else Ok(n.(table := table, tasks := n.tasks[c := Receiving(own)],
               replies := n.replies + [Reply(client, handle, c)], sockets := n.sockets[own := c]))
  }

  function Step(n: Net, a: Action): Outcome<Net> {
    match a
    case Spawn(cid, port, client) =>
      if cid in n.tasks then Ok(n)
      else Ok(n.(tasks := n.tasks[cid := Spawned(port, client)], ready := n.ready + [cid]))
    case Packet(port, dst) =>
      var woken := PacketWakes(n.table, port, dst);
      if woken.Some? then
        var c := woken.value;
        var n1 := n.(table := AfterPacket(n.table, port, dst), ready := n.ready + [c]);
        if c in n.tasks && n.tasks[c].Blocked?
        then Ok(n1.(tasks := n.tasks[c := Woken(n.tasks[c].port, n.tasks[c].client, n.tasks[c].handle)]))
        else Ok(n1)
      else Ok(n)
    case WakeReceiver(cid) =>
      if cid in n.tasks && n.tasks[cid].Receiving? then Ok(n.(ready := n.ready + [cid])) else Ok(n)
    case Resume(connected, again) =>
      if n.ready == [] then Ok(n)
      else
        var c, n1 := n.ready[0], n.(ready := n.ready[1..]);
        if c !in n.tasks then Ok(n1)
        else
          match n.tasks[c]
          case Spawned(port, client) => Start(n1, c, port, client)
          case Blocked(port, client, own) => Accepts(n1, c, port, client, own, connected)
          case Woken(port, client, own) => Accepts(n1, c, port, client, own, connected)
          case Receiving(_) => if again then Ok(n1.(ready := n1.ready + [c])) else Ok(n1)
  }

  // ------------------------------------------------------------------ alignment

  predicate WokenOn(tasks: map<nat, Phase>, c: nat, port: nat) {
    c in tasks && tasks[c].Woken? && tasks[c].port == port
  }

  /** The handles registered by the coroutines of a queue that are woken on a port. */
  function WokenHandles(tasks: map<nat, Phase>, q: seq<nat>, port: nat): seq<nat> {
    if q == [] then []
    else (if WokenOn(tasks, q[0], port) then [tasks[q[0]].handle] else []) + WokenHandles(tasks, q[1..], port)
  }

  /** The handles registered by blocked coroutines. */
  function BlockedHandles(tasks: map<nat, Phase>, q: seq<nat>): seq<nat> {
    if q == [] then []
    else (if q[0] in tasks && tasks[q[0]].Blocked? then [tasks[q[0]].handle] else []) + BlockedHandles(tasks, q[1..])
  }

  /** What the pending handles of a port should be: those registered by its woken coroutines, in the
      order in which they will run, then those registered by its blocked coroutines. */
  function Expected(tasks: map<nat, Phase>, ready: seq<nat>, blocked: seq<nat>, port: nat): seq<nat> {
    WokenHandles(tasks, ready, port) + BlockedHandles(tasks, blocked)
  }

  ghost predicate AlignedAt(n: Net, p: nat) {
    if p in n.table then n.table[p].syn == Expected(n.tasks, n.ready, n.table[p].blocked, p)
    else WokenHandles(n.tasks, n.ready, p) == []
  }

  ghost predicate Aligned(n: Net) { forall p :: AlignedAt(n, p) }

  function Occurs(q: seq<nat>, c: nat): nat {
    if q == [] then 0 else (if q[0] == c then 1 else 0) + Occurs(q[1..], c)
  }

  /** A coroutine is queued as its phase says. */
  ghost predicate PlacedAt(n: Net, c: nat) {
    && (Occurs(n.ready, c) > 0 ==> c in n.tasks)
    && (c in n.tasks && (n.tasks[c].Spawned? || n.tasks[c].Woken?) ==> Occurs(n.ready, c) == 1)
    && (c in n.tasks && n.tasks[c].Blocked? ==> Occurs(n.ready, c) == 0)
    && (forall p :: p in n.table && Occurs(n.table[p].blocked, c) > 0 ==>
          c in n.tasks && n.tasks[c].Blocked? && n.tasks[c].port == p && Occurs(n.table[p].blocked, c) == 1)
  }

  ghost predicate Placed(n: Net) { forall c :: PlacedAt(n, c) }

  /** Handles are unique, and every reply names the handle under which its coroutine is registered. */
  ghost predicate Registered(n: Net) {
    && (forall c :: c in n.tasks && !n.tasks[c].Spawned? ==> n.tasks[c].handle < n.nextHandle)
    && (forall c, d :: c in n.tasks && d in n.tasks && c != d && !n.tasks[c].Spawned? && !n.tasks[d].Spawned? ==>
          n.tasks[c].handle != n.tasks[d].handle)
    && (forall i :: 0 <= i < |n.replies| ==> var r := n.replies[i];
          r.handle in n.sockets && n.sockets[r.handle] == r.sender && r.sender in n.tasks && n.tasks[r.sender] == Receiving(r.handle))
  }

  ghost predicate Inv(n: Net) { Aligned(n) && Placed(n) && Registered(n) }
}
