/** Receive requests of the network server: the Recv arm of `process_req` and `tcp_recv_coroutine`.

    Whether a socket has data is decided by the environment, one answer per question; reading
    succeeds when there is some. */
module NetRecv {
  import opened Basics

  /** A receive request. The serial number tells apart requests that look alike. */
  datatype Request = Request(client: nat, sock: nat, serial: nat)

  /** A socket's receive coroutine: suspended without a request, or suspended between two looks at the
      socket on behalf of one. */
  datatype Receiver = Idle | Holding(req: Request)

  /** `queue` is the request queue, `slots` is `IMMEDIATE_VALUE` of the receive coroutines and `ready`
      their ready queue, all by socket. The rest is history: all requests sent, those answered and
      those dropped without an answer. */
  datatype Net = Net(receivers: map<nat, Receiver>, queue: seq<Request>, slots: map<nat, Request>, ready: seq<nat>,
                     sent: set<Request>, answered: seq<Request>, lost: seq<Request>)

  datatype Action =
    | Arrive(req: Request)      // a client sends a request
    | Process(canRecv: bool)    // the server takes the next request from its queue
    | Resume(canRecv: bool)     // the first ready receive coroutine runs until it suspends

  function Init(sockets: set<nat>): Net {
    Net(map s | s in sockets :: Idle, [], map[], [], {}, [], [])
  }

  /** What `take` on the coroutine's slot removes. */
  function Taken(n: Net, s: nat): seq<Request> { if s in n.slots then [n.slots[s]] else [] }

  /** `wake_with_value`: whatever the slot holds is overwritten. */
  function Park(n: Net, r: Request): Net {
    n.(slots := n.slots[r.sock := r], ready := n.ready + [r.sock], lost := n.lost + Taken(n, r.sock))
  }

  /** The inner loop on behalf of a request, up to the next suspension. */
  function Serve(n: Net, s: nat, r: Request, canRecv: bool): Net {
    if canRecv then n.(receivers := n.receivers[s := Idle], answered := n.answered + [r])
    else n.(receivers := n.receivers[s := Holding(r)], ready := n.ready + [s])
  }

  function Step(n: Net, a: Action): Net {
    match a
    case Arrive(r) =>
      if r in n.sent || r.sock !in n.receivers then n else n.(queue := n.queue + [r], sent := n.sent + {r})
    case Process(canRecv) =>
      if n.queue == [] then n
      else
        var r, n1 := n.queue[0], n.(queue := n.queue[1..]);
        if canRecv then n1.(answered := n.answered + [r]) else Park(n1, r)
    case Resume(canRecv) =>
      if n.ready == [] || n.ready[0] !in n.receivers then n
      else
        var s := n.ready[0];
        var n1 := n.(ready := n.ready[1..], slots := n.slots - {s});
        match n.receivers[s]
        case Idle => if s in n.slots then Serve(n1, s, n.slots[s], canRecv) else n1
        case Holding(r) => Serve(n1.(lost := n.lost + Taken(n, s)), s, r, canRecv) // the taken value is discarded
  }

  function Run(n: Net, actions: seq<Action>): Net
    decreases |actions|
  {
    if actions == [] then n else Run(Step(n, actions[0]), actions[1..])
  }

  // ------------------------------------------------------------------ conservation

  function B(b: bool): nat { if b then 1 else 0 }

  function Occurs(q: seq<Request>, r: Request): nat {
    if q == [] then 0 else B(q[0] == r) + Occurs(q[1..], r)
  }

  /** The number of places in which a request is, counted with multiplicity. */
  function Copies(n: Net, r: Request): nat {
    Occurs(n.queue, r) + B(r.sock in n.slots && n.slots[r.sock] == r)
    + B(r.sock in n.receivers && n.receivers[r.sock] == Holding(r))
    + Occurs(n.answered, r) + Occurs(n.lost, r)
  }

  ghost predicate Conserved(n: Net) {
    forall r :: Copies(n, r) == B(r in n.sent)
  }

  /** Requests are kept under their own socket, all sockets are known, and whoever has something to do
      is queued. */
  ghost predicate Sorted(n: Net) {
    && (forall s :: s in n.slots ==> s in n.receivers && n.slots[s].sock == s && s in n.ready)
    && (forall s :: s in n.receivers && n.receivers[s].Holding? ==> n.receivers[s].req.sock == s && s in n.ready)
    && (forall i :: 0 <= i < |n.ready| ==> n.ready[i] in n.receivers)
    && (forall i :: 0 <= i < |n.queue| ==> n.queue[i].sock in n.receivers)
  }

  ghost predicate Inv(n: Net) { Conserved(n) && Sorted(n) }

  lemma {:induction false} OccursAppend(p: seq<Request>, q: seq<Request>, r: Request)
    ensures Occurs(p + q, r) == Occurs(p, r) + Occurs(q, r)
  {
    if p == [] {
      assert p + q == q;
    } else {
      assert (p + q)[1..] == p[1..] + q;
      OccursAppend(p[1..], q, r);
    }
  }

  lemma OccursOne(x: Request, r: Request)
    ensures Occurs([x], r) == B(x == r)
  {
    assert [x][1..] == [];
  }

  lemma ArriveKeeps(n: Net, x: Request)
    requires Inv(n)
    ensures Inv(Step(n, Arrive(x)))
  {
    var t := Step(n, Arrive(x));
    forall r ensures Copies(t, r) == B(r in t.sent) {
      assert Copies(n, r) == B(r in n.sent);
      OccursAppend(n.queue, [x], r);
      OccursOne(x, r);
    }
  }

  lemma ProcessCopies(n: Net, canRecv: bool, r: Request)
    requires Sorted(n) && n.queue != []
    ensures Copies(Step(n, Process(canRecv)), r) == Copies(n, r)
  {
    var x := n.queue[0];
    OccursOne(x, r);
    if canRecv {
      OccursAppend(n.answered, [x], r);
    } else {
      OccursAppend(n.lost, Taken(n, x.sock), r);
      if x.sock in n.slots { OccursOne(n.slots[x.sock], r); }
    }
  }

  lemma ProcessSorts(n: Net, canRecv: bool)
    requires Sorted(n)
    ensures Sorted(Step(n, Process(canRecv)))
  {}

  lemma ProcessKeeps(n: Net, canRecv: bool)
    requires Inv(n)
    ensures Inv(Step(n, Process(canRecv)))
  {
    var t := Step(n, Process(canRecv));
    ProcessSorts(n, canRecv);
    if n.queue != [] {
      forall r ensures Copies(t, r) == B(r in t.sent) {
        assert Copies(n, r) == B(r in n.sent);
        ProcessCopies(n, canRecv, r);
      }
    }
  }

  lemma ServeConserves(n: Net, s: nat, x: Request, canRecv: bool, r: Request)
    requires s in n.receivers && n.receivers[s].Idle? && x.sock == s
    ensures Copies(Serve(n, s, x, canRecv), r) == Copies(n, r) + B(x == r)
  {
    OccursAppend(n.answered, [x], r);
    OccursOne(x, r);
  }

  lemma TakeConserves(n: Net, s: nat, r: Request)
    requires s in n.slots ==> n.slots[s].sock == s
    ensures Copies(n.(slots := n.slots - {s}), r) == Copies(n, r) - B(s in n.slots && n.slots[s] == r)
  {}

  lemma ResumeCopies(n: Net, canRecv: bool, r: Request)
    requires Sorted(n) && n.ready != []
    ensures Copies(Step(n, Resume(canRecv)), r) == Copies(n, r)
  {
    var s := n.ready[0];
    var n1 := n.(ready := n.ready[1..], slots := n.slots - {s});
    TakeConserves(n.(ready := n.ready[1..]), s, r);
    match n.receivers[s] {
      case Idle => if s in n.slots { ServeConserves(n1, s, n.slots[s], canRecv, r); }
      case Holding(x) =>
        OccursAppend(n.lost, Taken(n, s), r);
        if s in n.slots { OccursOne(n.slots[s], r); }
        var n2 := n1.(lost := n.lost + Taken(n, s), receivers := n.receivers[s := Idle]);
        ServeConserves(n2, s, x, canRecv, r);
    }
  }

  lemma ResumeConserves(n: Net, canRecv: bool)
    requires Inv(n)
    ensures Conserved(Step(n, Resume(canRecv)))
  {
    var t := Step(n, Resume(canRecv));
    if n.ready != [] {
      forall r ensures Copies(t, r) == B(r in t.sent) {
        assert Copies(n, r) == B(r in n.sent);
        ResumeCopies(n, canRecv, r);
      }
    }
  }

  lemma ResumeSorts(n: Net, canRecv: bool)
    requires Sorted(n)
    ensures Sorted(Step(n, Resume(canRecv)))
  {}

  /** Every step keeps every request in exactly one place, be it that of the lost ones. */
  lemma StepKeeps(n: Net, a: Action)
    requires Inv(n)
    ensures Inv(Step(n, a))
  {
    match a {
      case Arrive(x) => ArriveKeeps(n, x);
      case Process(canRecv) => ProcessKeeps(n, canRecv);
      case Resume(canRecv) =>
        ResumeConserves(n, canRecv);
        ResumeSorts(n, canRecv);
    }
  }

  // ------------------------------------------------------------------ when requests get lost

  /** Nothing is lost, and nothing sits in a slot that its coroutine will empty without looking. */
  ghost predicate Safe(n: Net) {
    n.lost == [] && forall s :: s in n.slots && s in n.receivers ==> n.receivers[s].Idle?
  }

  /** The server parks a request with a coroutine that already has one. */
  predicate Crowds(n: Net, a: Action) {
    a == Process(false) && n.queue != [] && var s := n.queue[0].sock;
      s in n.slots || (s in n.receivers && n.receivers[s].Holding?)
  }

  /** A step loses a request, or dooms one, exactly if it parks a second request with a coroutine. */
  lemma LostIffCrowded(n: Net, a: Action)
    requires Inv(n) && Safe(n)
    ensures Safe(Step(n, a)) <==> !Crowds(n, a)
  {}

  /** The parked request of a coroutine that holds another one is lost when that coroutine next runs,
      and nothing else can happen to it. */
  lemma DoomedIsLost(n: Net, a: Action, s: nat)
    requires Inv(n) && s in n.receivers && n.receivers[s].Holding? && s in n.slots
    ensures var t := Step(n, a);
      || (s in t.slots && t.receivers[s] == n.receivers[s])
      || (n.slots[s] in t.lost)
  {}

  /** No state of the run has lost or doomed a request. */
  ghost predicate SafeRun(n: Net, actions: seq<Action>)
    decreases |actions|
  {
    Safe(n) && (actions == [] || SafeRun(Step(n, actions[0]), actions[1..]))
  }

  predicate CrowdFree(n: Net, actions: seq<Action>)
    decreases |actions|
  {
    actions == [] || (!Crowds(n, actions[0]) && CrowdFree(Step(n, actions[0]), actions[1..]))
  }

  lemma {:induction false} SafeIffCrowdFree(n: Net, actions: seq<Action>)
    requires Inv(n) && Safe(n)
    ensures SafeRun(n, actions) <==> CrowdFree(n, actions)
    decreases |actions|
  {
    if actions != [] {
      var t := Step(n, actions[0]);
      LostIffCrowded(n, actions[0]);
      StepKeeps(n, actions[0]);
      if Safe(t) { SafeIffCrowdFree(t, actions[1..]); }
    }
  }

  /** Over any run of the server, no request is ever lost or doomed if and only if no request is ever parked
      with a coroutine that already has one. */
  lemma NeverLostIffCrowdFree(sockets: set<nat>, actions: seq<Action>)
    ensures SafeRun(Init(sockets), actions) <==> CrowdFree(Init(sockets), actions)
  {
    SafeIffCrowdFree(Init(sockets), actions);
  }

  // ------------------------------------------------------------------ one request at a time

  predicate Outstanding(n: Net, r: Request) {
    r in n.sent && Occurs(n.answered, r) == 0 && Occurs(n.lost, r) == 0
  }

  /** At most one request is outstanding for any socket. */
  ghost predicate OnePerSocket(n: Net) {
    forall q, r :: Outstanding(n, q) && Outstanding(n, r) && q.sock == r.sock ==> q == r
  }

  /** A client asks only when nothing is outstanding for the socket. */
  ghost predicate Polite(n: Net, a: Action) {
    a.Arrive? ==> forall r :: Outstanding(n, r) ==> r.sock != a.req.sock
  }

  lemma InPlaceIsOutstanding(n: Net, r: Request)
    requires Conserved(n)
    requires Occurs(n.queue, r) > 0 || (r.sock in n.slots && n.slots[r.sock] == r)
             || (r.sock in n.receivers && n.receivers[r.sock] == Holding(r))
    ensures Outstanding(n, r) && Copies(n, r) == 1
  {
    assert Copies(n, r) == B(r in n.sent);
  }

  lemma PoliteNeverCrowds(n: Net, a: Action)
    requires Inv(n) && OnePerSocket(n)
    ensures !Crowds(n, a)
  {
    if a == Process(false) && n.queue != [] {
      var r := n.queue[0];
      InPlaceIsOutstanding(n, r);
      if r.sock in n.slots { InPlaceIsOutstanding(n, n.slots[r.sock]); }
      if r.sock in n.receivers && n.receivers[r.sock].Holding? { InPlaceIsOutstanding(n, n.receivers[r.sock].req); }
    }
  }

  /** Only an arrival makes a request outstanding. */
  lemma OutstandingShrinks(n: Net, a: Action, r: Request)
    requires Outstanding(Step(n, a), r)
    ensures Outstanding(n, r) || a == Arrive(r)
  {
    var t := Step(n, a);
    if a.Process? && n.queue != [] {
      OccursAppend(n.answered, [n.queue[0]], r);
      OccursAppend(n.lost, Taken(n, n.queue[0].sock), r);
    } else if a.Resume? && n.ready != [] && n.ready[0] in n.receivers {
      var s := n.ready[0];
      OccursAppend(n.lost, Taken(n, s), r);
      if s in n.slots { OccursAppend(n.answered, [n.slots[s]], r); }
      if n.receivers[s].Holding? { OccursAppend(n.answered, [n.receivers[s].req], r); }
    }
  }

  lemma PoliteKeepsOne(n: Net, a: Action)
    requires OnePerSocket(n) && Polite(n, a)
    ensures OnePerSocket(Step(n, a))
  {
    var t := Step(n, a);
    forall q, r | Outstanding(t, q) && Outstanding(t, r) && q.sock == r.sock ensures q == r {
      OutstandingShrinks(n, a, q);
      OutstandingShrinks(n, a, r);
    }
  }

  ghost predicate PoliteRun(n: Net, actions: seq<Action>)
    decreases |actions|
  {
    actions == [] || (Polite(n, actions[0]) && PoliteRun(Step(n, actions[0]), actions[1..]))
  }

  lemma {:induction false} PoliteRunKeeps(n: Net, actions: seq<Action>)
    requires Inv(n) && Safe(n) && OnePerSocket(n) && PoliteRun(n, actions)
    ensures Inv(Run(n, actions)) && Safe(Run(n, actions))
    decreases |actions|
  {
    if actions != [] {
      StepKeeps(n, actions[0]);
      PoliteNeverCrowds(n, actions[0]);
      LostIffCrowded(n, actions[0]);
      PoliteKeepsOne(n, actions[0]);
      PoliteRunKeeps(Step(n, actions[0]), actions[1..]);
    }
  }

  /** With at most one outstanding request per socket, in every run and whatever the sockets do, no
      request is lost, and each is in exactly one place: still queued, held by the one receive coroutine
      of its socket, which is queued to run, or answered, once. */
  lemma EveryRequestIsAnsweredOrHeld(sockets: set<nat>, actions: seq<Action>, r: Request)
    requires PoliteRun(Init(sockets), actions) && r in Run(Init(sockets), actions).sent
    ensures var n := Run(Init(sockets), actions);
      && n.lost == []
      && Occurs(n.queue, r) + B(r.sock in n.slots && n.slots[r.sock] == r)
         + B(r.sock in n.receivers && n.receivers[r.sock] == Holding(r)) + Occurs(n.answered, r) == 1
      && (Occurs(n.queue, r) == Occurs(n.answered, r) == 0 ==> r.sock in n.ready)
  {
    PoliteRunKeeps(Init(sockets), actions);
    var n := Run(Init(sockets), actions);
    assert Copies(n, r) == B(r in n.sent);
  }

  lemma {:induction false} RunKeeps(n: Net, actions: seq<Action>)
    requires Inv(n)
    ensures Inv(Run(n, actions))
    decreases |actions|
  {
    if actions != [] {
      StepKeeps(n, actions[0]);
      RunKeeps(Step(n, actions[0]), actions[1..]);
    }
  }

  /** No run whatsoever answers a request twice. */
  lemma NeverAnsweredTwice(sockets: set<nat>, actions: seq<Action>, r: Request)
    ensures Occurs(Run(Init(sockets), actions).answered, r) <= 1
  {
    RunKeeps(Init(sockets), actions);
    assert Copies(Run(Init(sockets), actions), r) <= 1;
  }

  /** A receiver with one request held and nothing else going on. */
  function HoldingOnly(s: nat, p: Request): Net {
    Net(map[s := Holding(p)], [], map[], [s], {p}, [], [])
  }

  lemma FirstRequestIsHeld(s: nat, p: Request)
    requires p.sock == s
    ensures Run(Init({s}), [Arrive(p), Process(false), Resume(false)]) == HoldingOnly(s, p)
  {
    var acts := [Arrive(p), Process(false), Resume(false)];
    var n1 := Step(Init({s}), Arrive(p));
    assert n1.queue == [p];
    var n2 := Step(n1, Process(false));
    assert n2.slots == map[s := p] && n2.ready == [s] && n2.queue == [] && n2.lost == [];
    var n3 := Step(n2, Resume(false));
    assert n3.slots == map[] && n3.ready == [s] && n3.receivers == map[s := Holding(p)];
    assert acts[1..][1..] == acts[2..] && acts[2..][1..] == [];
    assert Run(n2, acts[2..]) == Run(n3, []);
  }

  /** Two requests on one socket: the second is parked while the first is held, and is discarded. */
  lemma SecondRequestIsLost(s: nat, p: Request, q: Request)
    requires p != q && p.sock == q.sock == s
    ensures Run(Init({s}), [Arrive(p), Process(false), Resume(false)]) == HoldingOnly(s, p)
    ensures Run(HoldingOnly(s, p), [Arrive(q), Process(false), Resume(false)]).lost == [q]
  {
    FirstRequestIsHeld(s, p);
    var acts := [Arrive(q), Process(false), Resume(false)];
    var n3 := HoldingOnly(s, p);
    var n4 := Step(n3, Arrive(q));
    assert n4.queue == [q];
    var n5 := Step(n4, Process(false));
    assert n5.slots == map[s := q] && n5.ready == [s, s] && n5.lost == [];
    assert Step(n5, Resume(false)).lost == [q];
    assert acts[1..][1..] == acts[2..] && acts[2..][1..] == [];
    assert Run(n5, acts[2..]) == Run(Step(n5, Resume(false)), []);
  }

  // ------------------------------------------------------------------ progress

  /** The request that the first ready coroutine has to serve, if any: the one it holds, else the one in its slot. */
  function ToServe(n: Net): seq<Request> {
    if n.ready == [] || n.ready[0] !in n.receivers then []
    else
      match n.receivers[n.ready[0]]
      case Idle => Taken(n, n.ready[0])
      case Holding(r) => [r]
  }

  /** A coroutine that finds data answers its request and nothing else; without data it answers nothing, keeps its
      request and queues up again behind the others. */
  lemma ResumeServes(n: Net, canRecv: bool)
    requires Sorted(n) && n.ready != []
    ensures var t, s := Step(n, Resume(canRecv)), n.ready[0];
      && t.answered == n.answered + (if canRecv then ToServe(n) else [])
      && s in t.receivers
      && (ToServe(n) != [] ==> t.receivers[s] == if canRecv then Idle else Holding(ToServe(n)[0]))
      && t.ready == n.ready[1..] + (if ToServe(n) != [] && !canRecv then [s] else [])
      && t.queue == n.queue && s !in t.slots
  {}

  /** The server answers the oldest request if there is data, and otherwise parks it with its socket's coroutine. */
  lemma ProcessServes(n: Net, canRecv: bool)
    requires n.queue != []
    ensures var t, r := Step(n, Process(canRecv)), n.queue[0];
      && t.queue == n.queue[1..]
      && (canRecv ==> t.answered == n.answered + [r] && t.slots == n.slots && t.ready == n.ready)
      && (!canRecv ==> t.answered == n.answered && t.slots == n.slots[r.sock := r] && t.ready == n.ready + [r.sock])
  {}

  /** The server takes requests in the order in which they arrive. */
  function Arrived(n: Net, a: Action): seq<Request> {
    if a.Arrive? && a.req !in n.sent && a.req.sock in n.receivers then [a.req] else []
  }

  function TakenUp(n: Net, a: Action): seq<Request> { if a.Process? && n.queue != [] then [n.queue[0]] else [] }

  function AllArrived(n: Net, actions: seq<Action>): seq<Request>
    decreases |actions|
  {
    if actions == [] then [] else Arrived(n, actions[0]) + AllArrived(Step(n, actions[0]), actions[1..])
  }

  function AllTakenUp(n: Net, actions: seq<Action>): seq<Request>
    decreases |actions|
  {
    if actions == [] then [] else TakenUp(n, actions[0]) + AllTakenUp(Step(n, actions[0]), actions[1..])
  }

  lemma StepInOrder(n: Net, a: Action)
    ensures n.queue + Arrived(n, a) == TakenUp(n, a) + Step(n, a).queue
  {
    if a.Process? && n.queue != [] { assert n.queue == [n.queue[0]] + n.queue[1..]; }
  }

  lemma {:induction false} RequestsInOrder(n: Net, actions: seq<Action>)
    ensures n.queue + AllArrived(n, actions) == AllTakenUp(n, actions) + Run(n, actions).queue
    decreases |actions|
  {
    if actions != [] {
      var t := Step(n, actions[0]);
      StepInOrder(n, actions[0]);
      RequestsInOrder(t, actions[1..]);
      Chain(n.queue, Arrived(n, actions[0]), TakenUp(n, actions[0]), t.queue,
            AllArrived(t, actions[1..]), AllTakenUp(t, actions[1..]), Run(t, actions[1..]).queue);
    }
  }

  /** The server looks at one socket after the other, with these answers. */
  function Processes(looks: seq<bool>): seq<Action> {
    if looks == [] then [] else [Process(looks[0])] + Processes(looks[1..])
  }

  /** So many receive coroutines run, each of which finds data. */
  function Resumes(k: nat): seq<Action> {
    if k == 0 then [] else [Resume(true)] + Resumes(k - 1)
  }

  lemma {:induction false} ProcessesPolite(n: Net, looks: seq<bool>)
    ensures PoliteRun(n, Processes(looks))
    decreases |looks|
  {
    if looks != [] {
      assert Processes(looks)[1..] == Processes(looks[1..]);
      ProcessesPolite(Step(n, Process(looks[0])), looks[1..]);
    }
  }

  lemma {:induction false} ResumesPolite(n: Net, k: nat)
    ensures PoliteRun(n, Resumes(k))
    decreases k
  {
    if k > 0 {
      assert Resumes(k)[1..] == Resumes(k - 1);
      ResumesPolite(Step(n, Resume(true)), k - 1);
    }
  }

  lemma {:induction false} ProcessesEmptyQueue(n: Net, looks: seq<bool>)
    requires |looks| == |n.queue|
    ensures Run(n, Processes(looks)).queue == [] && Run(n, Processes(looks)).sent == n.sent
    decreases |looks|
  {
    if looks != [] {
      assert Processes(looks)[1..] == Processes(looks[1..]);
      ProcessesEmptyQueue(Step(n, Process(looks[0])), looks[1..]);
    }
  }

  lemma {:induction false} ResumesEmptyReady(n: Net, k: nat)
    requires Inv(n) && n.queue == [] && k == |n.ready|
    ensures var t := Run(n, Resumes(k)); Inv(t) && t.queue == [] && t.ready == [] && t.sent == n.sent
    decreases k
  {
    if k > 0 {
      assert Resumes(k)[1..] == Resumes(k - 1);
      StepKeeps(n, Resume(true));
      ResumeServes(n, true);
      ResumesEmptyReady(Step(n, Resume(true)), k - 1);
    }
  }

  lemma {:induction false} PoliteRunKeepsOne(n: Net, actions: seq<Action>)
    requires OnePerSocket(n) && PoliteRun(n, actions)
    ensures OnePerSocket(Run(n, actions))
    decreases |actions|
  {
    if actions != [] {
      PoliteKeepsOne(n, actions[0]);
      PoliteRunKeepsOne(Step(n, actions[0]), actions[1..]);
    }
  }

  /** In a state without queued requests and ready coroutines, every request is answered or lost. */
  lemma NothingHeld(n: Net, r: Request)
    requires Inv(n) && n.queue == [] && n.ready == []
    ensures Occurs(n.answered, r) + Occurs(n.lost, r) == B(r in n.sent)
  {
    assert Copies(n, r) == B(r in n.sent);
  }

  /** From any state of a polite run, once the server has gone through its queue, whatever it finds, and each ready
      coroutine has run and found data, every request is answered, once. */
  lemma ServerCatchesUp(sockets: set<nat>, actions: seq<Action>, looks: seq<bool>, r: Request)
    requires PoliteRun(Init(sockets), actions) && r in Run(Init(sockets), actions).sent
    requires |looks| == |Run(Init(sockets), actions).queue|
    ensures var m := Run(Run(Init(sockets), actions), Processes(looks));
      var t := Run(m, Resumes(|m.ready|));
      && t.queue == [] && t.ready == [] && t.lost == []
      && Occurs(t.answered, r) == 1
  {
    var n := Run(Init(sockets), actions);
    PoliteRunKeeps(Init(sockets), actions);
    PoliteRunKeepsOne(Init(sockets), actions);
    ProcessesPolite(n, looks);
    ProcessesEmptyQueue(n, looks);
    PoliteRunKeeps(n, Processes(looks));
    PoliteRunKeepsOne(n, Processes(looks));
    var m := Run(n, Processes(looks));
    ResumesPolite(m, |m.ready|);
    ResumesEmptyReady(m, |m.ready|);
    PoliteRunKeeps(m, Resumes(|m.ready|));
    NothingHeld(Run(m, Resumes(|m.ready|)), r);
  }
}
