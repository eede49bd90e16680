/** Whole runs of `run_until_blocked`: termination, order of polls, and how a run ends. */
module Scheduler {
  import opened Basics
  import opened Words
  import opened Runtime
  import opened RuntimeInvariant

  // ------------------------------------------------------------------ runs

  /** How a run ends: blocked, having polled these coroutines in this order, or in a panic. */
  datatype Result = Stopped(state: State, polls: seq<nat>) | Crashed

  lemma FetchKeeps(s: State)
    requires Inv(s) && Fetch(s).Ok?
    ensures Inv(Fetch(s).value.0) && Fetch(s).value.0.tasks == s.tasks
    ensures BitsExact(s) && Fetch(s).value.1.Some? ==> BitsExact(Fetch(s).value.0)
  {
    ActualWakeKeeps(s);
    TakeKeeps(ActualWake(s).value);
  }

  lemma PollOnce(s: State)
    requires Inv(s) && Fetch(s).Ok? && Fetch(s).value.1.Some?
    requires Poll(Fetch(s).value.0, Fetch(s).value.1.value).Ok?
    ensures var t := Poll(Fetch(s).value.0, Fetch(s).value.1.value).value;
      Inv(t) && Work(t.tasks) + 1 == Work(s.tasks) && (BitsExact(s) ==> BitsExact(t))
  {
    FetchKeeps(s);
    PollKeeps(Fetch(s).value.0, Fetch(s).value.1.value);
    PollWork(Fetch(s).value.0, Fetch(s).value.1.value);
  }

  /** `run_until_blocked`. It terminates because every poll uses up work. */
  function Run(s: State): Result
    requires Inv(s)
    decreases Work(s.tasks)
  {
    match Fetch(s)
    case Panic => Crashed
    case Ok((s1, None)) => Stopped(s1, [])
    case Ok((s1, Some(cid))) =>
      match Poll(s1, cid)
      case Panic => Crashed
      case Ok(s2) =>
        PollOnce(s);
        match Run(s2)
        case Crashed => Crashed
        case Stopped(end, polls) => Stopped(end, [cid] + polls)
  }

  /** A run polls exactly as often as the work it uses up, and keeps the invariant. */
  lemma {:induction false} RunTerminates(s: State)
    requires Inv(s) && Run(s).Stopped?
    ensures |Run(s).polls| + Work(Run(s).state.tasks) == Work(s.tasks)
    ensures Inv(Run(s).state)
    decreases Work(s.tasks)
  {
    FetchKeeps(s);
    var (mid, next) := Fetch(s).value;
    if next.Some? {
      PollOnce(s);
      RunTerminates(Poll(mid, next.value).value);
    }
  }

  // ------------------------------------------------------------------ how a run ends

  /** The queue of the lowest set bit is empty, or the first coroutine in it is gone. */
  predicate Obstructed(s: State) {
    var p := FirstBit(s.bits);
    p < |s.queues| && (s.queues[p] == [] || !Live(s, s.queues[p][0]))
  }

  /** Some fetch of the run meets such an obstruction. */
  predicate Stumbles(s: State)
    requires Inv(s)
    decreases Work(s.tasks)
  {
    ActualWake(s).Ok? &&
    (Obstructed(ActualWake(s).value) ||
     match Fetch(s)
     case Ok((s1, Some(cid))) => (match Poll(s1, cid) case Panic => false case Ok(s2) => PollOnce(s); Stumbles(s2))
     case _ => false)
  }

  /** From any state, a run ends with the bitmap zero if and only if no fetch meets an obstruction, and
      then all ready queues are empty. */
  lemma {:induction false} RunEndsEmpty(s: State)
    requires Inv(s) && Run(s).Stopped?
    ensures Run(s).state.bits == {} <==> !Stumbles(s)
    ensures !Stumbles(s) ==> forall p :: 0 <= p < |Run(s).state.queues| ==> Run(s).state.queues[p] == []
    decreases Work(s.tasks)
  {
    FetchKeeps(s);
    RunTerminates(s);
    var (mid, next) := Fetch(s).value;
    if next.Some? {
      PollOnce(s);
      RunEndsEmpty(Poll(mid, next.value).value);
    } else {
      ActualWakeKeeps(s);
    }
  }

  // ------------------------------------------------------------------ the abstract scheduler

  /** One FIFO list per priority, the coroutines and the deferred wakes: no bitmap, no capacity. */
  datatype Sched = Sched(lists: seq<seq<nat>>, tasks: seq<Option<Task>>, pending: set<nat>)

  function Abs(s: State): Sched { Sched(s.queues, s.tasks, s.pending) }

  /** A live coroutine joins the list of its priority. */
  function Join(a: Sched, id: nat): Sched {
    if id < |a.tasks| && a.tasks[id].Some? && a.tasks[id].value.prio < |a.lists| then
      var p := a.tasks[id].value.prio;
      a.(lists := a.lists[p := a.lists[p] + [id]])
    else a
  }

  function FirstFree(tasks: seq<Option<Task>>, i: nat): nat
    decreases |tasks| - i
  {
    if i < |tasks| && tasks[i].Some? then FirstFree(tasks, i + 1) else i
  }

  function AbsAct(a: Sched, self: nat, act: Action): Sched {
    match act
    case Wake(id) => Join(a, id)
    case WakeSelf => Join(a, self)
    case Spawn(prio, body) =>
      var id := FirstFree(a.tasks, 0);
      if id < |a.tasks| then Join(a.(tasks := a.tasks[id := Some(Task(id, prio, body))]), id) else a
    case Interrupt(ids) => a.(pending := a.pending + ids)
    case Switch =>
      var a1 := JoinFrom(a.(pending := {}), a.pending, 0);
      if self < |a1.tasks| && a1.tasks[self].Some? && Lowest(a1.lists, 0) < a1.tasks[self].value.prio
      then Join(a1, self) else a1
  }

  function AbsPerform(a: Sched, self: nat, acts: seq<Action>): Sched
    decreases |acts|
  {
    if acts == [] then a else AbsPerform(AbsAct(a, self, acts[0]), self, acts[1..])
  }

  /** The deferred wakes are carried out in ascending order. */
  function JoinFrom(a: Sched, pending: set<nat>, i: nat): Sched
    requires i <= WORD
    decreases WORD - i
  {
    if i == WORD then a else JoinFrom(if Handled(pending, i) then Join(a, i) else a, pending, i + 1)
  }

  /** The lowest-numbered non-empty list. */
  function Lowest(lists: seq<seq<nat>>, p: nat): (r: nat)
    requires p <= |lists|
    ensures p <= r <= |lists| && (r < |lists| ==> lists[r] != [])
    ensures forall q :: p <= q < r ==> lists[q] == []
    decreases |lists| - p
  {
    if p == |lists| || lists[p] != [] then p else Lowest(lists, p + 1)
  }

  function AbsPoll(a: Sched, id: nat): Sched
    requires id < |a.tasks| && a.tasks[id].Some?
  {
    var body := a.tasks[id].value.body;
    var a1 := AbsPerform(a, id, body.acts);
    if id < |a1.tasks| && a1.tasks[id].Some? then
      a1.(tasks := a1.tasks[id := if body.Finish? then None else Some(a1.tasks[id].value.(body := body.rest))])
    else a1
  }

  /** The polls are those of the abstract scheduler: it carries out the deferred wakes, takes the first
      coroutine of the lowest-numbered non-empty list and polls it, until all lists are empty. */
  predicate Follows(a: Sched, polls: seq<nat>)
    decreases |polls|
  {
    var a1 := JoinFrom(a.(pending := {}), a.pending, 0);
    var p := Lowest(a1.lists, 0);
    if polls == [] then p == |a1.lists|
    else
      && p < |a1.lists|
      && a1.lists[p][0] == polls[0]
      && polls[0] < |a1.tasks| && a1.tasks[polls[0]].Some?
      && Follows(AbsPoll(a1.(lists := a1.lists[p := a1.lists[p][1..]]), polls[0]), polls[1..])
  }

  // ------------------------------------------------------------------ the executor follows it

  /** With exact bits, the lowest set bit is that of the lowest-numbered non-empty queue. */
  lemma FirstBitIsLowest(s: State)
    requires Shape(s) && BitsExact(s)
    ensures var p := Lowest(s.queues, 0); FirstBit(s.bits) == if p < |s.queues| then p else WORD
  {
    var p := Lowest(s.queues, 0);
    if p < |s.queues| {
      assert p in s.bits;
      assert Min(s.bits) == p;
    } else {
      assert s.bits == {};
    }
  }

  /** Every queued id belongs to a live coroutine of that priority. */
  ghost predicate Homed(s: State) {
    forall p, k :: 0 <= p < |s.queues| && 0 <= k < |s.queues[p]| ==>
      && s.queues[p][k] < |s.tasks|
      && s.tasks[s.queues[p][k]].Some?
      && s.tasks[s.queues[p][k]].value.prio == p
  }

  predicate Queued(s: State, id: nat) { exists p :: 0 <= p < |s.queues| && id in s.queues[p] }

  /** No coroutine of the run finishes while its id is still queued. */
  ghost predicate Disciplined(s: State)
    requires Inv(s)
    decreases Work(s.tasks)
  {
    match Fetch(s)
    case Panic => true
    case Ok((s1, None)) => true
    case Ok((s1, Some(cid))) =>
      match Poll(s1, cid)
      case Panic => true
      case Ok(s2) =>
        PollOnce(s);
        && (s1.tasks[cid].value.body.Finish? ==> !Queued(s2, cid))
        && Disciplined(s2)
  }

  lemma WakeFollows(s: State, cid: nat)
    requires Inv(s) && WakeTask(s, cid).Ok?
    ensures Abs(WakeTask(s, cid).value) == Join(Abs(s), cid)
    ensures Homed(s) ==> Homed(WakeTask(s, cid).value)
  {}

  lemma {:induction false} FirstFreeIsLeastFree(s: State, i: nat)
    requires IdsAgree(s) && |s.tasks| <= MAX_ID && i <= |s.tasks|
    requires LeastFree(s.ids, i, MAX_ID).Some? && LeastFree(s.ids, i, MAX_ID).value < |s.tasks|
    ensures FirstFree(s.tasks, i) == LeastFree(s.ids, i, MAX_ID).value
    decreases |s.tasks| - i
  {
    if i < |s.tasks| && s.tasks[i].Some? { FirstFreeIsLeastFree(s, i + 1); }
  }

  lemma SpawnFollows(s: State, prio: nat, body: Script)
    requires Inv(s) && SpawnTask(s, prio, body).Ok?
    ensures Abs(SpawnTask(s, prio, body).value) == AbsAct(Abs(s), 0, Spawn(prio, body))
    ensures Homed(s) ==> Homed(SpawnTask(s, prio, body).value)
  {
    FirstFreeIsLeastFree(s, 0);
  }

  lemma {:induction false} WakeFromFollows(s: State, pending: set<nat>, i: nat)
    requires Inv(s) && i <= WORD && WakeFrom(s, pending, i).Ok?
    ensures Abs(WakeFrom(s, pending, i).value) == JoinFrom(Abs(s), pending, i)
    ensures Homed(s) ==> Homed(WakeFrom(s, pending, i).value)
    decreases WORD - i
  {
    if i < WORD {
      if Handled(pending, i) {
        WakeKeeps(s, i);
        WakeFollows(s, i);
        WakeFromFollows(WakeTask(s, i).value, pending, i + 1);
      } else {
        WakeFromFollows(s, pending, i + 1);
      }
    }
  }

  lemma SwitchFollows(s: State, self: nat)
    requires Inv(s) && Homed(s) && BitsExact(s) && s.current == Some(self) && Act(s, self, Switch).Ok?
    ensures Abs(Act(s, self, Switch).value) == AbsAct(Abs(s), self, Switch) && Homed(Act(s, self, Switch).value)
  {
    ActualWakeKeeps(s);
    WakeFromFollows(s.(pending := {}), s.pending, 0);
    var (s1, up) := SwitchPossible(s).value;
    FirstBitIsLowest(s1);
    if up { WakeFollows(s1, self); }
  }

  lemma {:induction false} PerformFollows(s: State, self: nat, acts: seq<Action>)
    requires Inv(s) && Homed(s) && BitsExact(s) && s.current == Some(self) && Perform(s, self, acts).Ok?
    ensures Abs(Perform(s, self, acts).value) == AbsPerform(Abs(s), self, acts)
    ensures Homed(Perform(s, self, acts).value)
    decreases |acts|
  {
    if acts != [] {
      ActKeeps(s, self, acts[0]);
      match acts[0] {
        case Wake(id) => WakeFollows(s, id);
        case WakeSelf => WakeFollows(s, self);
        case Spawn(prio, body) => SpawnFollows(s, prio, body);
        case Interrupt(_) =>
        case Switch => SwitchFollows(s, self);
      }
      PerformFollows(Act(s, self, acts[0]).value, self, acts[1..]);
    }
  }

  lemma PollFollows(s: State, cid: nat)
    requires Inv(s) && Homed(s) && BitsExact(s) && s.current == Some(cid) && Live(s, cid) && Poll(s, cid).Ok?
    requires s.tasks[cid].value.body.Finish? ==> !Queued(Poll(s, cid).value, cid)
    ensures Abs(Poll(s, cid).value) == AbsPoll(Abs(s), cid) && Homed(Poll(s, cid).value)
  {
    var body := s.tasks[cid].value.body;
    PerformFollows(s, cid, body.acts);
    PerformKeeps(s, cid, body.acts);
    var m, t := Perform(s, cid, body.acts).value, Poll(s, cid).value;
    forall p, k | 0 <= p < |t.queues| && 0 <= k < |t.queues[p]|
      ensures t.tasks[t.queues[p][k]].Some? && t.tasks[t.queues[p][k]].value.prio == p
    {
      assert m.queues[p][k] == t.queues[p][k];
      assert t.queues[p][k] in t.queues[p];
    }
  }

  /** With exact bits and only live ids queued, a fetch takes the head of the lowest non-empty list. */
  lemma TakeFollows(s: State)
    requires Inv(s) && Homed(s) && BitsExact(s)
    ensures var p := Lowest(s.queues, 0);
      && Take(s).Ok? && Homed(Take(s).value.0)
      && (Take(s).value.1.None? <==> p == |s.queues|)
      && (Take(s).value.1.None? ==> Take(s).value.0 == s)
      && (Take(s).value.1.Some? ==>
            && Take(s).value.1.value == s.queues[p][0]
            && Take(s).value.0.current == Take(s).value.1
            && Abs(Take(s).value.0) == Abs(s).(lists := s.queues[p := s.queues[p][1..]]))
  {
    FirstBitIsLowest(s);
  }

  /** A fetch carries out the deferred wakes and takes the head of the lowest non-empty list. */
  lemma FetchFollows(s: State)
    requires Inv(s) && Homed(s) && BitsExact(s) && Fetch(s).Ok?
    ensures var a1 := JoinFrom(Abs(s).(pending := {}), s.pending, 0);
      var p := Lowest(a1.lists, 0);
      var (mid, next) := Fetch(s).value;
      && Inv(mid) && Homed(mid)
      && (next.None? ==> p == |a1.lists| && !Obstructed(ActualWake(s).value))
      && (next.Some? ==>
            && p < |a1.lists| && next.value == a1.lists[p][0] && !Obstructed(ActualWake(s).value)
            && BitsExact(mid) && mid.current == next
            && Abs(mid) == a1.(lists := a1.lists[p := a1.lists[p][1..]]))
  {
    FetchKeeps(s);
    ActualWakeKeeps(s);
    WakeFromFollows(s.(pending := {}), s.pending, 0);
    TakeFollows(ActualWake(s).value);
    FirstBitIsLowest(ActualWake(s).value);
  }

  /** Every run in which no coroutine finishes while it is queued polls in exactly the order of the
      abstract scheduler, and it ends with all queues empty and the bitmap zero. Wakes of finished
      coroutines and repeated wakes do no harm. */
  lemma {:induction false} RunFollowsScheduler(s: State)
    requires Inv(s) && Homed(s) && BitsExact(s) && Disciplined(s) && Run(s).Stopped?
    ensures Follows(Abs(s), Run(s).polls)
    ensures !Stumbles(s)
    decreases Work(s.tasks)
  {
    FetchFollows(s);
    var (mid, next) := Fetch(s).value;
    if next.Some? {
      PollOnce(s);
      PollFollows(mid, next.value);
      RunFollowsScheduler(Poll(mid, next.value).value);
    }
  }
}
