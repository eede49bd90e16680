/** What every operation of the executor keeps, and how much work is left. */
module RuntimeInvariant {
  import opened Basics
  import opened Words
  import opened Runtime

  // ------------------------------------------------------------------ the invariant

  /** The allocated ids, the occupied table entries and `coroutine_num` agree. */
  ghost predicate IdsAgree(s: State) {
    && (forall i :: i in s.ids <==> 0 <= i < |s.tasks| && s.tasks[i].Some?)
    && s.num == |s.ids|
  }

  /** A priority with a queued coroutine has its bit set. */
  ghost predicate BitsCover(s: State) {
    forall p :: 0 <= p < |s.queues| && s.queues[p] != [] ==> p in s.bits
  }

  /** A priority's bit is set exactly if a coroutine is queued there. */
  ghost predicate BitsExact(s: State) {
    forall p :: p in s.bits <==> 0 <= p < |s.queues| && s.queues[p] != []
  }

  ghost predicate Inv(s: State) { Shape(s) && IdsAgree(s) && BitsCover(s) }

  lemma EmptyInv()
    ensures Inv(Empty()) && BitsExact(Empty())
  {}

  lemma EnqueueKeeps(s: State, prio: nat, cid: nat)
    requires Inv(s) && Enqueue(s, prio, cid).Ok? && cid < MAX_TASK_NUM
    ensures Inv(Enqueue(s, prio, cid).value)
    ensures BitsExact(s) ==> BitsExact(Enqueue(s, prio, cid).value)
  {}

  lemma {:induction false} InitialSegment(ids: set<nat>, n: nat)
    requires forall i :: 0 <= i < n ==> i in ids
    ensures n <= |ids|
  {
    if n > 0 { InitialSegment(ids - {n - 1}, n - 1); }
  }

  /** Least-free allocation gives a new coroutine an id no larger than the number of live ones, so
      with fewer than MAX_TASK_NUM of them it fits the coroutine table although the allocator has more ids. */
  lemma NewIdFits(s: State)
    requires IdsAgree(s) && |s.tasks| == MAX_TASK_NUM
    ensures s.num < MAX_TASK_NUM ==>
              && LeastFree(s.ids, 0, MAX_ID).Some?
              && LeastFree(s.ids, 0, MAX_ID).value <= s.num
              && !Live(s, LeastFree(s.ids, 0, MAX_ID).value)
  {
    var r := LeastFree(s.ids, 0, MAX_ID);
    InitialSegment(s.ids, if r.Some? then r.value else MAX_ID);
  }

  lemma SpawnKeeps(s: State, prio: nat, body: Script)
    requires Inv(s) && SpawnTask(s, prio, body).Ok?
    ensures Inv(SpawnTask(s, prio, body).value)
    ensures BitsExact(s) ==> BitsExact(SpawnTask(s, prio, body).value)
  {
    var cid := LeastFree(s.ids, 0, MAX_ID).value;
    EnqueueKeeps(s, prio, cid);
  }

  lemma WakeKeeps(s: State, cid: nat)
    requires Inv(s) && WakeTask(s, cid).Ok?
    ensures Inv(WakeTask(s, cid).value)
    ensures BitsExact(s) ==> BitsExact(WakeTask(s, cid).value)
  {
    if s.tasks[cid].Some? { EnqueueKeeps(s, s.tasks[cid].value.prio, cid); }
  }

  lemma {:induction false} WakeFromKeeps(s: State, pending: set<nat>, i: nat)
    requires Inv(s) && i <= WORD && WakeFrom(s, pending, i).Ok?
    ensures Inv(WakeFrom(s, pending, i).value)
    ensures BitsExact(s) ==> BitsExact(WakeFrom(s, pending, i).value)
    ensures var t := WakeFrom(s, pending, i).value; t.tasks == s.tasks && t.current == s.current && t.pending == s.pending
    decreases WORD - i
  {
    if i < WORD {
      if Handled(pending, i) {
        WakeKeeps(s, i);
        WakeFromKeeps(WakeTask(s, i).value, pending, i + 1);
      } else {
        WakeFromKeeps(s, pending, i + 1);
      }
    }
  }

  /** Where no pending id is handled any more, nothing is woken. */
  lemma {:induction false} NoneLeft(s: State, pending: set<nat>, i: nat)
    requires i <= WORD && forall id :: i <= id < WORD ==> !Handled(pending, id)
    ensures WakeFrom(s, pending, i) == Ok(s)
    decreases WORD - i
  {
    if i < WORD { NoneLeft(s, pending, i + 1); }
  }

  lemma ActualWakeKeeps(s: State)
    requires Inv(s) && ActualWake(s).Ok?
    ensures Inv(ActualWake(s).value)
    ensures var t := ActualWake(s).value; t.tasks == s.tasks && t.current == s.current && t.pending == {}
    ensures BitsExact(s) ==> BitsExact(ActualWake(s).value)
  {
    WakeFromKeeps(s.(pending := {}), s.pending, 0);
  }

  /** Taking an id keeps the invariant; it keeps the bits exact unless it discards a dead id. */
  lemma TakeKeeps(s: State)
    requires Inv(s)
    ensures Take(s).Ok? && Inv(Take(s).value.0) && Take(s).value.0.tasks == s.tasks
    ensures BitsExact(s) ==> (BitsExact(Take(s).value.0) || (Take(s).value.1.None? && Take(s).value.0 != s))
    ensures BitsExact(s) && Take(s).value.1.Some? ==> BitsExact(Take(s).value.0)
  {}

  /** A voluntary switch keeps the invariant and changes no coroutine. */
  lemma SwitchKeeps(s: State, self: nat)
    requires Inv(s) && Act(s, self, Switch).Ok?
    ensures var t := Act(s, self, Switch).value;
      && Inv(t) && (BitsExact(s) ==> BitsExact(t)) && t.tasks == s.tasks && t.current == s.current
  {
    ActualWakeKeeps(s);
    var (s1, up) := SwitchPossible(s).value;
    if up { WakeKeeps(s1, s.current.value); }
  }

  lemma ActKeeps(s: State, self: nat, a: Action)
    requires Inv(s) && Act(s, self, a).Ok?
    ensures Inv(Act(s, self, a).value) && Act(s, self, a).value.current == s.current
    ensures BitsExact(s) ==> BitsExact(Act(s, self, a).value)
  {
    match a {
      case Wake(id) => WakeKeeps(s, id);
      case WakeSelf => WakeKeeps(s, self);
      case Spawn(prio, body) => SpawnKeeps(s, prio, body);
      case Interrupt(_) =>
      case Switch => SwitchKeeps(s, self);
    }
  }

  lemma {:induction false} PerformKeeps(s: State, self: nat, acts: seq<Action>)
    requires Inv(s) && Perform(s, self, acts).Ok?
    ensures Inv(Perform(s, self, acts).value)
    ensures BitsExact(s) ==> BitsExact(Perform(s, self, acts).value)
    decreases |acts|
  {
    if acts != [] {
      ActKeeps(s, self, acts[0]);
      PerformKeeps(Act(s, self, acts[0]).value, self, acts[1..]);
    }
  }

  lemma SettleKeeps(s: State, cid: nat, body: Script)
    requires Inv(s) && Settle(s, cid, body).Ok?
    ensures Inv(Settle(s, cid, body).value)
    ensures BitsExact(s) ==> BitsExact(Settle(s, cid, body).value)
  {}

  lemma PollKeeps(s: State, cid: nat)
    requires Inv(s) && Live(s, cid) && Poll(s, cid).Ok?
    ensures Inv(Poll(s, cid).value)
    ensures BitsExact(s) ==> BitsExact(Poll(s, cid).value)
  {
    var body := s.tasks[cid].value.body;
    PerformKeeps(s, cid, body.acts);
    SettleKeeps(Perform(s, cid, body.acts).value, cid, body);
  }

  // ------------------------------------------------------------------ work

  lemma {:induction false} WorkUpdate(tasks: seq<Option<Task>>, i: nat, t: Option<Task>)
    requires i < |tasks|
    ensures Work(tasks[i := t]) == Work(tasks) - TaskSize(tasks[i]) + TaskSize(t)
    decreases i
  {
    if i > 0 {
      assert tasks[i := t][1..] == tasks[1..][i - 1 := t];
      WorkUpdate(tasks[1..], i - 1, t);
    } else {
      assert tasks[i := t][1..] == tasks[1..];
    }
  }

  /** An action adds the work of the script that it spawns and touches no live coroutine. */
  lemma ActWork(s: State, self: nat, a: Action)
    requires Inv(s) && Act(s, self, a).Ok?
    ensures |Act(s, self, a).value.tasks| == |s.tasks|
    ensures Work(Act(s, self, a).value.tasks) == Work(s.tasks) + ActSize(a)
    ensures forall i :: 0 <= i < |s.tasks| && s.tasks[i].Some? ==> Act(s, self, a).value.tasks[i] == s.tasks[i]
  {
    if a.Spawn? {
      var cid := LeastFree(s.ids, 0, MAX_ID).value;
      WorkUpdate(s.tasks, cid, Some(Task(cid, a.prio, a.body)));
    } else if a.Switch? {
      SwitchKeeps(s, self);
    }
  }

  lemma {:induction false} PerformWork(s: State, self: nat, acts: seq<Action>)
    requires Inv(s) && Perform(s, self, acts).Ok?
    ensures |Perform(s, self, acts).value.tasks| == |s.tasks|
    ensures Work(Perform(s, self, acts).value.tasks) == Work(s.tasks) + ActsSize(acts)
    ensures forall i :: 0 <= i < |s.tasks| && s.tasks[i].Some? ==> Perform(s, self, acts).value.tasks[i] == s.tasks[i]
    decreases |acts|
  {
    if acts != [] {
      ActWork(s, self, acts[0]);
      ActKeeps(s, self, acts[0]);
      PerformWork(Act(s, self, acts[0]).value, self, acts[1..]);
    }
  }

  /** A poll uses up exactly one unit of work, even if it spawns. */
  lemma PollWork(s: State, cid: nat)
    requires Inv(s) && Live(s, cid) && Poll(s, cid).Ok?
    ensures Work(Poll(s, cid).value.tasks) + 1 == Work(s.tasks)
  {
    var body := s.tasks[cid].value.body;
    var s1 := Perform(s, cid, body.acts).value;
    PerformWork(s, cid, body.acts);
    PerformKeeps(s, cid, body.acts);
    WorkUpdate(s1.tasks, cid, Settle(s1, cid, body).value.tasks[cid]);
  }
}
