/** Deferred wakes, capacity and voluntary switching in the executor. */
module SchedulerLimits {
  import opened Basics
  import opened Words
  import opened Runtime
  import opened RuntimeInvariant
  import opened Scheduler

  // ------------------------------------------------------------------ deferred wakes

  /** The ids of `i..63` that `actual_wake` queues at priority `p`, in order. */
  function WokenAt(tasks: seq<Option<Task>>, pending: set<nat>, p: nat, i: nat): seq<nat>
    requires i <= WORD
    decreases WORD - i
  {
    if i == WORD then []
    else if Handled(pending, i) && i < |tasks| && tasks[i].Some? && tasks[i].value.prio == p
    then [i] + WokenAt(tasks, pending, p, i + 1)
    else WokenAt(tasks, pending, p, i + 1)
  }

  /** `actual_wake` appends to each ready queue exactly the handled pending ids of that priority. */
  lemma {:induction false} WakeFromAppends(s: State, pending: set<nat>, i: nat, p: nat)
    requires Inv(s) && i <= WORD && WakeFrom(s, pending, i).Ok? && p < MAX_PRIO_NUM
    ensures |WakeFrom(s, pending, i).value.queues| == MAX_PRIO_NUM
    ensures WakeFrom(s, pending, i).value.queues[p] == s.queues[p] + WokenAt(s.tasks, pending, p, i)
    decreases WORD - i
  {
    if i < WORD {
      if Handled(pending, i) {
        var s1 := WakeTask(s, i).value;
        WakeKeeps(s, i);
        WakeFromAppends(s1, pending, i + 1, p);
        if s.tasks[i].Some? && s.tasks[i].value.prio == p {
          assert s1.queues[p] == s.queues[p] + [i];
        }
      } else {
        WakeFromAppends(s, pending, i + 1, p);
      }
    }
  }

  /** The woken ids ascend, so each is woken once, and they are exactly the handled ones. */
  lemma {:induction false} WokenAtIsHandled(tasks: seq<Option<Task>>, pending: set<nat>, p: nat, i: nat)
    requires i <= WORD
    ensures forall id :: id in WokenAt(tasks, pending, p, i) <==>
              i <= id < WORD && Handled(pending, id) && id < |tasks| && tasks[id].Some? && tasks[id].value.prio == p
    ensures forall j, k :: 0 <= j < k < |WokenAt(tasks, pending, p, i)| ==>
              WokenAt(tasks, pending, p, i)[j] < WokenAt(tasks, pending, p, i)[k]
    decreases WORD - i
  {
    if i < WORD {
      var rest := WokenAt(tasks, pending, p, i + 1);
      WokenAtIsHandled(tasks, pending, p, i + 1);
      forall j, k | 0 <= j < k < |WokenAt(tasks, pending, p, i)|
        ensures WokenAt(tasks, pending, p, i)[j] < WokenAt(tasks, pending, p, i)[k]
      {
        if WokenAt(tasks, pending, p, i) != rest {
          assert rest[k - 1] in rest;
        }
      }
    }
  }

  /** How often a pending id can be halved to a pending id again. */
  function Halvings(pending: set<nat>, i: nat): nat {
    if i > 0 && i % 2 == 0 && i / 2 in pending then 1 + Halvings(pending, i / 2) else 0
  }

  /** Which pending ids are woken, read off the pending word: those with an even number of halvings. */
  lemma {:induction false} HandledIffEvenHalvings(pending: set<nat>, i: nat)
    ensures Handled(pending, i) <==> i in pending && Halvings(pending, i) % 2 == 0
  {
    if i > 0 && i % 2 == 0 { HandledIffEvenHalvings(pending, i / 2); }
  }

  /** Every pending id is handled if and only if no positive id is pending together with its double. */
  lemma AllHandledIff(pending: set<nat>)
    ensures (forall i :: i in pending ==> Handled(pending, i)) <==>
            !(exists i: nat :: i >= 1 && i in pending && 2 * i in pending)
  {
    if i: nat :| i >= 1 && i in pending && 2 * i in pending {
      assert 2 * i / 2 == i && 2 * i % 2 == 0;
      assert !Handled(pending, 2 * i) || !Handled(pending, i);
    } else {
      forall i | i in pending ensures Handled(pending, i) {
        if i > 0 && i % 2 == 0 { assert 2 * (i / 2) == i; }
      }
    }
  }

  /** Ids 1 and 2 pending together: 2 is dropped. With 4 as well, 4 is woken after all. */
  lemma PendingIdDropped()
    ensures Handled({1, 2}, 1) && !Handled({1, 2}, 2)
    ensures !Handled({1, 2, 4}, 2) && Handled({1, 2, 4}, 4)
  {
    HandledIffEvenHalvings({1, 2}, 2);
    HandledIffEvenHalvings({1, 2, 4}, 2);
    HandledIffEvenHalvings({1, 2, 4}, 4);
  }

  // ------------------------------------------------------------------ capacity

  /** Every live coroutine is queued at most once. */
  ghost predicate Once(s: State) {
    && Homed(s)
    && forall p, j, k :: 0 <= p < |s.queues| && 0 <= j < k < |s.queues[p]| ==> s.queues[p][j] != s.queues[p][k]
  }

  lemma {:induction false} DistinctFits(q: seq<nat>, ids: set<nat>)
    requires forall k :: 0 <= k < |q| ==> q[k] in ids
    requires forall j, k :: 0 <= j < k < |q| ==> q[j] != q[k]
    ensures |q| <= |ids|
  {
    if q != [] {
      forall k | 0 <= k < |q[1..]| ensures q[1..][k] in ids - {q[0]} {
        assert q[1..][k] == q[k + 1];
      }
      DistinctFits(q[1..], ids - {q[0]});
    }
  }

  /** A wake of a coroutine that is gone, or that is not queued. */
  ghost predicate CarefulWake(s: State, id: nat) {
    id < |s.tasks| && (s.tasks[id].Some? ==> !Queued(s, id))
  }

  ghost predicate Careful(s: State, self: nat, a: Action) {
    match a
    case Wake(id) => CarefulWake(s, id)
    case WakeSelf => CarefulWake(s, self)
    case Spawn(prio, _) => prio < MAX_PRIO_NUM && s.num + 1 < MAX_TASK_NUM
    case Interrupt(ids) => forall id :: id in ids ==> id < WORD
    case Switch =>
      && CarefulPending(s.(pending := {}), s.pending, 0)
      && (SwitchPossible(s).Ok? && SwitchPossible(s).value.1 ==> CarefulWake(SwitchPossible(s).value.0, self))
  }

  ghost predicate CarefulActs(s: State, self: nat, acts: seq<Action>)
    decreases |acts|
  {
    acts == [] ||
    (Careful(s, self, acts[0]) && (Act(s, self, acts[0]).Ok? ==> CarefulActs(Act(s, self, acts[0]).value, self, acts[1..])))
  }

  ghost predicate CarefulPending(s: State, pending: set<nat>, i: nat)
    requires i <= WORD
    decreases WORD - i
  {
    i == WORD ||
    (if Handled(pending, i)
     then CarefulWake(s, i) && (WakeTask(s, i).Ok? ==> CarefulPending(WakeTask(s, i).value, pending, i + 1))
     else CarefulPending(s, pending, i + 1))
  }

  /** Throughout the run, wakes target only unqueued coroutines, no coroutine finishes while it is
      queued, and fewer than MAX_TASK_NUM coroutines are live. */
  ghost predicate CarefulRun(s: State)
    requires Inv(s)
    decreases Work(s.tasks)
  {
    && CarefulPending(s.(pending := {}), s.pending, 0)
    && match Fetch(s)
       case Panic => true
       case Ok((s1, None)) => true
       case Ok((s1, Some(cid))) =>
         && CarefulActs(s1, cid, s1.tasks[cid].value.body.acts)
         && match Poll(s1, cid)
            case Panic => true
            case Ok(s2) =>
              PollOnce(s);
              && (s1.tasks[cid].value.body.Finish? ==> !Queued(s2, cid))
              && CarefulRun(s2)
  }

  /** A priority's queue has room for a live coroutine that is not queued. */
  lemma CarefulWakeFits(s: State, id: nat)
    requires Inv(s) && Once(s) && CarefulWake(s, id) && s.num < MAX_TASK_NUM
    ensures WakeTask(s, id).Ok? && Once(WakeTask(s, id).value) && WakeTask(s, id).value.num == s.num
  {
    if s.tasks[id].Some? {
      var p := s.tasks[id].value.prio;
      var q := s.queues[p];
      forall k | 0 <= k < |q| ensures q[k] in s.ids - {id} {
        assert q[k] in q;
      }
      DistinctFits(q, s.ids - {id});
    }
  }

  lemma CarefulSpawnFits(s: State, prio: nat, body: Script)
    requires Inv(s) && Once(s) && prio < MAX_PRIO_NUM && s.num + 1 < MAX_TASK_NUM
    ensures SpawnTask(s, prio, body).Ok? && Once(SpawnTask(s, prio, body).value)
    ensures SpawnTask(s, prio, body).value.num == s.num + 1
  {
    NewIdFits(s);
    var q := s.queues[prio];
    forall k | 0 <= k < |q| ensures q[k] in s.ids {}
    DistinctFits(q, s.ids);
    SpawnFollows(s, prio, body);
  }

  lemma {:induction false} CarefulPendingFits(s: State, pending: set<nat>, i: nat)
    requires Inv(s) && Once(s) && i <= WORD && CarefulPending(s, pending, i) && s.num < MAX_TASK_NUM
    ensures WakeFrom(s, pending, i).Ok? && Once(WakeFrom(s, pending, i).value)
    ensures WakeFrom(s, pending, i).value.num == s.num
    decreases WORD - i
  {
    if i < WORD {
      if Handled(pending, i) {
        CarefulWakeFits(s, i);
        WakeKeeps(s, i);
        CarefulPendingFits(WakeTask(s, i).value, pending, i + 1);
      } else {
        CarefulPendingFits(s, pending, i + 1);
      }
    }
  }

  lemma CarefulSwitchFits(s: State, self: nat)
    requires Inv(s) && Once(s) && Careful(s, self, Switch) && s.num < MAX_TASK_NUM
    requires s.current == Some(self) && Live(s, self)
    ensures Act(s, self, Switch).Ok? && Once(Act(s, self, Switch).value) && Act(s, self, Switch).value.num == s.num
  {
    CarefulPendingFits(s.(pending := {}), s.pending, 0);
    ActualWakeKeeps(s);
    var (s1, up) := SwitchPossible(s).value;
    if up { CarefulWakeFits(s1, self); }
  }

  lemma {:induction false} CarefulActsFit(s: State, self: nat, acts: seq<Action>)
    requires Inv(s) && Once(s) && CarefulActs(s, self, acts) && s.num < MAX_TASK_NUM
    requires s.current == Some(self) && Live(s, self)
    ensures Perform(s, self, acts).Ok? && Once(Perform(s, self, acts).value)
    ensures Perform(s, self, acts).value.num < MAX_TASK_NUM
    decreases |acts|
  {
    if acts != [] {
      match acts[0] {
        case Wake(id) => CarefulWakeFits(s, id);
        case WakeSelf => CarefulWakeFits(s, self);
        case Spawn(prio, body) => CarefulSpawnFits(s, prio, body);
        case Interrupt(_) =>
        case Switch => CarefulSwitchFits(s, self);
      }
      ActKeeps(s, self, acts[0]);
      ActWork(s, self, acts[0]);
      CarefulActsFit(Act(s, self, acts[0]).value, self, acts[1..]);
    }
  }

  /** The poll of a careful coroutine does not panic. */
  lemma CarefulPollFits(s: State, cid: nat)
    requires Inv(s) && Once(s) && BitsExact(s) && s.current == Some(cid) && Live(s, cid) && s.num < MAX_TASK_NUM
    requires CarefulActs(s, cid, s.tasks[cid].value.body.acts)
    ensures Poll(s, cid).Ok? && Poll(s, cid).value.num < MAX_TASK_NUM
    ensures (s.tasks[cid].value.body.Finish? ==> !Queued(Poll(s, cid).value, cid)) ==> Once(Poll(s, cid).value)
  {
    var body := s.tasks[cid].value.body;
    CarefulActsFit(s, cid, body.acts);
    PerformWork(s, cid, body.acts);
    PerformKeeps(s, cid, body.acts);
    var m := Perform(s, cid, body.acts).value;
    assert cid in m.ids;
    if body.Finish? ==> !Queued(Poll(s, cid).value, cid) {
      PollFollows(s, cid);
    }
  }

  /** A careful run never panics: no ready queue overflows and no id leaves the table. It also polls in
      the abstract scheduler's order and ends with empty queues and a zero bitmap. */
  lemma {:induction false} CarefulRunsNeverPanic(s: State)
    requires Inv(s) && Once(s) && BitsExact(s) && s.num < MAX_TASK_NUM && CarefulRun(s)
    ensures Run(s).Stopped? && Disciplined(s)
    ensures Follows(Abs(s), Run(s).polls) && Run(s).state.bits == {}
    decreases Work(s.tasks)
  {
    CarefulPendingFits(s.(pending := {}), s.pending, 0);
    ActualWakeKeeps(s);
    var s0 := ActualWake(s).value;
    TakeFollows(s0);
    FetchKeeps(s);
    var (mid, next) := Fetch(s).value;
    if next.Some? {
      CarefulPollFits(mid, next.value);
      PollOnce(s);
      CarefulRunsNeverPanic(Poll(mid, next.value).value);
    }
    RunFollowsScheduler(s);
    RunEndsEmpty(s);
  }

  // ------------------------------------------------------------------ possible_switch

  lemma SwitchedFetch(s: State, self: nat, prio: nat, up: nat)
    requires Inv(s) && Homed(s) && BitsExact(s) && Fetch(s).Ok?
    requires up < prio < MAX_PRIO_NUM && s.queues[up] != [] && self in s.queues[prio]
    ensures Fetch(s).value.1.Some?
    ensures Fetch(s).value.0.tasks[Fetch(s).value.1.value].value.prio < prio
    ensures prio < |Fetch(s).value.0.queues| && self in Fetch(s).value.0.queues[prio]
  {
    var s1 := s.(pending := {});
    WakeFromFollows(s1, s.pending, 0);
    WakeFromAppends(s1, s.pending, 0, prio);
    WakeFromAppends(s1, s.pending, 0, up);
    ActualWakeKeeps(s);
    var m := ActualWake(s).value;
    TakeFollows(m);
    assert self in m.queues[prio];
  }

  /** If `possible_switch` yields, the next coroutine fetched, whatever interrupts arrive meanwhile, has
      strictly higher priority than the yielder, which stays queued. If it does not yield, no coroutine
      of strictly higher priority is ready. */
  lemma SwitchGoesUp(s: State, self: nat, extra: set<nat>)
    requires Inv(s) && Homed(s) && BitsExact(s) && s.current == Some(self) && SwitchPossible(s).Ok?
    ensures var (s1, switch) := SwitchPossible(s).value;
      var prio := s1.tasks[self].value.prio;
      && prio < MAX_PRIO_NUM == |s1.queues|
      && (!switch ==> forall p :: 0 <= p < prio ==> s1.queues[p] == [])
      && (switch && WakeTask(s1, self).Ok? && Fetch(WakeTask(s1, self).value.(pending := extra)).Ok? ==>
            var (s2, next) := Fetch(WakeTask(s1, self).value.(pending := extra)).value;
            && next.Some?
            && s2.tasks[next.value].value.prio < prio
            && prio < |s2.queues| && self in s2.queues[prio])
  {
    ActualWakeKeeps(s);
    WakeFromFollows(s.(pending := {}), s.pending, 0);
    var (s1, switch) := SwitchPossible(s).value;
    if switch && WakeTask(s1, self).Ok? {
      var s2 := WakeTask(s1, self).value.(pending := extra);
      WakeKeeps(s1, self);
      WakeFollows(s1, self);
      if Fetch(s2).Ok? { SwitchedFetch(s2, self, s1.tasks[self].value.prio, FirstBit(s1.bits)); }
    }
  }
}
