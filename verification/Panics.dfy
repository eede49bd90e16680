/** Exactly when the executor panics. */
module Panics {
  import opened Basics
  import opened Words
  import opened Runtime
  import opened RuntimeInvariant
  import opened Scheduler
  import opened SchedulerLimits

  // ------------------------------------------------------------------ wakes and spawns

  /** The ready queue of a priority has room for one more. */
  predicate Room(s: State, prio: nat) { prio < |s.queues| && |s.queues[prio]| + 1 < MAX_TASK_NUM }

  predicate WakeFits(s: State, id: nat) { id < MAX_TASK_NUM && (Live(s, id) ==> Room(s, s.tasks[id].value.prio)) }

  /** A wake panics only for want of a table entry or of room, however often its target is queued already; and
      it queues a live coroutine once more. */
  lemma WakeOkIff(s: State, id: nat)
    requires Inv(s)
    ensures WakeTask(s, id).Ok? <==> WakeFits(s, id)
    ensures WakeTask(s, id).Ok? && Live(s, id) ==>
              var p := s.tasks[id].value.prio;
              WakeTask(s, id).value.queues == s.queues[p := s.queues[p] + [id]]
    ensures WakeTask(s, id).Ok? && !Live(s, id) ==> WakeTask(s, id).value == s
  {}

  /** A spawn panics only for a priority that does not exist, for want of room in its ready queue, or with all
      table entries in use. */
  lemma SpawnOkIff(s: State, prio: nat, body: Script)
    requires Inv(s)
    ensures SpawnTask(s, prio, body).Ok? <==> Room(s, prio) && s.num < MAX_TASK_NUM
    ensures s.num < MAX_TASK_NUM <==> LeastFree(s.ids, 0, MAX_ID).Some? && LeastFree(s.ids, 0, MAX_ID).value < MAX_TASK_NUM
  {
    NewIdFits(s);
    AllBelow(s.ids, MAX_TASK_NUM);
  }

  // ------------------------------------------------------------------ deferred wakes

  /** Each ready queue has room for all the deferred wakes of `i..63` that go there. */
  ghost predicate FitFrom(s: State, pending: set<nat>, i: nat)
    requires i <= WORD && |s.queues| == MAX_PRIO_NUM
  {
    forall p :: 0 <= p < MAX_PRIO_NUM ==> FitAt(s, pending, i, p)
  }

  ghost predicate FitAt(s: State, pending: set<nat>, i: nat, p: nat)
    requires i <= WORD && p < |s.queues|
  {
    var woken := WokenAt(s.tasks, pending, p, i);
    woken == [] || |s.queues[p]| + |woken| < MAX_TASK_NUM
  }

  lemma FitStep(s: State, pending: set<nat>, i: nat, p: nat)
    requires Inv(s) && i < WORD && p < MAX_PRIO_NUM && Handled(pending, i) && Live(s, i) && WakeTask(s, i).Ok?
    ensures |WakeTask(s, i).value.queues| == MAX_PRIO_NUM
    ensures FitAt(s, pending, i, p) <==> FitAt(WakeTask(s, i).value, pending, i + 1, p)
  {
    var s1 := WakeTask(s, i).value;
    if s.tasks[i].value.prio == p {
      assert WokenAt(s.tasks, pending, p, i) == [i] + WokenAt(s.tasks, pending, p, i + 1);
      assert s1.queues[p] == s.queues[p] + [i];
    }
  }

  /** Whether the wakes from `i` on fit is whether those from `j` on do, if that is so for each queue. */
  lemma FitSame(s: State, t: State, pending: set<nat>, i: nat, j: nat)
    requires i <= WORD && j <= WORD && |s.queues| == |t.queues| == MAX_PRIO_NUM
    requires forall p :: 0 <= p < MAX_PRIO_NUM ==> (FitAt(s, pending, i, p) <==> FitAt(t, pending, j, p))
    ensures FitFrom(s, pending, i) <==> FitFrom(t, pending, j)
  {
    if FitFrom(s, pending, i) {
      forall p | 0 <= p < MAX_PRIO_NUM ensures FitAt(t, pending, j, p) { assert FitAt(s, pending, i, p); }
    } else {
      var p :| 0 <= p < MAX_PRIO_NUM && !FitAt(s, pending, i, p);
      assert !FitAt(t, pending, j, p);
    }
  }

  lemma {:induction false} WakeFromOkIff(s: State, pending: set<nat>, i: nat)
    requires Inv(s) && i <= WORD
    ensures WakeFrom(s, pending, i).Ok? <==> FitFrom(s, pending, i)
    decreases WORD - i
  {
    if i == WORD {
      assert forall p :: 0 <= p < MAX_PRIO_NUM ==> FitAt(s, pending, i, p);
    } else if !Handled(pending, i) || !Live(s, i) {
      WakeOkIff(s, i);
      assert WakeFrom(s, pending, i) == WakeFrom(s, pending, i + 1);
      WakeFromOkIff(s, pending, i + 1);
      forall p | 0 <= p < MAX_PRIO_NUM ensures FitAt(s, pending, i, p) <==> FitAt(s, pending, i + 1, p) {
        assert WokenAt(s.tasks, pending, p, i) == WokenAt(s.tasks, pending, p, i + 1);
      }
      FitSame(s, s, pending, i, i + 1);
    } else if WakeTask(s, i).Ok? {
      var s1 := WakeTask(s, i).value;
      WakeKeeps(s, i);
      forall p | 0 <= p < MAX_PRIO_NUM ensures FitAt(s, pending, i, p) <==> FitAt(s1, pending, i + 1, p) {
        FitStep(s, pending, i, p);
      }
      FitSame(s, s1, pending, i, i + 1);
      WakeFromOkIff(s1, pending, i + 1);
    } else {
      var q := s.tasks[i].value.prio;
      WakeOkIff(s, i);
      assert WokenAt(s.tasks, pending, q, i) == [i] + WokenAt(s.tasks, pending, q, i + 1);
      assert !FitAt(s, pending, i, q);
    }
  }

  ghost predicate PendingFits(s: State)
    requires |s.queues| == MAX_PRIO_NUM
  {
    FitFrom(s, s.pending, 0)
  }

  /** `actual_wake` panics exactly if some ready queue cannot take all the deferred wakes that go there. */
  lemma ActualWakeOkIff(s: State)
    requires Inv(s)
    ensures ActualWake(s).Ok? <==> PendingFits(s)
  {
    var s1 := s.(pending := {});
    WakeFromOkIff(s1, s.pending, 0);
    FitSame(s1, s, s.pending, 0, 0);
  }

  /** And so does `fetch`. */
  lemma FetchOkIff(s: State)
    requires Inv(s)
    ensures Fetch(s).Ok? <==> PendingFits(s)
  {
    ActualWakeOkIff(s);
    if ActualWake(s).Ok? {
      ActualWakeKeeps(s);
      TakeKeeps(ActualWake(s).value);
    }
  }

  // ------------------------------------------------------------------ actions, polls and runs

  /** A voluntary switch needs a running coroutine, room for the deferred wakes and, if it yields, for itself. */
  ghost predicate SwitchFits(s: State)
    requires Inv(s)
  {
    && PendingFits(s) && s.current.Some? && Live(s, s.current.value)
    && var prio := s.tasks[s.current.value].value.prio;
       ActualWakeOkIff(s);
       FirstBit(ActualWake(s).value.bits) < prio ==> Room(ActualWake(s).value, prio)
  }

  ghost predicate Fits(s: State, self: nat, a: Action)
    requires Inv(s)
  {
    match a
    case Wake(id) => WakeFits(s, id)
    case WakeSelf => WakeFits(s, self)
    case Spawn(prio, _) => Room(s, prio) && s.num < MAX_TASK_NUM
    case Interrupt(ids) => forall id :: id in ids ==> id < WORD
    case Switch => SwitchFits(s)
  }

  lemma SwitchOkIff(s: State, self: nat)
    requires Inv(s)
    ensures Act(s, self, Switch).Ok? <==> SwitchFits(s)
    ensures SwitchPossible(s).Ok? <==> PendingFits(s) && s.current.Some? && Live(s, s.current.value)
  {
    ActualWakeOkIff(s);
    if ActualWake(s).Ok? {
      ActualWakeKeeps(s);
      if s.current.Some? && Live(s, s.current.value) { WakeOkIff(ActualWake(s).value, s.current.value); }
    }
  }

  lemma ActOkIff(s: State, self: nat, a: Action)
    requires Inv(s)
    ensures Act(s, self, a).Ok? <==> Fits(s, self, a)
  {
    match a {
      case Wake(id) => WakeOkIff(s, id);
      case WakeSelf => WakeOkIff(s, self);
      case Spawn(prio, body) => SpawnOkIff(s, prio, body);
      case Interrupt(_) =>
      case Switch => SwitchOkIff(s, self);
    }
  }

  ghost predicate AllFit(s: State, self: nat, acts: seq<Action>)
    requires Inv(s)
    decreases |acts|
  {
    acts == [] ||
    (Fits(s, self, acts[0]) &&
     (ActOkIff(s, self, acts[0]);
      ActKeeps(s, self, acts[0]);
      AllFit(Act(s, self, acts[0]).value, self, acts[1..])))
  }

  lemma {:induction false} PerformOkIff(s: State, self: nat, acts: seq<Action>)
    requires Inv(s)
    ensures Perform(s, self, acts).Ok? <==> AllFit(s, self, acts)
    decreases |acts|
  {
    if acts != [] {
      ActOkIff(s, self, acts[0]);
      if Act(s, self, acts[0]).Ok? {
        ActKeeps(s, self, acts[0]);
        PerformOkIff(Act(s, self, acts[0]).value, self, acts[1..]);
      }
    }
  }

  lemma PollOkIff(s: State, cid: nat)
    requires Inv(s) && Live(s, cid)
    ensures Poll(s, cid).Ok? <==> AllFit(s, cid, s.tasks[cid].value.body.acts)
  {
    var acts := s.tasks[cid].value.body.acts;
    PerformOkIff(s, cid, acts);
    if Perform(s, cid, acts).Ok? {
      PerformWork(s, cid, acts);
      PerformKeeps(s, cid, acts);
      assert cid in Perform(s, cid, acts).value.ids;
    }
  }

  /** At every fetch of the run the deferred wakes fit, and in every poll each action does. */
  ghost predicate RunFits(s: State)
    requires Inv(s)
    decreases Work(s.tasks)
  {
    PendingFits(s) &&
    (FetchOkIff(s);
     FetchKeeps(s);
     var (mid, next) := Fetch(s).value;
     next.Some? ==>
       AllFit(mid, next.value, mid.tasks[next.value].value.body.acts) &&
       (PollOkIff(mid, next.value);
        PollOnce(s);
        RunFits(Poll(mid, next.value).value)))
  }

  /** From any state, `run_until_blocked` panics exactly for want of room in a ready queue, for want of a table
      entry or an existing priority for a spawn, for a wake or an interrupt with an id out of range, or for a
      switch without a running coroutine, at the point of the run where that happens; nothing else stops it early. */
  lemma {:induction false} RunStopsIff(s: State)
    requires Inv(s)
    ensures Run(s).Stopped? <==> RunFits(s)
    decreases Work(s.tasks)
  {
    FetchOkIff(s);
    if Fetch(s).Ok? {
      FetchKeeps(s);
      var (mid, next) := Fetch(s).value;
      if next.Some? {
        PollOkIff(mid, next.value);
        if Poll(mid, next.value).Ok? {
          PollOnce(s);
          RunStopsIff(Poll(mid, next.value).value);
        }
      }
    }
  }
}
