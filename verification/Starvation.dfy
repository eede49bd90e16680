/** How a coroutine that finishes while it is queued blocks the priorities above its own number. */
module Starvation {
  import opened Basics
  import opened Words
  import opened Runtime
  import opened RuntimeInvariant
  import opened Scheduler
  import opened SchedulerLimits

  /** Nothing is deferred, and the lowest set bit is that of priority `p`, whose queue is empty. */
  ghost predicate Stuck(s: State, p: nat) {
    Inv(s) && s.pending == {} && p < MAX_PRIO_NUM && FirstBit(s.bits) == p && s.queues[p] == []
  }

  lemma NothingDeferred(s: State)
    requires s.pending == {}
    ensures ActualWake(s) == Ok(s)
  {
    NoneLeft(s, {}, 0);
    assert s.(pending := {}) == s;
  }

  /** A stuck executor polls nothing, whatever is ready at other priorities, and stays as it is. */
  lemma StuckRunsNothing(s: State, p: nat)
    requires Stuck(s, p)
    ensures Run(s) == Stopped(s, [])
  {
    NothingDeferred(s);
  }

  lemma FirstBitAfter(bits: set<nat>, p: nat)
    requires forall b :: b in bits ==> b < WORD
    requires p < WORD
    ensures FirstBit(bits + {p}) == if p < FirstBit(bits) then p else FirstBit(bits)
  {
    var m := FirstBit(bits + {p});
    assert IsMin(bits + {p}, m);
    if bits != {} { assert IsMin(bits, FirstBit(bits)); }
  }

  /** Wakes at priorities of larger number, and of finished coroutines, leave the executor stuck. */
  lemma StuckThroughWake(s: State, p: nat, id: nat)
    requires Stuck(s, p) && WakeTask(s, id).Ok?
    requires Live(s, id) ==> p < s.tasks[id].value.prio
    ensures Stuck(WakeTask(s, id).value, p)
  {
    WakeKeeps(s, id);
    if Live(s, id) { FirstBitAfter(s.bits, s.tasks[id].value.prio); }
  }

  /** So do spawns. */
  lemma StuckThroughSpawn(s: State, p: nat, prio: nat, body: Script)
    requires Stuck(s, p) && p < prio && SpawnTask(s, prio, body).Ok?
    ensures Stuck(SpawnTask(s, prio, body).value, p)
  {
    SpawnKeeps(s, prio, body);
    FirstBitAfter(s.bits, prio);
  }

  /** Taking from a stuck queue to which one live coroutine has been added. */
  lemma TakeAfterEnqueue(s: State, p: nat, prio: nat, cid: nat, t: State)
    requires Stuck(s, p) && prio <= p && Inv(t) && Live(t, cid)
    requires t.queues == s.queues[prio := s.queues[prio] + [cid]] && t.bits == s.bits + {prio}
    ensures Take(t).Ok? && Take(t).value.1 == Some(cid)
  {
    FirstBitAfter(s.bits, prio);
    assert s.queues[prio] == [] by {
      if prio < p { assert prio !in s.bits; }
    }
  }

  /** A wake of a live coroutine gets a stuck executor going again if and only if its priority number is
      no larger than that of the stuck queue; and then it is that coroutine that runs next. */
  lemma WakeUnsticksIff(s: State, p: nat, id: nat)
    requires Stuck(s, p) && Live(s, id) && WakeTask(s, id).Ok?
    ensures var r := Fetch(WakeTask(s, id).value);
      && r.Ok?
      && (r.value.1.Some? <==> s.tasks[id].value.prio <= p)
      && (r.value.1.Some? ==> r.value.1.value == id)
  {
    var t := WakeTask(s, id).value;
    WakeKeeps(s, id);
    NothingDeferred(t);
    if s.tasks[id].value.prio <= p {
      TakeAfterEnqueue(s, p, s.tasks[id].value.prio, id, t);
    } else {
      StuckThroughWake(s, p, id);
    }
  }

  /** The same for a spawn. */
  lemma SpawnUnsticksIff(s: State, p: nat, prio: nat, body: Script)
    requires Stuck(s, p) && SpawnTask(s, prio, body).Ok?
    ensures var r := Fetch(SpawnTask(s, prio, body).value);
      && r.Ok?
      && (r.value.1.Some? <==> prio <= p)
      && (r.value.1.Some? ==> r.value.1 == LeastFree(s.ids, 0, MAX_ID))
  {
    var t := SpawnTask(s, prio, body).value;
    SpawnKeeps(s, prio, body);
    NothingDeferred(t);
    if prio <= p {
      TakeAfterEnqueue(s, p, prio, LeastFree(s.ids, 0, MAX_ID).value, t);
    } else {
      StuckThroughSpawn(s, p, prio, body);
    }
  }

  // ------------------------------------------------------------------ how executors get stuck

  /** After the deferred wakes, the first coroutine of the lowest ready queue is gone. */
  predicate DeadHead(s: State) {
    ActualWake(s).Ok? &&
    var s1 := ActualWake(s).value;
    var p := FirstBit(s1.bits);
    p < |s1.queues| && s1.queues[p] != [] && !Live(s1, s1.queues[p][0])
  }

  /** A run that meets a dead id first polls nothing and drops that id. It leaves the executor stuck if and
      only if the dead id was alone in its queue; otherwise the next run goes on behind it. */
  lemma DeadHeadStopsRun(s: State)
    requires Inv(s) && DeadHead(s)
    ensures var s1 := ActualWake(s).value;
      var p := FirstBit(s1.bits);
      var t := s1.(queues := s1.queues[p := s1.queues[p][1..]]);
      && Run(s) == Stopped(t, [])
      && (Stuck(t, p) <==> |s1.queues[p]| == 1)
      && (|s1.queues[p]| > 1 ==> (Obstructed(t) <==> !Live(t, s1.queues[p][1])))
  {
    ActualWakeKeeps(s);
    var s1 := ActualWake(s).value;
    TakeKeeps(s1);
  }

  /** Deferred wakes queue no coroutine that is gone. */
  lemma DeadStaysOut(s: State, c: nat, p: nat)
    requires Inv(s) && ActualWake(s).Ok? && !Live(s, c) && p < MAX_PRIO_NUM == |ActualWake(s).value.queues|
    requires c in ActualWake(s).value.queues[p]
    ensures Queued(s, c)
  {
    WakeFromAppends(s.(pending := {}), s.pending, 0, p);
    WokenAtIsHandled(s.tasks, s.pending, p, 0);
    assert c in s.queues[p];
  }

  /** Whatever its priority, its last poll and the deferred wakes: a coroutine that finishes while it is
      queued, and then is first and alone in the lowest ready queue, ends the run and leaves the executor
      stuck at that queue. */
  lemma FinishingWhileQueuedSticks(s: State, c: nat)
    requires Inv(s) && Fetch(s).Ok? && Fetch(s).value.1 == Some(c)
    requires Fetch(s).value.0.tasks[c].value.body.Finish? && Poll(Fetch(s).value.0, c).Ok?
    requires var ended := Poll(Fetch(s).value.0, c).value;
      ActualWake(ended).Ok? &&
      var s1 := ActualWake(ended).value;
      FirstBit(s1.bits) < |s1.queues| && s1.queues[FirstBit(s1.bits)] == [c]
    ensures !Disciplined(s) && Stumbles(s)
    ensures var s1 := ActualWake(Poll(Fetch(s).value.0, c).value).value;
      var p := FirstBit(s1.bits);
      && Run(s) == Stopped(s1.(queues := s1.queues[p := []]), [c])
      && Stuck(s1.(queues := s1.queues[p := []]), p)
  {
    var ended := Poll(Fetch(s).value.0, c).value;
    PollOnce(s);
    ActualWakeKeeps(ended);
    var s1 := ActualWake(ended).value;
    var p := FirstBit(s1.bits);
    assert s1.queues[p][0] == c && s1.queues[p][1..] == [];
    DeadStaysOut(ended, c, p);
    DeadHeadStopsRun(ended);
  }
}
