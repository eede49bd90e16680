/** Everything that can be done to an executor, from its creation on. */
module Histories {
  import opened Basics
  import opened Words
  import opened Runtime
  import opened RuntimeInvariant
  import opened Scheduler
  import opened Starvation

  /** What a thread does with its executor between runs, and a run. */
  datatype Op =
    | SpawnOp(prio: nat, body: Script)
    | WakeOp(id: nat)
    | InterruptOp(ids: set<nat>)
    | RunOp

  function Do(s: State, op: Op): Outcome<State>
    requires Inv(s)
  {
    match op
    case SpawnOp(prio, body) => SpawnTask(s, prio, body)
    case WakeOp(id) => WakeTask(s, id)
    case InterruptOp(ids) => Act(s, 0, Interrupt(ids))
    case RunOp => if Run(s).Stopped? then Ok(Run(s).state) else Panic
  }

  lemma DoKeeps(s: State, op: Op)
    requires Inv(s) && Do(s, op).Ok?
    ensures Inv(Do(s, op).value)
  {
    match op {
      case SpawnOp(prio, body) => SpawnKeeps(s, prio, body);
      case WakeOp(id) => WakeKeeps(s, id);
      case InterruptOp(ids) => ActKeeps(s, 0, Interrupt(ids));
      case RunOp => RunTerminates(s);
    }
  }

  function History(s: State, ops: seq<Op>): Outcome<State>
    requires Inv(s)
    decreases |ops|
  {
    if ops == [] then Ok(s)
    else
      match Do(s, ops[0])
      case Panic => Panic
      case Ok(t) => DoKeeps(s, ops[0]); History(t, ops[1..])
  }

  /** The state of a new executor after the given operations. */
  function Reached(ops: seq<Op>): Outcome<State> {
    EmptyInv(); History(Empty(), ops)
  }

  lemma {:induction false} HistoryKeeps(s: State, ops: seq<Op>)
    requires Inv(s) && History(s, ops).Ok?
    ensures Inv(History(s, ops).value)
    decreases |ops|
  {
    if ops != [] {
      DoKeeps(s, ops[0]);
      HistoryKeeps(Do(s, ops[0]).value, ops[1..]);
    }
  }

  /** Whatever is spawned, woken, interrupted and run, in whatever order, with duplicate wakes and wakes of
      finished coroutines: allocated ids, occupied entries and `coroutine_num` agree, each entry's id is its
      index, and a non-empty ready queue has its bit set. */
  lemma EveryHistoryKeeps(ops: seq<Op>)
    requires Reached(ops).Ok?
    ensures var s := Reached(ops).value;
      && (forall i :: i in s.ids <==> 0 <= i < |s.tasks| && s.tasks[i].Some?) && s.num == |s.ids|
      && (forall i :: 0 <= i < |s.tasks| && s.tasks[i].Some? ==> s.tasks[i].value.cid == i)
      && (forall p :: 0 <= p < |s.queues| && s.queues[p] != [] ==> p in s.bits)
  {
    EmptyInv();
    HistoryKeeps(Empty(), ops);
  }

  // ------------------------------------------------------------------ histories without stale ids

  /** In no run of the history does a coroutine finish while it is queued. */
  ghost predicate DisciplinedHistory(s: State, ops: seq<Op>)
    requires Inv(s)
    decreases |ops|
  {
    ops == [] ||
    ((ops[0].RunOp? ==> Disciplined(s)) &&
     match Do(s, ops[0])
     case Panic => true
     case Ok(t) => DoKeeps(s, ops[0]); DisciplinedHistory(t, ops[1..]))
  }

  ghost predicate DisciplinedUse(ops: seq<Op>) {
    EmptyInv(); DisciplinedHistory(Empty(), ops)
  }

  lemma DoStaysClean(s: State, op: Op)
    requires Inv(s) && Homed(s) && BitsExact(s) && Do(s, op).Ok? && (op.RunOp? ==> Disciplined(s))
    ensures Homed(Do(s, op).value) && BitsExact(Do(s, op).value)
  {
    match op {
      case SpawnOp(prio, body) =>
        SpawnKeeps(s, prio, body);
        SpawnFollows(s, prio, body);
      case WakeOp(id) =>
        WakeKeeps(s, id);
        WakeFollows(s, id);
      case InterruptOp(_) =>
      case RunOp =>
        RunFollowsScheduler(s);
        RunEndsEmpty(s);
    }
  }

  lemma {:induction false} HistoryStaysClean(s: State, ops: seq<Op>)
    requires Inv(s) && Homed(s) && BitsExact(s) && DisciplinedHistory(s, ops) && History(s, ops).Ok?
    ensures Inv(History(s, ops).value) && Homed(History(s, ops).value) && BitsExact(History(s, ops).value)
    decreases |ops|
  {
    if ops != [] {
      DoKeeps(s, ops[0]);
      DoStaysClean(s, ops[0]);
      HistoryStaysClean(Do(s, ops[0]).value, ops[1..]);
    }
  }

  /** In every history in which no coroutine finishes while it is queued, the priority bits are exact and only
      live coroutines are queued, and every run follows the abstract scheduler and empties all queues. */
  lemma EveryDisciplinedRunFollows(ops: seq<Op>)
    requires Reached(ops).Ok? && DisciplinedUse(ops + [RunOp])
    ensures var s := Reached(ops).value;
      && Inv(s) && Homed(s) && BitsExact(s)
      && (Run(s).Stopped? ==> Follows(Abs(s), Run(s).polls) && Run(s).state.bits == {})
  {
    EmptyInv();
    DisciplinedAppend(Empty(), ops);
    HistoryStaysClean(Empty(), ops);
    var s := Reached(ops).value;
    if Run(s).Stopped? {
      RunFollowsScheduler(s);
      RunEndsEmpty(s);
    }
  }

  lemma {:induction false} DisciplinedAppend(s: State, ops: seq<Op>)
    requires Inv(s) && DisciplinedHistory(s, ops + [RunOp]) && History(s, ops).Ok?
    ensures DisciplinedHistory(s, ops)
    ensures Inv(History(s, ops).value) && Disciplined(History(s, ops).value)
    decreases |ops|
  {
    if ops != [] {
      assert (ops + [RunOp])[1..] == ops[1..] + [RunOp];
      DoKeeps(s, ops[0]);
      DisciplinedAppend(Do(s, ops[0]).value, ops[1..]);
    }
  }

  // ------------------------------------------------------------------ starvation goes on

  /** Everything that is spawned or woken has a priority number above `p`, or has finished. */
  ghost predicate Above(s: State, p: nat, op: Op) {
    match op
    case SpawnOp(prio, _) => p < prio
    case WakeOp(id) => Live(s, id) ==> p < s.tasks[id].value.prio
    case InterruptOp(ids) => ids == {}
    case RunOp => true
  }

  ghost predicate AllAbove(s: State, p: nat, ops: seq<Op>)
    requires Inv(s)
    decreases |ops|
  {
    ops == [] ||
    (Above(s, p, ops[0]) &&
     match Do(s, ops[0])
     case Panic => true
     case Ok(t) => DoKeeps(s, ops[0]); AllAbove(t, p, ops[1..]))
  }

  /** No operation above a stuck priority gets the executor going, however long this lasts and however many
      coroutines are ready: it is still stuck at the end, and no run in between has polled anything. */
  lemma {:induction false} StuckThroughHistory(s: State, p: nat, ops: seq<Op>)
    requires Stuck(s, p) && AllAbove(s, p, ops) && History(s, ops).Ok?
    ensures Stuck(History(s, ops).value, p) && Run(History(s, ops).value) == Stopped(History(s, ops).value, [])
    decreases |ops|
  {
    if ops == [] {
      StuckRunsNothing(s, p);
    } else {
      match ops[0] {
        case SpawnOp(prio, body) => StuckThroughSpawn(s, p, prio, body);
        case WakeOp(id) => StuckThroughWake(s, p, id);
        case InterruptOp(_) => assert s.pending + {} == s.pending;
        case RunOp => StuckRunsNothing(s, p);
      }
      StuckThroughHistory(Do(s, ops[0]).value, p, ops[1..]);
    }
  }

  // ------------------------------------------------------------------ a history that starves a coroutine

  /** Coroutine 0 at priority 0 wakes itself in its last poll; coroutine 1 at priority 1 just finishes. */
  function First(): Task { Task(0, 0, Finish([WakeSelf])) }
  function Second(): Task { Task(1, 1, Finish([])) }

  /** The first is spawned, then the second. */
  function One(): State {
    State(Empty().queues[0 := [0]], {0}, Empty().tasks[0 := Some(First())], 1, {0}, None, {})
  }
  function Both(): State {
    State(One().queues[1 := [1]], {0, 1}, One().tasks[1 := Some(Second())], 2, {0, 1}, None, {})
  }

  /** Coroutine 0 has finished and its stale id has been dropped; coroutine 1 is ready. */
  function Starving(): State {
    State(Empty().queues[1 := [1]], {0, 1}, Empty().tasks[1 := Some(Second())], 1, {1}, Some(0), {})
  }

  lemma SpawnFirst()
    ensures SpawnTask(Empty(), 0, First().body) == Ok(One())
  {
    assert [] + [0] == [0];
    var t := SpawnTask(Empty(), 0, First().body).value;
    assert t.bits == {0} && t.ids == {0};
  }

  lemma SpawnSecond()
    ensures SpawnTask(One(), 1, Second().body) == Ok(Both())
  {
    assert [] + [1] == [1];
    assert 0 in One().ids && 1 !in One().ids;
    assert LeastFree(One().ids, 0, MAX_ID) == LeastFree(One().ids, 1, MAX_ID) == Some(1);
    var t := SpawnTask(One(), 1, Second().body).value;
    assert t.bits == {0, 1} && t.ids == {0, 1};
  }

  /** What the first fetch leaves. */
  function Polled(): State {
    Both().(queues := Both().queues[0 := []], bits := {1}, current := Some(0))
  }

  lemma FirstFetch()
    ensures Fetch(Both()) == Ok((Polled(), Some(0)))
  {
    NothingDeferred(Both());
    assert IsMin({0, 1}, 0);
    assert [0][1..] == [] && {0, 1} - {0} == {1};
    assert Take(Both()).value.0.bits == {1};
  }

  /** The poll of coroutine 0 leaves it queued and gone. */
  lemma FirstPoll()
    ensures Poll(Polled(), 0) == Ok(Starving().(queues := Both().queues))
  {
    var m := Act(Polled(), 0, WakeSelf).value;
    assert [] + [0] == [0];
    assert m.queues == Both().queues && m.bits == {0, 1};
    assert [WakeSelf][1..] == [];
    assert Perform(Polled(), 0, [WakeSelf]) == Perform(m, 0, []) == Ok(m);
    assert Settle(m, 0, First().body).value.tasks == Starving().tasks;
    assert {0, 1} - {0} == {1};
  }

  lemma RunStarves()
    requires Inv(Both())
    ensures Run(Both()) == Stopped(Starving(), [0]) && Stuck(Starving(), 0)
  {
    FirstFetch();
    FirstPoll();
    NothingDeferred(Starving().(queues := Both().queues));
    assert IsMin({0, 1}, 0);
    assert Both().queues[0 := []] == Starving().queues;
    FinishingWhileQueuedSticks(Both(), 0);
  }

  lemma HistoryStep(s: State, op: Op, t: State, ops: seq<Op>)
    requires Inv(s) && Do(s, op) == Ok(t)
    ensures Inv(t) && History(s, [op] + ops) == History(t, ops)
  {
    DoKeeps(s, op);
    assert ([op] + ops)[1..] == ops;
  }

  lemma SpawnBoth(ops: seq<Op>)
    ensures Inv(Both())
    ensures Reached([SpawnOp(0, First().body)] + ([SpawnOp(1, Second().body)] + ops)) == History(Both(), ops)
  {
    EmptyInv();
    SpawnFirst();
    HistoryStep(Empty(), SpawnOp(0, First().body), One(), [SpawnOp(1, Second().body)] + ops);
    SpawnSecond();
    HistoryStep(One(), SpawnOp(1, Second().body), Both(), ops);
  }

  /** From a new executor, two spawns and a run end with coroutine 1 ready but starving: no further run
      polls it, until something is woken or spawned at priority 0. */
  lemma StarvationIsReachable()
    ensures Reached([SpawnOp(0, First().body), SpawnOp(1, Second().body), RunOp]) == Ok(Starving())
    ensures Stuck(Starving(), 0) && Live(Starving(), 1) && Starving().queues[1] == [1]
    ensures Run(Starving()) == Stopped(Starving(), [])
  {
    var first, second := SpawnOp(0, First().body), SpawnOp(1, Second().body);
    assert [first, second, RunOp] == [first] + ([second] + [RunOp]) && [RunOp] == [RunOp] + [];
    SpawnBoth([RunOp]);
    RunStarves();
    HistoryStep(Both(), RunOp, Starving(), []);
    StuckRunsNothing(Starving(), 0);
  }
}
