/** What the executor of `executor.rs` computes, as functions on its abstract state.

    A coroutine is a finite script: each poll performs some actions and then suspends or finishes.
    Any finite run of real coroutines performs the polls of some scripts. In particular, where a real
    coroutine's `possible_switch` yields, its script has a poll that suspends after `Switch`; where it
    does not, the poll goes on. */
module Runtime {
  import opened Basics
  import opened Words

  const MAX_TASK_NUM: nat := 2048
  const MAX_PRIO_NUM: nat := 8
  const MAX_ID: nat := 4096
  const WORD: nat := 64

  datatype Action =
    | Wake(id: nat)                    // coroutine_wake
    | WakeSelf                         // coroutine_wake of the running coroutine
    | Spawn(prio: nat, body: Script)   // coroutine_spawn_with_prio
    | Interrupt(ids: set<nat>)         // the interrupt handler defers these wakes
    | Switch                           // possible_switch

  /** The remaining polls of a coroutine. */
  datatype Script = Finish(acts: seq<Action>) | Suspend(acts: seq<Action>, rest: Script)

  datatype Task = Task(cid: nat, prio: nat, body: Script)

  /** The executor: a ready queue per priority, the priority bitmap, the coroutine table, `coroutine_num`,
      the ids handed out by the allocator, the running coroutine and the deferred wakes. */
  datatype State = State(
    queues: seq<seq<nat>>,
    bits: set<nat>,
    tasks: seq<Option<Task>>,
    num: nat,
    ids: set<nat>,
    current: Option<nat>,
    pending: set<nat>)

  function Empty(): State {
    State(seq(MAX_PRIO_NUM, _ => []), {}, seq(MAX_TASK_NUM, _ => None), 0, {}, None, {})
  }

  /** The basic shape of a state, which every operation keeps. */
  predicate Shape(s: State) {
    && |s.queues| == MAX_PRIO_NUM && |s.tasks| == MAX_TASK_NUM
    && (forall p :: p in s.bits ==> p < MAX_PRIO_NUM)
    && (forall i :: 0 <= i < |s.tasks| && s.tasks[i].Some? ==>
          s.tasks[i].value.cid == i && s.tasks[i].value.prio < MAX_PRIO_NUM)
    && (forall p, k :: 0 <= p < |s.queues| && 0 <= k < |s.queues[p]| ==> s.queues[p][k] < MAX_TASK_NUM)
  }

  predicate Live(s: State, id: nat) { id < |s.tasks| && s.tasks[id].Some? }

  // ------------------------------------------------------------------ operations

  /** The least index that is not in use. */
  function LeastFree(ids: set<nat>, from: nat, limit: nat): (r: Option<nat>)
    requires from <= limit
    ensures r.Some? ==> from <= r.value < limit && r.value !in ids && forall i :: from <= i < r.value ==> i in ids
    ensures r.None? ==> forall i :: from <= i < limit ==> i in ids
    decreases limit - from
  {
    if from == limit then None else if from !in ids then Some(from) else LeastFree(ids, from + 1, limit)
  }

  /** `prio_bitmap.set(prio); ready_queue[prio].push(cid).unwrap()`. A ring of MAX_TASK_NUM slots
      holds one item less. */
  function Enqueue(s: State, prio: nat, cid: nat): Outcome<State> {
    if prio < |s.queues| && |s.queues[prio]| + 1 < MAX_TASK_NUM
    then Ok(s.(bits := s.bits + {prio}, queues := s.queues[prio := s.queues[prio] + [cid]]))
    else Panic
  }

  function SpawnTask(s: State, prio: nat, body: Script): Outcome<State> {
    match LeastFree(s.ids, 0, MAX_ID)
    case None => Panic
    case Some(cid) =>
      var s1 :- Enqueue(s, prio, cid);
      if cid >= |s.tasks| then Panic
      else Ok(s1.(tasks := s.tasks[cid := Some(Task(cid, prio, body))], num := s.num + 1, ids := s.ids + {cid}))
  }

  /** `wake`: queues the coroutine if it exists, however often it is queued already. */
  function WakeTask(s: State, cid: nat): Outcome<State> {
    if cid >= |s.tasks| then Panic
    else if s.tasks[cid].None? then Ok(s)
    else Enqueue(s, s.tasks[cid].value.prio, cid)
  }

  /** The pending ids that `actual_wake` gets round to: handling id `i` also clears the bit of id `2i`. */
  predicate Handled(pending: set<nat>, i: nat) {
    i in pending && !(i > 0 && i % 2 == 0 && Handled(pending, i / 2))
  }

  /** `actual_wake`, from index `i` on. */
  function WakeFrom(s: State, pending: set<nat>, i: nat): Outcome<State>
    requires i <= WORD
    decreases WORD - i
  {
    if i == WORD then Ok(s)
    else if Handled(pending, i) then
      var s1 :- WakeTask(s, i);
      WakeFrom(s1, pending, i + 1)
    else WakeFrom(s, pending, i + 1)
  }

  function ActualWake(s: State): Outcome<State> {
    WakeFrom(s.(pending := {}), s.pending, 0)
  }

  /** The least set bit, 64 if there is none. */
  function FirstBit(bits: set<nat>): nat { if bits == {} then WORD else Min(bits) }

  /** `fetch` after the deferred wakes: the new state and the coroutine to poll, if any. A dead id is
      popped and its priority bit is left alone. */
  function Take(s: State): (r: Outcome<(State, Option<nat>)>)
    ensures r.Ok? && r.value.1.Some? ==> Live(r.value.0, r.value.1.value)
  {
    var prio := FirstBit(s.bits);
    if prio == WORD then Ok((s, None))
    else if prio >= |s.queues| then Panic
    else if s.queues[prio] == [] then Ok((s, None))
    else
      var cid, rest := s.queues[prio][0], s.queues[prio][1..];
      var s1 := s.(queues := s.queues[prio := rest]);
      if cid >= |s.tasks| then Panic
      else if s.tasks[cid].None? then Ok((s1, None))
      else Ok((s1.(current := Some(cid), bits := if rest == [] then s.bits - {prio} else s.bits), Some(cid)))
  }

  function Fetch(s: State): (r: Outcome<(State, Option<nat>)>)
    ensures r.Ok? && r.value.1.Some? ==> Live(r.value.0, r.value.1.value)
  {
    var s1 :- ActualWake(s);
    Take(s1)
  }

  /** `switch_possible`: after the deferred wakes, is a coroutine ready that has priority over the
      running one? */
  function SwitchPossible(s: State): (r: Outcome<(State, bool)>)
    ensures r.Ok? ==> s.current.Some?
  {
    var s1 :- ActualWake(s);
    if s.current.None? || !Live(s1, s.current.value) then Panic
    else Ok((s1, FirstBit(s1.bits) < s1.tasks[s.current.value].value.prio))
  }

  function Act(s: State, self: nat, a: Action): Outcome<State> {
    match a
    case Wake(id) => WakeTask(s, id)
    case WakeSelf => WakeTask(s, self)
    case Spawn(prio, body) => SpawnTask(s, prio, body)
    case Interrupt(ids) =>
      if forall id :: id in ids ==> id < WORD then Ok(s.(pending := s.pending + ids)) else Panic
    case Switch =>
      var (s1, up) :- SwitchPossible(s);
      if up then WakeTask(s1, s.current.value) else Ok(s1)
  }

  function Perform(s: State, self: nat, acts: seq<Action>): Outcome<State>
    decreases |acts|
  {
    if acts == [] then Ok(s)
    else
      var s1 :- Act(s, self, acts[0]);
      Perform(s1, self, acts[1..])
  }

  /** The end of a poll: `remove_task` if the coroutine has finished. */
  function Settle(s: State, cid: nat, body: Script): Outcome<State> {
    if !Live(s, cid) then Panic
    else
      match body
      case Finish(_) =>
        if s.num == 0 then Panic
        else Ok(s.(tasks := s.tasks[cid := None], num := s.num - 1, ids := s.ids - {cid}))
      case Suspend(_, rest) => Ok(s.(tasks := s.tasks[cid := Some(s.tasks[cid].value.(body := rest))]))
  }

  /** `task.execute()` and what `run_until_blocked` does with its result. */
  function Poll(s: State, cid: nat): Outcome<State>
    requires Live(s, cid)
  {
    var body := s.tasks[cid].value.body;
    var s1 :- Perform(s, cid, body.acts);
    Settle(s1, cid, body)
  }

  // ------------------------------------------------------------------ work

  /** The number of polls that a script, its actions or a task table can still cause. */
  function Size(body: Script): nat
    decreases body, 1
  {
    1 + ActsSize(body.acts) + (if body.Suspend? then Size(body.rest) else 0)
  }

  function ActSize(a: Action): nat
    decreases a, 0
  {
    if a.Spawn? then Size(a.body) else 0
  }

  function ActsSize(acts: seq<Action>): nat
    decreases acts, 0
  {
    if acts == [] then 0 else ActSize(acts[0]) + ActsSize(acts[1..])
  }

  function TaskSize(t: Option<Task>): nat { if t.Some? then Size(t.value.body) else 0 }

  function Work(tasks: seq<Option<Task>>): nat {
    if tasks == [] then 0 else TaskSize(tasks[0]) + Work(tasks[1..])
  }
}
