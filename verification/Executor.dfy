/** The executor of `executor.rs`: the imperative code, proved to compute the functions of `Runtime`. */
module ExecutorImpl {
  import opened Basics
  import opened Words
  import opened Bitmaps
  import opened Rings
  import opened Runtime
  import opened RuntimeInvariant
  import opened Scheduler

  /** The rings are usable and share nothing. */
  ghost predicate Separate(rings: seq<RingBuffer<nat>>)
    reads rings
  {
    && (forall i :: 0 <= i < |rings| ==> rings[i].Valid() && rings[i].data.Length == MAX_TASK_NUM)
    && (forall i, j :: 0 <= i < j < |rings| ==> rings[i] != rings[j] && rings[i].data != rings[j].data)
  }

  class Executor {
    const ready: seq<RingBuffer<nat>>
    var prioBitmap: Word
    var coroutineNum: nat
    var current: Option<nat>
    const tasks: array<Option<Task>>
    var delayed: Word
    const ids: IndexAllocator

    /** The ready queues and their buffers. */
    ghost function Rings(): set<object> {
      (set r: RingBuffer<nat> | r in ready :: r as object) + (set r: RingBuffer<nat> | r in ready :: r.data as object)
    }

    /** The objects that make up the executor. */
    ghost function Repr(): set<object> {
      {this, tasks, ids.bitmap} + Rings()
    }

    ghost predicate Valid()
      reads this, Repr(), ids, ready
    {
      && |ready| == MAX_PRIO_NUM
      && Separate(ready)
      && tasks.Length == MAX_TASK_NUM
      && ids.Valid() && ids.size == MAX_ID
      && |prioBitmap| == WORD && |delayed| == WORD
    }

    ghost function Queues(): (q: seq<seq<nat>>)
      requires Valid()
      reads this, Repr(), ids, ready
      ensures |q| == |ready| && forall i :: 0 <= i < |q| ==> q[i] == ready[i].Contents()
    {
      seq(|ready|, i requires 0 <= i < |ready| reads this, Repr(), ids, ready requires Valid() => ready[i].Contents())
    }

    /** The abstract state. */
    ghost function View(): State
      requires Valid()
      reads this, Repr(), ids, ready
    {
      State(Queues(), Ones(prioBitmap), tasks[..], coroutineNum, ids.Allocated(), current, Ones(delayed))
    }

    constructor ()
      ensures Valid() && View() == Runtime.Empty()
    {
      var rings := NewRings(MAX_PRIO_NUM);
      ready := rings;
      prioBitmap, delayed := Zero(WORD), Zero(WORD);
      coroutineNum, current := 0, None;
      tasks := new Option<Task>[MAX_TASK_NUM](_ => None);
      ids := new IndexAllocator(MAX_ID);
      new;
      assert Queues() == Runtime.Empty().queues;
      assert tasks[..] == Runtime.Empty().tasks;
      assert Ones(prioBitmap) == Ones(delayed) == {};
    }

    method PushReady(prio: nat, cid: nat) returns (ok: bool)
      requires Valid() && prio < MAX_PRIO_NUM
      modifies Rings()
      ensures Valid() && (ok <==> |old(View()).queues[prio]| + 1 < MAX_TASK_NUM)
      ensures ok ==> View() == old(View()).(queues := old(View()).queues[prio := old(View()).queues[prio] + [cid]])
    {
      ok := ready[prio].Push(cid);
      if ok {
        assert Queues() == old(Queues())[prio := old(Queues())[prio] + [cid]];
      }
    }

    method Enqueue(prio: nat, cid: nat) returns (ok: bool)
      requires Valid()
      modifies this`prioBitmap, Rings()
      ensures Valid()
      ensures ok <==> Runtime.Enqueue(old(View()), prio, cid).Ok?
      ensures ok ==> View() == Runtime.Enqueue(old(View()), prio, cid).value
    {
      if prio >= |ready| {
        return false;
      }
      SetBit(prioBitmap, prio);
      prioBitmap := Or(prioBitmap, OneHot(WORD, prio));
      assert Queues() == old(Queues());
      ok := PushReady(prio, cid);
    }

    method Wake(cid: nat) returns (ok: bool)
      requires Valid()
      modifies this`prioBitmap, Rings()
      ensures Valid()
      ensures ok <==> WakeTask(old(View()), cid).Ok?
      ensures ok ==> View() == WakeTask(old(View()), cid).value
    {
      if cid >= tasks.Length {
        return false;
      }
      ok := true;
      if tasks[cid].Some? {
        ok := Enqueue(tasks[cid].value.prio, cid);
      }
    }

    /** `CoroutineId::generate`, which panics if no id is free. */
    method Generate() returns (id: Option<nat>)
      requires Valid()
      modifies ids.bitmap
      ensures Valid() && id == LeastFree(old(View()).ids, 0, MAX_ID)
      ensures View() == if id.Some? then old(View()).(ids := old(View()).ids + {id.value}) else old(View())
    {
      id := ids.Allocate();
      assert Queues() == old(Queues());
    }

    /** Sets a table entry and the number of live coroutines. */
    method Store(cid: nat, t: Option<Task>, num: nat)
      requires Valid() && cid < MAX_TASK_NUM
      modifies tasks, this`coroutineNum
      ensures Valid() && View() == old(View()).(tasks := old(View()).tasks[cid := t], num := num)
    {
      tasks[cid] := t;
      coroutineNum := num;
      assert Queues() == old(Queues());
    }

    /** Gives a new coroutine an id and queues it. */
    method Admit(prio: nat) returns (r: Option<nat>)
      requires Valid()
      modifies this`prioBitmap, ids.bitmap, Rings()
      ensures Valid()
      ensures var s := old(View()); var id := LeastFree(s.ids, 0, MAX_ID);
        && (r.Some? <==> id.Some? && Runtime.Enqueue(s, prio, id.value).Ok?)
        && (r.Some? ==> r == id && View() == Runtime.Enqueue(s, prio, id.value).value.(ids := s.ids + {id.value}))
    {
      ghost var s := View();
      r := Generate();
      if r.Some? {
        var ok := Enqueue(prio, r.value);
        if !ok {
          r := None;
        }
      }
    }

    method Spawn(prio: nat, body: Script) returns (r: Option<nat>)
      requires Valid()
      modifies this, tasks, ids.bitmap, Rings()
      ensures Valid()
      ensures r.Some? <==> SpawnTask(old(View()), prio, body).Ok?
      ensures r.Some? ==> View() == SpawnTask(old(View()), prio, body).value && r == LeastFree(old(View()).ids, 0, MAX_ID)
    {
      r := Admit(prio);
      if r.Some? {
        if r.value >= tasks.Length {
          return None;
        }
        Store(r.value, Some(Task(r.value, prio, body)), coroutineNum + 1);
      }
    }

    method DelayWake(cid: nat) returns (ok: bool)
      requires Valid()
      modifies this`delayed
      ensures Valid()
      ensures ok <==> cid < WORD
      ensures ok ==> View() == old(View()).(pending := old(View()).pending + {cid})
    {
      if cid >= WORD {
        return false;
      }
      SetBit(delayed, cid);
      delayed := Or(delayed, OneHot(WORD, cid));
      return true;
    }

    /** One turn of the loop of `actual_wake`. The mask that clears the bit of a woken id is applied to
        the word that has already been shifted, so it clears the bit of twice that id. */
    method WakeBit(word: Word, index: nat, ghost pending: set<nat>) returns (ok: bool, next: Word)
      requires Valid() && Remaining(word, pending, index) && !IsZero(word)
      modifies this`prioBitmap, Rings()
      ensures Valid() && index < WORD
      ensures ok ==> Remaining(next, pending, index + 1) && WakeFrom(View(), pending, index + 1) == WakeFrom(old(View()), pending, index)
      ensures !ok ==> WakeFrom(old(View()), pending, index).Panic?
    {
      RemainingStep(word, pending, index);
      ok, next := true, word;
      if word[0] {
        ok := Wake(index);
        next := And(word, Not(OneHot(WORD, index)));
      }
      next := ShiftRight(next);
    }

    method ActualWake() returns (ok: bool)
      requires Valid()
      modifies this`prioBitmap, this`delayed, Rings()
      ensures Valid()
      ensures ok <==> Runtime.ActualWake(old(View())).Ok?
      ensures ok ==> View() == Runtime.ActualWake(old(View())).value
    {
      var word := TakeDelayed();
      ghost var pending, s0 := Ones(word), View();
      var index := 0;
      while !IsZero(word)
        invariant Valid() && Remaining(word, pending, index)
        invariant WakeFrom(View(), pending, index) == WakeFrom(s0, pending, 0)
        decreases WORD - index
      {
        ok, word := WakeBit(word, index, pending);
        if !ok {
          return;
        }
        index := index + 1;
      }
      RemainingNone(word, pending, index);
      NoneLeft(View(), pending, index);
      return true;
    }

    /** `delay_wake_cids.swap(0)`. */
    method TakeDelayed() returns (word: Word)
      requires Valid()
      modifies this`delayed
      ensures Valid() && |word| == WORD && Ones(word) == old(View()).pending
      ensures View() == old(View()).(pending := {})
    {
      word := delayed;
      delayed := Zero(WORD);
      assert Ones(Zero(WORD)) == {};
      assert Queues() == old(Queues());
    }

    method PopReady(prio: nat) returns (top: Option<nat>)
      requires Valid() && prio < MAX_PRIO_NUM
      modifies Rings()
      ensures Valid() && (top.None? <==> old(View()).queues[prio] == [])
      ensures top.None? ==> View() == old(View())
      ensures top.Some? ==>
                && top.value == old(View()).queues[prio][0]
                && View() == old(View()).(queues := old(View()).queues[prio := old(View()).queues[prio][1..]])
    {
      top := ready[prio].Pop();
      ghost var before := old(Queues());
      if top.None? {
        assert Queues() == before;
      } else {
        assert before[prio][1..] == ready[prio].Contents();
        assert Queues() == before[prio := before[prio][1..]];
      }
    }

    /** Makes a coroutine the running one, and clears the bit of its queue if that has become empty. */
    method MakeCurrent(prio: nat, cid: nat)
      requires Valid() && prio < MAX_PRIO_NUM
      modifies this`prioBitmap, this`current
      ensures Valid()
      ensures View() == old(View()).(current := Some(cid),
                                     bits := if old(View()).queues[prio] == [] then old(View()).bits - {prio} else old(View()).bits)
    {
      current := Some(cid);
      var empty := ready[prio].Empty();
      if empty {
        ClearBit(prioBitmap, prio);
        prioBitmap := And(prioBitmap, Not(OneHot(WORD, prio)));
      }
      assert Queues() == old(Queues());
    }

    method TakeFrom(prio: nat) returns (r: Option<nat>)
      requires Valid() && prio < MAX_PRIO_NUM && prio == FirstBit(View().bits)
      requires View().queues[prio] != [] ==> View().queues[prio][0] < MAX_TASK_NUM
      modifies this`prioBitmap, this`current, Rings()
      ensures Valid() && Runtime.Take(old(View())) == Ok((View(), r))
    {
      var top := PopReady(prio);
      if top.None? || tasks[top.value].None? {
        return None;
      }
      MakeCurrent(prio, top.value);
      return top;
    }

    method Fetch() returns (ok: bool, r: Option<nat>)
      requires Valid() && Inv(View())
      modifies this`prioBitmap, this`delayed, this`current, Rings()
      ensures Valid()
      ensures ok <==> Runtime.Fetch(old(View())).Ok?
      ensures ok ==> Runtime.Fetch(old(View())) == Ok((View(), r))
    {
      ok := ActualWake();
      if !ok {
        return false, None;
      }
      ActualWakeKeeps(old(View()));
      var prio := TrailingZeros(prioBitmap);
      TrailingZerosIsMin(prioBitmap);
      if prio == WORD {
        return true, None;
      }
      r := TakeFrom(prio);
    }

    method SwitchPossible() returns (ok: bool, r: bool)
      requires Valid()
      modifies this`prioBitmap, this`delayed, Rings()
      ensures Valid()
      ensures ok <==> Runtime.SwitchPossible(old(View())).Ok?
      ensures ok ==> Runtime.SwitchPossible(old(View())) == Ok((View(), r))
    {
      ok := ActualWake();
      if !ok || current.None? || current.value >= tasks.Length || tasks[current.value].None? {
        return false, false;
      }
      var prio := TrailingZeros(prioBitmap);
      TrailingZerosIsMin(prioBitmap);
      r := prio < tasks[current.value].value.prio;
    }

    /** `possible_switch` up to its suspension: wakes the running coroutine if one has priority over it. */
    method PossibleSwitch() returns (ok: bool)
      requires Valid()
      modifies this`prioBitmap, this`delayed, Rings()
      ensures Valid()
      ensures ok <==> Runtime.Act(old(View()), 0, Switch).Ok?
      ensures ok ==> View() == Runtime.Act(old(View()), 0, Switch).value
    {
      var up: bool;
      ok, up := SwitchPossible();
      if ok && up {
        ok := Wake(current.value);
      }
    }

    method RemoveTask(cid: nat) returns (ok: bool)
      requires Valid() && cid < MAX_TASK_NUM
      modifies tasks, this`coroutineNum, ids.bitmap
      ensures Valid() && (ok <==> old(View()).num > 0)
      ensures ok ==>
                View() == old(View()).(tasks := old(View()).tasks[cid := None], num := old(View()).num - 1, ids := old(View()).ids - {cid})
    {
      if coroutineNum == 0 {
        return false;
      }
      Store(cid, None, coroutineNum - 1);
      ids.Release(cid);
      assert Queues() == old(Queues());
      return true;
    }

    /** What an interrupt handler does to the executor: a deferred wake for each id. */
    method DelayWakes(wakes: set<nat>) returns (ok: bool)
      requires Valid()
      modifies this`delayed
      ensures Valid()
      ensures ok <==> forall id :: id in wakes ==> id < WORD
      ensures ok ==> View() == old(View()).(pending := old(View()).pending + wakes)
    {
      var word: Word;
      ok, word := SetAll(delayed, wakes);
      if ok {
        delayed := word;
        assert Queues() == old(Queues());
      }
    }

    method Act(self: nat, a: Action) returns (ok: bool)
      requires Valid()
      modifies this, tasks, ids.bitmap, Rings()
      ensures Valid()
      ensures ok <==> Runtime.Act(old(View()), self, a).Ok?
      ensures ok ==> View() == Runtime.Act(old(View()), self, a).value
    {
      match a
      case Wake(id) => ok := Wake(id);
      case WakeSelf => ok := Wake(self);
      case Spawn(prio, body) =>
        var id := Spawn(prio, body);
        ok := id.Some?;
      case Interrupt(wakes) => ok := DelayWakes(wakes);
      case Switch => ok := PossibleSwitch();
    }

    method Perform(self: nat, acts: seq<Action>) returns (ok: bool)
      requires Valid()
      modifies this, tasks, ids.bitmap, Rings()
      ensures Valid()
      ensures ok <==> Runtime.Perform(old(View()), self, acts).Ok?
      ensures ok ==> View() == Runtime.Perform(old(View()), self, acts).value
    {
      var i := 0;
      while i < |acts|
        invariant Valid() && i <= |acts|
        invariant Runtime.Perform(View(), self, acts[i..]) == Runtime.Perform(old(View()), self, acts)
      {
        assert acts[i..][0] == acts[i] && acts[i..][1..] == acts[i + 1..];
        ok := Act(self, acts[i]);
        if !ok {
          return;
        }
        i := i + 1;
      }
      return true;
    }

    /** Polls a coroutine once and removes it if it has finished. */
    method Poll(cid: nat) returns (ok: bool)
      requires Valid() && Inv(View()) && Live(View(), cid)
      modifies this, tasks, ids.bitmap, Rings()
      ensures Valid()
      ensures ok <==> Runtime.Poll(old(View()), cid).Ok?
      ensures ok ==> View() == Runtime.Poll(old(View()), cid).value
    {
      var body := tasks[cid].value.body;
      ok := Perform(cid, body.acts);
      if !ok {
        return;
      }
      if tasks[cid].None? {
        return false;
      }
      match body {
        case Finish(_) => ok := RemoveTask(cid);
        case Suspend(_, rest) => Store(cid, Some(tasks[cid].value.(body := rest)), coroutineNum);
      }
    }

    /** One turn of the main loop: a fetch and, if there is a coroutine to run, its poll. */
    method Turn() returns (ok: bool, next: Option<nat>)
      requires Valid() && Inv(View())
      modifies this, tasks, ids.bitmap, Rings()
      ensures Valid()
      ensures !ok ==> Run(old(View())).Crashed?
      ensures ok && next.None? ==> Run(old(View())) == Stopped(View(), [])
      ensures ok && next.Some? ==>
                && Inv(View()) && Work(View().tasks) < Work(old(View()).tasks)
                && Continues(old(View()), [next.value], View())
    {
      ghost var s := View();
      ok, next := Fetch();
      if ok && next.Some? {
        FetchKeeps(s);
        ok := Poll(next.value);
        if ok { PollOnce(s); }
      }
    }

    /** The executor's main loop, which terminates and does what `Scheduler.Run` says. */
    method RunUntilBlocked() returns (ok: bool, ghost polls: seq<nat>)
      requires Valid() && Inv(View())
      modifies this, tasks, ids.bitmap, Rings()
      ensures Valid()
      ensures ok <==> Run(old(View())).Stopped?
      ensures ok ==> Run(old(View())) == Stopped(View(), polls)
    {
      polls := [];
      while true
        invariant Valid() && Inv(View()) && Continues(old(View()), polls, View())
        decreases Work(View().tasks)
      {
        ghost var s := View();
        var next: Option<nat>;
        ok, next := Turn();
        if !ok || next.None? {
          return;
        }
        assert forall more: seq<nat> :: polls + ([next.value] + more) == (polls + [next.value]) + more;
        polls := polls + [next.value];
      }
    }

  }

  /** Having polled `polls`, a run from `s0` goes on as a run from `s`. */
  ghost predicate Continues(s0: State, polls: seq<nat>, s: State)
    requires Inv(s0) && Inv(s)
  {
    match Run(s)
    case Crashed => Run(s0).Crashed?
    case Stopped(end, more) => Run(s0) == Stopped(end, polls + more)
  }

  /** Sets the given bits of a word, which must have that many. */
  method SetAll(w: Word, bits: set<nat>) returns (ok: bool, r: Word)
    ensures ok <==> forall i :: i in bits ==> i < |w|
    ensures |r| == |w| && (ok ==> Ones(r) == Ones(w) + bits)
  {
    r := w;
    var rest := bits;
    while rest != {}
      invariant rest <= bits && |r| == |w| && (forall j :: j in bits && j !in rest ==> j < |w|)
      invariant Ones(r) == Ones(w) + (bits - rest)
      decreases |rest|
    {
      var i :| i in rest;
      if i >= |w| {
        assert i in bits;
        return false, r;
      }
      SetBit(r, i);
      r := Or(r, OneHot(|w|, i));
      rest := rest - {i};
    }
    assert bits - rest == bits;
    return true, r;
  }

  /** `[RingBuffer::new(); n]`: separate, empty rings. */
  method NewRings(n: nat) returns (rings: seq<RingBuffer<nat>>)
    ensures |rings| == n && Separate(rings) && forall r :: r in rings ==> fresh(r) && fresh(r.data)
    ensures forall k :: 0 <= k < n ==> rings[k].Contents() == []
  {
    if n == 0 {
      return [];
    }
    rings := NewRings(n - 1);
    var r := new RingBuffer(MAX_TASK_NUM, 0);
    rings := rings + [r];
  }

  /** Whether the bit of `id` is still set when `actual_wake` has handled the ids below `index`. */
  ghost predicate Left(pending: set<nat>, index: nat, id: nat) {
    id in pending && !(id % 2 == 0 && 1 <= id / 2 < index && Handled(pending, id / 2))
  }

  /** What the local word of `actual_wake` holds at `index`. */
  ghost predicate Remaining(word: Word, pending: set<nat>, index: nat) {
    && |word| == WORD && index <= WORD
    && (forall j :: 0 <= j < WORD - index ==> (word[j] <==> Left(pending, index, index + j)))
    && (forall j :: WORD - index <= j < WORD ==> !word[j])
  }

  lemma RemainingStep(word: Word, pending: set<nat>, index: nat)
    requires Remaining(word, pending, index) && !IsZero(word)
    ensures index < WORD && (word[0] <==> Handled(pending, index))
    ensures Remaining(ShiftRight(if word[0] then And(word, Not(OneHot(WORD, index))) else word), pending, index + 1)
  {
    var next := ShiftRight(if word[0] then And(word, Not(OneHot(WORD, index))) else word);
    forall j | 0 <= j < WORD - (index + 1) ensures next[j] <==> Left(pending, index + 1, index + 1 + j) {
      assert word[j + 1] <==> Left(pending, index, index + (j + 1));
    }
  }

  lemma RemainingNone(word: Word, pending: set<nat>, index: nat)
    requires Remaining(word, pending, index) && IsZero(word)
    ensures forall id :: index <= id < WORD ==> !Handled(pending, id)
  {
    forall id | index <= id < WORD ensures !Handled(pending, id) {
      assert !word[id - index];
    }
  }
}
