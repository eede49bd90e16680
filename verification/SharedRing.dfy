/** `SafeRingBuffer` shared by one producer thread and one consumer thread.

    Each access to a shared field is one step; the steps of `push_safe` and `pop_safe` interleave
    freely and are sequentially consistent. `start` is touched by the consumer alone and `end` by the
    producer alone. The capacity is any positive number. */
module SharedRing {

  /** What the producer does next in `push_safe(item)`. */
  datatype Producer<T> = PIdle | PFirstLoad(item: T) | PCheck(item: T) | PWrite(item: T) | PAdvance(item: T) | PPublish(item: T)

  /** What the consumer does next in `pop_safe`. */
  datatype Consumer<T> = CIdle | CCheck | CRead | CAdvance(item: T) | CRelease(item: T)

  /** The buffer, the two threads, and the history of completed pushes and pops. */
  datatype State<T> = State(
    data: seq<T>, start: nat, end: nat, count: int,
    producer: Producer<T>, consumer: Consumer<T>,
    pushed: seq<T>, popped: seq<T>)
  {
    function Size(): nat { |data| }

    /** The items in the buffer, as an observer of completed operations sees them. */
    ghost function Contents(): seq<T>
      requires |popped| <= |pushed|
    {
      pushed[|popped|..]
    }
  }

  datatype Action<T> =
    | BeginPush(item: T)
    | ProducerStep
    | BeginPop
    | ConsumerStep

  function Init<T>(data: seq<T>): State<T> {
    State(data, 0, 0, 0, PIdle, CIdle, [], [])
  }

  function ProducerNext<T>(s: State<T>): State<T>
    requires s.Size() > 0 && s.end < s.Size()
  {
    match s.producer
    case PIdle => s
    case PFirstLoad(item) => s.(producer := PCheck(item)) // the loaded value is not used
    case PCheck(item) => s.(producer := if s.count == s.Size() then PIdle else PWrite(item))
    case PWrite(item) => s.(data := s.data[s.end := item], producer := PAdvance(item))
    case PAdvance(item) => s.(end := (s.end + 1) % s.Size(), producer := PPublish(item))
    case PPublish(item) => s.(count := s.count + 1, producer := PIdle, pushed := s.pushed + [item])
  }

  function ConsumerNext<T>(s: State<T>): State<T>
    requires s.Size() > 0 && s.start < s.Size()
  {
    match s.consumer
    case CIdle => s
    case CCheck => s.(consumer := if s.count == 0 then CIdle else CRead)
    case CRead => s.(consumer := CAdvance(s.data[s.start]))
    case CAdvance(item) => s.(start := (s.start + 1) % s.Size(), consumer := CRelease(item))
    case CRelease(item) => s.(count := s.count - 1, consumer := CIdle, popped := s.popped + [item])
  }

  function Next<T>(s: State<T>, a: Action<T>): State<T>
    requires s.Size() > 0 && s.start < s.Size() && s.end < s.Size()
  {
    match a
    case BeginPush(item) => if s.producer.PIdle? then s.(producer := PFirstLoad(item)) else s
    case ProducerStep => ProducerNext(s)
    case BeginPop => if s.consumer.CIdle? then s.(consumer := CCheck) else s
    case ConsumerStep => ConsumerNext(s)
  }

  // ------------------------------------------------------------------ positions and slots

  /** The slot of the `x`-th item ever: `x` modulo the capacity. */
  function Slot(x: nat, n: nat): (r: nat)
    requires n > 0
    ensures r < n
  {
    if x < n then x else Slot(x - n, n)
  }

  lemma {:induction false} SlotStep(x: nat, n: nat)
    requires n > 0
    ensures Slot(x + 1, n) == (Slot(x, n) + 1) % n
  {
    if x >= n { SlotStep(x - n, n); }
  }

  /** Two positions closer than the capacity are in different slots. */
  lemma {:induction false} SlotsDistinct(x: nat, y: nat, n: nat)
    requires n > 0 && x < y < x + n
    ensures Slot(x, n) != Slot(y, n)
  {
    if x >= n { SlotsDistinct(x - n, y - n, n); }
  }

  // ------------------------------------------------------------------ the invariant

  /** The producer has written its item but not yet published it. */
  predicate Written<T>(p: Producer<T>) { p.PAdvance? || p.PPublish? }

  /** The consumer has read its item but not yet released the slot. */
  predicate Taken<T>(c: Consumer<T>) { c.CAdvance? || c.CRelease? }

  ghost predicate Counters<T>(s: State<T>) {
    && s.Size() > 0
    && |s.popped| <= |s.pushed| <= |s.popped| + s.Size()
    && s.count == |s.pushed| - |s.popped|
    && s.start == Slot(|s.popped| + (if s.consumer.CRelease? then 1 else 0), s.Size())
    && s.end == Slot(|s.pushed| + (if s.producer.PPublish? then 1 else 0), s.Size())
    && (s.producer.PWrite? || Written(s.producer) ==> |s.pushed| < |s.popped| + s.Size())
    && (s.consumer.CRead? || Taken(s.consumer) ==> |s.popped| < |s.pushed|)
  }

  /** Every unread item, and the one just written, is intact in its slot. */
  ghost predicate Intact<T>(s: State<T>)
    requires s.Size() > 0
  {
    && (forall i :: |s.popped| <= i < |s.pushed| ==> s.data[Slot(i, s.Size())] == s.pushed[i])
    && (Written(s.producer) ==> s.data[Slot(|s.pushed|, s.Size())] == s.producer.item)
  }

  ghost predicate Prefix<T>(s: State<T>) {
    && s.popped <= s.pushed
    && (Taken(s.consumer) ==> |s.popped| < |s.pushed| && s.consumer.item == s.pushed[|s.popped|])
  }

  ghost predicate Inv<T>(s: State<T>) {
    Counters(s) && Intact(s) && Prefix(s)
  }

  lemma EndAdvances<T>(s: State<T>)
    requires Counters(s) && s.producer.PAdvance?
    ensures s.end < s.Size() && Counters(s.(end := (s.end + 1) % s.Size(), producer := PPublish(s.producer.item)))
  {
    SlotStep(|s.pushed|, s.Size());
  }

  lemma ProducerCounters<T>(s: State<T>)
    requires Counters(s)
    ensures s.end < s.Size() && Counters(ProducerNext(s))
  {
    if s.producer.PAdvance? { EndAdvances(s); }
  }

  lemma ProducerWrite<T>(s: State<T>)
    requires Counters(s) && Intact(s) && s.producer.PWrite?
    ensures Intact(ProducerNext(s))
  {
    forall i | |s.popped| <= i < |s.pushed| ensures ProducerNext(s).data[Slot(i, s.Size())] == s.pushed[i] {
      SlotsDistinct(i, |s.pushed|, s.Size());
    }
  }

  lemma ProducerKeeps<T>(s: State<T>)
    requires Inv(s)
    ensures s.end < s.Size() && Inv(ProducerNext(s))
  {
    ProducerCounters(s);
    if s.producer.PWrite? { ProducerWrite(s); }
  }

  lemma StartAdvances<T>(s: State<T>)
    requires Counters(s) && s.consumer.CAdvance?
    ensures s.start < s.Size() && Counters(s.(start := (s.start + 1) % s.Size(), consumer := CRelease(s.consumer.item)))
  {
    SlotStep(|s.popped|, s.Size());
  }

  lemma ConsumerCounters<T>(s: State<T>)
    requires Counters(s)
    ensures s.start < s.Size() && Counters(ConsumerNext(s))
  {
    if s.consumer.CAdvance? { StartAdvances(s); }
  }

  lemma ConsumerKeeps<T>(s: State<T>)
    requires Inv(s)
    ensures s.start < s.Size() && Inv(ConsumerNext(s))
  {
    ConsumerCounters(s);
  }

  lemma BeginKeeps<T>(s: State<T>, item: T)
    requires Inv(s)
    ensures s.producer.PIdle? ==> Inv(s.(producer := PFirstLoad(item)))
    ensures s.consumer.CIdle? ==> Inv(s.(consumer := CCheck))
  {}

  lemma StepKeeps<T>(s: State<T>, a: Action<T>)
    requires Inv(s)
    ensures s.start < s.Size() && s.end < s.Size() && Inv(Next(s, a)) && Next(s, a).Size() == s.Size()
  {
    ProducerCounters(s);
    ConsumerCounters(s);
    match a {
      case BeginPush(item) => BeginKeeps(s, item);
      case ProducerStep => ProducerKeeps(s);
      case BeginPop => BeginKeeps(s, s.data[0]);
      case ConsumerStep => ConsumerKeeps(s);
    }
  }

  function Run<T>(s: State<T>, actions: seq<Action<T>>): State<T>
    requires Inv(s)
    decreases |actions|
  {
    if actions == [] then s
    else
      StepKeeps(s, actions[0]);
      Run(Next(s, actions[0]), actions[1..])
  }

  lemma {:induction false} RunKeeps<T>(s: State<T>, actions: seq<Action<T>>)
    requires Inv(s)
    ensures Inv(Run(s, actions)) && Run(s, actions).Size() == s.Size()
    decreases |actions|
  {
    if actions != [] {
      StepKeeps(s, actions[0]);
      RunKeeps(Next(s, actions[0]), actions[1..]);
    }
  }

  /** In every interleaving: what has been popped is a prefix of what has been pushed, the count stays
      between 0 and the capacity, every unread item is intact, and when the producer is about to write a
      slot while the consumer is about to read one, the slots differ. */
  lemma EveryRunIsFifo<T>(data: seq<T>, actions: seq<Action<T>>)
    requires |data| > 0
    ensures var s := Run(Init(data), actions);
      && s.popped <= s.pushed
      && 0 <= s.count <= |data| == s.Size()
      && (forall i :: |s.popped| <= i < |s.pushed| ==> s.data[Slot(i, s.Size())] == s.pushed[i])
      && (s.producer.PWrite? && s.consumer.CRead? ==> s.start != s.end)
  {
    RunKeeps(Init(data), actions);
    var s := Run(Init(data), actions);
    if s.producer.PWrite? && s.consumer.CRead? { SlotsDistinct(|s.popped|, |s.pushed|, s.Size()); }
  }

  // ------------------------------------------------------------------ whole runs as runs of a queue

  /** What an operation does to the queue, or finds. */
  datatype Event<T> = Appended(item: T) | Removed(item: T) | FoundFull(item: T) | FoundEmpty

  /** The event that a step is, if any. An operation's event is one of its own steps. */
  function EventOf<T>(s: State<T>, a: Action<T>): seq<Event<T>> {
    match a
    case ProducerStep =>
      if s.producer.PPublish? then [Appended(s.producer.item)]
      else if s.producer.PCheck? && s.count == s.Size() then [FoundFull(s.producer.item)] else []
    case ConsumerStep =>
      if s.consumer.CRelease? then [Removed(s.consumer.item)]
      else if s.consumer.CCheck? && s.count == 0 then [FoundEmpty] else []
    case _ => []
  }

  function Trace<T>(s: State<T>, actions: seq<Action<T>>): seq<Event<T>>
    requires Inv(s)
    decreases |actions|
  {
    if actions == [] then []
    else
      StepKeeps(s, actions[0]);
      EventOf(s, actions[0]) + Trace(Next(s, actions[0]), actions[1..])
  }

  /** Whether a bounded FIFO queue with these contents can have this event, and its contents afterwards. */
  ghost predicate Allows<T>(q: seq<T>, capacity: nat, e: Event<T>) {
    match e
    case Appended(_) => |q| < capacity
    case Removed(x) => q != [] && q[0] == x
    case FoundFull(_) => |q| == capacity
    case FoundEmpty => q == []
  }

  function After<T>(q: seq<T>, e: Event<T>): seq<T> {
    match e
    case Appended(x) => q + [x]
    case Removed(_) => if q == [] then [] else q[1..]
    case _ => q
  }

  /** The events, one after the other, are those of a bounded FIFO queue that goes from `q` to `r`. */
  ghost predicate Replays<T>(q: seq<T>, capacity: nat, events: seq<Event<T>>, r: seq<T>)
    decreases |events|
  {
    if events == [] then q == r
    else Allows(q, capacity, events[0]) && Replays(After(q, events[0]), capacity, events[1..], r)
  }

  lemma ReplaysOne<T>(q: seq<T>, capacity: nat, e: Event<T>, rest: seq<Event<T>>, r: seq<T>)
    requires Allows(q, capacity, e) && Replays(After(q, e), capacity, rest, r)
    ensures Replays(q, capacity, [e] + rest, r)
  {
    assert ([e] + rest)[1..] == rest;
  }

  lemma ProducerReplays<T>(s: State<T>, rest: seq<Event<T>>, r: seq<T>)
    requires Inv(s) && Inv(ProducerNext(s)) && Replays(ProducerNext(s).Contents(), s.Size(), rest, r)
    ensures Replays(s.Contents(), s.Size(), EventOf(s, ProducerStep) + rest, r)
  {
    ProducerIsAtomic(s);
    var e := EventOf(s, ProducerStep);
    if e == [] {
      assert e + rest == rest;
    } else {
      ReplaysOne(s.Contents(), s.Size(), e[0], rest, r);
    }
  }

  lemma ConsumerReplays<T>(s: State<T>, rest: seq<Event<T>>, r: seq<T>)
    requires Inv(s) && Inv(ConsumerNext(s)) && Replays(ConsumerNext(s).Contents(), s.Size(), rest, r)
    ensures Replays(s.Contents(), s.Size(), EventOf(s, ConsumerStep) + rest, r)
  {
    ConsumerIsAtomic(s);
    var e := EventOf(s, ConsumerStep);
    if e == [] {
      assert e + rest == rest;
    } else {
      if s.consumer.CRelease? { assert s.Contents()[1..] == ConsumerNext(s).Contents(); }
      ReplaysOne(s.Contents(), s.Size(), e[0], rest, r);
    }
  }

  lemma StepReplays<T>(s: State<T>, a: Action<T>, rest: seq<Event<T>>, r: seq<T>)
    requires Inv(s) && s.start < s.Size() && s.end < s.Size() && Inv(Next(s, a))
    requires Replays(Next(s, a).Contents(), s.Size(), rest, r)
    ensures Replays(s.Contents(), s.Size(), EventOf(s, a) + rest, r)
  {
    match a {
      case ProducerStep => ProducerReplays(s, rest, r);
      case ConsumerStep => ConsumerReplays(s, rest, r);
      case BeginPush(_) => assert EventOf(s, a) + rest == rest;
      case BeginPop => assert EventOf(s, a) + rest == rest;
    }
  }

  lemma {:induction false} RunReplays<T>(s: State<T>, actions: seq<Action<T>>)
    requires Inv(s)
    ensures Inv(Run(s, actions))
    ensures Replays(s.Contents(), s.Size(), Trace(s, actions), Run(s, actions).Contents())
    decreases |actions|
  {
    if actions != [] {
      StepKeeps(s, actions[0]);
      var t := Next(s, actions[0]);
      RunReplays(t, actions[1..]);
      StepReplays(s, actions[0], Trace(t, actions[1..]), Run(t, actions[1..]).Contents());
    }
  }

  /** Every interleaving of `push_safe` and `pop_safe` has the effect of appends and removals that happen one
      at a time, each within its operation: a bounded FIFO queue started empty accepts them in that order,
      refuses a push exactly when it is full and a pop exactly when it is empty, and ends with the contents
      of the buffer. */
  lemma EveryRunIsAQueue<T>(data: seq<T>, actions: seq<Action<T>>)
    requires |data| > 0
    ensures Inv(Run(Init(data), actions))
    ensures Replays([], |data|, Trace(Init(data), actions), Run(Init(data), actions).Contents())
  {
    RunReplays(Init(data), actions);
  }

  /** The producer's steps as those of a bounded FIFO queue: publishing appends, a push fails exactly on a
      full queue, its other steps change nothing, and it ends in no other way. */
  lemma ProducerIsAtomic<T>(s: State<T>)
    requires Inv(s)
    ensures s.end < s.Size() && Inv(ProducerNext(s))
    ensures s.producer.PPublish? ==>
              && |s.Contents()| < s.Size()
              && ProducerNext(s).Contents() == s.Contents() + [s.producer.item]
    ensures !s.producer.PPublish? ==> ProducerNext(s).Contents() == s.Contents()
    ensures s.producer.PCheck? ==> (ProducerNext(s).producer.PIdle? <==> |s.Contents()| == s.Size())
    ensures !s.producer.PIdle? && ProducerNext(s).producer.PIdle? ==>
              s.producer.PPublish? || (s.producer.PCheck? && |s.Contents()| == s.Size())
  {
    ProducerKeeps(s);
  }

  /** The consumer's steps as those of a FIFO queue: releasing removes the first item, which is the one
      returned, a pop fails exactly on an empty queue, its other steps change nothing, and it ends in no
      other way. */
  lemma ConsumerIsAtomic<T>(s: State<T>)
    requires Inv(s)
    ensures s.start < s.Size() && Inv(ConsumerNext(s))
    ensures s.consumer.CRelease? ==>
              && s.Contents() == [s.consumer.item] + ConsumerNext(s).Contents()
              && ConsumerNext(s).popped == s.popped + [s.consumer.item]
    ensures !s.consumer.CRelease? ==> ConsumerNext(s).Contents() == s.Contents()
    ensures s.consumer.CCheck? ==> (ConsumerNext(s).consumer.CIdle? <==> s.Contents() == [])
    ensures !s.consumer.CIdle? && ConsumerNext(s).consumer.CIdle? ==>
              s.consumer.CRelease? || (s.consumer.CCheck? && s.Contents() == [])
  {
    ConsumerKeeps(s);
  }
}
