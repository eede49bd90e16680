/** Each operation on the shared ring ends, soon, with exactly one outcome. */
module RingOutcomes {
  import opened Basics
  import opened SharedRing

  /** The number of its own steps that an operation has left at most. */
  function ProducerLeft<T>(p: Producer<T>): nat {
    match p
    case PIdle => 0
    case PFirstLoad(_) => 5
    case PCheck(_) => 4
    case PWrite(_) => 3
    case PAdvance(_) => 2
    case PPublish(_) => 1
  }

  function ConsumerLeft<T>(c: Consumer<T>): nat {
    match c
    case CIdle => 0
    case CCheck => 4
    case CRead => 3
    case CAdvance(_) => 2
    case CRelease(_) => 1
  }

  /** The push under way, if any. */
  function Pushing<T>(s: State<T>): seq<T> { if s.producer.PIdle? then [] else [s.producer.item] }

  function Popping<T>(s: State<T>): nat { if s.consumer.CIdle? then 0 else 1 }

  /** The push that an action begins, if any. */
  function BegunPush<T>(s: State<T>, a: Action<T>): seq<T> { if a.BeginPush? && s.producer.PIdle? then [a.item] else [] }

  function BegunPop<T>(s: State<T>, a: Action<T>): nat { if a.BeginPop? && s.consumer.CIdle? then 1 else 0 }

  /** The items of the completed pushes among the events, appended or refused. */
  function PushedOf<T>(events: seq<Event<T>>): seq<T> {
    if events == [] then []
    else (if events[0].Appended? || events[0].FoundFull? then [events[0].item] else []) + PushedOf(events[1..])
  }

  /** The number of completed pops among the events. */
  function PopsOf<T>(events: seq<Event<T>>): nat {
    if events == [] then 0 else (if events[0].Removed? || events[0].FoundEmpty? then 1 else 0) + PopsOf(events[1..])
  }

  lemma PushedOfOne<T>(e: Event<T>)
    ensures PushedOf([e]) == (if e.Appended? || e.FoundFull? then [e.item] else [])
    ensures PopsOf([e]) == (if e.Removed? || e.FoundEmpty? then 1 else 0)
  {
    assert [e][1..] == [];
  }

  /** A push ends exactly at its event, and every step brings it nearer to its end. */
  lemma ProducerEnds<T>(s: State<T>)
    requires s.Size() > 0 && s.end < s.Size()
    ensures PushedOf(EventOf(s, ProducerStep)) + Pushing(ProducerNext(s)) == Pushing(s)
    ensures PopsOf(EventOf(s, ProducerStep)) == 0 && ProducerNext(s).consumer == s.consumer
    ensures |EventOf(s, ProducerStep)| == (if !s.producer.PIdle? && ProducerNext(s).producer.PIdle? then 1 else 0)
    ensures !s.producer.PIdle? ==> ProducerLeft(ProducerNext(s).producer) < ProducerLeft(s.producer) <= 5
  {
    if EventOf(s, ProducerStep) != [] { PushedOfOne(EventOf(s, ProducerStep)[0]); }
  }

  /** The same for a pop. */
  lemma ConsumerEnds<T>(s: State<T>)
    requires s.Size() > 0 && s.start < s.Size()
    ensures PopsOf(EventOf(s, ConsumerStep)) + Popping(ConsumerNext(s)) == Popping(s)
    ensures PushedOf(EventOf(s, ConsumerStep)) == [] && ConsumerNext(s).producer == s.producer
    ensures |EventOf(s, ConsumerStep)| == (if !s.consumer.CIdle? && ConsumerNext(s).consumer.CIdle? then 1 else 0)
    ensures !s.consumer.CIdle? ==> ConsumerLeft(ConsumerNext(s).consumer) < ConsumerLeft(s.consumer) <= 4
  {
    if EventOf(s, ConsumerStep) != [] { PushedOfOne(EventOf(s, ConsumerStep)[0]); }
  }

  lemma StepEnds<T>(s: State<T>, a: Action<T>)
    requires s.Size() > 0 && s.start < s.Size() && s.end < s.Size()
    ensures Pushing(s) + BegunPush(s, a) == PushedOf(EventOf(s, a)) + Pushing(Next(s, a))
    ensures Popping(s) + BegunPop(s, a) == PopsOf(EventOf(s, a)) + Popping(Next(s, a))
  {
    ProducerEnds(s);
    ConsumerEnds(s);
  }

  function AllBegunPushes<T>(s: State<T>, actions: seq<Action<T>>): seq<T>
    requires Inv(s)
    decreases |actions|
  {
    if actions == [] then []
    else StepKeeps(s, actions[0]); BegunPush(s, actions[0]) + AllBegunPushes(Next(s, actions[0]), actions[1..])
  }

  function AllBegunPops<T>(s: State<T>, actions: seq<Action<T>>): nat
    requires Inv(s)
    decreases |actions|
  {
    if actions == [] then 0
    else StepKeeps(s, actions[0]); BegunPop(s, actions[0]) + AllBegunPops(Next(s, actions[0]), actions[1..])
  }

  lemma {:induction false} PushedOfAppend<T>(p: seq<Event<T>>, q: seq<Event<T>>)
    ensures PushedOf(p + q) == PushedOf(p) + PushedOf(q) && PopsOf(p + q) == PopsOf(p) + PopsOf(q)
  {
    if p == [] {
      assert p + q == q;
    } else {
      assert (p + q)[1..] == p[1..] + q;
      PushedOfAppend(p[1..], q);
    }
  }

  lemma {:induction false} RunEnds<T>(s: State<T>, actions: seq<Action<T>>)
    requires Inv(s)
    ensures Pushing(s) + AllBegunPushes(s, actions) == PushedOf(Trace(s, actions)) + Pushing(Run(s, actions))
    ensures Popping(s) + AllBegunPops(s, actions) == PopsOf(Trace(s, actions)) + Popping(Run(s, actions))
    decreases |actions|
  {
    if actions != [] {
      var a := actions[0];
      StepKeeps(s, a);
      var t := Next(s, a);
      StepEnds(s, a);
      RunEnds(t, actions[1..]);
      PushedOfAppend(EventOf(s, a), Trace(t, actions[1..]));
      Chain(Pushing(s), BegunPush(s, a), PushedOf(EventOf(s, a)), Pushing(t),
            AllBegunPushes(t, actions[1..]), PushedOf(Trace(t, actions[1..])), Pushing(Run(t, actions[1..])));
    }
  }

  /** In every interleaving each operation has exactly one outcome: the pushes begun are, in order, those that have
      appended their item or found the buffer full, and the one under way; and each pop begun has returned an
      item, or found the buffer empty, or is under way. */
  lemma EveryOperationHasOneOutcome<T>(data: seq<T>, actions: seq<Action<T>>)
    requires |data| > 0
    ensures AllBegunPushes(Init(data), actions) == PushedOf(Trace(Init(data), actions)) + Pushing(Run(Init(data), actions))
    ensures AllBegunPops(Init(data), actions) == PopsOf(Trace(Init(data), actions)) + Popping(Run(Init(data), actions))
  {
    RunEnds(Init(data), actions);
    assert [] + AllBegunPushes(Init(data), actions) == AllBegunPushes(Init(data), actions);
  }

  function ProducerSteps<T>(actions: seq<Action<T>>): nat {
    if actions == [] then 0 else (if actions[0].ProducerStep? then 1 else 0) + ProducerSteps(actions[1..])
  }

  function ConsumerSteps<T>(actions: seq<Action<T>>): nat {
    if actions == [] then 0 else (if actions[0].ConsumerStep? then 1 else 0) + ConsumerSteps(actions[1..])
  }

  lemma StepNearsEnds<T>(s: State<T>, a: Action<T>)
    requires s.Size() > 0 && s.start < s.Size() && s.end < s.Size()
    ensures !s.producer.PIdle? && PushedOf(EventOf(s, a)) == [] ==>
              && !Next(s, a).producer.PIdle?
              && ProducerLeft(Next(s, a).producer) + (if a.ProducerStep? then 1 else 0) <= ProducerLeft(s.producer)
    ensures !s.consumer.CIdle? && PopsOf(EventOf(s, a)) == 0 ==>
              && !Next(s, a).consumer.CIdle?
              && ConsumerLeft(Next(s, a).consumer) + (if a.ConsumerStep? then 1 else 0) <= ConsumerLeft(s.consumer)
  {
    ProducerEnds(s);
    ConsumerEnds(s);
  }

  /** A push under way has its outcome within five of its own steps, whatever the consumer does meanwhile. */
  lemma {:induction false} PushEnds<T>(s: State<T>, actions: seq<Action<T>>)
    requires Inv(s) && !s.producer.PIdle? && ProducerSteps(actions) >= ProducerLeft(s.producer)
    ensures ProducerLeft(s.producer) <= 5 && PushedOf(Trace(s, actions)) != []
    decreases |actions|
  {
    var a := actions[0];
    StepKeeps(s, a);
    StepNearsEnds(s, a);
    PushedOfAppend(EventOf(s, a), Trace(Next(s, a), actions[1..]));
    if PushedOf(EventOf(s, a)) == [] { PushEnds(Next(s, a), actions[1..]); }
  }

  /** A pop under way has its outcome within four of its own steps, whatever the producer does meanwhile. */
  lemma {:induction false} PopEnds<T>(s: State<T>, actions: seq<Action<T>>)
    requires Inv(s) && !s.consumer.CIdle? && ConsumerSteps(actions) >= ConsumerLeft(s.consumer)
    ensures ConsumerLeft(s.consumer) <= 4 && PopsOf(Trace(s, actions)) > 0
    decreases |actions|
  {
    var a := actions[0];
    StepKeeps(s, a);
    StepNearsEnds(s, a);
    PushedOfAppend(EventOf(s, a), Trace(Next(s, a), actions[1..]));
    if PopsOf(EventOf(s, a)) == 0 { PopEnds(Next(s, a), actions[1..]); }
  }
}
