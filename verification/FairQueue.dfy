/**
 `FairQueue`: the heap, the dedup set, the stream map and the waker as fields that the methods
 change in place, with the environment acting between lock regions. Every lock region is proved to
 be one action of the state machine in module FairQueueModel.
 */
module FairQueue {
  import opened FairQueueModel
  import opened FairQueueService

  /** What a poll contributes to the emitted items. */
  function ItemOf(result: Outcome): seq<(Key, Payload)> {
    if result.Yielded? then [(result.key, result.payload)] else []
  }

  datatype ReadyEvent = ReadyEvent(priority: nat, key: Key)

  /** `Ord` for ready events: reversed, so the greatest event has the smallest priority. */
  predicate AtMost(a: ReadyEvent, b: ReadyEvent) {
    b.priority <= a.priority
  }

  function KeysOf(events: seq<ReadyEvent>): seq<Key> {
    seq(|events|, i requires 0 <= i < |events| => events[i].key)
  }

  /** The events in the order of their priorities, all below the counter. */
  ghost predicate InOrder(events: seq<ReadyEvent>, counter: nat) {
    && (forall i, j :: 0 <= i < j < |events| ==> events[i].priority < events[j].priority)
    && (forall i :: 0 <= i < |events| ==> events[i].priority < counter)
  }

  ghost predicate HeapHolds(heap: set<ReadyEvent>, events: seq<ReadyEvent>) {
    && (forall e :: e in heap ==> e in events)
    && (forall i :: 0 <= i < |events| ==> events[i] in heap)
  }

  /** Pushing with the counter's next value is appending to the FIFO order. */
  lemma PushIsAppend(heap: set<ReadyEvent>, events: seq<ReadyEvent>, counter: nat, k: Key)
    requires HeapHolds(heap, events) && InOrder(events, counter)
    ensures var e := ReadyEvent(counter, k);
            && HeapHolds(heap + {e}, events + [e]) && InOrder(events + [e], counter + 1)
            && KeysOf(events + [e]) == KeysOf(events) + [k]
  {
  }

  /** The greatest event of the heap is the first of the FIFO order, and no other. */
  lemma GreatestIsFirst(heap: set<ReadyEvent>, events: seq<ReadyEvent>, counter: nat, e: ReadyEvent)
    requires HeapHolds(heap, events) && InOrder(events, counter) && e in heap
    ensures (forall x :: x in heap ==> AtMost(x, e)) <==> e == events[0]
  {
    var i :| 0 <= i < |events| && events[i] == e;
    if forall x :: x in heap ==> AtMost(x, e) {
      assert AtMost(events[0], e);
    }
  }

  lemma FirstRemoved(heap: set<ReadyEvent>, events: seq<ReadyEvent>, counter: nat)
    requires HeapHolds(heap, events) && InOrder(events, counter) && events != []
    ensures HeapHolds(heap - {events[0]}, events[1..]) && InOrder(events[1..], counter)
    ensures KeysOf(events)[0] == events[0].key && KeysOf(events[1..]) == KeysOf(events)[1..]
  {
    forall x | x in heap - {events[0]}
      ensures x in events[1..]
    {
      var j :| 0 <= j < |events| && events[j] == x;
      assert events[1..][j - 1] == x;
    }
  }

  lemma EmptyHeap(heap: set<ReadyEvent>, events: seq<ReadyEvent>)
    requires HeapHolds(heap, events)
    ensures heap == {} <==> events == []
    ensures KeysOf(events) == [] <==> events == []
    ensures events != [] ==> events[0] in heap
  {
  }

  /**
   What a poll answers, from the queue as its last lock region leaves it: an item, or the end if and
   only if no stream is connected and the queue does not wait for one, or else Pending.
   */
  ghost predicate Decided(s: State, result: Outcome) {
    && result != NeverPolled
    && (result == Ended ==> s.streams == map[] && !s.blockOnNoClients)
    && (result == Pending ==> s.streams != map[] || s.blockOnNoClients)
    && (result.Yielded? ==> s.emitted != [] && s.emitted[|s.emitted| - 1] == (result.key, result.payload))
  }

  /** The first `n` steps decide the result; after them the consumer at most wakes itself. */
  ghost predicate DecidedAt(start: State, trace: seq<Action>, n: nat, result: Outcome) {
    && n <= |trace| && Possible(start, trace[..n]) && Decided(Run(start, trace[..n]), result)
    && forall i :: n <= i < |trace| ==> !ByConsumer(trace[i]) || trace[i].WakeItself?
  }

  lemma DecidedNow(start: State, trace: seq<Action>, result: Outcome)
    requires Possible(start, trace) && Decided(Run(start, trace), result)
    ensures DecidedAt(start, trace, |trace|, result)
  {
    assert trace[..|trace|] == trace;
  }

  lemma StillDecided(start: State, trace: seq<Action>, more: seq<Action>, n: nat, result: Outcome)
    requires DecidedAt(start, trace, n, result) && trace <= more
    requires forall i :: |trace| <= i < |more| ==> !ByConsumer(more[i]) || more[i].WakeItself?
    ensures DecidedAt(start, more, n, result)
  {
    assert more[..n] == trace[..n];
    forall i | n <= i < |more|
      ensures !ByConsumer(more[i]) || more[i].WakeItself?
    {
      assert i < |trace| ==> more[i] == trace[i];
    }
  }

  class FairQueue {
    const blockOnNoClients: bool
    var counter: nat
    var readyQueue: set<ReadyEvent>
    var queued: set<Key>
    var streams: map<Key, Stream>
    var waker: bool

    /** How often the consumer's task was woken; a poll has been notified if that grew since it began. */
    var wakes: nat
    ghost var wakesAtPoll: nat

    /** What the environment does at each coming point between lock regions. */
    var environment: seq<seq<Action>>

    ghost var order: seq<ReadyEvent>
    ghost var model: State

    ghost predicate Valid()
      reads this
    {
      && HeapHolds(readyQueue, order) && InOrder(order, counter)
      && model.ready == KeysOf(order)
      && model.queued == queued && model.streams == streams && model.waker == waker
      && model.blockOnNoClients == blockOnNoClients
      && wakesAtPoll <= wakes && (model.notified <==> wakesAtPoll < wakes)
      && (forall i, j :: 0 <= i < |environment| && 0 <= j < |environment[i]| ==> !ByConsumer(environment[i][j]))
    }

    constructor (blockOnNoClients: bool)
      ensures Valid() && model == Empty(blockOnNoClients) && environment == []
      ensures ConsumerWillHear(model) && WithinBudget(model) && QueuedHaveEvents(model)
      ensures StreamsWillBePolled(model) && OneEventEach(model)
    {
      this.blockOnNoClients := blockOnNoClients;
      counter, readyQueue, queued, streams, waker := 0, {}, {}, map[], false;
      environment, wakes := [], 0;
      order, wakesAtPoll := [], 0;
      model := Empty(blockOnNoClients);
    }

    // ----- Methods of the inner queue; each runs under the lock -----

    method PushReady(k: Key)
      requires Valid()
      modifies this
      ensures Valid() && model == FairQueueModel.PushReady(old(model), k) && environment == old(environment)
      ensures wakes == old(wakes) && wakesAtPoll == old(wakesAtPoll)
    {
      if k !in queued {
        queued := queued + {k};
        PushIsAppend(readyQueue, order, counter, k);
        order := order + [ReadyEvent(counter, k)];
        readyQueue := readyQueue + {ReadyEvent(counter, k)};
        counter := counter + 1;
        model := FairQueueModel.PushReady(model, k);
      }
    }

    method Insert(k: Key, stream: Stream)
      requires Valid()
      modifies this
      ensures Valid() && model == Apply(old(model), FairQueueModel.Insert(k, stream)) && environment == old(environment)
      ensures wakes == old(wakes) + if old(waker) then 1 else 0
    {
      streams := streams[k := stream];
      model := model.(streams := streams);
      PushReady(k);
      model := Notify(model);
      if waker {
        wakes := wakes + 1;
      }
    }

    method Remove(k: Key)
      requires Valid()
      modifies this
      ensures Valid() && model == Apply(old(model), FairQueueModel.Remove(k)) && environment == old(environment)
      ensures wakes == old(wakes)
    {
      streams := streams - {k};
      queued := queued - {k};
      model := RemoveKey(model, k);
    }

    method Clear()
      requires Valid()
      modifies this
      ensures Valid() && model == Apply(old(model), FairQueueModel.Clear) && environment == old(environment)
      ensures wakes == old(wakes) + if old(waker) then 1 else 0
    {
      streams, readyQueue, queued := map[], {}, {};
      order := [];
      model := Apply(model, FairQueueModel.Clear);
      if waker {
        waker := false;
        wakes := wakes + 1;
      }
    }

    /** `StreamWaker::wake_by_ref` for the stream of `k`. */
    method WakeStream(k: Key)
      requires Valid()
      modifies this
      ensures Valid() && model == Apply(old(model), Wake(k)) && environment == old(environment)
      ensures wakes == old(wakes) + if old(waker) then 1 else 0
    {
      PushReady(k);
      model := Notify(model).(waker := false, armed := model.armed - {k});
      if waker {
        waker := false;
        wakes := wakes + 1;
      }
    }

    method Act(a: Action)
      requires Valid() && !ByConsumer(a)
      modifies this
      ensures Valid() && model == Apply(old(model), a) && environment == old(environment)
      ensures model.consumer == old(model.consumer) && model.emitted == old(model.emitted)
    {
      match a {
        case Wake(k) => WakeStream(k);
        case Insert(k, stream) => Insert(k, stream);
        case Remove(k) => Remove(k);
        case Clear => Clear();
      }
    }

    /** The environment's turn between two lock regions. */
    method Interfere(ghost start: State, ghost trace: seq<Action>) returns (ghost trace': seq<Action>)
      requires Valid() && Possible(start, trace) && model == Run(start, trace)
      modifies this
      ensures Valid() && Possible(start, trace') && model == Run(start, trace')
      ensures model.consumer == old(model.consumer) && model.emitted == old(model.emitted)
      ensures trace <= trace'
      ensures forall i :: |trace| <= i < |trace'| ==> !ByConsumer(trace'[i])
      ensures old(environment) == [] ==> environment == [] && trace' == trace
      ensures old(environment) != [] ==>
                environment == old(environment)[1..] && trace' == trace + old(environment)[0]
    {
      hide Run, Possible, HeapHolds, InOrder, KeysOf, Apply;
      trace' := trace;
      if environment == [] {
        return;
      }
      var batch := environment[0];
      environment := environment[1..];
      for i := 0 to |batch|
        invariant Valid() && Possible(start, trace') && model == Run(start, trace')
        invariant model.consumer == old(model.consumer) && model.emitted == old(model.emitted) && trace <= trace'
        invariant forall j :: 0 <= j < |batch| ==> !ByConsumer(batch[j])
        invariant forall j :: |trace| <= j < |trace'| ==> !ByConsumer(trace'[j])
        invariant environment == old(environment)[1..] && trace' == trace + batch[..i]
      {
        RunAppend(start, trace', batch[i]);
        assert trace' + [batch[i]] == trace + batch[..i + 1];
        trace' := trace' + [batch[i]];
        Act(batch[i]);
      }
    }

    // ----- The lock regions of poll_next -----

    method Begin() returns (remaining: nat)
      requires Valid() && model.consumer.Resting?
      modifies this
      ensures Valid() && model == Apply(old(model), BeginPoll) && environment == old(environment)
      ensures model.emitted == old(model.emitted)
      ensures model.consumer == Looping(remaining)
    {
      waker := true;
      remaining := |readyQueue|;
      HeapSize(readyQueue, order, counter);
      wakesAtPoll := wakes;
      model := Apply(model, BeginPoll);
    }

    /** `BinaryHeap::pop` on a heap that is not empty. */
    method PopGreatest() returns (event: ReadyEvent)
      requires HeapHolds(readyQueue, order) && InOrder(order, counter) && readyQueue != {}
      modifies this`readyQueue, this`order
      ensures HeapHolds(readyQueue, order) && InOrder(order, counter)
      ensures old(order) != [] && event == old(order)[0] && order == old(order)[1..]
      ensures KeysOf(old(order))[0] == event.key && KeysOf(order) == KeysOf(old(order))[1..]
    {
      hide InOrder, HeapHolds;
      EmptyHeap(readyQueue, order);
      GreatestIsFirst(readyQueue, order, counter, order[0]);
      event :| event in readyQueue && forall x :: x in readyQueue ==> AtMost(x, event);
      GreatestIsFirst(readyQueue, order, counter, event);
      FirstRemoved(readyQueue, order, counter);
      readyQueue := readyQueue - {event};
      order := order[1..];
    }

    /** Pops the greatest event and takes its stream out of the map, if there is one. */
    method TakeNext() returns (finished: bool, result: Outcome, taken: bool, key: Key, stream: Stream)
      requires Valid() && Enabled(model, NextReady)
      modifies this
      ensures Valid() && model == Apply(old(model), NextReady) && environment == old(environment)
      ensures finished ==>
                && model.consumer == Resting(result)
                && result == if streams != map[] || blockOnNoClients then Pending else Ended
      ensures !finished && !taken ==> model.consumer == Looping(old(model.consumer.remaining) - 1)
      ensures !finished && taken ==> model.consumer == Polling(old(model.consumer.remaining) - 1, key, stream)
    {
      hide HeapHolds, InOrder, KeysOf;
      finished, result, taken, key, stream := false, Pending, false, 0, [];
      waker := true;
      EmptyHeap(readyQueue, order);
      if readyQueue == {} {
        finished := true;
        result := if streams != map[] || blockOnNoClients then Pending else Ended;
        model := Apply(model, NextReady);
        return;
      }
      var event := PopGreatest();
      queued := queued - {event.key};
      key := event.key;
      if event.key in streams {
        taken := true;
        stream := streams[event.key];
        streams := streams - {event.key};
      }
      model := Apply(model, NextReady);
    }

    /** The region after a stream was polled: an item, Pending, or the end. */
    method PutBack(key: Key, stream: Stream)
      requires Valid() && model.consumer.Polling? && model.consumer.key == key && model.consumer.stream == stream
      modifies this
      ensures Valid() && model == Apply(old(model), StreamPolled) && environment == old(environment)
    {
      ghost var before := model;
      if stream != [] {
        streams := streams[key := stream[1..]];
        model := model.(streams := streams);
        if stream[0].Item? {
          PushReady(key);
        }
      }
      model := Apply(before, StreamPolled);
    }

    method Finish() returns (shouldWake: bool, result: Outcome)
      requires Valid() && Enabled(model, FinishPoll)
      modifies this
      ensures Valid() && model == Apply(old(model), FinishPoll) && environment == old(environment)
      ensures model.consumer == if shouldWake then WakingItself(result) else Resting(result)
      ensures result == if streams != map[] || blockOnNoClients then Pending else Ended
      ensures model.emitted == old(model.emitted)
    {
      waker := true;
      EmptyHeap(readyQueue, order);
      shouldWake := readyQueue != {};
      result := if streams != map[] || blockOnNoClients then Pending else Ended;
      model := Apply(model, FinishPoll);
    }

    /** The callback of a stream that ended; backends remove the peer's key. */
    method Disconnected(key: Key, removes: bool)
      requires Valid() && model.consumer.Disconnecting? && model.consumer.key == key
      modifies this
      ensures Valid() && model == Apply(old(model), RunCallback(removes)) && environment == old(environment)
    {
      ghost var before := model;
      if removes {
        Remove(key);
      }
      model := Apply(before, RunCallback(removes));
    }

    method WakeTask()
      requires Valid() && model.consumer.WakingItself?
      modifies this
      ensures Valid() && model == Apply(old(model), FairQueueModel.WakeItself) && environment == old(environment)
      ensures model.emitted == old(model.emitted) && model.consumer == Resting(old(model.consumer.result))
      ensures wakes == old(wakes) + 1
    {
      wakes := wakes + 1;
      model := Apply(model, FairQueueModel.WakeItself);
    }

    /** One turn of the loop of `poll_next`, after its countdown. */
    method VisitNext(ghost start: State, ghost trace: seq<Action>, callbackRemoves: bool)
      returns (finished: bool, result: Outcome, ghost trace': seq<Action>)
      requires Valid() && Possible(start, trace) && model == Run(start, trace) && Enabled(model, NextReady)
      modifies this
      ensures Valid() && Possible(start, trace') && model == Run(start, trace') && trace' != []
      ensures model.consumer == if finished then Resting(result) else Looping(old(model.consumer.remaining) - 1)
      ensures model.emitted == old(model.emitted) + if finished then ItemOf(result) else []
      ensures finished ==> Decided(model, result)
      ensures old(environment) == [] && OnlyConsumer(trace) ==> environment == [] && OnlyConsumer(trace')
    {
      hide Run, Possible, HeapHolds, InOrder, KeysOf, OnlyConsumer;
      trace' := Logged(start, trace, NextReady);
      var taken, key, stream;
      finished, result, taken, key, stream := TakeNext();
      if finished || !taken {
        return;
      }
      finished, result, trace' := PollTaken(start, trace', key, stream, callbackRemoves);
    }

    /** Polls the stream in hand, puts it back, and runs the callback if it has ended. */
    method PollTaken(ghost start: State, ghost trace: seq<Action>, key: Key, stream: Stream, callbackRemoves: bool)
      returns (finished: bool, result: Outcome, ghost trace': seq<Action>)
      requires Valid() && Possible(start, trace) && model == Run(start, trace)
      requires model.consumer.Polling? && model.consumer.key == key && model.consumer.stream == stream
      modifies this
      ensures Valid() && Possible(start, trace') && model == Run(start, trace') && trace' != []
      ensures model.consumer == if finished then Resting(result) else Looping(old(model.consumer.remaining))
      ensures model.emitted == old(model.emitted) + if finished then ItemOf(result) else []
      ensures finished ==> Decided(model, result)
      ensures old(environment) == [] && OnlyConsumer(trace) ==> environment == [] && OnlyConsumer(trace')
    {
      hide Run, Possible, HeapHolds, InOrder, KeysOf, OnlyConsumer;
      finished, result := false, Pending;
      trace' := Interfere(start, trace);
      trace' := Logged(start, trace', StreamPolled);
      PutBack(key, stream);
      if stream == [] {
        trace' := Interfere(start, trace');
        trace' := Logged(start, trace', RunCallback(callbackRemoves));
        Disconnected(key, callbackRemoves);
      } else if stream[0].Item? {
        return true, Yielded(key, stream[0].payload), trace';
      }
    }

    /**
     `poll_next`. The trace lists every step of the consumer and of the environment in the order
     in which they took the lock; alone, the consumer takes only its own steps. Every property of
     runs in modules FairQueueModel and FairQueueService therefore holds of every call. The first
     `decided` steps end with the consumer's last lock region, whose state decides the result.
     */
    method PollNext(callbackRemoves: bool) returns (result: Outcome, ghost trace: seq<Action>, ghost decided: nat)
      requires Valid() && model.consumer.Resting?
      modifies this
      ensures Valid() && model.consumer == Resting(result)
      ensures Possible(old(model), trace) && model == Run(old(model), trace) && trace != []
      ensures model.emitted == old(model.emitted) + ItemOf(result)
      ensures DecidedAt(old(model), trace, decided, result)
      ensures old(environment) == [] ==> environment == [] && OnlyConsumer(trace)
    {
      hide Run, Possible, HeapHolds, InOrder, KeysOf, OnlyConsumer, Apply, DecidedAt, Decided;
      ghost var start := model;
      NoSteps(start);
      trace := Logged(start, [], BeginPoll);
      var remaining := Begin();
      trace := Interfere(start, trace);
      while remaining > 0
        invariant Valid() && Possible(start, trace) && model == Run(start, trace)
        invariant model.consumer == Looping(remaining) && trace != [] && model.emitted == old(model.emitted)
        invariant old(environment) == [] ==> environment == [] && OnlyConsumer(trace)
        decreases remaining
      {
        remaining := remaining - 1;
        var finished;
        finished, result, trace := VisitNext(start, trace, callbackRemoves);
        if finished {
          decided := |trace|;
          DecidedNow(start, trace, result);
          return;
        }
        trace := Interfere(start, trace);
      }
      result, trace, decided := Conclude(start, trace);
    }

    /** The last lock region, and the consumer waking itself if events are left. */
    method Conclude(ghost start: State, ghost trace: seq<Action>)
      returns (result: Outcome, ghost trace': seq<Action>, ghost decided: nat)
      requires Valid() && Possible(start, trace) && model == Run(start, trace) && Enabled(model, FinishPoll)
      modifies this
      ensures Valid() && model.consumer == Resting(result) && !result.Yielded?
      ensures Possible(start, trace') && model == Run(start, trace') && trace' != []
      ensures model.emitted == old(model.emitted) && DecidedAt(start, trace', decided, result)
      ensures old(environment) == [] && OnlyConsumer(trace) ==> environment == [] && OnlyConsumer(trace')
    {
      hide Run, Possible, HeapHolds, InOrder, KeysOf, OnlyConsumer, Apply, DecidedAt;
      trace' := Logged(start, trace, FinishPoll);
      var shouldWake;
      shouldWake, result := Finish();
      decided := |trace'|;
      DecidedNow(start, trace', result);
      if shouldWake {
        ghost var until := trace';
        trace' := Interfere(start, trace');
        trace' := Logged(start, trace', FairQueueModel.WakeItself);
        StillDecided(start, until, trace', decided, result);
        WakeTask();
      }
    }
  }

  lemma NoSteps(s: State)
    ensures Possible(s, []) && Run(s, []) == s && OnlyConsumer([])
  {
  }

  /** One more step at the end of a run. */
  lemma Logged(start: State, trace: seq<Action>, a: Action) returns (trace': seq<Action>)
    requires Possible(start, trace) && Enabled(Run(start, trace), a)
    ensures trace' == trace + [a]
    ensures Possible(start, trace') && Run(start, trace') == Apply(Run(start, trace), a)
    ensures OnlyConsumer(trace) && ByConsumer(a) ==> OnlyConsumer(trace')
  {
    RunAppend(start, trace, a);
    trace' := trace + [a];
  }

  /** What always-ready streams will still yield. */
  ghost function Remaining(s: State): seq<(Key, Payload)>
    requires AlwaysReady(s)
  {
    LineupItemsOnly(s);
    RoundRobin(Lineup(s))
  }

  lemma OnePollServes(s: State, trace: seq<Action>, result: Outcome)
    requires AlwaysReady(s) && s.consumer.Resting? && Possible(s, trace) && OnlyConsumer(trace) && trace != []
    requires Run(s, trace).consumer == Resting(result) && Run(s, trace).emitted == s.emitted + ItemOf(result)
    requires result != NeverPolled
    ensures AlwaysReady(Run(s, trace)) && Remaining(s) == ItemOf(result) + Remaining(Run(s, trace))
    ensures !result.Yielded? ==> Remaining(Run(s, trace)) == []
  {
    hide RoundRobin;
    PollsServeRoundRobin(s, trace);
    var s' := Run(s, trace);
    var e, i, r := s.emitted, ItemOf(result), RoundRobin(Lineup(s'));
    assert e + i + r == e + (i + r);
    assert (e + RoundRobin(Lineup(s)))[|e|..] == RoundRobin(Lineup(s));
    assert (e + (i + r))[|e|..] == i + r;
    if !result.Yielded? {
      assert Lineup(s') == [];
      NothingToServe();
    }
  }

  lemma NothingToServe()
    ensures RoundRobin([]) == []
  {
  }

  /**
   The receiving loop on its own: polled until nothing is left, always-ready finite streams come
   out in rounds.
   */
  method DrainAll(q: FairQueue, callbackRemoves: bool) returns (items: seq<(Key, Payload)>, last: Outcome)
    requires q.Valid() && q.model.consumer.Resting? && q.environment == []
    requires AlwaysReady(q.model)
    modifies q
    ensures AllItemsOnly(Lineup(old(q.model))) && items == Rounds(Lineup(old(q.model)))
    ensures last == Pending || last == Ended
  {
    LineupItemsOnly(q.model);
    RoundRobinIsRounds(Lineup(q.model));
    assert Remaining(q.model) == Rounds(Lineup(q.model));
    hide Run, Possible, AlwaysReady, HeapHolds, InOrder, KeysOf, Remaining;
    items := [];
    while true
      invariant q.Valid() && q.model.consumer.Resting? && q.environment == [] && AlwaysReady(q.model)
      invariant items + Remaining(q.model) == Remaining(old(q.model))
      decreases |Remaining(q.model)|
    {
      ghost var before := q.model;
      ghost var trace;
      ghost var decided;
      last, trace, decided := q.PollNext(callbackRemoves);
      OnePollServes(before, trace, last);
      if !last.Yielded? {
        assert items + [] == items;
        return;
      }
      assert items + ([(last.key, last.payload)] + Remaining(q.model))
          == items + [(last.key, last.payload)] + Remaining(q.model);
      items := items + [(last.key, last.payload)];
    }
  }

  lemma HeapSize(heap: set<ReadyEvent>, events: seq<ReadyEvent>, counter: nat)
    requires HeapHolds(heap, events) && InOrder(events, counter)
    ensures |heap| == |events|
    decreases |events|
  {
    if events == [] {
      assert heap == {};
    } else {
      FirstRemoved(heap, events, counter);
      HeapSize(heap - {events[0]}, events[1..], counter);
    }
  }
}
