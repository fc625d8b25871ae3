/**
 The fair queue as a state machine over its lock regions: one consumer polling, and an
 environment that wakes streams, inserts, removes and clears between any two of its steps.

 The ready heap appears here as a FIFO list of keys; class FairQueue shows that the heap with its
 growing counter and reversed order is exactly that.
 */
module FairQueueModel {
  type Key = nat
  type Payload = nat

  /** What a stream does on successive polls; after the last one it ends. */
  datatype StreamEvent = Item(payload: Payload) | NotReady

  type Stream = seq<StreamEvent>

  datatype Outcome = NeverPolled | Yielded(key: Key, payload: Payload) | Pending | Ended

  /** Where the consumer stands, between two lock regions. */
  datatype Consumer =
    | Resting(last: Outcome)
    | Looping(remaining: nat)
    | Polling(remaining: nat, key: Key, stream: Stream)
    | Disconnecting(remaining: nat, key: Key)
    | WakingItself(result: Outcome)

  datatype State = State(
    ready: seq<Key>,
    queued: set<Key>,
    streams: map<Key, Stream>,
    waker: bool,
    blockOnNoClients: bool,
    consumer: Consumer,
    // History, for stating properties.
    notified: bool,
    armed: set<Key>,
    parked: set<Key>,
    emitted: seq<(Key, Payload)>,
    budget: nat,
    polls: nat)

  function Empty(blockOnNoClients: bool): State {
    State([], {}, map[], false, blockOnNoClients, Resting(NeverPolled), false, {}, {}, [], 0, 0)
  }

  datatype Action =
    | Wake(key: Key)
    | Insert(key: Key, stream: Stream)
    | Remove(key: Key)
    | Clear
    | BeginPoll
    | NextReady
    | StreamPolled
    | RunCallback(removes: bool)
    | FinishPoll
    | WakeItself

  predicate ByConsumer(a: Action) {
    a.BeginPoll? || a.NextReady? || a.StreamPolled? || a.RunCallback? || a.FinishPoll? || a.WakeItself?
  }

  predicate Enabled(s: State, a: Action) {
    match a
    case BeginPoll => s.consumer.Resting?
    case NextReady => s.consumer.Looping? && s.consumer.remaining > 0
    case StreamPolled => s.consumer.Polling?
    case RunCallback(_) => s.consumer.Disconnecting?
    case FinishPoll => s.consumer.Looping? && s.consumer.remaining == 0
    case WakeItself => s.consumer.WakingItself?
    case _ => true
  }

  /** `push_ready`. */
  function PushReady(s: State, k: Key): State {
    if k in s.queued then s else s.(queued := s.queued + {k}, ready := s.ready + [k])
  }

  /** `waker.wake_by_ref()` when there is a waker. */
  function Notify(s: State): State {
    if s.waker then s.(notified := true) else s
  }

  function RemoveKey(s: State, k: Key): State {
    s.(streams := s.streams - {k}, queued := s.queued - {k})
  }

  /** The result of a poll that found nothing to yield. */
  function NothingReady(s: State): Outcome {
    if s.streams != map[] || s.blockOnNoClients then Pending else Ended
  }

  function Apply(s: State, a: Action): State
    requires Enabled(s, a)
  {
    match a
    case Wake(k) =>
      Notify(PushReady(s, k)).(waker := false, armed := s.armed - {k})
    case Insert(k, stream) =>
      Notify(PushReady(s.(streams := s.streams[k := stream]), k))
    case Remove(k) => RemoveKey(s, k)
    case Clear =>
      Notify(s).(streams := map[], ready := [], queued := {}, waker := false)
    case BeginPoll =>
      s.(waker := true, notified := false, consumer := Looping(|s.ready|), budget := |s.ready|, polls := 0)
    case NextReady =>
      if s.ready == [] then s.(waker := true, consumer := Resting(NothingReady(s))) else
      var k := s.ready[0];
      var s := s.(waker := true, ready := s.ready[1..], queued := s.queued - {k});
      if k in s.streams then
        s.(streams := s.streams - {k}, armed := s.armed + {k}, parked := s.parked - {k}, polls := s.polls + 1,
           consumer := Polling(s.consumer.remaining - 1, k, s.streams[k]))
      else
        s.(consumer := Looping(s.consumer.remaining - 1))
    case StreamPolled =>
      var (remaining, k, stream) := (s.consumer.remaining, s.consumer.key, s.consumer.stream);
      if stream == [] then s.(consumer := Disconnecting(remaining, k)) else
      var s := s.(streams := s.streams[k := stream[1..]]);
      (match stream[0]
       case Item(payload) =>
         PushReady(s, k).(consumer := Resting(Yielded(k, payload)), emitted := s.emitted + [(k, payload)])
       case NotReady =>
         s.(parked := s.parked + {k}, consumer := Looping(remaining)))
    case RunCallback(removes) =>
      (if removes then RemoveKey(s, s.consumer.key) else s).(consumer := Looping(s.consumer.remaining))
    case FinishPoll =>
      s.(waker := true,
         consumer := if s.ready != [] then WakingItself(NothingReady(s)) else Resting(NothingReady(s)))
    case WakeItself =>
      s.(notified := true, consumer := Resting(s.consumer.result))
  }

  /** The state after a list of actions, each enabled where it happens. */
  ghost predicate Possible(s: State, actions: seq<Action>)
    decreases |actions|
  {
    actions != [] ==> Enabled(s, actions[0]) && Possible(Apply(s, actions[0]), actions[1..])
  }

  ghost function Run(s: State, actions: seq<Action>): State
    requires Possible(s, actions)
    decreases |actions|
  {
    if actions == [] then s else Run(Apply(s, actions[0]), actions[1..])
  }

  lemma {:induction false} RunAppend(s: State, actions: seq<Action>, a: Action)
    requires Possible(s, actions) && Enabled(Run(s, actions), a)
    ensures Possible(s, actions + [a]) && Run(s, actions + [a]) == Apply(Run(s, actions), a)
    decreases |actions|
  {
    if actions == [] {
      assert actions + [a] == [a];
      assert [a][1..] == [];
    } else {
      RunAppend(Apply(s, actions[0]), actions[1..], a);
      assert (actions + [a])[1..] == actions[1..] + [a];
    }
  }

  /** Runs built from the back, for concrete scenarios. */
  lemma RunCons(s: State, a: Action, rest: seq<Action>)
    requires Enabled(s, a) && Possible(Apply(s, a), rest)
    ensures Possible(s, [a] + rest) && Run(s, [a] + rest) == Run(Apply(s, a), rest)
  {
    assert ([a] + rest)[1..] == rest;
  }

  // ----- What a poll answers -----

  /** The consumer has its result: it rests, or will rest after waking itself. */
  predicate Answered(s: State) {
    s.consumer.Resting? || s.consumer.WakingItself?
  }

  function AnswerOf(s: State): Outcome
    requires Answered(s)
  {
    if s.consumer.Resting? then s.consumer.last else s.consumer.result
  }

  /** The lock region that decides a poll's result. */
  ghost predicate Decides(s: State, a: Action)
    requires Enabled(s, a)
  {
    !Answered(s) && Answered(Apply(s, a))
  }

  /**
   The answer is decided by what the queue holds in that region: an item if a stream gave one;
   otherwise the end if and only if no stream is connected and the queue was told not to wait for
   one, and Pending if and only if some stream is connected or it was.
   */
  lemma AnswersAreRight(s: State, a: Action)
    requires Enabled(s, a) && Decides(s, a)
    ensures var (s', r) := (Apply(s, a), AnswerOf(Apply(s, a)));
            && (r.Yielded? <==> s.consumer.Polling? && s.consumer.stream != [] && s.consumer.stream[0].Item?)
            && (r.Yielded? ==> r == Yielded(s.consumer.key, s.consumer.stream[0].payload))
            && (!r.Yielded? ==>
                  && (r == Ended <==> s'.streams == map[] && !s'.blockOnNoClients)
                  && (r == Pending <==> s'.streams != map[] || s'.blockOnNoClients))
  {
  }

  /** A stream that has not been found to have ended, in the map or in the consumer's hand. */
  predicate Present(s: State, k: Key) {
    k in s.streams || (s.consumer.Polling? && s.consumer.key == k)
  }

  ghost predicate StaysPresent(s: State, actions: seq<Action>, k: Key)
    requires Possible(s, actions)
    decreases |actions|
  {
    && Present(s, k)
    && (actions != [] ==> StaysPresent(Apply(s, actions[0]), actions[1..], k))
  }

  predicate SaysEnded(s: State) {
    Answered(s) && AnswerOf(s) == Ended
  }

  /** While some stream is connected and has not ended, no poll answers that the queue has ended. */
  lemma {:induction false} NoEndWhileConnected(s: State, actions: seq<Action>, k: Key)
    requires Possible(s, actions) && StaysPresent(s, actions, k) && !SaysEnded(s)
    ensures !SaysEnded(Run(s, actions))
    decreases |actions|
  {
    if actions != [] {
      var s' := Apply(s, actions[0]);
      if Decides(s, actions[0]) {
        AnswersAreRight(s, actions[0]);
        assert StaysPresent(s', actions[1..], k);
        assert !s'.consumer.Polling?;
        assert k in s'.streams;
      }
      NoEndWhileConnected(s', actions[1..], k);
    }
  }

  // ----- No lost wake-up: the consumer -----

  /**
   If the last poll returned Pending and the consumer has not been notified since that poll began,
   nothing is ready and the waker is in place to announce the next event.
   */
  ghost predicate ConsumerWillHear(s: State) {
    s.consumer == Resting(Pending) && !s.notified ==> s.ready == [] && s.waker
  }

  /** Every queued key has an event. */
  ghost predicate QueuedHaveEvents(s: State) {
    forall k :: k in s.queued ==> k in s.ready
  }

  /** A poll never takes more streams than it found ready. */
  ghost predicate WithinBudget(s: State) {
    match s.consumer
    case Looping(remaining) => s.polls + remaining <= s.budget
    case Polling(remaining, _, _) => s.polls + remaining <= s.budget
    case Disconnecting(remaining, _) => s.polls + remaining <= s.budget
    case _ => s.polls <= s.budget
  }

  lemma InTail(ready: seq<Key>, k: Key)
    requires k in ready && k != ready[0]
    ensures k in ready[1..]
  {
    var i :| 0 <= i < |ready| && ready[i] == k;
    assert ready[1..][i - 1] == k;
  }

  lemma StepKeepsHearing(s: State, a: Action)
    requires Enabled(s, a) && ConsumerWillHear(s)
    ensures ConsumerWillHear(Apply(s, a))
  {
  }

  lemma StepKeepsEvents(s: State, a: Action)
    requires Enabled(s, a) && QueuedHaveEvents(s)
    ensures QueuedHaveEvents(Apply(s, a))
  {
    forall k | k in Apply(s, a).queued
      ensures k in Apply(s, a).ready
    {
      if a.NextReady? && s.ready != [] {
        InTail(s.ready, k);
      }
    }
  }

  lemma StepKeepsBudget(s: State, a: Action)
    requires Enabled(s, a) && WithinBudget(s)
    ensures WithinBudget(Apply(s, a))
  {
  }

  /**
   No lost wake-up, over every run: with any interleaving of wakes, inserts, removes and clears,
   whenever the last poll returned Pending and an event is ready, the consumer has been notified
   since that poll began. And no poll takes more streams than were ready when it began.
   */
  lemma {:induction false} NoLostWakeUp(s: State, actions: seq<Action>)
    requires ConsumerWillHear(s) && WithinBudget(s) && Possible(s, actions)
    ensures var s' := Run(s, actions);
            && ConsumerWillHear(s') && WithinBudget(s')
            && (s'.consumer == Resting(Pending) && s'.ready != [] ==> s'.notified)
            && s'.polls <= s'.budget
    decreases |actions|
  {
    if actions != [] {
      StepKeepsHearing(s, actions[0]);
      StepKeepsBudget(s, actions[0]);
      NoLostWakeUp(Apply(s, actions[0]), actions[1..]);
    }
  }

  /**
   The waker's way: a poll puts it in place and starts unnotified; a stream that wakes, or a clear,
   takes it and notifies, so that one poll leads to one such wake-up; an insertion notifies and
   leaves it. Without a waker nobody is notified, and nothing else but the consumer itself notifies.
   */
  lemma WakerIsUsedOnce(s: State, a: Action)
    requires Enabled(s, a)
    ensures var s' := Apply(s, a);
            && (a.BeginPoll? ==> s'.waker && !s'.notified)
            && (a.Wake? || a.Clear? ==> !s'.waker && s'.notified == (s.notified || s.waker))
            && (a.Insert? ==> s'.waker == s.waker && s'.notified == (s.notified || s.waker))
            && (a.Remove? || a.StreamPolled? || a.RunCallback? ==>
                  s'.waker == s.waker && s'.notified == s.notified)
            && (a.NextReady? || a.FinishPoll? ==> s'.waker && s'.notified == s.notified)
            && (a.WakeItself? ==> s'.notified)
  {
  }

  // ----- No lost wake-up: the streams -----

  /** The stream that the consumer has taken out of the map. */
  ghost predicate Held(s: State, k: Key) {
    s.consumer.Polling? && s.consumer.key == k
  }

  /**
   Every parked stream has a ready event, or its last poll was Pending and its waker has not fired
   since; a stream in the consumer's hand has an event exactly when its waker has fired.
   */
  ghost predicate StreamsWillBePolled(s: State) {
    && (forall k :: k in s.streams ==> k in s.queued || (k in s.armed && k in s.parked))
    && (s.consumer.Polling? ==>
          var k := s.consumer.key;
          k !in s.streams && (k in s.queued <==> k !in s.armed))
  }

  /** The action takes back the event of a stream that is just being polled, the only trace of its wake. */
  ghost predicate ForgetsWake(s: State, a: Action) {
    s.consumer.Polling? && s.consumer.key in s.queued && (a == Remove(s.consumer.key) || a.Clear?)
  }

  /** Insertions of the key that is being polled are excluded, as the callers guarantee. */
  ghost predicate InsertsHeld(s: State, a: Action) {
    a.Insert? && Held(s, a.key)
  }

  lemma EnvironmentKeepsStreams(s: State, a: Action)
    requires Enabled(s, a) && StreamsWillBePolled(s) && !InsertsHeld(s, a) && !ByConsumer(a)
    ensures StreamsWillBePolled(Apply(s, a)) <==> !ForgetsWake(s, a)
  {
  }

  lemma ConsumerKeepsStreams(s: State, a: Action)
    requires Enabled(s, a) && StreamsWillBePolled(s) && ByConsumer(a)
    ensures StreamsWillBePolled(Apply(s, a))
  {
  }

  /**
   A step keeps every stream pollable exactly when it does not remove or clear a stream that is
   just being polled and has already been queued again.
   */
  lemma StreamsStayPollableIff(s: State, a: Action)
    requires Enabled(s, a) && StreamsWillBePolled(s) && !InsertsHeld(s, a)
    ensures StreamsWillBePolled(Apply(s, a)) <==> !ForgetsWake(s, a)
  {
    hide Apply;
    if ByConsumer(a) {
      ConsumerKeepsStreams(s, a);
    } else {
      EnvironmentKeepsStreams(s, a);
    }
  }

  ghost predicate StreamsUndisturbed(s: State, actions: seq<Action>)
    requires Possible(s, actions)
    decreases |actions|
  {
    actions != [] ==>
      && !InsertsHeld(s, actions[0]) && !ForgetsWake(s, actions[0])
      && StreamsUndisturbed(Apply(s, actions[0]), actions[1..])
  }

  /**
   The two halves together: in every undisturbed run, whenever the consumer is parked on Pending
   and has not been notified, every stream was itself polled Pending and its waker has not fired,
   so no stream with something to deliver is waiting.
   */
  lemma {:induction false} ParkedMeansNothingToDo(s: State, actions: seq<Action>)
    requires ConsumerWillHear(s) && QueuedHaveEvents(s) && StreamsWillBePolled(s)
    requires Possible(s, actions) && StreamsUndisturbed(s, actions)
    ensures var s' := Run(s, actions);
            && StreamsWillBePolled(s')
            && (s'.consumer == Resting(Pending) && !s'.notified ==>
                  s'.waker && forall k :: k in s'.streams ==> k in s'.parked && k in s'.armed)
    decreases |actions|
  {
    if actions == [] {
      assert forall k :: k in s.queued ==> k in s.ready;
    } else {
      StepKeepsHearing(s, actions[0]);
      StepKeepsEvents(s, actions[0]);
      StreamsStayPollableIff(s, actions[0]);
      ParkedMeansNothingToDo(Apply(s, actions[0]), actions[1..]);
    }
  }

  lemma RunEmpty(s: State)
    ensures Possible(s, []) && Run(s, []) == s
  {
  }

  lemma WakeThenClearDuringPoll(s: State)
    requires s.consumer == Polling(0, 1, [NotReady, Item(7)])
    ensures var run := [Wake(1)] + ([Clear] + ([StreamPolled] + []));
            && Possible(s, run) && 1 in Run(s, run).streams && !StreamsWillBePolled(Run(s, run))
  {
    hide Run;
    var s1 := Apply(s, Wake(1));
    var s2 := Apply(s1, Clear);
    var s3 := Apply(s2, StreamPolled);
    assert s2.consumer == s.consumer && 1 !in s2.armed && s2.queued == {};
    assert 1 in s3.streams && 1 !in s3.queued && 1 !in s3.armed;
    RunEmpty(s3);
    RunCons(s2, StreamPolled, []);
    RunCons(s1, Clear, [StreamPolled] + []);
    RunCons(s, Wake(1), [Clear] + ([StreamPolled] + []));
  }

  /**
   The excluded case is real: a stream wakes itself while it is polled, the queue is cleared, and
   the stream is put back with neither an event nor a waker.
   */
  lemma ClearDuringPollStrandsStream()
    ensures exists run :: Possible(Empty(true), run)
              && 1 in Run(Empty(true), run).streams && !StreamsWillBePolled(Run(Empty(true), run))
  {
    hide Run, StreamsWillBePolled;
    var s1 := Apply(Empty(true), Insert(1, [NotReady, Item(7)]));
    assert s1.ready == [1];
    var s2 := Apply(s1, BeginPoll);
    var s3 := Apply(s2, NextReady);
    WakeThenClearDuringPoll(s3);
    var rest := [Wake(1)] + ([Clear] + ([StreamPolled] + []));
    RunCons(s2, NextReady, rest);
    RunCons(s1, BeginPoll, [NextReady] + rest);
    RunCons(Empty(true), Insert(1, [NotReady, Item(7)]), [BeginPoll] + ([NextReady] + rest));
  }
}
