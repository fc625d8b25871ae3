/**
 Service properties of the fair queue: exactly one event per queued key, bounded waiting,
 conservation of every stream's items, and round-by-round order of always-ready streams.
 */
module FairQueueService {
  import opened Sequences
  import opened FairQueueModel

  // ----- One event per queued key -----

  /** The `queued` set and the events agree, one event a key. */
  ghost predicate OneEventEach(s: State) {
    NoDuplicates(s.ready) && forall k :: k in s.queued <==> k in s.ready
  }

  /** The action removes a key but leaves its event in the heap. */
  ghost predicate LeavesStaleEvent(s: State, a: Action) {
    || (a.Remove? && a.key in s.queued)
    || (a == RunCallback(true) && s.consumer.Disconnecting? && s.consumer.key in s.queued)
  }

  lemma PopKeepsAgreement(s: State)
    requires Enabled(s, NextReady) && OneEventEach(s)
    ensures OneEventEach(Apply(s, NextReady))
  {
    if s.ready != [] {
      forall k | k in s.ready && k != s.ready[0]
        ensures k in s.ready[1..]
      {
        InTail(s.ready, k);
      }
    }
  }

  lemma PushKeepsAgreement(s: State, k: Key)
    requires OneEventEach(s)
    ensures OneEventEach(PushReady(s, k))
  {
  }

  /** Removing a queued key is exactly what breaks the agreement. */
  lemma OneEventEachIff(s: State, a: Action)
    requires Enabled(s, a) && OneEventEach(s)
    ensures OneEventEach(Apply(s, a)) <==> !LeavesStaleEvent(s, a)
  {
    hide NoDuplicates, PushReady;
    var s' := Apply(s, a);
    match a
    case Wake(k) => PushKeepsAgreement(s, k);
    case Insert(k, stream) => PushKeepsAgreement(s.(streams := s.streams[k := stream]), k);
    case Remove(k) => assert LeavesStaleEvent(s, a) ==> k in s'.ready && k !in s'.queued;
    case Clear => assert NoDuplicates<Key>([]) by { NoneDuplicated(); }
    case NextReady => PopKeepsAgreement(s);
    case StreamPolled =>
      var (k, stream) := (s.consumer.key, s.consumer.stream);
      if stream != [] {
        PushKeepsAgreement(s.(streams := s.streams[k := stream[1..]]), k);
      }
    case RunCallback(removes) =>
      assert LeavesStaleEvent(s, a) ==> s.consumer.key in s'.ready && s.consumer.key !in s'.queued;
    case _ =>
  }

  lemma NoneDuplicated()
    ensures NoDuplicates<Key>([])
  {
  }

  // ----- Bounded waiting -----

  /** The events ahead of `k`. */
  ghost function Ahead(ready: seq<Key>, k: Key): seq<Key> {
    if ready == [] || ready[0] == k then [] else [ready[0]] + Ahead(ready[1..], k)
  }

  lemma {:induction false} AheadOfAppended(ready: seq<Key>, k: Key, last: Key)
    requires k in ready
    ensures Ahead(ready + [last], k) == Ahead(ready, k)
  {
    assert (ready + [last])[0] == ready[0];
    if ready[0] != k {
      InTail(ready, k);
      assert (ready + [last])[1..] == ready[1..] + [last];
      AheadOfAppended(ready[1..], k, last);
    }
  }

  lemma {:induction false} AheadIsAmongReady(ready: seq<Key>, k: Key, j: Key)
    requires j in Ahead(ready, k)
    ensures j in ready
  {
    if j != ready[0] {
      AheadIsAmongReady(ready[1..], k, j);
    }
  }

  function CountOf(emitted: seq<(Key, Payload)>, j: Key): nat {
    if emitted == [] then 0
    else CountOf(emitted[..|emitted| - 1], j) + if emitted[|emitted| - 1].0 == j then 1 else 0
  }

  lemma CountOfAppend(emitted: seq<(Key, Payload)>, last: (Key, Payload), j: Key)
    ensures CountOf(emitted + [last], j) == CountOf(emitted, j) + if last.0 == j then 1 else 0
  {
    assert (emitted + [last])[..|emitted|] == emitted;
  }

  /** The key whose event the action may push. */
  function PushedKey(s: State, a: Action): Key
    requires Enabled(s, a)
  {
    match a
    case Wake(k) => k
    case Insert(k, _) => k
    case StreamPolled => s.consumer.key
    case _ => 0
  }

  /** Events are popped from the front and pushed at the back. */
  lemma StepOnReady(s: State, a: Action)
    requires Enabled(s, a)
    ensures a.NextReady? ==> Apply(s, a).ready == if s.ready == [] then [] else s.ready[1..]
    ensures a.Clear? ==> Apply(s, a).ready == []
    ensures !a.NextReady? && !a.Clear? ==>
              Apply(s, a).ready == s.ready || Apply(s, a).ready == s.ready + [PushedKey(s, a)]
  {
  }

  ghost predicate HeldWithItem(s: State, j: Key) {
    Held(s, j) && s.consumer.stream != [] && s.consumer.stream[0].Item?
  }

  /** How many items `j` can still yield before `k` is polled. */
  ghost function Credit(s: State, k: Key, j: Key): nat {
    (if j in Ahead(s.ready, k) then 1 else 0) + (if HeldWithItem(s, j) then 1 else 0)
  }

  lemma PoppedIsNotAhead(s: State, k: Key)
    requires OneEventEach(s) && k in s.ready && s.ready[0] != k
    ensures Ahead(s.ready, k) == [s.ready[0]] + Ahead(s.ready[1..], k)
    ensures s.ready[0] !in Ahead(s.ready[1..], k)
  {
    if s.ready[0] in Ahead(s.ready[1..], k) {
      AheadIsAmongReady(s.ready[1..], k, s.ready[0]);
    }
  }

  lemma PopSpendsCredit(s: State, k: Key, j: Key)
    requires Enabled(s, NextReady) && OneEventEach(s) && k in s.ready && k in Apply(s, NextReady).ready && j != k
    ensures var s' := Apply(s, NextReady);
            s'.emitted == s.emitted && Credit(s', k, j) <= Credit(s, k, j)
  {
    if s.ready[0] != k {
      PoppedIsNotAhead(s, k);
    }
  }

  lemma PollSpendsCredit(s: State, k: Key, j: Key)
    requires s.consumer.Polling? && k in s.ready && j != k
    ensures var s' := Apply(s, StreamPolled);
            CountOf(s'.emitted, j) + Credit(s', k, j) <= CountOf(s.emitted, j) + Credit(s, k, j)
  {
    hide CountOf;
    AheadOfAppended(s.ready, k, s.consumer.key);
    if s.consumer.stream != [] && s.consumer.stream[0].Item? {
      CountOfAppend(s.emitted, (s.consumer.key, s.consumer.stream[0].payload), j);
    }
  }

  lemma OthersEmitNothing(s: State, a: Action, j: Key)
    requires Enabled(s, a) && !a.NextReady? && !a.StreamPolled?
    ensures Apply(s, a).emitted == s.emitted && (HeldWithItem(Apply(s, a), j) ==> HeldWithItem(s, j))
  {
  }

  lemma StepSpendsCredit(s: State, a: Action, k: Key, j: Key)
    requires Enabled(s, a) && OneEventEach(s)
    requires k in s.ready && k in Apply(s, a).ready && j != k
    ensures var s' := Apply(s, a);
            CountOf(s'.emitted, j) + Credit(s', k, j) <= CountOf(s.emitted, j) + Credit(s, k, j)
  {
    hide CountOf, Apply, HeldWithItem;
    if a.NextReady? {
      PopSpendsCredit(s, k, j);
    } else if a.StreamPolled? {
      PollSpendsCredit(s, k, j);
    } else {
      OthersEmitNothing(s, a, j);
      StepOnReady(s, a);
      AheadOfAppended(s.ready, k, PushedKey(s, a));
    }
  }

  /** `k` keeps waiting in the queue through the whole run, and no removal leaves a stale event. */
  ghost predicate KeepsWaiting(s: State, actions: seq<Action>, k: Key)
    requires Possible(s, actions)
    decreases |actions|
  {
    && k in s.ready
    && (actions != [] ==> !LeavesStaleEvent(s, actions[0]) && KeepsWaiting(Apply(s, actions[0]), actions[1..], k))
  }

  /** While `k` waits, no other stream yields more items than it has credit. */
  lemma {:induction false} WaitingSpendsCredit(s: State, actions: seq<Action>, k: Key, j: Key)
    requires Possible(s, actions) && OneEventEach(s) && KeepsWaiting(s, actions, k) && j != k
    ensures CountOf(Run(s, actions).emitted, j) + Credit(Run(s, actions), k, j)
         <= CountOf(s.emitted, j) + Credit(s, k, j)
    decreases |actions|
  {
    hide CountOf, Apply, Credit;
    if actions != [] {
      StepSpendsCredit(s, actions[0], k, j);
      OneEventEachIff(s, actions[0]);
      WaitingSpendsCredit(Apply(s, actions[0]), actions[1..], k, j);
    }
  }

  function Pops(actions: seq<Action>): nat {
    if actions == [] then 0 else (if actions[0].NextReady? then 1 else 0) + Pops(actions[1..])
  }

  lemma StepMovesUp(s: State, a: Action, k: Key)
    requires Enabled(s, a) && OneEventEach(s) && k in s.ready && k in Apply(s, a).ready
    ensures |Ahead(Apply(s, a).ready, k)| + (if a.NextReady? then 1 else 0) == |Ahead(s.ready, k)|
  {
    StepOnReady(s, a);
    hide Apply;
    if a.NextReady? {
      assert s.ready == [s.ready[0]] + s.ready[1..];
      PoppedIsNotAhead(s, k);
    } else if !a.Clear? {
      AheadOfAppended(s.ready, k, PushedKey(s, a));
    }
  }

  /**
   How soon a waiting stream is served: every pop brings it one place nearer and nothing pushes it
   back, so that the pop that takes it is the one after as many pops as there were events ahead.
   */
  lemma {:induction false} ServedInTurn(s: State, actions: seq<Action>, k: Key)
    requires Possible(s, actions) && OneEventEach(s) && KeepsWaiting(s, actions, k)
    ensures var s' := Run(s, actions);
            && k in s'.ready && Pops(actions) + |Ahead(s'.ready, k)| == |Ahead(s.ready, k)|
            && (s'.ready[0] == k <==> Pops(actions) == |Ahead(s.ready, k)|)
            && (Enabled(s', NextReady) && Pops(actions) == |Ahead(s.ready, k)| && k in s'.streams ==>
                  Held(Apply(s', NextReady), k))
    decreases |actions|
  {
    if actions != [] {
      StepMovesUp(s, actions[0], k);
      OneEventEachIff(s, actions[0]);
      ServedInTurn(Apply(s, actions[0]), actions[1..], k);
    }
  }

  // ----- Bounded waiting is exact -----

  /** What one more step of a run in which `k` waits must keep, and the run that follows it. */
  lemma Extend(s: State, a: Action, rest: seq<Action>, k: Key, j: Key, items: nat) returns (run: seq<Action>)
    requires Enabled(s, a) && k in s.ready && !LeavesStaleEvent(s, a)
    requires Possible(Apply(s, a), rest) && KeepsWaiting(Apply(s, a), rest, k)
    requires CountOf(Run(Apply(s, a), rest).emitted, j) == CountOf(s.emitted, j) + items
    ensures Possible(s, run) && KeepsWaiting(s, run, k)
    ensures CountOf(Run(s, run).emitted, j) == CountOf(s.emitted, j) + items
  {
    run := [a] + rest;
    WaitingCons(s, a, rest, k);
  }

  /** The consumer's or the environment's next step that brings the item of `j` nearer. */
  function NextTowards(s: State, j: Key): (a: Action)
    ensures Enabled(s, a)
  {
    match s.consumer
    case Resting(_) => BeginPoll
    case Looping(remaining) => if remaining == 0 then FinishPoll else NextReady
    case Polling(_, _, _) => StreamPolled
    case Disconnecting(_, _) => RunCallback(false)
    case WakingItself(_) => WakeItself
  }

  function Phase(s: State): nat {
    match s.consumer
    case Polling(_, _, _) => 5
    case Disconnecting(_, _) => 4
    case Looping(remaining) => if remaining == 0 then 3 else 0
    case WakingItself(_) => 2
    case Resting(_) => 1
  }

  lemma NextStepKeepsTurn(s: State, k: Key, j: Key)
    requires OneEventEach(s) && k in s.ready && j in Ahead(s.ready, k) && !HeldWithItem(s, j)
    requires !NextTowards(s, j).NextReady?
    ensures var (a, s') := (NextTowards(s, j), Apply(s, NextTowards(s, j)));
            && !LeavesStaleEvent(s, a) && OneEventEach(s')
            && k in s'.ready && Ahead(s'.ready, k) == Ahead(s.ready, k) && !HeldWithItem(s', j)
            && CountOf(s'.emitted, j) == CountOf(s.emitted, j) && Phase(s') < Phase(s)
  {
    hide CountOf, Ahead;
    var a := NextTowards(s, j);
    OneEventEachIff(s, a);
    StepOnReady(s, a);
    AheadOfAppended(s.ready, k, PushedKey(s, a));
    if a.StreamPolled? && s.consumer.stream != [] && s.consumer.stream[0].Item? {
      CountOfAppend(s.emitted, (s.consumer.key, s.consumer.stream[0].payload), j);
    }
  }

  /** Before its pop the first stream in the queue is replaced by one that answers with `event`. */
  lemma PopWith(s: State, k: Key, event: StreamEvent)
    requires s.consumer.Looping? && s.consumer.remaining > 0 && OneEventEach(s) && k in s.ready && s.ready[0] != k
    ensures var x := s.ready[0];
            var s1 := Apply(s, Insert(x, [event]));
            && s1.ready == s.ready && s1.emitted == s.emitted && OneEventEach(s1) && Enabled(s1, NextReady)
            && var s2 := Apply(s1, NextReady);
               && s2.consumer == Polling(s.consumer.remaining - 1, x, [event]) && s2.ready == s.ready[1..]
               && s2.emitted == s.emitted && OneEventEach(s2) && k in s2.ready
  {
    var x := s.ready[0];
    assert x in s.queued;
    InTail(s.ready, k);
    OneEventEachIff(s, Insert(x, [event]));
    PopKeepsAgreement(Apply(s, Insert(x, [event])));
  }

  /** A stream with an event ahead of `k` can yield an item before `k` is polled. */
  lemma {:induction false} Serve(s: State, k: Key, j: Key) returns (run: seq<Action>)
    requires OneEventEach(s) && k in s.ready && j in Ahead(s.ready, k) && j != k && !HeldWithItem(s, j)
    ensures Possible(s, run) && KeepsWaiting(s, run, k)
    ensures CountOf(Run(s, run).emitted, j) == CountOf(s.emitted, j) + 1
    decreases |Ahead(s.ready, k)|, Phase(s)
  {
    hide CountOf, Apply, Run, KeepsWaiting, OneEventEach, LeavesStaleEvent;
    if s.consumer.Looping? && s.consumer.remaining > 0 {
      var x := s.ready[0];
      var event := if x == j then Item(0) else NotReady;
      PopWith(s, k, event);
      PoppedIsNotAhead(s, k);
      var s1 := Apply(s, Insert(x, [event]));
      var s2 := Apply(s1, NextReady);
      var rest;
      if x == j {
        rest := PollHeld(s2, k, j);
      } else {
        rest := Serve(s2, k, j);
      }
      NotRemoving(s, Insert(x, [event]));
      NotRemoving(s1, NextReady);
      run := Extend(s1, NextReady, rest, k, j, 1);
      run := Extend(s, Insert(x, [event]), run, k, j, 1);
    } else {
      NextStepKeepsTurn(s, k, j);
      var a := NextTowards(s, j);
      run := Serve(Apply(s, a), k, j);
      run := Extend(s, a, run, k, j, 1);
    }
  }

  lemma NotRemoving(s: State, a: Action)
    ensures !a.Remove? && !a.RunCallback? ==> !LeavesStaleEvent(s, a)
  {
  }

  lemma PollHeld(s: State, k: Key, j: Key) returns (run: seq<Action>)
    requires k in s.ready && j != k && HeldWithItem(s, j)
    ensures run == [StreamPolled] + [] && Possible(s, run) && KeepsWaiting(s, run, k)
    ensures CountOf(Run(s, run).emitted, j) == CountOf(s.emitted, j) + 1
  {
    hide CountOf;
    var s1 := Apply(s, StreamPolled);
    CountOfAppend(s.emitted, (j, s.consumer.stream[0].payload), j);
    RunEmpty(s1);
    WaitingCons(s, StreamPolled, [], k);
    run := [StreamPolled] + [];
  }

  lemma PollHeldFirst(s: State, k: Key, j: Key)
    requires OneEventEach(s) && k in s.ready && j in Ahead(s.ready, k) && j != k && HeldWithItem(s, j)
    ensures var s1 := Apply(s, StreamPolled);
            && OneEventEach(s1) && k in s1.ready && j in Ahead(s1.ready, k) && !HeldWithItem(s1, j)
            && CountOf(s1.emitted, j) == CountOf(s.emitted, j) + 1
  {
    hide CountOf;
    OneEventEachIff(s, StreamPolled);
    StepOnReady(s, StreamPolled);
    AheadOfAppended(s.ready, k, j);
    CountOfAppend(s.emitted, (j, s.consumer.stream[0].payload), j);
  }

  lemma SpendCredit(s: State, k: Key, j: Key, n: nat) returns (run: seq<Action>)
    requires OneEventEach(s) && k in s.ready && j != k && n <= Credit(s, k, j)
    ensures Possible(s, run) && KeepsWaiting(s, run, k)
    ensures CountOf(Run(s, run).emitted, j) == CountOf(s.emitted, j) + n
  {
    hide CountOf, Apply, Run, OneEventEach, LeavesStaleEvent, Ahead, HeldWithItem;
    if n == 0 {
      run := [];
      RunEmpty(s);
    } else if !HeldWithItem(s, j) {
      run := Serve(s, k, j);
    } else if n == 1 {
      run := PollHeld(s, k, j);
    } else {
      PollHeldFirst(s, k, j);
      HeldIsPolled(s, j);
      NotRemoving(s, StreamPolled);
      var s1 := Apply(s, StreamPolled);
      var rest := Serve(s1, k, j);
      WaitingCons(s, StreamPolled, rest, k);
      run := [StreamPolled] + rest;
    }
  }

  lemma HeldIsPolled(s: State, j: Key)
    requires HeldWithItem(s, j)
    ensures Enabled(s, StreamPolled)
  {
  }

  /** Over some run in which `k` keeps waiting, `j` yields `n` items. */
  ghost predicate CanYield(s: State, k: Key, j: Key, n: nat) {
    exists run ::
      && Possible(s, run) && KeepsWaiting(s, run, k)
      && CountOf(Run(s, run).emitted, j) == CountOf(s.emitted, j) + n
  }

  /**
   Bounded waiting, exactly: while a stream waits for its turn, another one can yield an item for
   its event ahead in the queue, and one more if it is just being polled and has an item to give.
   So it is one at most, and two if and only if it is being polled with an item while an event of
   its own stands ahead of the waiting stream.
   */
  lemma BoundedWaiting(s: State, k: Key, j: Key, n: nat)
    requires OneEventEach(s) && k in s.ready && j != k
    ensures CanYield(s, k, j, n) <==>
            n <= (if j in Ahead(s.ready, k) then 1 else 0) + (if HeldWithItem(s, j) then 1 else 0)
  {
    hide CountOf, Run, KeepsWaiting, OneEventEach, Ahead, HeldWithItem;
    if n <= Credit(s, k, j) {
      var run := SpendCredit(s, k, j, n);
    }
    if CanYield(s, k, j, n) {
      var run :| && Possible(s, run) && KeepsWaiting(s, run, k)
                 && CountOf(Run(s, run).emitted, j) == CountOf(s.emitted, j) + n;
      WaitingSpendsCredit(s, run, k, j);
    }
  }

  /** A queue in which stream 1 is being polled, has woken itself, and stream 2 has begun to wait. */
  function Before2Waits(): seq<Action> {
    [Insert(1, [Item(7), Item(8)])] + ([BeginPoll] + ([NextReady] + ([Wake(1)] + ([Insert(2, [])] + []))))
  }

  lemma OtherComes(s: State)
    requires s.ready == [] && s.queued == {} && s.streams == map[]
    requires s.consumer == Polling(0, 1, [Item(7), Item(8)])
    ensures var run := [Wake(1)] + ([Insert(2, [])] + []);
            && Possible(s, run)
            && var t := Run(s, run);
               && t.ready == [1, 2] && t.queued == {1, 2} && t.streams == map[2 := []]
               && t.consumer == Polling(0, 1, [Item(7), Item(8)])
  {
    hide Run;
    var s1 := Apply(s, Wake(1));
    assert s1.ready == [1] && s1.queued == {1};
    var s2 := Apply(s1, Insert(2, []));
    assert s2.ready == [1, 2] && s2.queued == {1, 2};
    RunEmpty(s2);
    RunCons(s1, Insert(2, []), []);
    RunCons(s, Wake(1), [Insert(2, [])] + []);
  }

  lemma WaitBegins()
    ensures Possible(Empty(true), Before2Waits())
    ensures var s := Run(Empty(true), Before2Waits());
            && s.ready == [1, 2] && s.queued == {1, 2} && s.streams == map[2 := []]
            && s.consumer == Polling(0, 1, [Item(7), Item(8)])
  {
    hide Run;
    var s1 := Apply(Empty(true), Insert(1, [Item(7), Item(8)]));
    assert s1.ready == [1] && s1.queued == {1};
    var s2 := Apply(s1, BeginPoll);
    var s3 := Apply(s2, NextReady);
    assert s3.ready == [] && s3.queued == {} && s3.streams == map[];
    OtherComes(s3);
    var last := [Wake(1)] + ([Insert(2, [])] + []);
    RunCons(s2, NextReady, last);
    RunCons(s1, BeginPoll, [NextReady] + last);
    RunCons(Empty(true), Insert(1, [Item(7), Item(8)]), [BeginPoll] + ([NextReady] + last));
  }

  /** The bound of two is reached, on a run from the empty queue. */
  lemma TwoItemsBeforeService()
    ensures Possible(Empty(true), Before2Waits())
    ensures var s := Run(Empty(true), Before2Waits());
            OneEventEach(s) && 2 in s.ready && CanYield(s, 2, 1, 2)
  {
    hide Run, KeepsWaiting, CountOf, Before2Waits, CanYield;
    WaitBegins();
    var s := Run(Empty(true), Before2Waits());
    assert Ahead(s.ready, 2) == [1] + Ahead(s.ready[1..], 2);
    BoundedWaiting(s, 2, 1, 2);
  }

  lemma WaitingCons(s: State, a: Action, rest: seq<Action>, k: Key)
    requires Enabled(s, a) && k in s.ready && !LeavesStaleEvent(s, a)
    requires Possible(Apply(s, a), rest) && KeepsWaiting(Apply(s, a), rest, k)
    ensures Possible(s, [a] + rest) && KeepsWaiting(s, [a] + rest, k)
    ensures Run(s, [a] + rest) == Run(Apply(s, a), rest)
  {
    assert ([a] + rest)[1..] == rest;
  }

  // ----- Conservation -----

  function ItemsOf(stream: Stream): seq<Payload> {
    if stream == [] then []
    else (if stream[0].Item? then [stream[0].payload] else []) + ItemsOf(stream[1..])
  }

  function EmittedBy(emitted: seq<(Key, Payload)>, k: Key): seq<Payload> {
    if emitted == [] then []
    else EmittedBy(emitted[..|emitted| - 1], k)
         + if emitted[|emitted| - 1].0 == k then [emitted[|emitted| - 1].1] else []
  }

  lemma EmittedByAppend(emitted: seq<(Key, Payload)>, last: (Key, Payload), k: Key)
    ensures EmittedBy(emitted + [last], k) == EmittedBy(emitted, k) + if last.0 == k then [last.1] else []
  {
    assert (emitted + [last])[..|emitted|] == emitted;
  }

  /** What is left of the stream, whether it is in the map, in the consumer's hand, or gone. */
  ghost function StreamOf(s: State, k: Key): Stream {
    if Held(s, k) then s.consumer.stream else if k in s.streams then s.streams[k] else []
  }

  /** A stream is not in the map while the consumer holds it or reports its end. */
  ghost predicate InOnePlace(s: State, k: Key) {
    (s.consumer.Polling? || s.consumer.Disconnecting?) && s.consumer.key == k ==> k !in s.streams
  }

  ghost predicate Touches(a: Action, k: Key) {
    a.Clear? || ((a.Insert? || a.Remove?) && a.key == k)
  }

  ghost function Total(s: State, k: Key): seq<Payload> {
    EmittedBy(s.emitted, k) + ItemsOf(StreamOf(s, k))
  }

  lemma EnvironmentKeepsStream(s: State, a: Action, k: Key)
    requires Enabled(s, a) && InOnePlace(s, k) && !Touches(a, k) && !ByConsumer(a)
    ensures var s' := Apply(s, a);
            InOnePlace(s', k) && s'.emitted == s.emitted && StreamOf(s', k) == StreamOf(s, k)
  {
  }

  lemma OtherTurnsKeepStream(s: State, a: Action, k: Key)
    requires Enabled(s, a) && InOnePlace(s, k) && ByConsumer(a) && !a.StreamPolled?
    ensures var s' := Apply(s, a);
            InOnePlace(s', k) && s'.emitted == s.emitted && StreamOf(s', k) == StreamOf(s, k)
  {
  }

  lemma OtherStepsKeepStream(s: State, a: Action, k: Key)
    requires Enabled(s, a) && InOnePlace(s, k) && !Touches(a, k) && !a.StreamPolled?
    ensures var s' := Apply(s, a);
            InOnePlace(s', k) && s'.emitted == s.emitted && StreamOf(s', k) == StreamOf(s, k)
  {
    hide Apply, StreamOf, InOnePlace;
    if ByConsumer(a) {
      OtherTurnsKeepStream(s, a, k);
    } else {
      EnvironmentKeepsStream(s, a, k);
    }
  }

  /** What one poll of the held stream does to it and to the emitted items. */
  lemma PollMovesOneItem(s: State, k: Key)
    requires s.consumer.Polling? && InOnePlace(s, k)
    ensures var (s', stream) := (Apply(s, StreamPolled), s.consumer.stream);
            && InOnePlace(s', k)
            && s'.emitted == s.emitted + (if stream != [] && stream[0].Item?
                                          then [(s.consumer.key, stream[0].payload)] else [])
            && StreamOf(s', k) == if Held(s, k) && stream != [] then stream[1..] else StreamOf(s, k)
  {
  }

  lemma ItemMoves(done: seq<Payload>, stream: Stream)
    requires stream != []
    ensures done + ItemsOf(stream)
         == done + (if stream[0].Item? then [stream[0].payload] else []) + ItemsOf(stream[1..])
  {
  }

  lemma PollConserves(s: State, k: Key)
    requires s.consumer.Polling? && InOnePlace(s, k)
    ensures InOnePlace(Apply(s, StreamPolled), k) && Total(Apply(s, StreamPolled), k) == Total(s, k)
  {
    hide EmittedBy, Apply, ItemsOf, InOnePlace;
    PollMovesOneItem(s, k);
    assert s.emitted + [] == s.emitted;
    var stream := s.consumer.stream;
    if stream != [] {
      ItemMoves(EmittedBy(s.emitted, k), stream);
      if stream[0].Item? {
        EmittedByAppend(s.emitted, (s.consumer.key, stream[0].payload), k);
      }
      assert EmittedBy(s.emitted, k) + [] == EmittedBy(s.emitted, k);
    }
  }

  lemma StepConserves(s: State, a: Action, k: Key)
    requires Enabled(s, a) && InOnePlace(s, k) && !Touches(a, k)
    ensures InOnePlace(Apply(s, a), k) && Total(Apply(s, a), k) == Total(s, k)
  {
    hide Apply, StreamOf;
    if a.StreamPolled? {
      PollConserves(s, k);
    } else {
      OtherStepsKeepStream(s, a, k);
    }
  }

  ghost predicate NeverTouches(actions: seq<Action>, k: Key) {
    forall i :: 0 <= i < |actions| ==> !Touches(actions[i], k)
  }

  /**
   Conservation: over every run that does not insert, remove or clear the stream, the items emitted
   for its key followed by the items still in it are always the same list. Nothing is lost,
   duplicated or reordered, however often polls end in Pending or their future is dropped.
   */
  lemma {:induction false} ItemsAreConserved(s: State, actions: seq<Action>, k: Key)
    requires Possible(s, actions) && InOnePlace(s, k) && NeverTouches(actions, k)
    ensures Total(Run(s, actions), k) == Total(s, k)
    ensures EmittedBy(Run(s, actions).emitted, k) <= Total(s, k)
    decreases |actions|
  {
    if actions != [] {
      StepConserves(s, actions[0], k);
      assert forall i :: 0 <= i < |actions[1..]| ==> actions[1..][i] == actions[i + 1];
      ItemsAreConserved(Apply(s, actions[0]), actions[1..], k);
    }
  }

  // ----- Round-by-round order -----

  ghost predicate ItemsOnly(stream: Stream) {
    forall i :: 0 <= i < |stream| ==> stream[i].Item?
  }

  ghost predicate AllItemsOnly(q: seq<(Key, Stream)>) {
    forall i :: 0 <= i < |q| ==> ItemsOnly(q[i].1)
  }

  ghost function Size(q: seq<(Key, Stream)>): nat {
    if q == [] then 0 else 1 + |q[0].1| + Size(q[1..])
  }

  lemma {:induction false} SizeAppend(q: seq<(Key, Stream)>, last: (Key, Stream))
    ensures Size(q + [last]) == Size(q) + 1 + |last.1|
  {
    if q == [] {
      assert q + [last] == [last];
    } else {
      assert (q + [last])[1..] == q[1..] + [last];
      SizeAppend(q[1..], last);
    }
  }

  /** Serve the first stream, send it to the back, drop it when it has ended. */
  ghost function RoundRobin(q: seq<(Key, Stream)>): seq<(Key, Payload)>
    requires AllItemsOnly(q)
    decreases Size(q)
  {
    if q == [] then []
    else if q[0].1 == [] then RoundRobin(q[1..])
    else
      SizeAppend(q[1..], (q[0].0, q[0].1[1..]));
      [(q[0].0, q[0].1[0].payload)] + RoundRobin(q[1..] + [(q[0].0, q[0].1[1..])])
  }

  /** The first item of every stream that has one, in queue order. */
  ghost function Round(q: seq<(Key, Stream)>): seq<(Key, Payload)>
    requires AllItemsOnly(q)
  {
    if q == [] then []
    else (if q[0].1 == [] then [] else [(q[0].0, q[0].1[0].payload)]) + Round(q[1..])
  }

  /** What the streams hold after that round, ended streams dropped. */
  ghost function AfterRound(q: seq<(Key, Stream)>): (r: seq<(Key, Stream)>)
    requires AllItemsOnly(q)
    ensures AllItemsOnly(r) && Size(r) <= Size(q) && (q != [] ==> Size(r) < Size(q))
  {
    if q == [] then []
    else if q[0].1 == [] then AfterRound(q[1..])
    else
      var r := AfterRound(q[1..]);
      assert ([(q[0].0, q[0].1[1..])] + r)[1..] == r;
      [(q[0].0, q[0].1[1..])] + r
  }

  ghost function Rounds(q: seq<(Key, Stream)>): seq<(Key, Payload)>
    requires AllItemsOnly(q)
    decreases Size(q)
  {
    if q == [] then [] else Round(q) + Rounds(AfterRound(q))
  }

  lemma ServeOne(head: (Key, Stream), rest: seq<(Key, Stream)>)
    requires ItemsOnly(head.1) && AllItemsOnly(rest)
    ensures AllItemsOnly([head] + rest)
    ensures head.1 == [] ==> RoundRobin([head] + rest) == RoundRobin(rest)
    ensures head.1 != [] ==>
              && AllItemsOnly(rest + [(head.0, head.1[1..])])
              && RoundRobin([head] + rest)
              == [(head.0, head.1[0].payload)] + RoundRobin(rest + [(head.0, head.1[1..])])
  {
    assert ([head] + rest)[1..] == rest;
  }

  lemma ServeBoth(head: (Key, Stream), tail: seq<(Key, Stream)>, back: seq<(Key, Stream)>)
    requires head.1 != [] && ItemsOnly(head.1) && AllItemsOnly(tail) && AllItemsOnly(back)
    ensures var served := (head.0, head.1[1..]);
            && AllItemsOnly(tail + (back + [served])) && AllItemsOnly([head] + (tail + back))
            && RoundRobin([head] + (tail + back))
            == [(head.0, head.1[0].payload)] + RoundRobin(tail + (back + [served]))
  {
    var served := (head.0, head.1[1..]);
    ServeOne(head, tail + back);
    assert tail + back + [served] == tail + (back + [served]);
  }

  lemma ItemsOnlyParts(q: seq<(Key, Stream)>)
    requires AllItemsOnly(q) && q != []
    ensures ItemsOnly(q[0].1) && AllItemsOnly(q[1..])
  {
  }

  lemma ItemsOnlyAppend(a: seq<(Key, Stream)>, b: seq<(Key, Stream)>)
    requires AllItemsOnly(a) && AllItemsOnly(b)
    ensures AllItemsOnly(a + b)
  {
  }

  lemma RoundHead(head: (Key, Stream), tail: seq<(Key, Stream)>)
    requires head.1 != [] && ItemsOnly(head.1) && AllItemsOnly(tail)
    ensures AllItemsOnly([head] + tail)
    ensures Round([head] + tail) == [(head.0, head.1[0].payload)] + Round(tail)
    ensures AfterRound([head] + tail) == [(head.0, head.1[1..])] + AfterRound(tail)
  {
    assert ([head] + tail)[1..] == tail;
  }

  /** Serving `front` leads to the state where `back` comes first. */
  lemma {:induction false} ServeFront(front: seq<(Key, Stream)>, back: seq<(Key, Stream)>)
    requires AllItemsOnly(front) && AllItemsOnly(back)
    ensures AllItemsOnly(front + back) && AllItemsOnly(back + AfterRound(front))
    ensures RoundRobin(front + back) == Round(front) + RoundRobin(back + AfterRound(front))
    decreases |front|, 0
  {
    hide RoundRobin, Size, AllItemsOnly;
    ItemsOnlyAppend(front, back);
    ItemsOnlyAppend(back, AfterRound(front));
    if front == [] {
      assert front + back == back && back + AfterRound(front) == back;
    } else {
      var tail, head := front[1..], front[0];
      ItemsOnlyParts(front);
      ItemsOnlyAppend(tail, back);
      assert front == [head] + tail && front + back == [head] + (tail + back);
      if head.1 == [] {
        ServeFront(tail, back);
        ServeOne(head, tail + back);
      } else {
        ServeFullFront(head, tail, back);
      }
    }
  }

  lemma {:induction false} ServeFullFront(head: (Key, Stream), tail: seq<(Key, Stream)>, back: seq<(Key, Stream)>)
    requires head.1 != [] && ItemsOnly(head.1) && AllItemsOnly(tail) && AllItemsOnly(back)
    ensures var front := [head] + tail;
            && AllItemsOnly(front) && AllItemsOnly(front + back) && AllItemsOnly(back + AfterRound(front))
            && RoundRobin(front + back) == Round(front) + RoundRobin(back + AfterRound(front))
    decreases |tail|, 1
  {
    hide RoundRobin, Round, AfterRound, Size, AllItemsOnly;
    var served := (head.0, head.1[1..]);
    RoundHead(head, tail);
    ItemsOnlyTail(head);
    ItemsOnlyAppend(back, [served]);
    ServeFront(tail, back + [served]);
    ServeBoth(head, tail, back);
    assert [head] + tail + back == [head] + (tail + back);
    assert back + [served] + AfterRound(tail) == back + ([served] + AfterRound(tail));
  }

  lemma ItemsOnlyTail(head: (Key, Stream))
    requires head.1 != [] && ItemsOnly(head.1)
    ensures AllItemsOnly([(head.0, head.1[1..])])
  {
  }

  /** Round robin is the rounds, one after the other. */
  lemma {:induction false} RoundRobinIsRounds(q: seq<(Key, Stream)>)
    requires AllItemsOnly(q)
    ensures RoundRobin(q) == Rounds(q)
    decreases Size(q)
  {
    if q != [] {
      ServeFront(q, []);
      assert q + [] == q && [] + AfterRound(q) == AfterRound(q);
      RoundRobinIsRounds(AfterRound(q));
    }
  }

  /** The waiting streams, each with its key, in queue order. */
  ghost function Service(ready: seq<Key>, streams: map<Key, Stream>): seq<(Key, Stream)>
    requires forall k :: k in ready ==> k in streams
  {
    seq(|ready|, i requires 0 <= i < |ready| => (ready[i], streams[ready[i]]))
  }

  /** The streams in service order, the one in the consumer's hand first. */
  ghost function Lineup(s: State): seq<(Key, Stream)>
    requires forall k :: k in s.ready ==> k in s.streams
  {
    (if s.consumer.Polling? then [(s.consumer.key, s.consumer.stream)] else []) + Service(s.ready, s.streams)
  }

  /** Every stream is finite, always ready, and has its event; the poll still has to visit them all. */
  ghost predicate AlwaysReady(s: State) {
    && OneEventEach(s)
    && (forall k :: k in s.ready ==> k in s.streams && ItemsOnly(s.streams[k]))
    && match s.consumer
       case Looping(remaining) => remaining == |s.ready|
       case Polling(remaining, k, stream) => remaining == |s.ready| && k !in s.ready && ItemsOnly(stream)
       case Disconnecting(remaining, k) => remaining == |s.ready| && k !in s.ready
       case WakingItself(_) => false
       case Resting(_) => true
  }

  /** The last poll visited every stream and found nothing to yield. */
  ghost predicate Drained(s: State) {
    s.consumer == Resting(Pending) || s.consumer == Resting(Ended) ==> s.ready == []
  }

  lemma LineupItemsOnly(s: State)
    requires AlwaysReady(s)
    ensures AllItemsOnly(Lineup(s))
  {
  }

  lemma PopKeepsLineup(s: State)
    requires AlwaysReady(s) && Enabled(s, NextReady)
    ensures AlwaysReady(Apply(s, NextReady)) && Lineup(Apply(s, NextReady)) == Lineup(s)
    ensures Apply(s, NextReady).emitted == s.emitted && Drained(Apply(s, NextReady))
  {
    PopKeepsAgreement(s);
    var s' := Apply(s, NextReady);
    assert s'.ready == s.ready[1..] && s.ready[0] !in s'.ready;
    assert [(s.ready[0], s.streams[s.ready[0]])] + Service(s'.ready, s'.streams) == Service(s.ready, s.streams);
    assert [] + Service(s.ready, s.streams) == Service(s.ready, s.streams);
  }

  lemma ServiceAppend(ready: seq<Key>, streams: map<Key, Stream>, k: Key, stream: Stream)
    requires (forall j :: j in ready ==> j in streams) && k !in ready
    ensures Service(ready + [k], streams[k := stream]) == Service(ready, streams) + [(k, stream)]
  {
  }

  lemma PollServesLineup(s: State)
    requires AlwaysReady(s) && s.consumer.Polling?
    ensures var (s', stream, k) := (Apply(s, StreamPolled), s.consumer.stream, s.consumer.key);
            && AlwaysReady(s') && Drained(s')
            && Lineup(s) == [(k, stream)] + Service(s.ready, s.streams)
            && (stream == [] ==> s'.emitted == s.emitted && Lineup(s') == Service(s.ready, s.streams))
            && (stream != [] ==>
                  && s'.emitted == s.emitted + [(k, stream[0].payload)]
                  && Lineup(s') == Service(s.ready, s.streams) + [(k, stream[1..])])
  {
    var s', stream, k := Apply(s, StreamPolled), s.consumer.stream, s.consumer.key;
    if stream == [] {
      assert [] + Service(s'.ready, s'.streams) == Service(s.ready, s.streams);
    } else {
      PushKeepsAgreement(s.(streams := s.streams[k := stream[1..]]), k);
      assert s'.ready == s.ready + [k];
      ServiceAppend(s.ready, s.streams, k, stream[1..]);
      assert [] + Service(s'.ready, s'.streams) == Service(s'.ready, s'.streams);
    }
  }

  lemma ServiceItemsOnly(s: State)
    requires AlwaysReady(s)
    ensures AllItemsOnly(Service(s.ready, s.streams))
  {
  }

  lemma OtherStepsKeepLineup(s: State, a: Action)
    requires AlwaysReady(s) && Drained(s) && Enabled(s, a) && ByConsumer(a) && !a.NextReady? && !a.StreamPolled?
    ensures AlwaysReady(Apply(s, a)) && Drained(Apply(s, a))
    ensures Lineup(Apply(s, a)) == Lineup(s) && Apply(s, a).emitted == s.emitted
  {
  }

  lemma ConsumerServesRoundRobin(s: State, a: Action)
    requires AlwaysReady(s) && Drained(s) && Enabled(s, a) && ByConsumer(a)
    ensures var s' := Apply(s, a);
            && AlwaysReady(s') && Drained(s') && AllItemsOnly(Lineup(s)) && AllItemsOnly(Lineup(s'))
            && s'.emitted + RoundRobin(Lineup(s')) == s.emitted + RoundRobin(Lineup(s))
  {
    hide Apply, RoundRobin, Lineup, AlwaysReady, Service;
    LineupItemsOnly(s);
    if a.NextReady? {
      PopKeepsLineup(s);
    } else if a.StreamPolled? {
      HeldIsItemsOnly(s);
      PollServesLineup(s);
      ServiceItemsOnly(s);
      LineupItemsOnly(Apply(s, a));
      ServeOne((s.consumer.key, s.consumer.stream), Service(s.ready, s.streams));
      if s.consumer.stream != [] {
        assert s.emitted + [(s.consumer.key, s.consumer.stream[0].payload)] + RoundRobin(Lineup(Apply(s, a)))
            == s.emitted + ([(s.consumer.key, s.consumer.stream[0].payload)] + RoundRobin(Lineup(Apply(s, a))));
      }
    } else {
      OtherStepsKeepLineup(s, a);
    }
  }

  lemma HeldIsItemsOnly(s: State)
    requires AlwaysReady(s) && s.consumer.Polling?
    ensures ItemsOnly(s.consumer.stream)
    ensures forall k :: k in s.ready ==> k in s.streams
  {
  }

  ghost predicate OnlyConsumer(actions: seq<Action>) {
    forall i :: 0 <= i < |actions| ==> ByConsumer(actions[i])
  }

  lemma {:induction false} ConsumerRunServesRoundRobin(s: State, actions: seq<Action>)
    requires AlwaysReady(s) && Drained(s) && Possible(s, actions) && OnlyConsumer(actions)
    ensures var s' := Run(s, actions);
            && AlwaysReady(s') && Drained(s') && AllItemsOnly(Lineup(s)) && AllItemsOnly(Lineup(s'))
            && s'.emitted + RoundRobin(Lineup(s')) == s.emitted + RoundRobin(Lineup(s))
    decreases |actions|
  {
    hide RoundRobin, Lineup, Apply, AlwaysReady;
    LineupItemsOnly(s);
    if actions != [] {
      ConsumerServesRoundRobin(s, actions[0]);
      assert forall i :: 0 <= i < |actions[1..]| ==> actions[1..][i] == actions[i + 1];
      ConsumerRunServesRoundRobin(Apply(s, actions[0]), actions[1..]);
    }
  }

  /** One or more polls of always-ready streams, from rest. */
  lemma PollsServeRoundRobin(s: State, actions: seq<Action>)
    requires AlwaysReady(s) && s.consumer.Resting? && Possible(s, actions) && OnlyConsumer(actions) && actions != []
    ensures var s' := Run(s, actions);
            && AlwaysReady(s') && Drained(s') && AllItemsOnly(Lineup(s)) && AllItemsOnly(Lineup(s'))
            && s'.emitted + RoundRobin(Lineup(s')) == s.emitted + RoundRobin(Lineup(s))
  {
    hide RoundRobin;
    assert actions[0] == BeginPoll;
    var s1 := Apply(s, BeginPoll);
    assert AlwaysReady(s1) && Drained(s1) && Lineup(s1) == Lineup(s) && s1.emitted == s.emitted;
    assert forall i :: 0 <= i < |actions[1..]| ==> actions[1..][i] == actions[i + 1];
    ConsumerRunServesRoundRobin(s1, actions[1..]);
  }

  /**
   Round-by-round order: always-ready finite streams are served one item each in queue order, then
   the next item each, and so on. At every point of any run of polls what was emitted is a prefix
   of those rounds, and once a poll finds nothing to yield it is all of them.
   */
  lemma ReadyStreamsDrainInRounds(s: State, actions: seq<Action>)
    requires AlwaysReady(s) && s.consumer.Resting? && Possible(s, actions) && OnlyConsumer(actions) && actions != []
    ensures AllItemsOnly(Lineup(s))
    ensures Run(s, actions).emitted <= s.emitted + Rounds(Lineup(s))
    ensures Run(s, actions).consumer in {Resting(Pending), Resting(Ended)} ==>
              Run(s, actions).emitted == s.emitted + Rounds(Lineup(s))
  {
    PollsServeRoundRobin(s, actions);
    RoundRobinIsRounds(Lineup(s));
    var s' := Run(s, actions);
    if s'.consumer in {Resting(Pending), Resting(Ended)} {
      assert Lineup(s') == [];
      assert s'.emitted + [] == s'.emitted;
    }
  }
}
