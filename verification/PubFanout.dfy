/**
 The PUB fan-out queue: any number of publishers and one worker that share a bounded queue, a
 `wake_pending` flag and a channel of wake tokens, without a lock. Each atomic operation is one
 step, and steps interleave arbitrarily (sequential consistency).
 */
module PubFanout {
  import Bytes

  type Message = seq<Bytes.Bytes>

  /** Where a publisher stands in `publish`. */
  datatype Publisher =
    | Idle
    | Pushed      // the message is queued; the flag has not been loaded
    | SawFalse    // the load returned false; the swap has not happened
    | WonSwap     // the swap returned false; the token has not been sent

  /** Where the worker stands in its loop. */
  datatype Worker =
    | Asleep      // waiting for a token
    | Draining    // popping
    | Emptied     // the last pop found nothing; the flag has not been stored
    | Cleared     // the flag was stored false; emptiness has not been checked
    | Refilled    // the check found messages; the flag has not been stored

  datatype State = State(
    capacity: nat,
    queue: seq<Message>,
    pending: bool,
    tokens: nat,
    publishers: seq<Publisher>,
    worker: Worker,
    accepted: seq<Message>,
    fannedOut: seq<Message>)

  function Initial(capacity: nat, publishers: nat): State {
    State(capacity, [], false, 0, seq(publishers, _ => Idle), Asleep, [], [])
  }

  datatype Action =
    | Push(publisher: nat, message: Message)
    | LoadPending(publisher: nat)
    | SwapPending(publisher: nat)
    | SendToken(publisher: nat)
    | ReceiveToken
    | Pop
    | StoreFalse
    | CheckEmpty
    | StoreTrue

  predicate At(s: State, i: nat, p: Publisher) {
    i < |s.publishers| && s.publishers[i] == p
  }

  predicate Enabled(s: State, a: Action) {
    match a
    case Push(i, _) => At(s, i, Idle)
    case LoadPending(i) => At(s, i, Pushed)
    case SwapPending(i) => At(s, i, SawFalse)
    case SendToken(i) => At(s, i, WonSwap)
    case ReceiveToken => s.worker.Asleep? && s.tokens > 0
    case Pop => s.worker.Draining?
    case StoreFalse => s.worker.Emptied?
    case CheckEmpty => s.worker.Cleared?
    case StoreTrue => s.worker.Refilled?
  }

  function Move(s: State, i: nat, p: Publisher): State
    requires i < |s.publishers|
  {
    s.(publishers := s.publishers[i := p])
  }

  function Apply(s: State, a: Action): State
    requires Enabled(s, a)
  {
    match a
    case Push(i, m) =>
      if |s.queue| >= s.capacity then s
      else Move(s, i, Pushed).(queue := s.queue + [m], accepted := s.accepted + [m])
    case LoadPending(i) => Move(s, i, if s.pending then Idle else SawFalse)
    case SwapPending(i) => Move(s, i, if s.pending then Idle else WonSwap).(pending := true)
    case SendToken(i) => Move(s, i, Idle).(tokens := s.tokens + 1)
    case ReceiveToken => s.(tokens := s.tokens - 1, worker := Draining)
    case Pop =>
      if s.queue == [] then s.(worker := Emptied)
      else s.(queue := s.queue[1..], fannedOut := s.fannedOut + [s.queue[0]])
    case StoreFalse => s.(pending := false, worker := Cleared)
    case CheckEmpty => s.(worker := if s.queue == [] then Asleep else Refilled)
    case StoreTrue => s.(pending := true, worker := Draining)
  }

  ghost predicate SomePublisher(s: State, p: Publisher) {
    exists i :: 0 <= i < |s.publishers| && s.publishers[i] == p
  }

  ghost predicate SomePublisherBusy(s: State) {
    exists i :: 0 <= i < |s.publishers| && !s.publishers[i].Idle?
  }

  /** A set flag has an owner that will look at the queue again before it sleeps. */
  ghost predicate PendingIsOwned(s: State) {
    s.pending ==> s.worker.Draining? || s.worker.Emptied? || s.tokens > 0 || SomePublisher(s, WonSwap)
  }

  /** A queued message has someone who will bring it to the worker's attention. */
  ghost predicate NotStranded(s: State) {
    s.queue != [] ==> !s.worker.Asleep? || s.tokens > 0 || SomePublisherBusy(s)
  }

  /** Accepted messages are fanned out in order, each once, or still queued. */
  ghost predicate Conserved(s: State) {
    s.accepted == s.fannedOut + s.queue && |s.queue| <= s.capacity
  }

  ghost predicate Inv(s: State) {
    PendingIsOwned(s) && NotStranded(s) && Conserved(s)
  }

  lemma OthersStay(s: State, i: nat, p: Publisher, kept: Publisher)
    requires i < |s.publishers| && SomePublisher(s, kept) && s.publishers[i] != kept
    ensures SomePublisher(Move(s, i, p), kept)
  {
    var j :| 0 <= j < |s.publishers| && s.publishers[j] == kept;
    assert Move(s, i, p).publishers[j] == kept;
  }

  lemma Moved(s: State, i: nat, p: Publisher)
    requires i < |s.publishers|
    ensures SomePublisher(Move(s, i, p), p)
    ensures p != Idle ==> SomePublisherBusy(Move(s, i, p))
  {
    assert Move(s, i, p).publishers[i] == p;
  }

  lemma BusyFromWonSwap(s: State)
    ensures SomePublisher(s, WonSwap) ==> SomePublisherBusy(s)
  {
  }

  lemma StepKeepsOwner(s: State, a: Action)
    requires Enabled(s, a) && PendingIsOwned(s)
    ensures PendingIsOwned(Apply(s, a))
  {
    match a
    case Push(i, _) => if SomePublisher(s, WonSwap) { OthersStay(s, i, Pushed, WonSwap); }
    case LoadPending(i) =>
      if SomePublisher(s, WonSwap) {
        OthersStay(s, i, if s.pending then Idle else SawFalse, WonSwap);
      }
    case SwapPending(i) =>
      if !s.pending {
        Moved(s, i, WonSwap);
      } else if SomePublisher(s, WonSwap) {
        OthersStay(s, i, Idle, WonSwap);
      }
    case _ =>
  }

  lemma StepStrandsNothing(s: State, a: Action)
    requires Enabled(s, a) && PendingIsOwned(s) && NotStranded(s)
    ensures NotStranded(Apply(s, a))
  {
    match a
    case Push(i, _) => Moved(s, i, Pushed);
    case LoadPending(i) =>
      if !s.pending {
        Moved(s, i, SawFalse);
      } else if SomePublisher(s, WonSwap) {
        OthersStay(s, i, Idle, WonSwap);
        BusyFromWonSwap(Apply(s, a));
      }
    case SwapPending(i) =>
      if !s.pending {
        Moved(s, i, WonSwap);
      } else if SomePublisher(s, WonSwap) {
        OthersStay(s, i, Idle, WonSwap);
        BusyFromWonSwap(Apply(s, a));
      }
    case _ =>
  }

  lemma StepConserves(s: State, a: Action)
    requires Enabled(s, a) && Conserved(s)
    ensures Conserved(Apply(s, a))
  {
    match a
    case Push(_, m) => assert s.fannedOut + s.queue + [m] == s.fannedOut + (s.queue + [m]);
    case Pop =>
      if s.queue != [] {
        assert s.queue == [s.queue[0]] + s.queue[1..];
        assert s.fannedOut + [s.queue[0]] + s.queue[1..] == s.fannedOut + ([s.queue[0]] + s.queue[1..]);
      }
    case _ =>
  }

  ghost predicate Possible(s: State, actions: seq<Action>)
    decreases |actions|
  {
    actions != [] ==> Enabled(s, actions[0]) && Possible(Apply(s, actions[0]), actions[1..])
  }

  ghost function Run(s: State, actions: seq<Action>): State
    requires Possible(s, actions)
    decreases |actions|
  {
    if actions == [] then s else Run(Apply(s, actions[0]), actions[1..])
  }

  lemma {:induction false} RunKeepsInv(s: State, actions: seq<Action>)
    requires Inv(s) && Possible(s, actions)
    ensures Inv(Run(s, actions))
    decreases |actions|
  {
    if actions != [] {
      StepKeepsOwner(s, actions[0]);
      StepStrandsNothing(s, actions[0]);
      StepConserves(s, actions[0]);
      RunKeepsInv(Apply(s, actions[0]), actions[1..]);
    }
  }

  /**
   No stranded message: for any number of publishers and every interleaving, once no publisher is
   inside `publish` and the worker sleeps without a token, the queue is empty, everything accepted
   has been fanned out in order, and the flag is clear, so the next publisher will wake the worker.
   */
  lemma NoStrandedMessage(capacity: nat, publishers: nat, actions: seq<Action>)
    requires Possible(Initial(capacity, publishers), actions)
    ensures var s := Run(Initial(capacity, publishers), actions);
            && Inv(s)
            && (s.worker.Asleep? && s.tokens == 0 && !SomePublisherBusy(s) ==>
                  s.queue == [] && s.fannedOut == s.accepted && !s.pending)
  {
    RunKeepsInv(Initial(capacity, publishers), actions);
    var s := Run(Initial(capacity, publishers), actions);
    BusyFromWonSwap(s);
    assert s.fannedOut + [] == s.fannedOut;
  }

  // ----- The flag saves wake-ups -----

  /** A publisher finds the flag clear and sets it, which obliges it to send a token. */
  predicate Wins(s: State, a: Action) {
    a.SwapPending? && !s.pending
  }

  /** The worker clears a set flag. */
  predicate Clears(s: State, a: Action) {
    a.StoreFalse? && s.pending
  }

  /** The worker sets a clear flag again, since it goes on draining. */
  predicate Raises(s: State, a: Action) {
    a.StoreTrue? && !s.pending
  }

  function One(b: bool): nat {
    if b then 1 else 0
  }

  function WonSwaps(publishers: seq<Publisher>): nat {
    if publishers == [] then 0 else One(publishers[0] == WonSwap) + WonSwaps(publishers[1..])
  }

  lemma {:induction false} WonSwapsAfterMove(publishers: seq<Publisher>, i: nat, p: Publisher)
    requires i < |publishers|
    ensures WonSwaps(publishers[i := p]) + One(publishers[i] == WonSwap) == WonSwaps(publishers) + One(p == WonSwap)
  {
    if i == 0 {
      assert publishers[i := p][1..] == publishers[1..];
    } else {
      assert publishers[i := p][1..] == publishers[1..][i - 1 := p];
      WonSwapsAfterMove(publishers[1..], i - 1, p);
    }
  }

  /** What a run did with the flag and the tokens. */
  datatype Ledger = Ledger(wins: nat, clears: nat, raises: nat, sent: nat, received: nat)

  ghost function Account(s: State, actions: seq<Action>): Ledger
    requires Possible(s, actions)
    decreases |actions|
  {
    if actions == [] then Ledger(0, 0, 0, 0, 0) else
    var (a, l) := (actions[0], Account(Apply(s, actions[0]), actions[1..]));
    Ledger(l.wins + One(Wins(s, a)), l.clears + One(Clears(s, a)), l.raises + One(Raises(s, a)),
           l.sent + One(a.SendToken?), l.received + One(a.ReceiveToken?))
  }

  lemma StepBalances(s: State, a: Action)
    requires Enabled(s, a)
    ensures var s' := Apply(s, a);
            && One(s'.pending) + One(Clears(s, a)) == One(s.pending) + One(Wins(s, a)) + One(Raises(s, a))
            && WonSwaps(s'.publishers) + One(a.SendToken?) == WonSwaps(s.publishers) + One(Wins(s, a))
            && s'.tokens + One(a.ReceiveToken?) == s.tokens + One(a.SendToken?)
  {
    match a
    case Push(i, _) => WonSwapsAfterMove(s.publishers, i, Pushed);
    case LoadPending(i) => WonSwapsAfterMove(s.publishers, i, if s.pending then Idle else SawFalse);
    case SwapPending(i) => WonSwapsAfterMove(s.publishers, i, if s.pending then Idle else WonSwap);
    case SendToken(i) => WonSwapsAfterMove(s.publishers, i, Idle);
    case _ =>
  }

  /** Over every run the flag, the tokens and the publishers about to send one balance. */
  lemma {:induction false} LedgerBalances(s: State, actions: seq<Action>)
    requires Possible(s, actions)
    ensures var (t, l) := (Run(s, actions), Account(s, actions));
            && One(t.pending) + l.clears == One(s.pending) + l.wins + l.raises
            && WonSwaps(t.publishers) + l.sent == WonSwaps(s.publishers) + l.wins
            && t.tokens + l.received == s.tokens + l.sent
    decreases |actions|
  {
    hide Apply, Wins, Clears, Raises, WonSwaps;
    if actions != [] {
      StepBalances(s, actions[0]);
      LedgerBalances(Apply(s, actions[0]), actions[1..]);
    }
  }

  lemma {:induction false} NobodyWonYet(n: nat)
    ensures WonSwaps(seq(n, _ => Idle)) == 0
  {
    if n > 0 {
      assert seq(n, _ => Idle)[1..] == seq(n - 1, _ => Idle);
      NobodyWonYet(n - 1);
    }
  }

  /**
   The flag saves wake-ups: however many messages are published, no more tokens are sent than one
   and one for each time that the worker has cleared the flag and not set it again.
   */
  lemma WakeUpsAreFew(capacity: nat, publishers: nat, actions: seq<Action>)
    requires Possible(Initial(capacity, publishers), actions)
    ensures var start := Initial(capacity, publishers);
            var (s, l) := (Run(start, actions), Account(start, actions));
            && l.sent + l.raises <= l.clears + 1 && s.tokens == l.sent - l.received
  {
    NobodyWonYet(publishers);
    LedgerBalances(Initial(capacity, publishers), actions);
  }

  // ----- The worker alone empties the queue -----

  predicate Settled(s: State) {
    s.worker.Asleep? && s.tokens == 0
  }

  /** The worker's next step; it has exactly one. */
  function WorkerAction(s: State): (a: Action)
    requires !Settled(s)
    ensures Enabled(s, a)
  {
    match s.worker
    case Asleep => ReceiveToken
    case Draining => Pop
    case Emptied => StoreFalse
    case Cleared => CheckEmpty
    case Refilled => StoreTrue
  }

  ghost function Rank(s: State): nat {
    match s.worker
    case Asleep => 0
    case Draining => if s.queue == [] then 3 else 0
    case Emptied => if s.queue == [] then 2 else 3
    case Cleared => if s.queue == [] then 1 else 2
    case Refilled => if s.queue == [] then 4 else 1
  }

  /** The worker running alone until it sleeps without a token. */
  ghost function Settle(s: State): State
    decreases |s.queue|, s.tokens, Rank(s)
  {
    if Settled(s) then s else Settle(Apply(s, WorkerAction(s)))
  }

  /**
   When publishers stop, the worker alone comes to rest after finitely many steps, with every
   queued message fanned out in order.
   */
  lemma {:induction false} WorkerDeliversAll(s: State)
    requires Inv(s) && !SomePublisherBusy(s)
    ensures var t := Settle(s);
            && Settled(t) && t.queue == [] && !t.pending
            && t.accepted == s.accepted && t.fannedOut == s.accepted
    decreases |s.queue|, s.tokens, Rank(s)
  {
    if Settled(s) {
      BusyFromWonSwap(s);
      assert s.fannedOut + [] == s.fannedOut;
    } else {
      var a := WorkerAction(s);
      StepKeepsOwner(s, a);
      StepStrandsNothing(s, a);
      StepConserves(s, a);
      WorkerDeliversAll(Apply(s, a));
    }
  }
}
