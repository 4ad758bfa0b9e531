/** Runs that show why the exceptions in the theorems are there. */
module CallWitnesses {
  import opened Options
  import opened CallPolicy
  import opened CallProtocol
  import opened CallInvariant
  import opened CallTheorems
  import CallSteps

  lemma ReachableStep(s: State, e: Event)
    requires Reachable(s) && Fresh(s, e)
    ensures Reachable(Apply(s, e))
  {
    var clock, min, es :|
      Starts(Init(clock, min), clock, min) && Run(Init(clock, min), es) && s == Exec(Init(clock, min), es);
    CallSteps.ExecThen(Init(clock, min), es, e);
  }

  const NOON: nat := 720

  // A pending order of a shop that may be called at noon.
  predicate Open(s: State, rows: nat) {
    0 in s.orders && s.orders[0].status == OrderPending && s.orders[0].rows == rows && WindowOpen(s, 0, NOON)
  }

  lemma AllDay() returns (start: Option<string>, end: Option<string>)
    ensures IsWithinCallWindow(start, end, NOON)
  {
    start, end := Some(FormatClock(0)), Some(FormatClock(1439));
    ParseClockExact(FormatClock(0), 0);
    ParseClockExact(FormatClock(1439), 1439);
  }

  // Order 0 is pending and its k calls were all refused at launch.
  ghost predicate Launched(s: State, k: nat) {
    && s.active.None? && Open(s, k)
    && forall key :: key in s.calls && key.order == 0 ==> RefusedAtLaunch(s.calls[key]) && s.calls[key].completedAt.Some?
  }

  // ... and its next call is inserted.
  ghost predicate Ready(s: State, k: nat) {
    && s.active.None? && Open(s, k + 1) && Key(0, k + 1) in s.calls
    && s.calls[Key(0, k + 1)] == NewCall(s.clock)
    && forall key :: key in s.calls && key.order == 0 && key.attempt != k + 1 ==>
         RefusedAtLaunch(s.calls[key]) && s.calls[key].completedAt.Some?
  }

  lemma NewlyOrdered() returns (s: State)
    ensures Reachable(s) && Launched(s, 0)
  {
    var s0 := Init(0, 0.5);
    assert Run(s0, []) && Exec(s0, []) == s0;
    assert Starts(Init(0, 0.5), 0, 0.5);
    var start, end := AllDay();
    ReachableStep(s0, NewOrder(0, start, end));
    s := Apply(s0, NewOrder(0, start, end));
  }

  function Numbers(k: nat): (attempts: seq<nat>)
    ensures |attempts| == k && forall i :: 0 <= i < k ==> attempts[i] == i + 1
  {
    seq(k, i requires 0 <= i < k => i + 1)
  }

  lemma NumbersAreListing(s: State, k: nat)
    requires Inv(s) && 0 in s.orders && s.orders[0].rows == k
    ensures IsListing(s, 0, Numbers(k))
  {
    forall key | key in s.calls && key.order == 0 ensures key.attempt in Numbers(k) {
      assert Numbers(k)[key.attempt - 1] == key.attempt;
    }
  }

  lemma DueByRecord(s: State, k: nat)
    requires Inv(s) && Open(s, k) && k < 3
    requires k > 0 && Key(0, k) in s.calls ==>
      && s.calls[Key(0, k)].disposition == Some(Error) && s.calls[Key(0, k)].completedAt.Some?
      && s.calls[Key(0, k)].completedAt.value + RetryDelay(k) <= s.clock
    ensures IsListing(s, 0, Numbers(k)) && Key(0, k + 1) !in s.calls
    ensures NextAttemptNumber(Records(s, 0, Numbers(k)), s.clock) == Some(k + 1)
  {
    NumbersAreListing(s, k);
    LastRecord(s, 0, Numbers(k), s.clock);
    CallSteps.NumberIsDue(s, 0, Numbers(k), s.clock);
    if k > 0 {
      assert Key(0, k) in s.calls;
    }
  }

  // Once its last call's delay has passed, attempt k + 1 is due.
  lemma Due(s: State, k: nat)
    requires Reachable(s) && Launched(s, k) && k < 3
    requires k > 0 && Key(0, k) in s.calls ==> s.calls[Key(0, k)].completedAt.value + RetryDelay(k) <= s.clock
    ensures IsListing(s, 0, Numbers(k)) && Key(0, k + 1) !in s.calls
    ensures NextAttemptNumber(Records(s, 0, Numbers(k)), s.clock) == Some(k + 1)
  {
    ReachableInv(s);
    DueByRecord(s, k);
  }

  lemma Wait(s: State, k: nat) returns (waited: State)
    requires Reachable(s) && Launched(s, k) && k < 3
    ensures Reachable(waited) && Launched(waited, k)
    ensures k > 0 && Key(0, k) in waited.calls ==>
      waited.calls[Key(0, k)].completedAt.value + RetryDelay(k) <= waited.clock
  {
    var due := s.clock;
    if k > 0 && Key(0, k) in s.calls {
      due := Max(s.clock, s.calls[Key(0, k)].completedAt.value + RetryDelay(k));
    }
    ReachableStep(s, Tick(due));
    waited := Apply(s, Tick(due));
  }

  lemma QueueNext(s: State, k: nat) returns (ready: State)
    requires Reachable(s) && Launched(s, k) && k < 3
    ensures Reachable(ready) && Ready(ready, k)
  {
    var waited := Wait(s, k);
    Due(waited, k);
    var see, plan := SeeOrder(0), PlanAttempt(0, Numbers(k), waited.clock, NOON);
    var create := CreateAttempt(0, k + 1, waited.clock);
    CallSteps.QueueSteps(waited, 0, Numbers(k), waited.clock, NOON, k + 1);
    ReachableStep(waited, see);
    ReachableStep(Apply(waited, see), plan);
    ReachableStep(Apply(Apply(waited, see), plan), create);
    ready := Apply(Apply(Apply(waited, see), plan), create);
  }

  lemma Begin(ready: State, k: nat) returns (begun: State)
    requires Reachable(ready) && Ready(ready, k)
    ensures Reachable(begun) && begun.active == Some(Dispatch(Key(0, k + 1), ready.nextTask))
    ensures begun == ready.(active := begun.active, nextTask := ready.nextTask + 1)
    ensures begun == Apply(ready, BeginDispatch(Key(0, k + 1), NOON))
  {
    ReachableStep(ready, BeginDispatch(Key(0, k + 1), NOON));
    begun := Apply(ready, BeginDispatch(Key(0, k + 1), NOON));
  }

  lemma RefuseLaunch(ready: State, begun: State, k: nat)
    requires Ready(ready, k) && begun.active == Some(Dispatch(Key(0, k + 1), ready.nextTask))
    requires begun == ready.(active := begun.active, nextTask := ready.nextTask + 1)
    ensures Launched(Apply(begun, EndDispatch(Refused)), k + 1)
  {
  }

  lemma NextIsRefused(s: State, k: nat) returns (s': State)
    requires Reachable(s) && Launched(s, k) && k < 3
    ensures Reachable(s') && Launched(s', k + 1)
  {
    var ready := QueueNext(s, k);
    var begun := Begin(ready, k);
    ReachableStep(begun, EndDispatch(Refused));
    RefuseLaunch(ready, begun, k);
    s' := Apply(begun, EndDispatch(Refused));
  }

  /** The exception in NoOrderStranded is real: three refused launches leave a pending order nobody calls again. */
  lemma RefusedLaunchesStrand()
    ensures exists s ::
      Reachable(s) && 0 in s.orders && s.orders[0].status == OrderPending && NoneIsPending(s, 0) && Abandoned(s, 0)
  {
    var s0 := NewlyOrdered();
    var s1 := NextIsRefused(s0, 0);
    var s2 := NextIsRefused(s1, 1);
    var s3 := NextIsRefused(s2, 2);
    LaunchedIsAbandoned(s3);
  }

  lemma LaunchedIsAbandoned(s: State)
    requires Reachable(s) && Launched(s, 3)
    ensures NoneIsPending(s, 0) && Abandoned(s, 0)
  {
    ReachableInv(s);
    assert Key(0, 3) in s.calls;
  }

  // A reachable state whose guard lets a call through that already has a task id.
  ghost predicate Admits(s: State, key: Key) {
    Reachable(s) && Dispatchable(s, key, NOON) && s.calls[key].taskId.Some?
  }

  // An accepted call.
  ghost predicate Given(s: State, task: nat) {
    && s.active.None? && Open(s, 1) && Key(0, 1) in s.calls
    && s.calls[Key(0, 1)].status == CallPending && s.calls[Key(0, 1)].taskId == Some(task)
  }

  lemma FirstReady() returns (ready: State)
    ensures Reachable(ready) && Ready(ready, 0)
  {
    var s0 := NewlyOrdered();
    ready := QueueNext(s0, 0);
  }

  lemma DispatchAccepted(ready: State) returns (given: State)
    requires Reachable(ready) && Ready(ready, 0)
    ensures Reachable(given) && Given(given, ready.nextTask)
  {
    var begun := Begin(ready, 0);
    given := Accept(begun, ready, 0);
  }

  lemma AcceptedCall() returns (given: State, task: nat)
    ensures Reachable(given) && Given(given, task)
  {
    var ready := FirstReady();
    given := DispatchAccepted(ready);
    task := ready.nextTask;
  }

  lemma GivenAndRinging() returns (after: State)
    ensures Admits(after, Key(0, 1))
  {
    var given, task := AcceptedCall();
    after := Answers(given, task);
  }

  /**
   * The dispatcher's own guard does not keep to calls without a task: once an accepted call has
   * reported any later phase, it can be dispatched again.
   */
  lemma GuardAdmitsRunningCall()
    ensures exists s, key :: Admits(s, key)
  {
    var after := GivenAndRinging();
  }

  // The accepted call reports that it rings: the guard would let it through again.
  lemma Answers(given: State, task: nat) returns (after: State)
    requires Reachable(given) && Given(given, task)
    ensures Reachable(after) && Dispatchable(after, Key(0, 1), NOON) && after.calls[Key(0, 1)].taskId.Some?
  {
    ReachableStep(given, AgentEvent(task, Key(0, 1), Ringing, None));
    Rings(given, task);
    after := Apply(given, AgentEvent(task, Key(0, 1), Ringing, None));
  }

  lemma Accept(begun: State, ready: State, k: nat) returns (given: State)
    requires Reachable(begun) && Ready(ready, k) && begun.active == Some(Dispatch(Key(0, k + 1), ready.nextTask))
    requires begun == ready.(active := begun.active, nextTask := ready.nextTask + 1)
    ensures Reachable(given) && given.active.None? && Open(given, k + 1) && Key(0, k + 1) in given.calls
    ensures given.calls[Key(0, k + 1)].status == CallPending
    ensures given.calls[Key(0, k + 1)].taskId == Some(ready.nextTask)
    ensures given == Apply(begun, EndDispatch(Accepted))
  {
    ReachableStep(begun, EndDispatch(Accepted));
    given := Apply(begun, EndDispatch(Accepted));
  }

  lemma Rings(given: State, task: nat)
    requires given.active.None? && Open(given, 1) && Key(0, 1) in given.calls
    requires given.calls[Key(0, 1)].status == CallPending && given.calls[Key(0, 1)].taskId == Some(task)
    ensures var after := Apply(given, AgentEvent(task, Key(0, 1), Ringing, None));
      Dispatchable(after, Key(0, 1), NOON) && after.calls[Key(0, 1)].taskId.Some?
  {
  }

  // A poll reads attempt 1 as the one to call; then these steps of a run follow, after which the guard
  // lets the poll's dispatch through although an agent has the call already.
  ghost predicate StalePoll(ready: State, row: CallSteps.Row, es: seq<Event>) {
    && Reachable(ready) && CallSteps.RowRead(ready, row)
    && CallSteps.Choice(ready, row, ready.clock, NOON) == Some(1) && Run(ready, es)
    && Dispatchable(Exec(ready, es), Key(row.order, 1), NOON)
    && !Fresh(Exec(ready, es), BeginDispatch(Key(row.order, 1), NOON))
  }

  lemma Chain(s: State, a: Event, b: Event, c: Event, after: State) returns (es: seq<Event>)
    requires Fresh(s, a) && Fresh(Apply(s, a), b) && Fresh(Apply(Apply(s, a), b), c)
    requires after == Apply(Apply(Apply(s, a), b), c)
    ensures Run(s, es) && Exec(s, es) == after
  {
    CallSteps.ThreeInARow(s, a, b, c);
    es := [a] + [b] + [c];
  }

  // A manual dispatch of the call, accepted and ringing.
  lemma DispatchedByHand(ready: State) returns (es: seq<Event>)
    requires Reachable(ready) && Ready(ready, 0)
    ensures Run(ready, es) && Dispatchable(Exec(ready, es), Key(0, 1), NOON)
    ensures Exec(ready, es).calls[Key(0, 1)].taskId.Some?
  {
    var begun := Begin(ready, 0);
    var given := Accept(begun, ready, 0);
    Rings(given, ready.nextTask);
    var rings := AgentEvent(ready.nextTask, Key(0, 1), Ringing, None);
    es := Chain(ready, BeginDispatch(Key(0, 1), NOON), EndDispatch(Accepted), rings, Apply(given, rings));
  }

  lemma OffersFirst(ready: State, row: CallSteps.Row)
    requires Reachable(ready) && Ready(ready, 0) && row == CallSteps.Row(0, Numbers(1), Some(1))
    ensures CallSteps.RowRead(ready, row) && CallSteps.Choice(ready, row, ready.clock, NOON) == Some(1)
  {
    ReachableInv(ready);
    NumbersAreListing(ready, 1);
  }

  /** The condition of LateDispatchIsFreshIff can fail: a dispatch by hand comes between the poll's look and its own. */
  lemma PollCanBeStale()
    ensures exists ready, row, es :: StalePoll(ready, row, es)
  {
    var ready := FirstReady();
    var row := CallSteps.Row(0, Numbers(1), Some(1));
    OffersFirst(ready, row);
    var es := DispatchedByHand(ready);
    assert StalePoll(ready, row, es);
  }
}
