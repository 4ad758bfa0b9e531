/** What holds of the call protocol in every reachable state and over every run. */
module CallTheorems {
  import opened Options
  import opened CallPolicy
  import opened VoiceRules
  import opened CallProtocol
  import opened CallInvariant

  ghost predicate Starts(s: State, clock: int, min: real) {
    0.0 < min <= 1.0 && s == Init(clock, min)
  }

  ghost predicate Reachable(s: State) {
    exists clock, min, es :: Starts(Init(clock, min), clock, min) && Run(Init(clock, min), es) && s == Exec(Init(clock, min), es)
  }

  lemma ReachableInv(s: State)
    requires Reachable(s)
    ensures Inv(s)
  {
    var clock, min, es :| Starts(Init(clock, min), clock, min) && Run(Init(clock, min), es) && s == Exec(Init(clock, min), es);
    RunKeepsInv(Init(clock, min), es);
  }

  // ---------------------------------------------------------------- attempts

  // The attempts 1..n.
  function UpTo(n: nat): (r: set<nat>)
    ensures |r| == n && forall k :: k in r <==> 1 <= k <= n
  {
    if n == 0 then {} else UpTo(n - 1) + {n}
  }

  /** An order's attempts are exactly 1..n, and only attempt n may be pending. */
  lemma AttemptsAreContiguous(s: State, order: nat)
    requires Reachable(s) && order in s.orders
    ensures var n := |AttemptsOf(s, order)|;
      && AttemptsOf(s, order) == UpTo(n)
      && forall key :: key in s.calls && key.order == order && s.calls[key].status == CallPending ==> key.attempt == n
  {
    ReachableInv(s);
    AttemptsAre(s, order);
    forall key | key in s.calls && key.order == order && s.calls[key].status == CallPending
      ensures key.attempt == |AttemptsOf(s, order)|
    {
      assert CallOk(s, key);
    }
  }

  lemma AttemptsAre(s: State, order: nat)
    requires Inv(s) && order in s.orders
    ensures AttemptsOf(s, order) == UpTo(s.orders[order].rows)
    ensures |AttemptsOf(s, order)| == s.orders[order].rows
  {
    var n := s.orders[order].rows;
    forall k: nat ensures k in AttemptsOf(s, order) <==> 1 <= k <= n {
      if 1 <= k <= n { assert Key(order, k) in s.calls; }
    }
  }

  /** While a call is pending the policy itself finds no attempt due, whoever asks. */
  lemma PendingCallBlocksPlanning(s: State, order: nat, attempts: seq<nat>, now: int)
    requires Reachable(s) && order in s.orders && IsListing(s, order, attempts) && !NoneIsPending(s, order)
    ensures NextAttemptNumber(Records(s, order, attempts), now).None?
  {
    ReachableInv(s);
    LastRecord(s, order, attempts, now);
    var key :| key in s.calls && key.order == order && s.calls[key].status == CallPending;
    assert CallOk(s, key) && key == Key(order, key.attempt);
  }

  // What the policy answers on any listing depends on the last call only.
  lemma LastRecord(s: State, order: nat, attempts: seq<nat>, now: int)
    requires Inv(s) && order in s.orders && IsListing(s, order, attempts)
    ensures var n := s.orders[order].rows;
      && |attempts| == n
      && (n == 0 ==> NextAttemptNumber(Records(s, order, attempts), now) == Some(1))
      && (n >= 1 ==>
            var last := s.calls[Key(order, n)];
            && (NextAttemptNumber(Records(s, order, attempts), now).Some? <==>
                  n < MAX_ATTEMPTS && Retriable(last.disposition) && last.completedAt.Some?
                  && last.completedAt.value + RetryDelay(n) <= now)
            && (NextAttemptAt(Records(s, order, attempts)).Some? <==>
                  n < MAX_ATTEMPTS && Retriable(last.disposition) && last.completedAt.Some?))
  {
    ListingLength(s, order, attempts);
    var n := s.orders[order].rows;
    if n >= 1 {
      assert Key(order, n) in s.calls;
      assert Key(order, n).attempt in attempts;
      var i :| 0 <= i < |attempts| && attempts[i] == n;
      NextAttemptDue(Records(s, order, attempts), Records(s, order, attempts)[i], now);
    }
  }

  // The two ways a pending order can be left with nobody to call it.
  predicate Abandoned(s: State, order: nat) {
    && order in s.orders
    && Key(order, s.orders[order].rows) in s.calls
    && var last := s.calls[Key(order, s.orders[order].rows)];
       (s.orders[order].rows >= MAX_ATTEMPTS && RefusedAtLaunch(last)) || last.disposition == Some(Rejected)
  }

  /**
   * A pending order with no pending call has a next attempt, unless its last call was refused at
   * launch on attempt 3 or later, or reported the undeclared disposition "rejected".
   */
  lemma NoOrderStranded(s: State, order: nat, attempts: seq<nat>)
    requires Reachable(s) && order in s.orders && s.orders[order].status == OrderPending
    requires NoneIsPending(s, order) && IsListing(s, order, attempts)
    ensures !Abandoned(s, order) <==>
            |attempts| < MAX_ATTEMPTS && (attempts == [] || NextAttemptAt(Records(s, order, attempts)).Some?)
    ensures !Abandoned(s, order) <==> exists now :: NextAttemptNumber(Records(s, order, attempts), now).Some?
  {
    ReachableInv(s);
    var n := s.orders[order].rows;
    LastRecord(s, order, attempts, 0);
    if n >= 1 {
      assert Key(order, n) in s.calls && CallOk(s, Key(order, n)) && OrderOk(s, order);
      var last := s.calls[Key(order, n)];
      assert last.completedAt.Some?;
      LastRecord(s, order, attempts, last.completedAt.value + RetryDelay(n));
      forall now ensures NextAttemptNumber(Records(s, order, attempts), now).Some? ==> !Abandoned(s, order) {
        LastRecord(s, order, attempts, now);
      }
    }
  }

  // ---------------------------------------------------------------- budget and timing

  predicate Reopens(before: State, after: State, order: nat) {
    && order in before.orders && before.orders[order].status == OrderUnreachable
    && order in after.orders && after.orders[order].status == OrderPending
  }

  // The steps of a run that moved the order from unreachable back to pending.
  function Reopenings(s: State, es: seq<Event>, order: nat): nat
    decreases |es|
  {
    if es == [] then 0
    else
      var before := Exec(s, es[..|es| - 1]);
      Reopenings(s, es[..|es| - 1], order) + (if Reopens(before, Apply(before, es[|es| - 1]), order) then 1 else 0)
  }

  // Apart from a new order and a committed retry, no step touches the retries of an order or reopens it.
  predicate KeepsRetries(s: State, s': State, order: nat) {
    && (order in s.orders <==> order in s'.orders)
    && (order in s.orders ==>
          s'.orders[order].retries == s.orders[order].retries && !Reopens(s, s', order))
  }

  lemma ResultKeepsRetries(s: State, k: Key, result: VoiceResult, order: nat)
    requires k in s.calls
    ensures KeepsRetries(s, ApplyResult(s, k, result), order)
  {
  }

  lemma InsertKeepsRetries(s: State, o: nat, k: nat, order: nat)
    requires o in s.orders
    ensures KeepsRetries(s, InsertCall(s, o, k), order)
  {
  }

  lemma ExpiryKeepsRetries(s: State, k: Key, now: int, order: nat)
    requires k in s.calls
    ensures KeepsRetries(s, ApplyExpiry(s, k, now), order)
  {
  }

  lemma CommitRetryCounts(s: State, o: nat, k: nat, order: nat)
    requires order in s.orders
    ensures var s' := Apply(s, CommitRetry(o, k));
      && order in s'.orders
      && s'.orders[order].retries == s.orders[order].retries + (if Reopens(s, s', order) then 1 else 0)
  {
  }

  lemma RetriesStep(s: State, e: Event, order: nat)
    ensures order in s.orders ==>
      && order in Apply(s, e).orders
      && Apply(s, e).orders[order].retries ==
           s.orders[order].retries + (if Reopens(s, Apply(s, e), order) then 1 else 0)
    ensures order !in s.orders && order in Apply(s, e).orders ==> Apply(s, e).orders[order].retries == 0
  {
    match e
    case NewOrder(o, a, b) =>
    case CreateAttempt(o, k, now) => if o in s.orders { InsertKeepsRetries(s, o, k, order); }
    case CommitRetry(o, k) => if order in s.orders { CommitRetryCounts(s, o, k, order); }
    case EndDispatch(reply) =>
    case AgentEvent(task, k, phase, at) =>
    case AgentResult(task, k, result) => if k in s.calls { ResultKeepsRetries(s, k, result, order); }
    case Expire(k, now) => if k in s.calls { ExpiryKeepsRetries(s, k, now, order); }
    case MerchantSets(o, confirm) =>
    case _ =>
  }

  lemma {:induction false} RetriesAreReopenings(s: State, es: seq<Event>, order: nat)
    requires Inv(s) && Run(s, es) && order !in s.orders && order in Exec(s, es).orders
    ensures Exec(s, es).orders[order].retries == Reopenings(s, es, order)
    decreases |es|
  {
    var before, e := Exec(s, es[..|es| - 1]), es[|es| - 1];
    RunKeepsInv(s, es[..|es| - 1]);
    RetriesStep(before, e, order);
    if order in before.orders {
      RetriesAreReopenings(s, es[..|es| - 1], order);
    } else {
      NoReopenings(s, es[..|es| - 1], order);
    }
  }

  lemma OrderStays(s: State, e: Event, order: nat)
    ensures order in s.orders ==> order in Apply(s, e).orders
  {
    match e
    case AgentResult(task, k, result) =>
    case Expire(k, now) =>
    case _ =>
  }

  lemma {:induction false} NoReopenings(s: State, es: seq<Event>, order: nat)
    requires order !in Exec(s, es).orders
    ensures Reopenings(s, es, order) == 0
    decreases |es|
  {
    if es != [] {
      OrderStays(Exec(s, es[..|es| - 1]), es[|es| - 1], order);
      NoReopenings(s, es[..|es| - 1], order);
    }
  }

  /**
   * Over any run, an order has at most three calls plus one per manual retry that reopened it; past
   * the third, every call is such a retry.
   */
  lemma CallBudget(clock: int, min: real, es: seq<Event>, order: nat)
    requires 0.0 < min <= 1.0 && Run(Init(clock, min), es) && order in Exec(Init(clock, min), es).orders
    ensures var calls, retries := |AttemptsOf(Exec(Init(clock, min), es), order)|, Reopenings(Init(clock, min), es, order);
      calls <= 3 + retries && (calls >= 3 ==> calls == 3 + retries) && (retries > 0 ==> calls > 3)
  {
    var s := Init(clock, min);
    RunKeepsInv(s, es);
    AttemptsAre(Exec(s, es), order);
    RetriesAreReopenings(s, es, order);
    assert OrderOk(Exec(s, es), order);
  }

  /** Attempt 2 comes at least 30 minutes after attempt 1 completed, attempt 3 two hours after attempt 2. */
  lemma AutomaticAttemptsWait(s: State, key: Key)
    requires Reachable(s) && key in s.calls && 2 <= key.attempt <= 3
    ensures var before := Key(key.order, key.attempt - 1);
      && before in s.calls && s.calls[before].completedAt.Some?
      && s.calls[before].disposition in {Some(NoAnswer), Some(Error), Some(Ambiguous)}
      && s.calls[key].createdAt - s.calls[before].completedAt.value >=
           (if key.attempt == 2 then 30 * 60_000 else 120 * 60_000)
  {
    ReachableInv(s);
    assert CallOk(s, key);
  }

  // ---------------------------------------------------------------- a call is closed once

  predicate SameClosing(c: Call, c': Call) {
    c'.status == c.status && c'.disposition == c.disposition && c'.completedAt == c.completedAt
  }

  predicate KeepsClosing(s: State, s': State, key: Key) {
    key in s.calls ==> key in s'.calls && SameClosing(s.calls[key], s'.calls[key])
  }

  lemma ReplyKeepsClosing(s: State, reply: Reply, key: Key)
    requires ActiveOk(s) && key in s.calls && s.calls[key].status != CallPending
    ensures KeepsClosing(s, Apply(s, EndDispatch(reply)), key)
  {
  }

  lemma EventKeepsClosing(s: State, k: Key, phase: Phase, at: Option<int>, key: Key)
    requires k in s.calls && key in s.calls && s.calls[key].completedAt.Some?
    ensures KeepsClosing(s, ApplyEvent(s, k, phase, at), key)
  {
  }

  lemma ResultKeepsClosing(s: State, k: Key, result: VoiceResult, key: Key)
    requires k in s.calls && key in s.calls && s.calls[key].status != CallPending
    ensures KeepsClosing(s, ApplyResult(s, k, result), key)
  {
  }

  lemma InsertKeepsClosing(s: State, o: nat, k: nat, key: Key)
    requires o in s.orders && Key(o, k) !in s.calls
    ensures KeepsClosing(s, InsertCall(s, o, k), key)
  {
  }

  lemma ExpiryKeepsClosing(s: State, k: Key, now: int, key: Key)
    requires k in s.calls && key in s.calls && s.calls[key].status != CallPending
    ensures KeepsClosing(s, ApplyExpiry(s, k, now), key)
  {
  }

  lemma RetryKeepsClosing(s: State, o: nat, k: nat, key: Key)
    ensures KeepsClosing(s, Apply(s, CommitRetry(o, k)), key)
  {
  }

  lemma ClosedStep(s: State, e: Event, key: Key)
    requires Inv(s) && key in s.calls && s.calls[key].status != CallPending
    ensures key in Apply(s, e).calls && SameClosing(s.calls[key], Apply(s, e).calls[key])
  {
    assert CallOk(s, key);
    ClosedRow(s, e, key);
  }

  lemma ClosedRow(s: State, e: Event, key: Key)
    requires ActiveOk(s) && key in s.calls && s.calls[key].status != CallPending && s.calls[key].completedAt.Some?
    ensures KeepsClosing(s, Apply(s, e), key)
  {
    match e
    case CreateAttempt(o, k, now) => if o in s.orders && Key(o, k) !in s.calls { InsertKeepsClosing(s, o, k, key); }
    case CommitRetry(o, k) => RetryKeepsClosing(s, o, k, key);
    case EndDispatch(reply) => ReplyKeepsClosing(s, reply, key);
    case AgentEvent(task, k, phase, at) => if k in s.calls { EventKeepsClosing(s, k, phase, at, key); }
    case AgentResult(task, k, result) => if k in s.calls { ResultKeepsClosing(s, k, result, key); }
    case Expire(k, now) => if k in s.calls { ExpiryKeepsClosing(s, k, now, key); }
    case _ =>
  }

  /** Once closed, a call keeps its status, disposition and completion time for ever. */
  lemma {:induction false} ClosedForEver(s: State, es: seq<Event>, key: Key)
    requires Inv(s) && Run(s, es) && key in s.calls && s.calls[key].status != CallPending
    ensures key in Exec(s, es).calls && SameClosing(s.calls[key], Exec(s, es).calls[key])
    decreases |es|
  {
    if es != [] {
      ClosedForEver(s, es[..|es| - 1], key);
      RunKeepsInv(s, es[..|es| - 1]);
      ClosedStep(Exec(s, es[..|es| - 1]), es[|es| - 1], key);
    }
  }

  // The steps of a run on which the call stopped being pending.
  function Departures(s: State, es: seq<Event>, key: Key): nat
    decreases |es|
  {
    if es == [] then 0
    else
      var before := Exec(s, es[..|es| - 1]);
      var after := Apply(before, es[|es| - 1]);
      Departures(s, es[..|es| - 1], key) +
      (if && key in before.calls && before.calls[key].status == CallPending
          && key in after.calls && after.calls[key].status != CallPending then 1 else 0)
  }

  lemma RowStep(s: State, e: Event, key: Key)
    ensures key in s.calls ==> key in Apply(s, e).calls
    ensures key !in s.calls && key in Apply(s, e).calls ==> Apply(s, e).calls[key].status == CallPending
  {
    match e
    case CreateAttempt(o, k, now) =>
    case CommitRetry(o, k) =>
    case EndDispatch(reply) =>
    case AgentEvent(task, k, phase, at) =>
    case AgentResult(task, k, result) =>
    case Expire(k, now) =>
    case _ =>
  }

  /** Every call leaves pending exactly once if it is ever closed, and never otherwise. */
  lemma {:induction false} LeavesPendingOnce(clock: int, min: real, es: seq<Event>, key: Key)
    requires Run(Init(clock, min), es)
    ensures var s := Exec(Init(clock, min), es);
      Departures(Init(clock, min), es, key) == if key in s.calls && s.calls[key].status != CallPending then 1 else 0
    decreases |es|
  {
    if es != [] {
      var s, e := Exec(Init(clock, min), es[..|es| - 1]), es[|es| - 1];
      LeavesPendingOnce(clock, min, es[..|es| - 1], key);
      RunKeepsInv(Init(clock, min), es[..|es| - 1]);
      RowStep(s, e, key);
      if key in s.calls && s.calls[key].status != CallPending {
        ClosedStep(s, e, key);
      }
    }
  }

  lemma OneStep(s: State, e: Event)
    ensures Exec(s, [e]) == Apply(s, e)
    ensures Run(s, [e]) <==> Fresh(s, e)
  {
    assert [e][..0] == [];
    assert Exec(s, []) == s && Run(s, []);
  }

  // The state once the guard let the call through.
  function Begun(s: State, key: Key): State {
    s.(active := Some(Dispatch(key, s.nextTask)), nextTask := s.nextTask + 1)
  }

  lemma BeginIsBegun(s: State, key: Key, minute: nat)
    requires Inv(s) && Dispatchable(s, key, minute)
    ensures Apply(s, BeginDispatch(key, minute)) == Begun(s, key)
    ensures s.calls[key].taskId.None? ==> Inv(Begun(s, key))
  {
    if s.calls[key].taskId.None? {
      StepKeepsInv(s, BeginDispatch(key, minute));
    }
  }

  // The dispatcher's write, whenever this dispatch still is the one in progress, hits a pending call.
  ghost predicate WriteIsSafe(begun: State, key: Key) {
    forall es :: Run(begun, es) && Exec(begun, es).active == begun.active ==>
      key in Exec(begun, es).calls && Exec(begun, es).calls[key].status == CallPending
  }

  lemma ActiveStaysPending(begun: State, es: seq<Event>, key: Key)
    requires Inv(begun) && begun.active.Some? && begun.active.value.key == key
    requires Run(begun, es) && Exec(begun, es).active == begun.active
    ensures key in Exec(begun, es).calls && Exec(begun, es).calls[key].status == CallPending
  {
    RunKeepsInv(begun, es);
    assert ActiveOk(Exec(begun, es));
  }

  lemma FreshDispatchIsSafe(begun: State, key: Key)
    requires Inv(begun) && begun.active.Some? && begun.active.value.key == key
    ensures WriteIsSafe(begun, key)
  {
    forall es | Run(begun, es) && Exec(begun, es).active == begun.active
      ensures key in Exec(begun, es).calls && Exec(begun, es).calls[key].status == CallPending
    {
      ActiveStaysPending(begun, es, key);
    }
  }

  // A late answer for the earlier task closes the call under the dispatcher's feet.
  lemma LateAnswerCloses(begun: State, key: Key)
    requires key in begun.calls && begun.calls[key].status == CallPending && begun.calls[key].taskId.Some?
    ensures !WriteIsSafe(begun, key)
  {
    var late := AgentResult(begun.calls[key].taskId.value, key, VoiceResult(Error, None, None, None));
    OneStep(begun, late);
    assert Run(begun, [late]) && Exec(begun, [late]).active == begun.active;
    assert Exec(begun, [late]).calls[key].status == CallFailed;
  }

  /**
   * The dispatcher writes its answer without looking at the row again. That write is sure to hit a
   * call that is still pending exactly when the dispatch began on a call without a task id: if the
   * call already had one, a result for that earlier task can close it first.
   */
  lemma DispatcherWriteIsSafeIff(s: State, key: Key, minute: nat)
    requires Inv(s) && Dispatchable(s, key, minute)
    ensures Apply(s, BeginDispatch(key, minute)) == Begun(s, key)
    ensures s.calls[key].taskId.None? <==> WriteIsSafe(Begun(s, key), key)
  {
    BeginIsBegun(s, key, minute);
    if s.calls[key].taskId.None? {
      FreshDispatchIsSafe(Begun(s, key), key);
    } else {
      LateAnswerCloses(Begun(s, key), key);
    }
  }

  // This step hands the call to an agent that accepts it.
  predicate TakesUp(s: State, e: Event, key: Key) {
    e == EndDispatch(Accepted) && s.active.Some? && s.active.value.key == key
  }

  predicate TakenUp(s: State, es: seq<Event>, key: Key)
    decreases |es|
  {
    es != [] && (TakenUp(s, es[..|es| - 1], key) || TakesUp(Exec(s, es[..|es| - 1]), es[|es| - 1], key))
  }

  // A call still pending has a task id exactly if it had one or is taken up now.
  lemma TaskStep(s: State, e: Event, key: Key)
    requires key in s.calls
    ensures var s' := Apply(s, e);
      && key in s'.calls
      && (s'.calls[key].status == CallPending ==>
            && s.calls[key].status == CallPending
            && (s'.calls[key].taskId.Some? <==> s.calls[key].taskId.Some? || TakesUp(s, e, key)))
  {
    match e
    case CreateAttempt(o, k, now) =>
    case CommitRetry(o, k) =>
    case EndDispatch(reply) =>
    case AgentEvent(task, k, phase, at) =>
    case AgentResult(task, k, result) =>
    case Expire(k, now) =>
    case _ =>
  }

  lemma {:induction false} TaskOnlyFromTakingUp(s: State, es: seq<Event>, key: Key)
    requires key in s.calls && s.calls[key].taskId.None?
    ensures var s' := Exec(s, es);
      && key in s'.calls
      && (s'.calls[key].status == CallPending ==> (s'.calls[key].taskId.Some? <==> TakenUp(s, es, key)))
    decreases |es|
  {
    if es != [] {
      TaskOnlyFromTakingUp(s, es[..|es| - 1], key);
      TaskStep(Exec(s, es[..|es| - 1]), es[|es| - 1], key);
    }
  }

  /**
   * The poll looks at a call, or inserts it, and dispatches it later, with anything happening in
   * between: that dispatch, when the guard lets it through, is one of a run exactly when no other
   * dispatch of the call was accepted in the meantime.
   */
  lemma LateDispatchIsFreshIff(s: State, es: seq<Event>, key: Key, minute: nat)
    requires key in s.calls && s.calls[key].taskId.None? && Dispatchable(Exec(s, es), key, minute)
    ensures Fresh(Exec(s, es), BeginDispatch(key, minute)) <==> !TakenUp(s, es, key)
  {
    TaskOnlyFromTakingUp(s, es, key);
  }

  // ---------------------------------------------------------------- decisions

  predicate Settled(order: Order) { order.status in {OrderConfirmed, OrderCancelled} }

  predicate SetsStatus(e: Event, order: nat) { e.MerchantSets? && e.order == order }

  lemma SettledStep(s: State, e: Event, order: nat)
    requires order in s.orders && Settled(s.orders[order])
    ensures order in Apply(s, e).orders && Settled(Apply(s, e).orders[order])
    ensures !SetsStatus(e, order) ==> Apply(s, e).orders[order].status == s.orders[order].status
  {
    match e
    case CreateAttempt(o, k, now) =>
    case CommitRetry(o, k) =>
    case EndDispatch(reply) =>
    case AgentEvent(task, k, phase, at) =>
    case AgentResult(task, k, result) =>
    case Expire(k, now) =>
    case MerchantSets(o, confirm) =>
    case _ =>
  }

  /**
   * A confirmed or cancelled order stays one or the other, whatever results, retries or expiries come
   * late, and only the merchant turns one into the other.
   */
  lemma {:induction false} SettledForEver(s: State, es: seq<Event>, order: nat)
    requires order in s.orders && Settled(s.orders[order])
    ensures order in Exec(s, es).orders && Settled(Exec(s, es).orders[order])
    ensures (forall i :: 0 <= i < |es| ==> !SetsStatus(es[i], order)) ==>
      Exec(s, es).orders[order].status == s.orders[order].status
    decreases |es|
  {
    if es != [] {
      SettledForEver(s, es[..|es| - 1], order);
      SettledStep(Exec(s, es[..|es| - 1]), es[|es| - 1], order);
    }
  }

  lemma DecidedStep(s: State, e: Event, key: Key)
    requires Inv(s) && Fresh(s, e) && key in s.calls && Decided(s.calls[key])
    ensures var s' := Apply(s, e);
      && Inv(s') && key in s'.calls && Decided(s'.calls[key])
      && s'.orders[key.order].rows == s.orders[key.order].rows
  {
    StepKeepsInv(s, e);
    assert CallOk(s, key);
    ClosedStep(s, e, key);
    var s' := Apply(s, e);
    assert CallOk(s', key);
  }

  /**
   * A call whose decision was applied is its order's last call for ever and the only such call; the
   * order stays confirmed or cancelled, and is never called again.
   */
  lemma {:induction false} DecisionIsFinal(s: State, es: seq<Event>, key: Key)
    requires Inv(s) && Run(s, es) && key in s.calls && Decided(s.calls[key])
    ensures var s' := Exec(s, es);
      && key in s'.calls && Decided(s'.calls[key]) && key.order in s'.orders && Settled(s'.orders[key.order])
      && (forall k :: k in s'.calls && k.order == key.order ==> k.attempt <= key.attempt && s'.calls[k].status != CallPending)
      && (forall k :: k in s'.calls && k.order == key.order && Decided(s'.calls[k]) ==> k == key)
      && AttemptsOf(s', key.order) == AttemptsOf(s, key.order)
    decreases |es|
  {
    var s' := Exec(s, es);
    if es == [] {
      DecidedNow(s, key);
    } else {
      var before, e := Exec(s, es[..|es| - 1]), es[|es| - 1];
      DecisionIsFinal(s, es[..|es| - 1], key);
      RunKeepsInv(s, es[..|es| - 1]);
      DecidedStep(before, e, key);
      DecidedNow(s', key);
      AttemptsAre(before, key.order);
      AttemptsAre(s', key.order);
    }
  }

  lemma DecidedNow(s: State, key: Key)
    requires Inv(s) && key in s.calls && Decided(s.calls[key])
    ensures key.order in s.orders && Settled(s.orders[key.order])
    ensures forall k :: k in s.calls && k.order == key.order ==> k.attempt <= key.attempt && s.calls[k].status != CallPending
    ensures forall k :: k in s.calls && k.order == key.order && Decided(s.calls[k]) ==> k == key
  {
    assert CallOk(s, key) && key == Key(key.order, key.attempt);
    forall k | k in s.calls && k.order == key.order
      ensures k.attempt <= key.attempt && s.calls[k].status != CallPending && (Decided(s.calls[k]) ==> k == key)
    {
      assert CallOk(s, k) && k == Key(k.order, k.attempt);
    }
  }
}
