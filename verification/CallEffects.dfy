/** What each write of the services leaves in the tables, value by value, as a reader of the rows sees it. */
module CallEffects {
  import opened Options
  import opened CallPolicy
  import opened VoiceRules
  import opened CallProtocol

  // Nothing but this row differs.
  predicate OnlyCall(s: State, s': State, key: Key) {
    && s'.calls.Keys == s.calls.Keys
    && forall k :: k in s.calls && k != key ==> s'.calls[k] == s.calls[k]
  }

  // No order differs, but perhaps in the status of this one.
  predicate OnlyStatus(s: State, s': State, order: nat) {
    && s'.orders.Keys == s.orders.Keys
    && forall o :: o in s.orders ==>
         if o == order then s'.orders[o] == s.orders[o].(status := s'.orders[o].status) else s'.orders[o] == s.orders[o]
  }

  // No order differs but in how many rows it has.
  predicate OnlyRows(before: map<nat, Order>, after: map<nat, Order>) {
    && after.Keys == before.Keys
    && forall o :: o in before ==> after[o] == before[o].(rows := after[o].rows)
  }

  // The agent was answered, and is sure enough of what it heard.
  predicate Heard(result: VoiceResult, min: real, intent: Intent) {
    && result.disposition != NoAnswer && result.disposition != Rejected && result.disposition != Error
    && result.intent == Some(intent) && result.confidence.Some? && min <= result.confidence.value <= 1.0
  }

  // What a result stores: the call's status and disposition, and its order's status.
  predicate Stores(s': State, key: Key, status: CallStatus, disposition: Disposition, order: OrderStatus) {
    && key in s'.calls && key.order in s'.orders
    && s'.calls[key].status == status && s'.calls[key].disposition == Some(disposition)
    && s'.orders[key.order].status == order
  }

  // A decision is stored with the order while that is pending, and blocked afterwards.
  lemma DecisionIsStored(s: State, key: Key, result: VoiceResult)
    requires key in s.calls && s.calls[key].status == CallPending && key.order in s.orders
    ensures var s', before := ApplyResult(s, key, result), s.orders[key.order].status;
      && (Heard(result, s.minConfidence, IntentConfirmed) ==>
            if before == OrderPending then Stores(s', key, CallConfirmed, Confirmed, OrderConfirmed)
            else Stores(s', key, CallFailed, PolicyBlocked, before))
      && (Heard(result, s.minConfidence, IntentCancelled) ==>
            if before == OrderPending then Stores(s', key, CallFailed, Declined, OrderCancelled)
            else Stores(s', key, CallFailed, PolicyBlocked, before))
  {
  }

  // Anything else settles a pending order only from the third attempt on.
  lemma NoDecisionIsStored(s: State, key: Key, result: VoiceResult)
    requires key in s.calls && s.calls[key].status == CallPending && key.order in s.orders
    requires !Heard(result, s.minConfidence, IntentConfirmed) && !Heard(result, s.minConfidence, IntentCancelled)
    ensures var s', before := ApplyResult(s, key, result), s.orders[key.order].status;
      if key.attempt >= 3 then
        Stores(s', key, CallFailed, NeedsHuman, if before == OrderPending then OrderUnreachable else before)
      else if result.disposition == NoAnswer || result.disposition == Rejected then
        Stores(s', key, CallNoAnswer, result.disposition, before)
      else if result.disposition == Error then Stores(s', key, CallFailed, Error, before)
      else Stores(s', key, CallFailed, Ambiguous, before)
  {
  }

  /** A result for a pending call: what becomes of the call and the order, case by case, and nothing else. */
  lemma ResultEffect(s: State, task: nat, key: Key, result: VoiceResult)
    requires key in s.calls && s.calls[key].taskId == Some(task) && s.calls[key].status == CallPending
    requires key.order in s.orders
    ensures var s', before := Apply(s, AgentResult(task, key, result)), s.orders[key.order].status;
      && (Heard(result, s.minConfidence, IntentConfirmed) ==>
            if before == OrderPending then Stores(s', key, CallConfirmed, Confirmed, OrderConfirmed)
            else Stores(s', key, CallFailed, PolicyBlocked, before))
      && (Heard(result, s.minConfidence, IntentCancelled) ==>
            if before == OrderPending then Stores(s', key, CallFailed, Declined, OrderCancelled)
            else Stores(s', key, CallFailed, PolicyBlocked, before))
      && (!Heard(result, s.minConfidence, IntentConfirmed) && !Heard(result, s.minConfidence, IntentCancelled) ==>
            if key.attempt >= 3 then
              Stores(s', key, CallFailed, NeedsHuman, if before == OrderPending then OrderUnreachable else before)
            else if result.disposition == NoAnswer || result.disposition == Rejected then
              Stores(s', key, CallNoAnswer, result.disposition, before)
            else if result.disposition == Error then Stores(s', key, CallFailed, Error, before)
            else Stores(s', key, CallFailed, Ambiguous, before))
      && OnlyCall(s, s', key) && OnlyStatus(s, s', key.order)
      && s'.calls[key].completedAt == Some(if result.timestamp.Some? then result.timestamp.value else s.clock)
      && s'.calls[key] == s.calls[key].(status := s'.calls[key].status, disposition := s'.calls[key].disposition,
                                        completedAt := s'.calls[key].completedAt)
  {
    DecisionIsStored(s, key, result);
    if !Heard(result, s.minConfidence, IntentConfirmed) && !Heard(result, s.minConfidence, IntentCancelled) {
      NoDecisionIsStored(s, key, result);
    }
    ResultFrame(s, key, result);
  }

  lemma ResultFrame(s: State, key: Key, result: VoiceResult)
    requires key in s.calls && s.calls[key].status == CallPending && key.order in s.orders
    ensures var s' := ApplyResult(s, key, result);
      && OnlyCall(s, s', key) && OnlyStatus(s, s', key.order)
      && s'.calls[key].completedAt == Some(if result.timestamp.Some? then result.timestamp.value else s.clock)
      && s'.calls[key] == s.calls[key].(status := s'.calls[key].status, disposition := s'.calls[key].disposition,
                                        completedAt := s'.calls[key].completedAt)
  {
    ResultRow(s, key, result);
    ResultOrder(s, key, result);
  }

  lemma ResultRow(s: State, key: Key, result: VoiceResult)
    requires key in s.calls && s.calls[key].status == CallPending
    ensures var s' := ApplyResult(s, key, result);
      && OnlyCall(s, s', key)
      && s'.calls[key].completedAt == Some(if result.timestamp.Some? then result.timestamp.value else s.clock)
      && s'.calls[key] == s.calls[key].(status := s'.calls[key].status, disposition := s'.calls[key].disposition,
                                        completedAt := s'.calls[key].completedAt)
  {
  }

  lemma ResultOrder(s: State, key: Key, result: VoiceResult)
    requires key in s.calls && s.calls[key].status == CallPending && key.order in s.orders
    ensures OnlyStatus(s, ApplyResult(s, key, result), key.order)
  {
  }

  /** A result for a call that is closed, or under another task id, changes nothing. */
  lemma LateResultIsIgnored(s: State, task: nat, key: Key, result: VoiceResult)
    requires key in s.calls ==> s.calls[key].taskId != Some(task) || s.calls[key].status != CallPending
    ensures Apply(s, AgentResult(task, key, result)) == s
  {
  }

  /** A progress event stores its phase, and at the end the completion time if there is none yet. */
  lemma EventEffect(s: State, task: nat, key: Key, phase: Phase, timestamp: Option<int>)
    requires key in s.calls && s.calls[key].taskId == Some(task)
    ensures var s' := Apply(s, AgentEvent(task, key, phase, timestamp));
      && s'.orders == s.orders && OnlyCall(s, s', key)
      && s'.calls[key].phase == Some(phase)
      && s'.calls[key].completedAt ==
           (if phase != Ended || s.calls[key].completedAt.Some? then s.calls[key].completedAt
            else if timestamp.Some? then timestamp else Some(s.clock))
      && s'.calls[key] == s.calls[key].(phase := s'.calls[key].phase, completedAt := s'.calls[key].completedAt)
  {
  }

  /**
   * The dispatcher lets a call through exactly when it is dispatching nothing, the call is pending and
   * not just handed over, and the shop's window is open; it then holds the call under a new task id.
   */
  lemma BeginEffect(s: State, key: Key, minute: nat)
    ensures var s' := Apply(s, BeginDispatch(key, minute));
      var admitted :=
        && s.active.None? && key in s.calls && s.calls[key].status == CallPending
        && (s.calls[key].taskId.None? || s.calls[key].phase != Some(Dispatched))
        && key.order in s.orders && IsWithinCallWindow(s.orders[key.order].callStart, s.orders[key.order].callEnd, minute);
      && s'.calls == s.calls && s'.orders == s.orders
      && (admitted ==> s'.active == Some(Dispatch(key, s.nextTask)) && s'.nextTask > s.nextTask)
      && (!admitted ==> s' == s)
  {
  }

  // What the agent's answer leaves of the row.
  predicate Replied(reply: Reply, task: nat, clock: int, c: Call, c': Call) {
    && c'.createdAt == c.createdAt
    && match reply
       case Accepted =>
         && c'.taskId == Some(task) && c'.dispatchedAt == Some(clock) && c'.phase == Some(Dispatched)
         && c'.status == c.status && c'.disposition == c.disposition && c'.completedAt == c.completedAt
       case Deferred => c' == c
       case Refused =>
         && c'.taskId == Some(task) && c'.status == CallFailed && c'.disposition == Some(Error)
         && c'.completedAt == Some(clock) && c'.phase == Some(PhaseRejected) && c'.dispatchedAt == c.dispatchedAt
  }

  /** The agent's answer: accepted stores a task id and the moment, refused closes the call, deferred leaves it. */
  lemma ReplyEffect(s: State, reply: Reply)
    requires s.active.Some? && s.active.value.key in s.calls
    ensures var s', key := Apply(s, EndDispatch(reply)), s.active.value.key;
      && s'.active.None? && s'.orders == s.orders && OnlyCall(s, s', key)
      && Replied(reply, s.active.value.task, s.clock, s.calls[key], s'.calls[key])
  {
  }

  // Closed as unanswered at this moment, and otherwise as it was.
  predicate Closed(c: Call, c': Call, now: int) {
    c' == c.(status := CallNoAnswer, disposition := Some(NoAnswer), completedAt := Some(now))
  }

  // Every call dispatched more than ten minutes ago and still pending is closed, and no other changes.
  predicate Swept(before: map<Key, Call>, after: map<Key, Call>, now: int) {
    && after.Keys == before.Keys
    && forall key :: key in before ==>
         if before[key].status == CallPending && before[key].dispatchedAt.Some?
            && now > before[key].dispatchedAt.value + 10 * 60_000
         then Closed(before[key], after[key], now) else after[key] == before[key]
  }

  /** An expired call is closed as unanswered, and gives its pending order up from the third attempt on. */
  lemma ExpiryEffect(s: State, key: Key, now: int)
    requires SeenStale(key, now) in s.tickets && key in s.calls && s.calls[key].status == CallPending
    ensures var s' := Apply(s, Expire(key, now));
      && OnlyCall(s, s', key) && OnlyStatus(s, s', key.order)
      && Closed(s.calls[key], s'.calls[key], now)
      && (key.order in s.orders ==>
            s'.orders[key.order].status ==
              if key.attempt >= 3 && s.orders[key.order].status == OrderPending then OrderUnreachable
              else s.orders[key.order].status)
  {
  }

  // A row as it is created.
  predicate JustCreated(c: Call, clock: int) {
    && c.status == CallPending && c.disposition.None? && c.completedAt.None? && c.createdAt == clock
    && c.taskId.None? && c.dispatchedAt.None? && c.phase.None?
  }

  // The row is new, everything else is as it was, and the order counts one more.
  ghost predicate CreatesRow(s: State, s': State, order: nat, attempt: nat, status: OrderStatus) {
    && Key(order, attempt) !in s.calls && order in s.orders && order in s'.orders
    && (forall k :: k in s'.calls <==> k in s.calls || k == Key(order, attempt))
    && (forall k :: k in s.calls ==> s'.calls[k] == s.calls[k])
    && JustCreated(s'.calls[Key(order, attempt)], s.clock)
    && s'.orders.Keys == s.orders.Keys && (forall o :: o in s.orders && o != order ==> s'.orders[o] == s.orders[o])
    && s'.orders[order].status == status && s'.orders[order].rows == s.orders[order].rows + 1
    && s'.orders[order].callStart == s.orders[order].callStart && s'.orders[order].callEnd == s.orders[order].callEnd
  }

  /** A planned attempt is inserted whatever the order's status is by then, unless its row exists. */
  lemma CreateEffect(s: State, order: nat, attempt: nat, now: int)
    requires Planned(order, attempt, now) in s.tickets && order in s.orders
    ensures var s' := Apply(s, CreateAttempt(order, attempt, now));
      if Key(order, attempt) in s.calls then s' == s
      else CreatesRow(s, s', order, attempt, s.orders[order].status) && s'.orders[order].retries == s.orders[order].retries
  {
  }

  /** A retry inserts its row and makes the order pending again, or does neither. */
  lemma RetryEffect(s: State, order: nat, attempt: nat)
    requires RetryPlanned(order, attempt) in s.tickets && order in s.orders
    ensures var s' := Apply(s, CommitRetry(order, attempt));
      if s.orders[order].status != OrderUnreachable || Key(order, attempt) in s.calls then s' == s
      else CreatesRow(s, s', order, attempt, OrderPending) && s'.orders[order].retries == s.orders[order].retries + 1
  {
  }

  /** An order enters pending, with its shop's hours, no calls and no retries; a known one is left alone. */
  lemma NewOrderEffect(s: State, order: nat, callStart: Option<string>, callEnd: Option<string>)
    ensures var s' := Apply(s, NewOrder(order, callStart, callEnd));
      if order in s.orders then s' == s
      else
        && s'.calls == s.calls && s'.orders.Keys == s.orders.Keys + {order}
        && (forall o :: o in s.orders ==> s'.orders[o] == s.orders[o])
        && s'.orders[order].status == OrderPending && s'.orders[order].callStart == callStart
        && s'.orders[order].callEnd == callEnd && s'.orders[order].rows == 0 && s'.orders[order].retries == 0
  {
  }

  /** The merchant's word is final: the order takes it whatever it was. */
  lemma MerchantEffect(s: State, order: nat, confirm: bool)
    requires order in s.orders
    ensures var s' := Apply(s, MerchantSets(order, confirm));
      && s'.calls == s.calls && OnlyStatus(s, s', order)
      && s'.orders[order].status == if confirm then OrderConfirmed else OrderCancelled
  {
  }
}
