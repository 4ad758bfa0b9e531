/**
 * The order and call tables, and every step that changes them.
 *
 * The services read first and write later, so each step below is the part of one service operation
 * that runs between two awaits. What an operation remembers from its reads is a ticket. Tickets are
 * never withdrawn: acting on one late, twice or never is allowed, which covers every interleaving
 * and more. A call row is identified by its unique (order, attempt) pair.
 */
module CallProtocol {
  import opened Options
  import opened CallPolicy
  import opened VoiceRules

  datatype OrderStatus = OrderPending | OrderConfirmed | OrderCancelled | OrderUnreachable

  // callStart and callEnd are the shop's hours. `rows` counts the call rows ever inserted for the
  // order and `retries` its successful manual retries; no step reads either.
  datatype Order =
    Order(status: OrderStatus, callStart: Option<string>, callEnd: Option<string>, rows: nat, retries: nat)

  datatype Phase =
    | Dispatched | Registering | Dialing | Queued | Ringing | Connecting | Greeting | Live | Ending | Ended
    | PhaseRejected | PhaseError

  datatype Key = Key(order: nat, attempt: nat)

  datatype Call = Call(
    status: CallStatus,
    disposition: Option<Disposition>,
    completedAt: Option<int>,
    createdAt: int,
    taskId: Option<nat>,
    dispatchedAt: Option<int>,
    phase: Option<Phase>)

  datatype Ticket =
    | SeenPending(order: nat)                         // an order row read as pending
    | Planned(order: nat, attempt: nat, now: int)     // ... whose calls make this attempt due
    | SeenUnreachable(order: nat)
    | RetryPlanned(order: nat, attempt: nat)
    | SeenStale(key: Key, now: int)                   // a call found dispatched too long ago

  // The one dispatch in progress, between reading the call and writing the agent's answer.
  datatype Dispatch = Dispatch(key: Key, task: nat)

  datatype State = State(
    clock: int,
    minConfidence: real,
    orders: map<nat, Order>,
    calls: map<Key, Call>,
    tickets: set<Ticket>,
    active: Option<Dispatch>,
    nextTask: nat)

  datatype Reply = Accepted | Deferred | Refused

  datatype Event =
    | Tick(to: int)
    | NewOrder(order: nat, callStart: Option<string>, callEnd: Option<string>)
    | SeeOrder(order: nat)
    | PlanAttempt(order: nat, attempts: seq<nat>, now: int, minute: nat)
    | CreateAttempt(order: nat, attempt: nat, now: int)
    | SeeUnreachable(order: nat)
    | PlanRetry(order: nat, attempts: seq<nat>)
    | CommitRetry(order: nat, attempt: nat)
    | BeginDispatch(key: Key, minute: nat)
    | EndDispatch(reply: Reply)
    | AgentEvent(task: nat, key: Key, phase: Phase, timestamp: Option<int>)
    | AgentResult(task: nat, key: Key, result: VoiceResult)
    | SeeStale(key: Key, now: int)
    | Expire(key: Key, now: int)
    | MerchantSets(order: nat, confirm: bool)

  const STALE_CALL_TIMEOUT_MS: int := 10 * 60_000

  function Init(clock: int, minConfidence: real): State {
    State(clock, minConfidence, map[], map[], {}, None, 0)
  }

  // ---------------------------------------------------------------- reading an order's calls

  function AttemptsOf(s: State, order: nat): set<nat> {
    set key | key in s.calls && key.order == order :: key.attempt
  }

  // What a query for the order's calls may return: every row once, in any order.
  predicate IsListing(s: State, order: nat, attempts: seq<nat>) {
    && (forall i, j :: 0 <= i < j < |attempts| ==> attempts[i] != attempts[j])
    && (forall a :: a in attempts ==> Key(order, a) in s.calls)
    && (forall key :: key in s.calls && key.order == order ==> key.attempt in attempts)
  }

  function Record(key: Key, call: Call): CallRecord {
    CallRecord(key.attempt, call.status, call.disposition, call.completedAt)
  }

  function Records(s: State, order: nat, attempts: seq<nat>): (r: seq<CallRecord>)
    requires IsListing(s, order, attempts)
  {
    seq(|attempts|, i requires 0 <= i < |attempts| =>
      assert attempts[i] in attempts;
      Record(Key(order, attempts[i]), s.calls[Key(order, attempts[i])]))
  }

  predicate NoneIsPending(s: State, order: nat) {
    forall key :: key in s.calls && key.order == order ==> s.calls[key].status != CallPending
  }

  predicate WindowOpen(s: State, order: nat, minute: nat) {
    order in s.orders && IsWithinCallWindow(s.orders[order].callStart, s.orders[order].callEnd, minute)
  }

  // Math.max over the attempts of a non-empty listing.
  function Highest(attempts: seq<nat>): nat {
    if attempts == [] then 0 else Max(attempts[0], Highest(attempts[1..]))
  }

  // ---------------------------------------------------------------- steps

  function NewCall(clock: int): Call {
    Call(CallPending, None, None, clock, None, None, None)
  }

  function InsertCall(s: State, order: nat, attempt: nat): State
    requires order in s.orders
  {
    s.(calls := s.calls[Key(order, attempt) := NewCall(s.clock)],
       orders := s.orders[order := s.orders[order].(rows := s.orders[order].rows + 1)])
  }

  // order.updateMany where status is pending
  function SetIfPending(s: State, order: nat, status: OrderStatus): State {
    if order in s.orders && s.orders[order].status == OrderPending
    then s.(orders := s.orders[order := s.orders[order].(status := status)])
    else s
  }

  // The status and disposition a result gives a call, before the order is looked at.
  function Verdict(outcome: Outcome, attempt: nat, reported: Disposition): (CallStatus, Disposition) {
    match outcome
    case OutcomeConfirmed => (CallConfirmed, Confirmed)
    case OutcomeCancelled => (CallFailed, Declined)
    case OutcomeNoAnswer =>
      if attempt >= MAX_ATTEMPTS then (CallFailed, NeedsHuman)
      else (if reported == Error then CallFailed else CallNoAnswer, reported)
    case OutcomeUnresolved =>
      if attempt >= MAX_ATTEMPTS then (CallFailed, NeedsHuman) else (CallFailed, Ambiguous)
  }

  function Close(s: State, key: Key, status: CallStatus, disposition: Disposition, completedAt: int): State
    requires key in s.calls
  {
    s.(calls := s.calls[key :=
      s.calls[key].(status := status, disposition := Some(disposition), completedAt := Some(completedAt))])
  }

  // The result transaction: close the call if it is still pending, then move the order.
  function ApplyResult(s: State, key: Key, result: VoiceResult): State
    requires key in s.calls
  {
    if s.calls[key].status != CallPending then s
    else
      var outcome := DecideOutcome(result, s.minConfidence);
      var (status, disposition) := Verdict(outcome, key.attempt, result.disposition);
      var at := if result.timestamp.Some? then result.timestamp.value else s.clock;
      if outcome.OutcomeConfirmed? || outcome.OutcomeCancelled? then
        if key.order in s.orders && s.orders[key.order].status == OrderPending then
          SetIfPending(Close(s, key, status, disposition, at), key.order,
                       if outcome.OutcomeConfirmed? then OrderConfirmed else OrderCancelled)
        else Close(s, key, CallFailed, PolicyBlocked, at)
      else if key.attempt >= MAX_ATTEMPTS then
        SetIfPending(Close(s, key, status, disposition, at), key.order, OrderUnreachable)
      else Close(s, key, status, disposition, at)
  }

  function ApplyEvent(s: State, key: Key, phase: Phase, timestamp: Option<int>): State
    requires key in s.calls
  {
    var call := s.calls[key].(phase := Some(phase));
    var at := if timestamp.Some? then timestamp.value else s.clock;
    s.(calls := s.calls[key :=
      if phase == Ended && call.completedAt.None? then call.(completedAt := Some(at)) else call])
  }

  function ApplyExpiry(s: State, key: Key, now: int): State
    requires key in s.calls
  {
    if s.calls[key].status != CallPending then s
    else
      var closed := Close(s, key, CallNoAnswer, NoAnswer, now);
      if key.attempt >= 3 then SetIfPending(closed, key.order, OrderUnreachable) else closed
  }

  // The dispatcher's guard when it reads the call. It lets a call through that was already handed
  // to an agent, once an agent event has moved its phase past "dispatched".
  predicate Dispatchable(s: State, key: Key, minute: nat) {
    && s.active.None?
    && key in s.calls
    && s.calls[key].status == CallPending
    && !(s.calls[key].taskId.Some? && s.calls[key].phase == Some(Dispatched))
    && WindowOpen(s, key.order, minute)
  }

  // The dispatcher's write, by row id and without looking at the row again.
  function ApplyReply(s: State, d: Dispatch, reply: Reply): State
    requires d.key in s.calls
  {
    var call := s.calls[d.key];
    match reply
    case Deferred => s
    case Accepted =>
      s.(calls := s.calls[d.key :=
        call.(taskId := Some(d.task), dispatchedAt := Some(s.clock), phase := Some(Dispatched))])
    case Refused =>
      s.(calls := s.calls[d.key :=
        call.(taskId := Some(d.task), status := CallFailed, disposition := Some(Error),
              completedAt := Some(s.clock), phase := Some(PhaseRejected))])
  }

  /** One step. An operation that is refused (a conflict, no such row, a duplicate key) changes nothing. */
  function Apply(s: State, e: Event): State {
    match e
    case Tick(to) => if s.clock <= to then s.(clock := to) else s
    case NewOrder(order, callStart, callEnd) =>
      if order in s.orders then s
      else s.(orders := s.orders[order := Order(OrderPending, callStart, callEnd, 0, 0)])
    case SeeOrder(order) =>
      if order in s.orders && s.orders[order].status == OrderPending
      then s.(tickets := s.tickets + {SeenPending(order)}) else s
    case PlanAttempt(order, attempts, now, minute) =>
      if && SeenPending(order) in s.tickets
         && now <= s.clock
         && IsListing(s, order, attempts)
         && WindowOpen(s, order, minute)
         && NoneIsPending(s, order)
      then
        var attempt := NextAttemptNumber(Records(s, order, attempts), now);
        if attempt.None? then s
        else s.(tickets := s.tickets + {Planned(order, attempt.value, now)})
      else s
    case CreateAttempt(order, attempt, now) =>
      if Planned(order, attempt, now) in s.tickets && order in s.orders && Key(order, attempt) !in s.calls
      then InsertCall(s, order, attempt) else s
    case SeeUnreachable(order) =>
      if order in s.orders && s.orders[order].status == OrderUnreachable
      then s.(tickets := s.tickets + {SeenUnreachable(order)}) else s
    case PlanRetry(order, attempts) =>
      if && SeenUnreachable(order) in s.tickets
         && IsListing(s, order, attempts)
         && NoneIsPending(s, order)
         && attempts != []
      then s.(tickets := s.tickets + {RetryPlanned(order, Highest(attempts) + 1)}) else s
    case CommitRetry(order, attempt) =>
      // one transaction: a duplicate key undoes the reopening as well
      if && RetryPlanned(order, attempt) in s.tickets
         && order in s.orders && s.orders[order].status == OrderUnreachable
         && Key(order, attempt) !in s.calls
      then
        var reopened := s.orders[order].(status := OrderPending, retries := s.orders[order].retries + 1);
        InsertCall(s.(orders := s.orders[order := reopened]), order, attempt)
      else s
    case BeginDispatch(key, minute) =>
      if Dispatchable(s, key, minute)
      then s.(active := Some(Dispatch(key, s.nextTask)), nextTask := s.nextTask + 1) else s
    case EndDispatch(reply) =>
      if s.active.None? then s
      else if s.active.value.key !in s.calls then s.(active := None)
      else ApplyReply(s, s.active.value, reply).(active := None)
    case AgentEvent(task, key, phase, timestamp) =>
      if key in s.calls && s.calls[key].taskId == Some(task) then ApplyEvent(s, key, phase, timestamp) else s
    case AgentResult(task, key, result) =>
      if key in s.calls && s.calls[key].taskId == Some(task) then ApplyResult(s, key, result) else s
    case SeeStale(key, now) =>
      if && key in s.calls && now <= s.clock
         && s.calls[key].status == CallPending
         && s.calls[key].dispatchedAt.Some? && s.calls[key].dispatchedAt.value < now - STALE_CALL_TIMEOUT_MS
      then s.(tickets := s.tickets + {SeenStale(key, now)}) else s
    case Expire(key, now) =>
      if SeenStale(key, now) in s.tickets && key in s.calls then ApplyExpiry(s, key, now) else s
    case MerchantSets(order, confirm) =>
      if order in s.orders
      then s.(orders := s.orders[order := s.orders[order].(status :=
                if confirm then OrderConfirmed else OrderCancelled)])
      else s
  }

  function Exec(s: State, es: seq<Event>): State
    decreases |es|
  {
    if es == [] then s else Apply(Exec(s, es[..|es| - 1]), es[|es| - 1])
  }

  /**
   * The one thing asked of a run: a dispatch starts only on a call no agent has been given yet. The
   * poll checks this on its own snapshot; the dispatcher's guard alone does not imply it.
   */
  predicate Fresh(s: State, e: Event) {
    e.BeginDispatch? && Dispatchable(s, e.key, e.minute) ==> s.calls[e.key].taskId.None?
  }

  predicate Run(s: State, es: seq<Event>)
    decreases |es|
  {
    es == [] || (Run(s, es[..|es| - 1]) && Fresh(Exec(s, es[..|es| - 1]), es[|es| - 1]))
  }
}
