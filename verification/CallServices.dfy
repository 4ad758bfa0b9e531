/**
 * The services of one backend process over its tables. Each method is an operation, or the part of
 * one between two awaits, and is proved equal to the protocol steps it stands for. The object records
 * them: as long as no dispatch was forced on a call that already has a task id, everything it did is
 * a run, so its tables are reachable and the theorems about runs hold of them.
 */
module CallServices {
  import opened Options
  import opened CallPolicy
  import opened VoiceRules
  import opened CallProtocol
  import opened CallSteps
  import opened CallTrace
  import opened CallTheorems
  import opened CallInvariant
  import opened CallEffects
  import opened DispatchTimes

  datatype QueueReply = Created(attempt: nat) | OrderNotFound | Conflict

  datatype ResultReply = ResultReply(
    found: bool, applied: bool, status: CallStatus, disposition: Option<Disposition>)

  class CallServices {
    var clock: int
    const minConfidence: real
    var orders: map<nat, Order>
    var calls: map<Key, Call>
    ghost var tickets: set<Ticket>
    // The dispatcher's counter and, while it is 1, what the dispatch in progress remembers.
    var activeDispatches: nat
    var inProgress: Option<Dispatch>
    var nextTask: nat
    // The poll's own fields.
    var polling: bool
    var pollRequested: bool
    // When the process started, and every step since with the states between.
    ghost const startedAt: int
    ghost var events: seq<Event>
    ghost var states: seq<State>

    ghost function State(): State
      reads this
    {
      CallProtocol.State.State(clock, minConfidence, orders, calls, tickets, inProgress, nextTask)
    }

    ghost predicate Valid()
      reads this
    {
      activeDispatches == if inProgress.Some? then 1 else 0
    }

    constructor (clock: int, configuredConfidence: Option<real>)
      ensures Valid() && Runs() && !polling && !pollRequested
      ensures State() == Init(clock, MinConfidence(configuredConfidence))
    {
      this.clock, minConfidence := clock, MinConfidence(configuredConfidence);
      orders, calls, tickets := map[], map[], {};
      activeDispatches, inProgress, nextTask := 0, None, 0;
      polling, pollRequested := false, false;
      startedAt := clock;
      events, states := [], [Init(clock, MinConfidence(configuredConfidence))];
    }

    // Everything so far was a run of the protocol from the empty tables.
    ghost predicate Runs()
      reads this
    {
      && Trace(states, events) && State() == states[|events|]
      && 0.0 < minConfidence <= 1.0 && states[0] == Init(startedAt, minConfidence)
    }

    /** Then what is proved of reachable states holds of the tables. */
    lemma IsReachable()
      requires Runs()
      ensures Reachable(State())
    {
      TraceEnds(states, events);
      assert Starts(Init(startedAt, minConfidence), startedAt, minConfidence);
    }

    // The fields are those of the step e, or the steps es, after the state before: the run goes on.
    ghost method Took(before: State, e: Event)
      requires Trace(states, events) && before == states[|events|]
      requires 0.0 < minConfidence <= 1.0 && states[0] == Init(startedAt, minConfidence)
      requires Fresh(before, e) && State() == Apply(before, e)
      modifies this`events, this`states
      ensures Runs() && State() == old(State()) && events == old(events) + [e]
    {
      TraceGrows(states, events, e, State());
      events, states := events + [e], states + [State()];
    }

    ghost method TookAll(before: State, es: seq<Event>)
      requires Trace(states, events) && before == states[|events|]
      requires 0.0 < minConfidence <= 1.0 && states[0] == Init(startedAt, minConfidence)
      requires Run(before, es) && State() == Exec(before, es)
      modifies this`events, this`states
      ensures Runs() && State() == old(State()) && events == old(events) + es
    {
      var more := TraceRuns(states, events, es);
      events, states := events + es, more;
    }

    // ---------------------------------------------------------------- orders and time

    /** A new order of a shop with these hours. */
    method CreateOrder(order: nat, callStart: Option<string>, callEnd: Option<string>)
      modifies this`orders, this`events, this`states
      ensures State() == Apply(old(State()), NewOrder(order, callStart, callEnd))
      ensures old(Runs()) ==> Runs()
    {
      ghost var before, was := State(), Runs();
      if order !in orders {
        orders := orders[order := Order(OrderPending, callStart, callEnd, 0, 0)];
      }
      if was {
        Took(before, NewOrder(order, callStart, callEnd));
      }
    }

    /** The merchant confirms or cancels an order, whatever its calls are doing. */
    method SetByMerchant(order: nat, confirm: bool)
      modifies this`orders, this`events, this`states
      ensures State() == Apply(old(State()), MerchantSets(order, confirm))
      ensures old(Runs()) ==> Runs()
    {
      ghost var before, was := State(), Runs();
      if order in orders {
        orders := orders[order := orders[order].(status := if confirm then OrderConfirmed else OrderCancelled)];
      }
      if was {
        Took(before, MerchantSets(order, confirm));
      }
    }

    /** Time passes, and never back. */
    method Advance(to: int)
      requires clock <= to
      modifies this`clock, this`events, this`states
      ensures clock == to && State() == Apply(old(State()), Tick(to))
      ensures old(Runs()) ==> Runs()
    {
      ghost var before, was := State(), Runs();
      clock := to;
      if was {
        Took(before, Tick(to));
      }
    }

    // ---------------------------------------------------------------- results and events

    // order.updateMany({ where: { id, status: 'pending' } }): how many rows it changed.
    method UpdatePendingOrder(order: nat, status: OrderStatus) returns (count: nat)
      modifies this`orders
      ensures State() == SetIfPending(old(State()), order, status)
      ensures count == if order in old(orders) && old(orders)[order].status == OrderPending then 1 else 0
    {
      count := 0;
      if order in orders && orders[order].status == OrderPending {
        orders := orders[order := orders[order].(status := status)];
        count := 1;
      }
    }

    // call.updateMany({ where: { id, status: 'pending' } })
    method UpdatePendingCall(key: Key, status: CallStatus, disposition: Disposition, completedAt: int)
      returns (count: nat)
      requires key in calls
      modifies this`calls
      ensures count == if old(calls)[key].status == CallPending then 1 else 0
      ensures State() == if count == 0 then old(State()) else Close(old(State()), key, status, disposition, completedAt)
    {
      count := 0;
      if calls[key].status == CallPending {
        calls := calls[key := calls[key].(
          status := status, disposition := Some(disposition), completedAt := Some(completedAt))];
        count := 1;
      }
    }

    // What the outcome means for this attempt.
    method Judge(outcome: Outcome, attempt: nat, reported: Disposition)
      returns (status: CallStatus, disposition: Disposition)
      ensures (status, disposition) == Verdict(outcome, attempt, reported)
    {
      disposition := reported;
      if outcome == OutcomeConfirmed {
        status := CallConfirmed;
        disposition := Confirmed;
      } else if outcome == OutcomeCancelled {
        status := CallFailed;
        disposition := Declined;
      } else if attempt >= MAX_ATTEMPTS {
        status := CallFailed;
        disposition := NeedsHuman;
      } else if outcome == OutcomeNoAnswer {
        status := if reported == Error then CallFailed else CallNoAnswer;
      } else {
        status := CallFailed;
        disposition := Ambiguous;
      }
    }

    // The order's part of the transaction; true when a decision came too late.
    method MoveOrder(key: Key, outcome: Outcome) returns (blocked: bool)
      requires key in calls
      modifies this`calls, this`orders
      ensures State() == Moved(old(State()), key, outcome)
      ensures key in calls
      ensures calls[key] == if blocked then old(calls)[key].(status := CallFailed, disposition := Some(PolicyBlocked))
                            else old(calls)[key]
    {
      blocked := false;
      if outcome == OutcomeConfirmed || outcome == OutcomeCancelled {
        var moved := UpdatePendingOrder(
          key.order, if outcome == OutcomeConfirmed then OrderConfirmed else OrderCancelled);
        if moved == 0 {
          blocked := true;
          calls := calls[key := calls[key].(status := CallFailed, disposition := Some(PolicyBlocked))];
        }
      } else if key.attempt >= MAX_ATTEMPTS {
        var _ := UpdatePendingOrder(key.order, OrderUnreachable);
      }
    }

    method StoreResult(key: Key, result: VoiceResult)
      returns (applied: bool, status: CallStatus, disposition: Disposition)
      requires key in calls
      modifies this`calls, this`orders
      ensures State() == ApplyResult(old(State()), key, result) && key in calls
      ensures applied <==> old(calls)[key].status == CallPending
      ensures applied ==> calls[key].status == status && calls[key].disposition == Some(disposition)
    {
      var outcome := DecideOutcome(result, minConfidence);
      status, disposition := Judge(outcome, key.attempt, result.disposition);
      var at := if result.timestamp.Some? then result.timestamp.value else clock;
      var closed := UpdatePendingCall(key, status, disposition, at);
      if closed == 0 {
        return false, status, disposition;
      }
      ResultIsMoved(old(State()), key, result);
      var blocked := MoveOrder(key, outcome);
      if blocked {
        status, disposition := CallFailed, PolicyBlocked;
      }
      applied := true;
    }

    /** The agent's result: `key` is the row its task id was found in. */
    method HandleResult(task: nat, key: Key, result: VoiceResult) returns (reply: ResultReply)
      modifies this`calls, this`orders, this`events, this`states
      ensures State() == Apply(old(State()), AgentResult(task, key, result))
      ensures reply.found <==> key in old(calls) && old(calls)[key].taskId == Some(task)
      ensures reply.applied <==> reply.found && old(calls)[key].status == CallPending
      ensures reply.applied ==>
        key in calls && calls[key].status == reply.status && calls[key].disposition == reply.disposition
      ensures old(Runs()) ==> Runs()
    {
      ghost var before, was := State(), Runs();
      if key in calls && calls[key].taskId == Some(task) {
        var applied, status, disposition := StoreResult(key, result);
        reply := ResultReply(true, applied, status, Some(disposition));
      } else {
        reply := ResultReply(false, false, CallPending, None);
      }
      if was {
        Took(before, AgentResult(task, key, result));
      }
    }

    // call.update with the phase, and the completion time at the end.
    method StoreEvent(key: Key, phase: Phase, timestamp: Option<int>)
      requires key in calls
      modifies this`calls
      ensures State() == ApplyEvent(old(State()), key, phase, timestamp)
    {
      var data := calls[key].(phase := Some(phase));
      if phase == Ended && calls[key].completedAt.None? {
        data := data.(completedAt := Some(if timestamp.Some? then timestamp.value else clock));
      }
      calls := calls[key := data];
    }

    /** A progress event of the agent. */
    method HandleEvent(task: nat, key: Key, phase: Phase, timestamp: Option<int>) returns (found: bool)
      modifies this`calls, this`events, this`states
      ensures State() == Apply(old(State()), AgentEvent(task, key, phase, timestamp))
      ensures found <==> key in old(calls) && old(calls)[key].taskId == Some(task)
      ensures old(Runs()) ==> Runs()
    {
      ghost var before, was := State(), Runs();
      found := key in calls && calls[key].taskId == Some(task);
      if found {
        StoreEvent(key, phase, timestamp);
      }
      if was {
        Took(before, AgentEvent(task, key, phase, timestamp));
      }
    }

    // ---------------------------------------------------------------- dispatching

    method Start(key: Key, minute: nat) returns (started: bool)
      requires Valid()
      modifies this`inProgress, this`nextTask, this`activeDispatches
      ensures Valid()
      ensures started <==> Dispatchable(old(State()), key, minute)
      ensures State() == Apply(old(State()), Event.BeginDispatch(key, minute))
    {
      if activeDispatches >= 1 {
        return false;
      }
      if key !in calls || calls[key].status != CallPending {
        return false;
      }
      if calls[key].taskId.Some? && calls[key].phase == Some(Dispatched) {
        return false;
      }
      if key.order !in orders
         || !IsWithinCallWindow(orders[key.order].callStart, orders[key.order].callEnd, minute) {
        return false;
      }
      inProgress := Some(Dispatch(key, nextTask));
      nextTask := nextTask + 1;
      activeDispatches := activeDispatches + 1;
      started := true;
    }

    /**
     * The dispatcher up to its call to the agent: false when it throws or defers. Asked for by hand on
     * a call that has a task id, it may leave the protocol.
     */
    method BeginDispatch(key: Key, minute: nat) returns (started: bool)
      requires Valid()
      modifies this`inProgress, this`nextTask, this`activeDispatches, this`events, this`states
      ensures Valid()
      ensures started <==> Dispatchable(old(State()), key, minute)
      ensures State() == Apply(old(State()), Event.BeginDispatch(key, minute))
      ensures started ==>
        && old(activeDispatches) == 0 && activeDispatches == 1 && inProgress == Some(Dispatch(key, old(nextTask)))
        && key in calls && calls[key].status == CallPending
        && (calls[key].taskId.None? || calls[key].phase != Some(Dispatched))
      ensures old(Runs()) && Fresh(old(State()), Event.BeginDispatch(key, minute)) ==> Runs()
    {
      ghost var before, was := State(), Runs() && Fresh(State(), Event.BeginDispatch(key, minute));
      started := Start(key, minute);
      if was {
        Took(before, Event.BeginDispatch(key, minute));
      }
    }

    // The accept, defer and refuse writes, by row and without looking at it again.
    method StoreReply(d: Dispatch, reply: Reply)
      requires d.key in calls
      modifies this`calls
      ensures State() == ApplyReply(old(State()), d, reply)
    {
      if reply == Accepted {
        calls := calls[d.key := calls[d.key].(
          taskId := Some(d.task), dispatchedAt := Some(clock), phase := Some(Dispatched))];
      } else if reply == Refused {
        calls := calls[d.key := calls[d.key].(
          taskId := Some(d.task), status := CallFailed, disposition := Some(Error),
          completedAt := Some(clock), phase := Some(PhaseRejected))];
      }
    }

    /** ... and from the agent's answer on. */
    method EndDispatch(reply: Reply)
      requires Valid() && inProgress.Some?
      modifies this`inProgress, this`calls, this`activeDispatches, this`events, this`states
      ensures Valid() && activeDispatches == 0
      ensures State() == Apply(old(State()), Event.EndDispatch(reply))
      ensures var d := old(inProgress).value;
        d.key in old(calls) ==> d.key in calls && Replied(reply, d.task, clock, old(calls)[d.key], calls[d.key])
      ensures forall k :: k in old(calls) && k != old(inProgress).value.key ==> k in calls && calls[k] == old(calls)[k]
      ensures old(Runs()) ==> Runs()
    {
      ghost var before, was := State(), Runs();
      var dispatch := inProgress.value;
      if dispatch.key in calls {
        StoreReply(dispatch, reply);
      }
      inProgress := None;
      activeDispatches := activeDispatches - 1;
      if dispatch.key in before.calls {
        ReplyEffect(before, reply);
      }
      if was {
        Took(before, Event.EndDispatch(reply));
      }
    }

    // ---------------------------------------------------------------- queueing

    // call.create({ orderId, attempt }): false on a duplicate key.
    method InsertRow(order: nat, attempt: nat) returns (inserted: bool)
      requires order in orders
      modifies this`calls, this`orders
      ensures inserted <==> Key(order, attempt) !in old(calls)
      ensures State() == if inserted then InsertCall(old(State()), order, attempt) else old(State())
    {
      inserted := Key(order, attempt) !in calls;
      if inserted {
        calls := calls[Key(order, attempt) := NewCall(clock)];
        orders := orders[order := orders[order].(rows := orders[order].rows + 1)];
      }
    }

    method ReadRecords(order: nat, attempts: seq<nat>) returns (records: seq<CallRecord>)
      requires IsListing(State(), order, attempts)
      ensures records == Records(State(), order, attempts)
    {
      records := [];
      for i := 0 to |attempts|
        invariant |records| == i
        invariant forall j :: 0 <= j < i ==> records[j] == Records(State(), order, attempts)[j]
      {
        assert attempts[i] in attempts;
        records := records + [Record(Key(order, attempts[i]), calls[Key(order, attempts[i])])];
      }
    }

    // The operation itself; `attempts` are the order's rows as the query returns them.
    method QueueNext(order: nat, attempts: seq<nat>, now: int, minute: nat) returns (reply: QueueReply)
      requires now <= clock && IsListing(State(), order, attempts)
      modifies this`calls, this`orders, this`tickets
      ensures !reply.Created? ==> State() == old(State())
      ensures reply.Created? ==> reply.attempt == |attempts| + 1 && order in old(orders)
      ensures reply.Created? ==> State() == Inserted(old(State()), order, reply.attempt, now)
      ensures reply.Created? <==>
        && order in old(orders) && old(orders)[order].status == OrderPending
        && old(WindowOpen(State(), order, minute)) && old(NoneIsPending(State(), order))
        && old(NextAttemptNumber(Records(State(), order, attempts), now)) == Some(|attempts| + 1)
        && Key(order, |attempts| + 1) !in old(calls)
    {
      if order !in orders {
        return OrderNotFound;
      }
      if orders[order].status != OrderPending {
        return Conflict;
      }
      if !IsWithinCallWindow(orders[order].callStart, orders[order].callEnd, minute) {
        return Conflict;
      }
      if exists key :: key in calls && key.order == order && calls[key].status == CallPending {
        return Conflict;
      }
      var records := ReadRecords(order, attempts);
      var attempt := NextAttemptNumber(records, now);
      if attempt.None? {
        return Conflict;
      }
      if Key(order, attempt.value) in calls {
        return Conflict;
      }
      tickets := tickets + {SeenPending(order)} + {Planned(order, attempt.value, now)};
      var inserted := InsertRow(order, attempt.value);
      reply := Created(attempt.value);
    }

    /** Queues the next call of a pending order; `attempts` are its rows as the query returns them. */
    method Queue(order: nat, attempts: seq<nat>, now: int, minute: nat) returns (reply: QueueReply)
      requires now <= clock && IsListing(State(), order, attempts)
      modifies this`calls, this`orders, this`tickets, this`events, this`states
      ensures !reply.Created? ==> State() == old(State())
      ensures reply.Created? ==>
        && reply.attempt == |attempts| + 1 && Key(order, reply.attempt) !in old(calls)
        && calls == old(calls)[Key(order, reply.attempt) := NewCall(clock)]
        && CreatesRow(old(State()), State(), order, reply.attempt, OrderPending)
      ensures reply.Created? <==>
        && order in old(orders) && old(orders)[order].status == OrderPending
        && old(WindowOpen(State(), order, minute)) && old(NoneIsPending(State(), order))
        && old(NextIsDue(State(), order, attempts, now)) && Key(order, |attempts| + 1) !in old(calls)
      ensures old(Runs()) ==> Runs()
    {
      ghost var before, was := State(), Runs();
      NumberIsDue(before, order, attempts, now);
      reply := QueueNext(order, attempts, now, minute);
      if was && reply.Created? {
        QueueSteps(before, order, attempts, now, minute, reply.attempt);
        ThreeSteps(before, SeeOrder(order), PlanAttempt(order, attempts, now, minute),
                   CreateAttempt(order, reply.attempt, now));
        TookAll(before, [SeeOrder(order)] + [PlanAttempt(order, attempts, now, minute)]
                        + [CreateAttempt(order, reply.attempt, now)]);
      }
    }

    method Reopen(order: nat, attempts: seq<nat>) returns (reply: QueueReply)
      requires IsListing(State(), order, attempts)
      modifies this`calls, this`orders, this`tickets
      ensures !reply.Created? ==> State() == old(State())
      ensures reply.Created? ==> reply.attempt == Highest(attempts) + 1 && order in old(orders)
      ensures reply.Created? ==> State() == InsertedAgain(old(State()), order, reply.attempt)
      ensures reply.Created? <==>
        && order in old(orders) && old(orders)[order].status == OrderUnreachable
        && old(NoneIsPending(State(), order)) && attempts != []
        && Key(order, Highest(attempts) + 1) !in old(calls)
    {
      if order !in orders {
        return OrderNotFound;
      }
      if orders[order].status != OrderUnreachable {
        return Conflict;
      }
      if exists key :: key in calls && key.order == order && calls[key].status == CallPending {
        return Conflict;
      }
      if attempts == [] {
        return Conflict;
      }
      var attempt := Highest(attempts) + 1;
      if Key(order, attempt) in calls {
        return Conflict;
      }
      tickets := tickets + {SeenUnreachable(order)} + {RetryPlanned(order, attempt)};
      orders := orders[order := orders[order].(status := OrderPending, retries := orders[order].retries + 1)];
      var inserted := InsertRow(order, attempt);
      reply := Created(attempt);
    }

    /** Reopens an unreachable order with one more call, in one transaction. */
    method RetryAfterReview(order: nat, attempts: seq<nat>) returns (reply: QueueReply)
      requires IsListing(State(), order, attempts)
      modifies this`calls, this`orders, this`tickets, this`events, this`states
      ensures !reply.Created? ==> State() == old(State())
      ensures reply.Created? ==>
        && order in orders && orders[order].status == OrderPending
        && Key(order, reply.attempt) !in old(calls) && reply.attempt - 1 in attempts
        && (forall a :: a in attempts ==> a < reply.attempt)
        && calls == old(calls)[Key(order, reply.attempt) := NewCall(clock)]
        && CreatesRow(old(State()), State(), order, reply.attempt, OrderPending)
      ensures reply.Created? <==>
        && order in old(orders) && old(orders)[order].status == OrderUnreachable
        && old(NoneIsPending(State(), order)) && attempts != []
        && Key(order, Highest(attempts) + 1) !in old(calls)
      ensures old(Runs()) ==> Runs()
    {
      ghost var before, was := State(), Runs();
      reply := Reopen(order, attempts);
      if reply.Created? {
        HighestIs(attempts);
      }
      if was && reply.Created? {
        RetryRun(before, order, attempts);
        TookAll(before, RetryEvents(order, attempts, reply.attempt));
      }
    }

    // The read phase: which attempt each listed order is due.
    method PlanAll(batch: seq<Row>, now: int, minute: nat) returns (data: seq<Key>, ghost es: seq<Event>)
      requires now <= clock
      requires forall i :: 0 <= i < |batch| ==> RowRead(State(), batch[i]) && batch[i].pending.None?
      modifies this`tickets
      ensures Run(old(State()), es) && State() == Exec(old(State()), es)
      ensures State() == old(State()).(tickets := tickets)
      ensures forall d :: d in data ==> d.order in orders && Planned(d.order, d.attempt, now) in tickets
      ensures forall i, attempt :: 0 <= i < |batch| && Due(old(State()), batch[i], now, minute, attempt) ==>
        Key(batch[i].order, attempt) in data
      ensures forall d :: d in data ==> IsDue(old(State()), batch, now, minute, d)
    {
      data, es := [], [];
      ghost var s := State();
      for i := 0 to |batch|
        invariant Planning(s, State(), es, data, batch, i, now, minute)
      {
        var row := batch[i];
        StillRead(s, State(), row);
        var attempt := Choose(row, now, minute);
        ghost var cur := State();
        PlanningNext(s, cur, es, data, batch, i, now, minute, attempt);
        if attempt.Some? {
          es := es + [SeeOrder(row.order)] + [PlanAttempt(row.order, row.attempts, now, minute)];
          tickets := tickets + {SeenPending(row.order)} + {Planned(row.order, attempt.value, now)};
          data := data + [Key(row.order, attempt.value)];
        }
      }
    }

    // call.createMany({ data, skipDuplicates: true }): how many rows were new.
    method CreateMany(data: seq<Key>, now: int) returns (count: nat, ghost es: seq<Event>)
      requires forall d :: d in data ==> d.order in orders && Planned(d.order, d.attempt, now) in tickets
      modifies this`calls, this`orders
      ensures Run(old(State()), es) && State() == Exec(old(State()), es)
      ensures forall key :: key in calls <==> key in old(calls) || key in data
      ensures forall key :: key in calls ==>
        calls[key] == if key in old(calls) then old(calls)[key] else NewCall(clock)
      ensures count == |calls| - |old(calls)| && OnlyRows(old(orders), orders)
    {
      count, es := 0, [];
      ghost var s := State();
      assert Inserting(s, State(), es, data[..0]);
      for i := 0 to |data|
        invariant Inserting(s, State(), es, data[..i])
        invariant count == |calls| - |s.calls|
      {
        var d := data[i];
        ghost var cur := State();
        assert d.order in cur.orders;
        var inserted := InsertRow(d.order, d.attempt);
        InsertingNext(s, cur, State(), es, data[..i], d, now);
        es := es + [CreateAttempt(d.order, d.attempt, now)];
        count := count + if inserted then 1 else 0;
        assert data[..i + 1] == data[..i] + [d];
      }
      assert data[..|data|] == data;
    }

    // One call per listed order that is due, skipping rows that exist by now.
    method QueueListed(batch: seq<Row>, now: int, minute: nat) returns (count: nat, ghost es: seq<Event>)
      requires now <= clock
      requires forall i :: 0 <= i < |batch| ==> RowRead(State(), batch[i]) && batch[i].pending.None?
      modifies this`calls, this`orders, this`tickets
      ensures Run(old(State()), es) && State() == Exec(old(State()), es)
      ensures forall i, attempt :: 0 <= i < |batch| && Due(old(State()), batch[i], now, minute, attempt) ==>
        Key(batch[i].order, attempt) in calls
      ensures forall key :: key in calls ==>
        if key in old(calls) then calls[key] == old(calls)[key]
        else calls[key] == NewCall(clock) && IsDue(old(State()), batch, now, minute, key)
      ensures forall key :: key in old(calls) ==> key in calls
      ensures count == |calls| - |old(calls)| && OnlyRows(old(orders), orders)
    {
      var data;
      ghost var s, more := State(), [];
      data, es := PlanAll(batch, now, minute);
      count, more := CreateMany(data, now);
      ExecAppend(s, es, more);
      es := es + more;
    }

    /** Queues a call for every order listed as pending without one: exactly the attempts due and not there yet. */
    method QueueAllPending(batch: seq<Row>, now: int, minute: nat) returns (count: nat)
      requires now <= clock
      requires forall i :: 0 <= i < |batch| ==> RowRead(State(), batch[i]) && batch[i].pending.None?
      modifies this`calls, this`orders, this`tickets, this`events, this`states
      ensures forall i, attempt :: 0 <= i < |batch| && Due(old(State()), batch[i], now, minute, attempt) ==>
        Key(batch[i].order, attempt) in calls
      ensures forall key :: key in calls ==>
        if key in old(calls) then calls[key] == old(calls)[key]
        else calls[key] == NewCall(clock) && IsDue(old(State()), batch, now, minute, key)
      ensures forall key :: key in old(calls) ==> key in calls
      ensures count == |calls| - |old(calls)| && OnlyRows(old(orders), orders)
      ensures old(Runs()) ==> Runs()
    {
      ghost var before, was, es := State(), Runs(), [];
      count, es := QueueListed(batch, now, minute);
      if was {
        TookAll(before, es);
      }
    }

    // ---------------------------------------------------------------- the poll

    // One round of the expiry loop.
    method ExpireOne(key: Key, now: int)
      requires key in calls && Stale(State(), key, now) && now <= clock
      modifies this`calls, this`orders, this`tickets
      ensures State() == Apply(Apply(old(State()), SeeStale(key, now)), Expire(key, now))
    {
      tickets := tickets + {SeenStale(key, now)};
      var count := UpdatePendingCall(key, CallNoAnswer, NoAnswer, now);
      if count > 0 && key.attempt >= 3 {
        var _ := UpdatePendingOrder(key.order, OrderUnreachable);
      }
    }

    /** Closes every call dispatched too long ago; an order on its third attempt becomes unreachable. */
    method ExpireStaleCalls(now: int) returns (ghost es: seq<Event>)
      requires now <= clock
      modifies this`calls, this`orders, this`tickets
      ensures Run(old(State()), es) && State() == Exec(old(State()), es)
      ensures var stale := set key | key in old(calls) && Stale(old(State()), key, now);
        calls == CallsAfter(old(State()), stale, now) && orders == OrdersAfter(old(State()), stale)
    {
      es := [];
      var todo := set key | key in calls && calls[key].status == CallPending
        && calls[key].dispatchedAt.Some? && calls[key].dispatchedAt.value < now - STALE_CALL_TIMEOUT_MS;
      ghost var s, done, stale := State(), {}, todo;
      assert stale == set key | key in old(calls) && Stale(s, key, now);
      assert calls == CallsAfter(s, done, now) && orders == OrdersAfter(s, done);
      while todo != {}
        invariant Expiring(s, State(), es, done, now)
        invariant todo !! done && todo + done == stale
        decreases todo
      {
        var key :| key in todo;
        ghost var cur := State();
        assert Stale(cur, key, now) by { assert key in stale && key !in done; }
        ExpireOne(key, now);
        ExpiringOne(s, cur, State(), es, done, key, now);
        es := es + [SeeStale(key, now)] + [Expire(key, now)];
        todo, done := todo - {key}, done + {key};
      }
      assert done == stale;
    }

    /** The attempt to call now: a pending call no agent was ever given, or the next one with its delay over. */
    method ChooseAttempt(row: Row, now: int, minute: nat) returns (attempt: Option<nat>)
      requires RowRead(State(), row)
      ensures forall a: nat :: attempt == Some(a) <==> Callable(State(), row, now, minute, a)
    {
      attempt := Choose(row, now, minute);
      forall a: nat {
        ChoiceIsCallable(State(), row, now, minute, a);
      }
    }

    // The poll's branches.
    method Choose(row: Row, now: int, minute: nat) returns (attempt: Option<nat>)
      requires RowRead(State(), row)
      ensures attempt == Choice(State(), row, now, minute)
    {
      if !IsWithinCallWindow(orders[row.order].callStart, orders[row.order].callEnd, minute) {
        return None;
      }
      if row.pending.Some? {
        var call := calls[Key(row.order, row.pending.value)];
        return if call.taskId.Some? || call.dispatchedAt.Some? then None else row.pending;
      }
      var records := ReadRecords(row.order, row.attempts);
      attempt := NextAttemptNumber(records, now);
    }

    // Inserts the row if the order has none pending, and starts the dispatch.
    method CallOrder(row: Row, attempt: nat, now: int, minute: nat)
      requires Valid() && RowRead(State(), row) && now <= clock
      requires Choice(State(), row, now, minute) == Some(attempt)
      requires row.pending.None? ==> Key(row.order, attempt) !in calls
      modifies this`calls, this`orders, this`tickets, this`inProgress, this`nextTask, this`activeDispatches
      ensures Valid()
      ensures var es := PollEvents(row, attempt, now, minute);
        Run(old(State()), es) && State() == Exec(old(State()), es)
      ensures var key := Key(row.order, attempt);
        && calls == (if row.pending.Some? then old(calls) else old(calls)[key := NewCall(clock)])
        && key in calls && calls[key].status == CallPending && calls[key].taskId.None?
        && (old(inProgress).None? ==> inProgress.Some? && inProgress.value.key == key)
    {
      PollRun(State(), row, attempt, now, minute);
      if row.pending.None? {
        NumberIsDue(State(), row.order, row.attempts, now);
        var reply := QueueNext(row.order, row.attempts, now, minute);
      }
      var started := Start(Key(row.order, attempt), minute);
    }

    /**
     * The start of a poll: false when one is running already, which will then be followed by another;
     * otherwise every stale call is expired before any order is read.
     */
    method StartPoll(now: int) returns (mine: bool)
      requires now <= clock
      modifies this`polling, this`pollRequested, this`calls, this`orders, this`tickets, this`events, this`states
      ensures mine == !old(polling) && polling && pollRequested == (old(pollRequested) || !mine)
      ensures !mine ==> State() == old(State())
      ensures mine ==>
        var stale := set key | key in old(calls) && Stale(old(State()), key, now);
        calls == CallsAfter(old(State()), stale, now) && orders == OrdersAfter(old(State()), stale)
      ensures mine ==> Swept(old(calls), calls, now)
      ensures mine && old(Runs()) ==> forall key, at ::
        key in old(calls) && old(AcceptedAt(states[0], events, key)) == Some(at) && now > at + 10 * 60_000 ==>
        key in calls && calls[key].status != CallPending
      ensures old(Runs()) ==> Runs()
    {
      ghost var before, was, es := State(), Runs(), [];
      if was {
        TraceEnds(states, events);
        forall key { DispatchedWhenAccepted(startedAt, minConfidence, events, key); }
      }
      if polling {
        pollRequested := true;
        return false;
      }
      polling := true;
      es := ExpireStaleCalls(now);
      mine := true;
      if was {
        TookAll(before, es);
      }
    }

    /** One order of the snapshot the poll reads: the offer is the attempt to call now, if there is one. */
    method ReadOffer(row: Row, now: int, minute: nat) returns (offer: Option<Offer>)
      requires RowRead(State(), row) && now <= clock
      modifies this`tickets, this`events, this`states
      ensures forall a: nat ::
        offer == Some(Offer(Key(row.order, a), row.pending.None?, now)) <==> old(Callable(State(), row, now, minute, a))
      ensures offer.Some? ==>
        && offer.value == Offer(Key(row.order, offer.value.key.attempt), row.pending.None?, now)
        && OfferHolds(State(), offer.value)
        && (offer.value.key in calls && !offer.value.isNew ==> calls[offer.value.key].taskId.None?)
      ensures old(Runs()) ==> Runs()
    {
      ghost var before, was := State(), Runs();
      var attempt := Choose(row, now, minute);
      forall a: nat {
        ChoiceIsCallable(before, row, now, minute, a);
      }
      if attempt.None? {
        return None;
      }
      offer := Some(Offer(Key(row.order, attempt.value), row.pending.None?, now));
      if row.pending.None? {
        PlanOne(before, before, row, now, minute);
        tickets := tickets + {SeenPending(row.order)} + {Planned(row.order, attempt.value, now)};
        if was {
          TwoSteps(before, SeeOrder(row.order), PlanAttempt(row.order, row.attempts, now, minute));
          TookAll(before, [SeeOrder(row.order)] + [PlanAttempt(row.order, row.attempts, now, minute)]);
        }
      }
    }

    /** Later: the offered call's row, inserted first if it is new; None for a duplicate, which is passed over. */
    method TakeOffer(offer: Offer) returns (call: Option<Key>)
      requires OfferHolds(State(), offer)
      modifies this`calls, this`orders, this`events, this`states
      ensures call == if offer.isNew && offer.key in old(calls) then None else Some(offer.key)
      ensures call.Some? ==> offer.key in calls && (offer.isNew ==> calls[offer.key] == NewCall(clock))
      ensures State() == if offer.isNew
        then Apply(old(State()), CreateAttempt(offer.key.order, offer.key.attempt, offer.readAt)) else old(State())
      ensures old(Runs()) ==> Runs()
    {
      if !offer.isNew {
        return Some(offer.key);
      }
      ghost var before, was := State(), Runs();
      var inserted := InsertRow(offer.key.order, offer.key.attempt);
      call := if inserted then Some(offer.key) else None;
      if was {
        Took(before, CreateAttempt(offer.key.order, offer.key.attempt, offer.readAt));
      }
    }

    // The first order of the batch that can be called, and with which attempt.
    method PickOrder(batch: seq<Row>, now: int, minute: nat, capacity: bool) returns (picked: Option<nat>, attempt: nat)
      requires forall i :: 0 <= i < |batch| ==> RowRead(State(), batch[i])
      ensures picked.Some? ==>
        && picked.value < |batch| && capacity
        && Picks(State(), batch, picked.value, Key(batch[picked.value].order, attempt), now, minute)
        && (batch[picked.value].pending.None? ==> Key(batch[picked.value].order, attempt) !in calls)
      ensures capacity && picked.None? ==> forall i :: 0 <= i < |batch| ==> PassedOver(State(), batch[i], now, minute)
    {
      picked, attempt := None, 0;
      for i := 0 to |batch|
        invariant forall j :: 0 <= j < i ==> PassedOver(State(), batch[j], now, minute)
      {
        assert RowRead(State(), batch[i]);
        var choice := Choose(batch[i], now, minute);
        if choice.None? {
          continue;
        }
        if !capacity {
          return None, 0;
        }
        if batch[i].pending.None? && Key(batch[i].order, choice.value) in calls {
          continue;
        }
        return Some(i), choice.value;
      }
    }

    /**
     * The poll over a batch of pending orders when nothing comes between its read and its dispatch: it
     * calls the first one that can be called, on a call without a task id, and no other.
     */
    method PollBatch(batch: seq<Row>, now: int, minute: nat, capacity: bool) returns (picked: Option<Key>)
      requires Valid() && now <= clock
      requires forall i :: 0 <= i < |batch| ==> RowRead(State(), batch[i])
      modifies this`calls, this`orders, this`tickets, this`inProgress, this`nextTask, this`activeDispatches,
               this`events, this`states
      ensures Valid()
      ensures picked.None? ==> State() == old(State())
      ensures !capacity ==> picked.None?
      ensures capacity && picked.None? ==>
        forall i :: 0 <= i < |batch| ==> PassedOver(old(State()), batch[i], now, minute)
      ensures picked.Some? ==> exists i :: Picks(old(State()), batch, i, picked.value, now, minute)
      ensures picked.Some? ==>
        && picked.value in calls && calls[picked.value].status == CallPending && calls[picked.value].taskId.None?
        && (forall key :: key != picked.value && key in old(calls) ==> key in calls && calls[key] == old(calls)[key])
        && (old(inProgress).None? ==> inProgress.Some? && inProgress.value.key == picked.value)
      ensures old(Runs()) ==> Runs()
    {
      ghost var before, was := State(), Runs();
      var i, attempt := PickOrder(batch, now, minute, capacity);
      if i.None? {
        return None;
      }
      picked := Some(Key(batch[i.value].order, attempt));
      CallOrder(batch[i.value], attempt, now, minute);
      if was {
        TookAll(before, PollEvents(batch[i.value], attempt, now, minute));
      }
    }

    /** The end of a poll: true when another was asked for meanwhile and is due at once. */
    method EndPoll() returns (again: bool)
      modifies this`polling, this`pollRequested
      ensures !polling && !pollRequested && again == old(pollRequested)
    {
      polling, again, pollRequested := false, pollRequested, false;
    }
  }
}
