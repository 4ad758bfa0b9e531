/** What the services' operations do to the tables, as sequences of protocol steps and in closed form. */
module CallSteps {
  import opened Options
  import opened CallPolicy
  import opened VoiceRules
  import opened CallProtocol
  import opened CallInvariant
  import opened CallEffects

  predicate Stale(s: State, key: Key, now: int) {
    && key in s.calls && s.calls[key].status == CallPending
    && s.calls[key].dispatchedAt.Some? && s.calls[key].dispatchedAt.value < now - STALE_CALL_TIMEOUT_MS
  }

  // The tables once the calls in `done`, all stale in s, have been expired.
  ghost function CallsAfter(s: State, done: set<Key>, now: int): map<Key, Call> {
    map key | key in s.calls ::
      if key in done
      then s.calls[key].(status := CallNoAnswer, disposition := Some(NoAnswer), completedAt := Some(now))
      else s.calls[key]
  }

  ghost function OrdersAfter(s: State, done: set<Key>): map<nat, Order> {
    map o | o in s.orders ::
      if s.orders[o].status == OrderPending && exists key :: key in done && key.order == o && key.attempt >= 3
      then s.orders[o].(status := OrderUnreachable)
      else s.orders[o]
  }

  lemma OrdersAfterOne(s: State, done: set<Key>, key: Key)
    ensures OrdersAfter(s, done + {key}) ==
      var before := OrdersAfter(s, done);
      if key.attempt >= 3 && key.order in before && before[key.order].status == OrderPending
      then before[key.order := before[key.order].(status := OrderUnreachable)] else before
  {
    forall o | o in s.orders
      ensures (exists k :: k in done + {key} && k.order == o && k.attempt >= 3) <==>
              (exists k :: k in done && k.order == o && k.attempt >= 3) || (key.order == o && key.attempt >= 3)
    {
      if key.order == o && key.attempt >= 3 { assert key in done + {key}; }
    }
  }

  lemma ExecThen(s: State, es: seq<Event>, e: Event)
    ensures Exec(s, es + [e]) == Apply(Exec(s, es), e)
    ensures Run(s, es + [e]) <==> Run(s, es) && Fresh(Exec(s, es), e)
  {
    assert (es + [e])[..|es|] == es;
  }

  // One order of the poll's batch: its rows as listed, and the pending one among them.
  datatype Row = Row(order: nat, attempts: seq<nat>, pending: Option<nat>)

  ghost predicate RowRead(s: State, row: Row) {
    && row.order in s.orders && s.orders[row.order].status == OrderPending
    && IsListing(s, row.order, row.attempts)
    && (row.pending.None? ==> NoneIsPending(s, row.order))
    && (row.pending.Some? ==>
          var key := Key(row.order, row.pending.value);
          key in s.calls && s.calls[key].status == CallPending)
  }

  // The attempt the poll would call for this order now, if any.
  function Choice(s: State, row: Row, now: int, minute: nat): Option<nat>
    requires IsListing(s, row.order, row.attempts)
    requires row.pending.Some? ==> Key(row.order, row.pending.value) in s.calls
  {
    if !WindowOpen(s, row.order, minute) then None
    else if row.pending.Some? then
      var call := s.calls[Key(row.order, row.pending.value)];
      if call.taskId.Some? || call.dispatchedAt.Some? then None else row.pending
    else NextAttemptNumber(Records(s, row.order, row.attempts), now)
  }

  // The next attempt is due, read off the rows: the first, or the one after a last call that may be
  // retried, once its delay is over.
  ghost predicate NextIsDue(s: State, order: nat, attempts: seq<nat>, now: int) {
    var n := |attempts|;
    n < MAX_ATTEMPTS && (n > 0 ==>
      && Key(order, n) in s.calls && (forall a :: a in attempts ==> a <= n)
      && Retriable(s.calls[Key(order, n)].disposition) && s.calls[Key(order, n)].completedAt.Some?
      && s.calls[Key(order, n)].completedAt.value + RetryDelay(n) <= now)
  }

  // This is the attempt to call now: a pending call no agent was ever given, or the next one due.
  ghost predicate Callable(s: State, row: Row, now: int, minute: nat, attempt: nat) {
    && WindowOpen(s, row.order, minute)
    && if row.pending.Some? then
         && row.pending == Some(attempt) && Key(row.order, attempt) in s.calls
         && s.calls[Key(row.order, attempt)].taskId.None? && s.calls[Key(row.order, attempt)].dispatchedAt.None?
       else attempt == |row.attempts| + 1 && NextIsDue(s, row.order, row.attempts, now)
  }

  // The policy's latest call of a listing is one of the rows, and no row is later.
  lemma LatestOf(s: State, order: nat, attempts: seq<nat>) returns (last: nat)
    requires IsListing(s, order, attempts) && attempts != []
    ensures var records := Records(s, order, attempts);
      && last in attempts && Key(order, last) in s.calls && (forall a :: a in attempts ==> a <= last)
      && LatestFrom(records[0], records[1..]) == Record(Key(order, last), s.calls[Key(order, last)])
  {
    var records := Records(s, order, attempts);
    LatestIsHighest(records[0], records[1..]);
    var latest := LatestFrom(records[0], records[1..]);
    assert records == [records[0]] + records[1..];
    var i :| 0 <= i < |attempts| && records[i] == latest;
    last := attempts[i];
    forall a | a in attempts ensures a <= last {
      var j :| 0 <= j < |attempts| && attempts[j] == a;
      assert records[j] in records;
    }
  }

  lemma NumberIsDue(s: State, order: nat, attempts: seq<nat>, now: int)
    requires IsListing(s, order, attempts)
    ensures var number := NextAttemptNumber(Records(s, order, attempts), now);
      && (number.Some? <==> NextIsDue(s, order, attempts, now))
      && (number.Some? ==> number.value == |attempts| + 1)
  {
    if attempts != [] {
      var last := LatestOf(s, order, attempts);
      if NextIsDue(s, order, attempts, now) {
        assert Key(order, |attempts|).attempt in attempts;
      }
    }
  }

  /** The poll's choice, in terms of the rows. */
  lemma ChoiceIsCallable(s: State, row: Row, now: int, minute: nat, attempt: nat)
    requires RowRead(s, row)
    ensures Choice(s, row, now, minute) == Some(attempt) <==> Callable(s, row, now, minute, attempt)
  {
    NumberIsDue(s, row.order, row.attempts, now);
  }

  // The poll passes this order over: nothing to call, or its new row turned out to be a duplicate.
  ghost predicate PassedOver(s: State, row: Row, now: int, minute: nat) {
    && RowRead(s, row)
    && var choice := Choice(s, row, now, minute);
       choice.None? || (row.pending.None? && Key(row.order, choice.value) in s.calls)
  }

  // The poll calls `key`: the choice for row i, every earlier row being passed over.
  ghost predicate Picks(s: State, batch: seq<Row>, i: nat, key: Key, now: int, minute: nat) {
    && i < |batch| && RowRead(s, batch[i]) && key.order == batch[i].order
    && Choice(s, batch[i], now, minute) == Some(key.attempt)
    && forall j :: 0 <= j < i ==> PassedOver(s, batch[j], now, minute)
  }

  // What the poll keeps of its read for an order that can be called: the attempt, and whether its row
  // is still to be inserted.
  datatype Offer = Offer(key: Key, isNew: bool, readAt: int)

  // What an offer may rely on, whatever has happened since the read.
  predicate OfferHolds(s: State, offer: Offer) {
    && offer.key.order in s.orders
    && (if offer.isNew then Planned(offer.key.order, offer.key.attempt, offer.readAt) in s.tickets
        else offer.key in s.calls)
  }

  lemma {:induction false} OfferStays(s: State, es: seq<Event>, offer: Offer)
    requires OfferHolds(s, offer)
    ensures OfferHolds(Exec(s, es), offer)
    decreases |es|
  {
    if es != [] {
      OfferStays(s, es[..|es| - 1], offer);
      OfferStep(Exec(s, es[..|es| - 1]), es[|es| - 1], offer);
    }
  }

  lemma OfferStep(s: State, e: Event, offer: Offer)
    requires OfferHolds(s, offer)
    ensures OfferHolds(Apply(s, e), offer)
  {
    match e
    case AgentResult(task, k, result) =>
    case Expire(k, now) =>
    case EndDispatch(reply) =>
    case _ =>
  }

  // The steps of calling the chosen attempt.
  function QueueEvents(row: Row, attempt: nat, now: int, minute: nat): seq<Event> {
    if row.pending.Some? then []
    else [SeeOrder(row.order)] + [PlanAttempt(row.order, row.attempts, now, minute)]
         + [CreateAttempt(row.order, attempt, now)]
  }

  function PollEvents(row: Row, attempt: nat, now: int, minute: nat): seq<Event> {
    QueueEvents(row, attempt, now, minute) + [Event.BeginDispatch(Key(row.order, attempt), minute)]
  }

  // ---------------------------------------------------------------- queueing every pending order

  lemma {:induction false} ExecAppend(s: State, a: seq<Event>, b: seq<Event>)
    ensures Exec(s, a + b) == Exec(Exec(s, a), b)
    ensures Run(s, a) && Run(Exec(s, a), b) ==> Run(s, a + b)
    decreases |b|
  {
    if b == [] {
      assert a + b == a;
    } else {
      ExecAppend(s, a, b[..|b| - 1]);
      assert (a + b)[..|a + b| - 1] == a + b[..|b| - 1];
    }
  }

  ghost predicate Due(s: State, row: Row, now: int, minute: nat, attempt: nat) {
    RowRead(s, row) && Choice(s, row, now, minute) == Some(attempt)
  }

  // A listed order is due this attempt.
  ghost predicate IsDue(s: State, batch: seq<Row>, now: int, minute: nat, key: Key) {
    exists i :: 0 <= i < |batch| && batch[i].order == key.order && Due(s, batch[i], now, minute, key.attempt)
  }

  lemma TwoSteps(s: State, a: Event, b: Event)
    requires !a.BeginDispatch? && !b.BeginDispatch?
    ensures Run(s, [a] + [b]) && Exec(s, [a] + [b]) == Apply(Apply(s, a), b)
  {
    ExecThen(s, [], a);
    assert [] + [a] == [a];
    ExecThen(s, [a], b);
  }

  lemma ThreeInARow(s: State, a: Event, b: Event, c: Event)
    ensures Exec(s, [a] + [b] + [c]) == Apply(Apply(Apply(s, a), b), c)
    ensures Run(s, [a] + [b] + [c]) <==> Fresh(s, a) && Fresh(Apply(s, a), b) && Fresh(Apply(Apply(s, a), b), c)
  {
    ExecThen(s, [], a);
    assert [] + [a] == [a];
    ExecThen(s, [a], b);
    ExecThen(s, [a] + [b], c);
  }

  lemma ThreeSteps(s: State, a: Event, b: Event, c: Event)
    requires !a.BeginDispatch? && !b.BeginDispatch? && !c.BeginDispatch?
    ensures Run(s, [a] + [b] + [c]) && Exec(s, [a] + [b] + [c]) == Apply(Apply(Apply(s, a), b), c)
  {
    ThreeInARow(s, a, b, c);
  }

  // Planning one order only adds what the operation remembers.
  lemma PlanOne(s: State, cur: State, row: Row, now: int, minute: nat)
    requires RowRead(s, row) && row.pending.None? && now <= s.clock && cur == s.(tickets := cur.tickets)
    requires Choice(s, row, now, minute).Some?
    ensures Apply(Apply(cur, SeeOrder(row.order)), PlanAttempt(row.order, row.attempts, now, minute)) ==
      cur.(tickets := cur.tickets + {SeenPending(row.order)}
                      + {Planned(row.order, Choice(s, row, now, minute).value, now)})
  {
    var seen := Apply(cur, SeeOrder(row.order));
    assert Records(seen, row.order, row.attempts) == Records(s, row.order, row.attempts);
  }

  // A row read stays read while only tickets are added.
  lemma StillRead(s: State, cur: State, row: Row)
    requires RowRead(s, row) && cur == s.(tickets := cur.tickets)
    ensures RowRead(cur, row)
    ensures forall now, minute: nat :: Choice(cur, row, now, minute) == Choice(s, row, now, minute)
  {
    assert Records(cur, row.order, row.attempts) == Records(s, row.order, row.attempts);
  }

  // The read phase of queueing a batch, after its first i rows.
  ghost predicate Planning(s: State, cur: State, es: seq<Event>, data: seq<Key>, batch: seq<Row>, i: nat,
                           now: int, minute: nat)
  {
    && i <= |batch| && cur == s.(tickets := cur.tickets) && Run(s, es) && cur == Exec(s, es)
    && (forall d :: d in data ==>
          && d.order in s.orders && Planned(d.order, d.attempt, now) in cur.tickets && IsDue(s, batch, now, minute, d))
    && forall j, attempt :: 0 <= j < i && Due(s, batch[j], now, minute, attempt) ==> Key(batch[j].order, attempt) in data
  }

  lemma PlanningSkips(s: State, cur: State, es: seq<Event>, data: seq<Key>, batch: seq<Row>, i: nat, now: int, minute: nat)
    requires Planning(s, cur, es, data, batch, i, now, minute) && i < |batch|
    requires RowRead(s, batch[i]) && Choice(s, batch[i], now, minute).None?
    ensures Planning(s, cur, es, data, batch, i + 1, now, minute)
  {
  }

  // What the read phase does for an order that is due.
  lemma PlanningRuns(s: State, cur: State, es: seq<Event>, row: Row, now: int, minute: nat, attempt: nat)
    requires cur == s.(tickets := cur.tickets) && Run(s, es) && cur == Exec(s, es) && now <= s.clock
    requires RowRead(s, row) && row.pending.None? && Choice(s, row, now, minute) == Some(attempt)
    ensures var next := cur.(tickets := cur.tickets + {SeenPending(row.order)} + {Planned(row.order, attempt, now)});
      var more := es + [SeeOrder(row.order)] + [PlanAttempt(row.order, row.attempts, now, minute)];
      Run(s, more) && next == Exec(s, more)
  {
    PlanOne(s, cur, row, now, minute);
    ExecThen(s, es, SeeOrder(row.order));
    ExecThen(s, es + [SeeOrder(row.order)], PlanAttempt(row.order, row.attempts, now, minute));
  }

  lemma PlanningNext(s: State, cur: State, es: seq<Event>, data: seq<Key>, batch: seq<Row>, i: nat, now: int, minute: nat,
                     attempt: Option<nat>)
    requires Planning(s, cur, es, data, batch, i, now, minute) && i < |batch| && now <= s.clock
    requires RowRead(s, batch[i]) && batch[i].pending.None? && attempt == Choice(s, batch[i], now, minute)
    ensures attempt.None? ==> Planning(s, cur, es, data, batch, i + 1, now, minute)
    ensures attempt.Some? ==>
      var row := batch[i];
      Planning(s, cur.(tickets := cur.tickets + {SeenPending(row.order)} + {Planned(row.order, attempt.value, now)}),
               es + [SeeOrder(row.order)] + [PlanAttempt(row.order, row.attempts, now, minute)],
               data + [Key(row.order, attempt.value)], batch, i + 1, now, minute)
  {
    if attempt.None? {
      PlanningSkips(s, cur, es, data, batch, i, now, minute);
    } else {
      PlanningRuns(s, cur, es, batch[i], now, minute, attempt.value);
      assert Due(s, batch[i], now, minute, attempt.value);
    }
  }

  // The tables after inserting the rows of `data` that were missing in s.
  ghost predicate Creating(s: State, calls: map<Key, Call>, orders: map<nat, Order>, data: seq<Key>) {
    && OnlyRows(s.orders, orders)
    && (forall key :: key in calls <==> key in s.calls || key in data)
    && (forall key :: key in calls ==> calls[key] == if key in s.calls then s.calls[key] else NewCall(s.clock))
  }

  lemma CreatingNext(s: State, calls: map<Key, Call>, orders: map<nat, Order>, data: seq<Key>, d: Key)
    requires Creating(s, calls, orders, data) && d.order in s.orders
    ensures d in calls ==> Creating(s, calls, orders, data + [d])
    ensures d !in calls ==>
      Creating(s, calls[d := NewCall(s.clock)], orders[d.order := orders[d.order].(rows := orders[d.order].rows + 1)],
               data + [d])
  {
  }

  // ... by the steps es of a run.
  ghost predicate Inserting(s: State, cur: State, es: seq<Event>, data: seq<Key>) {
    && Run(s, es) && cur == Exec(s, es) && cur == s.(calls := cur.calls, orders := cur.orders)
    && Creating(s, cur.calls, cur.orders, data)
  }

  lemma InsertingNext(s: State, cur: State, next: State, es: seq<Event>, data: seq<Key>, d: Key, now: int)
    requires Inserting(s, cur, es, data) && d.order in s.orders && Planned(d.order, d.attempt, now) in s.tickets
    requires next == if d in cur.calls then cur else InsertCall(cur, d.order, d.attempt)
    ensures Inserting(s, next, es + [CreateAttempt(d.order, d.attempt, now)], data + [d])
    ensures |next.calls| == |cur.calls| + if d in cur.calls then 0 else 1
  {
    ExecThen(s, es, CreateAttempt(d.order, d.attempt, now));
    CreatingNext(s, cur.calls, cur.orders, data, d);
  }

  // The expiry loop after the calls in `done`, started in s and having taken the steps es.
  ghost predicate Expiring(s: State, cur: State, es: seq<Event>, done: set<Key>, now: int) {
    && Run(s, es) && cur == Exec(s, es) && cur.clock == s.clock
    && cur.calls == CallsAfter(s, done, now) && cur.orders == OrdersAfter(s, done)
  }

  // The two steps of one round of the loop.
  lemma ExpireStep(cur: State, key: Key, now: int)
    requires Stale(cur, key, now) && now <= cur.clock
    ensures Apply(Apply(cur, SeeStale(key, now)), Expire(key, now)) ==
      ApplyExpiry(cur.(tickets := cur.tickets + {SeenStale(key, now)}), key, now)
  {
  }

  lemma ExpiringOne(s: State, cur: State, next: State, es: seq<Event>, done: set<Key>, key: Key, now: int)
    requires Expiring(s, cur, es, done, now) && Stale(s, key, now) && key !in done && now <= s.clock
    requires next == Apply(Apply(cur, SeeStale(key, now)), Expire(key, now))
    ensures Expiring(s, next, es + [SeeStale(key, now)] + [Expire(key, now)], done + {key}, now)
  {
    ExecThen(s, es, SeeStale(key, now));
    ExecThen(s, es + [SeeStale(key, now)], Expire(key, now));
    OrdersAfterOne(s, done, key);
    ExpireStep(cur, key, now);
    assert next.calls == CallsAfter(s, done + {key}, now);
  }

  // The tables with the call of an order inserted, and what the operation remembered.
  function Inserted(s: State, order: nat, attempt: nat, now: int): State
    requires order in s.orders
  {
    InsertCall(s.(tickets := s.tickets + {SeenPending(order)} + {Planned(order, attempt, now)}), order, attempt)
  }

  function InsertedAgain(s: State, order: nat, attempt: nat): State
    requires order in s.orders
  {
    var reopened := s.orders[order].(status := OrderPending, retries := s.orders[order].retries + 1);
    InsertCall(s.(orders := s.orders[order := reopened],
                  tickets := s.tickets + {SeenUnreachable(order)} + {RetryPlanned(order, attempt)}), order, attempt)
  }

  // An operation whose steps nothing else interleaves with.
  lemma QueueSteps(s: State, order: nat, attempts: seq<nat>, now: int, minute: nat, attempt: nat)
    requires order in s.orders && s.orders[order].status == OrderPending && now <= s.clock
    requires IsListing(s, order, attempts) && WindowOpen(s, order, minute) && NoneIsPending(s, order)
    requires NextAttemptNumber(Records(s, order, attempts), now) == Some(attempt) && Key(order, attempt) !in s.calls
    ensures Apply(Apply(Apply(s, SeeOrder(order)), PlanAttempt(order, attempts, now, minute)),
                  CreateAttempt(order, attempt, now)) ==
      Inserted(s, order, attempt, now)
  {
    var seen := Apply(s, SeeOrder(order));
    assert Records(seen, order, attempts) == Records(s, order, attempts);
  }

  lemma RetrySteps(s: State, order: nat, attempts: seq<nat>)
    requires order in s.orders && s.orders[order].status == OrderUnreachable && attempts != []
    requires IsListing(s, order, attempts) && NoneIsPending(s, order) && Key(order, Highest(attempts) + 1) !in s.calls
    ensures var attempt := Highest(attempts) + 1;
      Apply(Apply(Apply(s, SeeUnreachable(order)), PlanRetry(order, attempts)), CommitRetry(order, attempt)) ==
      InsertedAgain(s, order, attempt)
  {
    var seen := Apply(s, SeeUnreachable(order));
    assert IsListing(seen, order, attempts) && NoneIsPending(seen, order);
  }

  function RetryEvents(order: nat, attempts: seq<nat>, attempt: nat): seq<Event> {
    [SeeUnreachable(order)] + [PlanRetry(order, attempts)] + [CommitRetry(order, attempt)]
  }

  lemma RetryRun(s: State, order: nat, attempts: seq<nat>)
    requires order in s.orders && s.orders[order].status == OrderUnreachable && attempts != []
    requires IsListing(s, order, attempts) && NoneIsPending(s, order) && Key(order, Highest(attempts) + 1) !in s.calls
    ensures var attempt := Highest(attempts) + 1;
      && Run(s, RetryEvents(order, attempts, attempt))
      && Exec(s, RetryEvents(order, attempts, attempt)) == InsertedAgain(s, order, attempt)
  {
    RetrySteps(s, order, attempts);
    ThreeSteps(s, SeeUnreachable(order), PlanRetry(order, attempts), CommitRetry(order, Highest(attempts) + 1));
  }

  // Where a result leaves its order once the call is closed: moved if it is still pending, and a
  // decision that comes too late taken back from the call.
  function Moved(s: State, key: Key, outcome: Outcome): State
    requires key in s.calls
  {
    if outcome.OutcomeConfirmed? || outcome.OutcomeCancelled? then
      if key.order in s.orders && s.orders[key.order].status == OrderPending then
        SetIfPending(s, key.order, if outcome.OutcomeConfirmed? then OrderConfirmed else OrderCancelled)
      else s.(calls := s.calls[key := s.calls[key].(status := CallFailed, disposition := Some(PolicyBlocked))])
    else if key.attempt >= MAX_ATTEMPTS then SetIfPending(s, key.order, OrderUnreachable)
    else s
  }

  lemma ResultIsMoved(s: State, key: Key, result: VoiceResult)
    requires key in s.calls && s.calls[key].status == CallPending
    ensures var outcome := DecideOutcome(result, s.minConfidence);
      var (status, disposition) := Verdict(outcome, key.attempt, result.disposition);
      var at := if result.timestamp.Some? then result.timestamp.value else s.clock;
      ApplyResult(s, key, result) == Moved(Close(s, key, status, disposition, at), key, outcome)
  {
  }

  // What the poll's call finds inserted, and starts.
  function Readied(s: State, row: Row, attempt: nat, now: int): State
    requires row.order in s.orders
  {
    if row.pending.Some? then s else Inserted(s, row.order, attempt, now)
  }

  lemma PollQueues(s: State, row: Row, attempt: nat, now: int, minute: nat)
    requires RowRead(s, row) && now <= s.clock && Choice(s, row, now, minute) == Some(attempt)
    requires row.pending.None? ==> Key(row.order, attempt) !in s.calls
    ensures var es := QueueEvents(row, attempt, now, minute);
      Run(s, es) && Exec(s, es) == Readied(s, row, attempt, now)
  {
    if row.pending.None? {
      QueueSteps(s, row.order, row.attempts, now, minute, attempt);
      ThreeSteps(s, SeeOrder(row.order), PlanAttempt(row.order, row.attempts, now, minute),
                 CreateAttempt(row.order, attempt, now));
    }
  }

  lemma ReadiedIsFresh(s: State, row: Row, attempt: nat, now: int, minute: nat)
    requires RowRead(s, row) && Choice(s, row, now, minute) == Some(attempt)
    ensures var key := Key(row.order, attempt);
      && key in Readied(s, row, attempt, now).calls
      && Readied(s, row, attempt, now).calls[key].status == CallPending
      && Readied(s, row, attempt, now).calls[key].taskId.None?
  {
  }

  /** Calling the chosen attempt is a run: the dispatch it ends with is on a call without a task id. */
  lemma PollRun(s: State, row: Row, attempt: nat, now: int, minute: nat)
    requires RowRead(s, row) && now <= s.clock && Choice(s, row, now, minute) == Some(attempt)
    requires row.pending.None? ==> Key(row.order, attempt) !in s.calls
    ensures Run(s, PollEvents(row, attempt, now, minute))
    ensures Exec(s, PollEvents(row, attempt, now, minute)) ==
      Apply(Readied(s, row, attempt, now), Event.BeginDispatch(Key(row.order, attempt), minute))
  {
    ReadiedIsFresh(s, row, attempt, now, minute);
    PollQueues(s, row, attempt, now, minute);
    ExecThen(s, QueueEvents(row, attempt, now, minute), Event.BeginDispatch(Key(row.order, attempt), minute));
  }
}
