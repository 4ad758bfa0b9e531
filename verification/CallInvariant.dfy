/** What every step of the call protocol keeps. */
module CallInvariant {
  import opened Options
  import opened CallPolicy
  import opened VoiceRules
  import opened CallProtocol

  function RetryDelay(attempt: nat): int { if attempt == 1 then 30 * 60_000 else 2 * 60 * 60_000 }

  // The agent's decision was applied to the order by this call.
  predicate Decided(c: Call) { c.status == CallConfirmed || c.disposition == Some(Declined) }

  // The voice agent refused the call at launch: the call was closed without ever being dispatched.
  predicate RefusedAtLaunch(c: Call) {
    c.status == CallFailed && c.disposition == Some(Error) && c.dispatchedAt.None?
  }

  // The row ended in a way that makes `after` the earliest moment of the next automatic attempt.
  predicate DueAt(c: Call, attempt: nat, after: int) {
    && c.status != CallPending && Retriable(c.disposition) && c.completedAt.Some?
    && c.completedAt.value + RetryDelay(attempt) <= after
  }

  ghost predicate KeysOk(s: State) {
    forall key :: key in s.calls <==>
      key.order in s.orders && 1 <= key.attempt <= s.orders[key.order].rows
  }

  ghost predicate CallOk(s: State, key: Key)
    requires KeysOk(s) && key in s.calls
  {
    var c, order := s.calls[key], s.orders[key.order];
    && (c.status == CallPending ==> key.attempt == order.rows && c.disposition.None?)
    && (c.status != CallPending ==> c.completedAt.Some? && c.disposition.Some? && c.taskId.Some?)
    && (c.status == CallConfirmed ==> c.disposition == Some(Confirmed))
    && (c.taskId.None? ==> c.dispatchedAt.None?)
    && (Decided(c) ==> key.attempt == order.rows && order.status in {OrderConfirmed, OrderCancelled})
    && (2 <= key.attempt <= MAX_ATTEMPTS ==>
          var before := Key(key.order, key.attempt - 1);
          before in s.calls && DueAt(s.calls[before], key.attempt - 1, c.createdAt))
  }

  // How a pending order's finished last call may leave it.
  predicate NotStranded(last: Call, rows: nat) {
    || (rows < MAX_ATTEMPTS && Retriable(last.disposition))
    || (rows >= MAX_ATTEMPTS && RefusedAtLaunch(last))
    || (rows < MAX_ATTEMPTS && last.disposition == Some(Rejected))
  }

  ghost predicate OrderOk(s: State, o: nat)
    requires KeysOk(s) && o in s.orders
  {
    var order := s.orders[o];
    && order.retries == (if order.rows <= MAX_ATTEMPTS then 0 else order.rows - MAX_ATTEMPTS)
    && (order.status == OrderUnreachable ==>
          order.rows >= MAX_ATTEMPTS && s.calls[Key(o, order.rows)].status != CallPending)
    && (order.status == OrderPending && order.rows >= 1 && s.calls[Key(o, order.rows)].status != CallPending ==>
          NotStranded(s.calls[Key(o, order.rows)], order.rows))
  }

  ghost predicate TicketOk(s: State, t: Ticket)
    requires KeysOk(s)
  {
    match t
    case SeenPending(o) => o in s.orders
    case Planned(o, k, now) =>
      && o in s.orders && now <= s.clock
      && 1 <= k <= MAX_ATTEMPTS && k <= s.orders[o].rows + 1
      && (2 <= k == s.orders[o].rows + 1 ==> DueAt(s.calls[Key(o, k - 1)], k - 1, now))
    case SeenUnreachable(o) => o in s.orders && s.orders[o].rows >= MAX_ATTEMPTS
    case RetryPlanned(o, k) => o in s.orders && MAX_ATTEMPTS < k <= s.orders[o].rows + 1
    case SeenStale(key, now) => key in s.calls && s.calls[key].dispatchedAt.Some? && now <= s.clock
  }

  ghost predicate Inv(s: State) {
    && KeysOk(s)
    && (forall key :: key in s.calls ==> CallOk(s, key))
    && (forall o :: o in s.orders ==> OrderOk(s, o))
    && (forall t :: t in s.tickets ==> TicketOk(s, t))
    && ActiveOk(s)
  }

  // The call being handed to the agent is still pending and has no task yet.
  ghost predicate ActiveOk(s: State) {
    s.active.Some? ==>
      && s.active.value.key in s.calls
      && s.calls[s.active.value.key].status == CallPending
      && s.calls[s.active.value.key].taskId.None?
  }

  // ---------------------------------------------------------------- what single writes keep

  // A write to one call row that leaves its place in the table and its history alone.
  predicate SameHistory(c: Call, c': Call) {
    && c'.createdAt == c.createdAt
    && (c.dispatchedAt.Some? ==> c'.dispatchedAt.Some?)
    && (c.status != CallPending ==>
          c'.status == c.status && c'.disposition == c.disposition && c'.completedAt == c.completedAt
          && c'.dispatchedAt == c.dispatchedAt)
  }

  // s' is s with call `key` rewritten and the status of its order possibly changed.
  ghost predicate Rewrites(s: State, s': State, key: Key)
    requires KeysOk(s) && key in s.calls
  {
    && s'.clock == s.clock && s'.tickets == s.tickets
    && s'.calls.Keys == s.calls.Keys && s'.orders.Keys == s.orders.Keys
    && (forall k :: k in s.calls && k != key ==> s'.calls[k] == s.calls[k])
    && SameHistory(s.calls[key], s'.calls[key])
    && (forall o :: o in s.orders && o != key.order ==> s'.orders[o] == s.orders[o])
    && s'.orders[key.order] == s.orders[key.order].(status := s'.orders[key.order].status)
    && (forall k :: k in s.calls && k.order == key.order && Decided(s.calls[k]) ==>
          s'.orders[key.order].status in {OrderConfirmed, OrderCancelled})
  }

  lemma OtherCallOk(s: State, s': State, key: Key, k: Key)
    requires KeysOk(s) && key in s.calls && Rewrites(s, s', key)
    requires k in s.calls && k != key && CallOk(s, k)
    ensures KeysOk(s') && CallOk(s', k)
  {
    if 2 <= k.attempt <= MAX_ATTEMPTS {
      var before := Key(k.order, k.attempt - 1);
      assert DueAt(s.calls[before], k.attempt - 1, s.calls[k].createdAt);
      assert DueAt(s'.calls[before], k.attempt - 1, s'.calls[k].createdAt);
    }
  }

  lemma OtherOrderOk(s: State, s': State, key: Key, o: nat)
    requires KeysOk(s) && key in s.calls && Rewrites(s, s', key)
    requires o in s.orders && o != key.order && OrderOk(s, o)
    ensures KeysOk(s') && OrderOk(s', o)
  {
    if s.orders[o].rows >= 1 {
      assert Key(o, s.orders[o].rows) in s.calls;
    }
  }

  lemma TicketStillOk(s: State, s': State, key: Key, t: Ticket)
    requires KeysOk(s) && key in s.calls && Rewrites(s, s', key) && TicketOk(s, t)
    ensures KeysOk(s') && TicketOk(s', t)
  {
    if t.Planned? && 2 <= t.attempt == s.orders[t.order].rows + 1 {
      assert DueAt(s'.calls[Key(t.order, t.attempt - 1)], t.attempt - 1, t.now);
    }
  }

  /** Rewriting one call, and its order's status with it, keeps everything said about other rows. */
  lemma WriteKeepsInv(s: State, s': State, key: Key)
    requires Inv(s) && key in s.calls && Rewrites(s, s', key)
    requires KeysOk(s') ==> CallOk(s', key) && OrderOk(s', key.order)
    requires ActiveOk(s')
    ensures Inv(s')
  {
    assert KeysOk(s');
    forall k | k in s'.calls ensures CallOk(s', k) {
      if k != key { OtherCallOk(s, s', key, k); }
    }
    forall o | o in s'.orders ensures OrderOk(s', o) {
      if o != key.order { OtherOrderOk(s, s', key, o); }
    }
    forall t | t in s'.tickets ensures TicketOk(s', t) {
      TicketStillOk(s, s', key, t);
    }
  }

  // s' is s with row (o, k) inserted, k being the first free attempt.
  ghost predicate Inserts(s: State, s': State, o: nat, k: nat)
    requires KeysOk(s)
  {
    && o in s.orders && k == s.orders[o].rows + 1
    && s'.clock == s.clock && s'.tickets == s.tickets && s'.active == s.active
    && s'.calls == s.calls[Key(o, k) := NewCall(s.clock)]
    && s'.orders.Keys == s.orders.Keys
    && (forall x :: x in s.orders && x != o ==> s'.orders[x] == s.orders[x])
    && s'.orders[o].rows == k
    && s'.orders[o].retries == (if k <= MAX_ATTEMPTS then 0 else k - MAX_ATTEMPTS)
    && (s'.orders[o].status == s.orders[o].status != OrderUnreachable || s'.orders[o].status == OrderPending)
    && (k > 1 ==> s.calls[Key(o, k - 1)].status != CallPending && !Decided(s.calls[Key(o, k - 1)]))
    && (2 <= k <= MAX_ATTEMPTS ==> DueAt(s.calls[Key(o, k - 1)], k - 1, s.clock))
  }

  lemma InsertKeepsKeys(s: State, s': State, o: nat, k: nat)
    requires KeysOk(s) && Inserts(s, s', o, k)
    ensures KeysOk(s')
  {
    forall key ensures key in s'.calls <==>
      key.order in s'.orders && 1 <= key.attempt <= s'.orders[key.order].rows
    {
      assert key == Key(key.order, key.attempt);
    }
  }

  lemma InsertKeepsCall(s: State, s': State, o: nat, k: nat, key: Key)
    requires KeysOk(s) && Inserts(s, s', o, k) && KeysOk(s') && key in s'.calls
    requires key != Key(o, k) ==> key in s.calls && CallOk(s, key)
    ensures CallOk(s', key)
  {
    if key != Key(o, k) {
      assert key == Key(key.order, key.attempt);
      if 2 <= key.attempt <= MAX_ATTEMPTS {
        assert DueAt(s'.calls[Key(key.order, key.attempt - 1)], key.attempt - 1, s'.calls[key].createdAt);
      }
    }
  }

  lemma InsertKeepsOrder(s: State, s': State, o: nat, k: nat, x: nat)
    requires KeysOk(s) && Inserts(s, s', o, k) && KeysOk(s') && x in s.orders && OrderOk(s, x)
    ensures OrderOk(s', x)
  {
    if x != o && s.orders[x].rows >= 1 {
      assert Key(x, s.orders[x].rows) in s.calls;
    }
  }

  lemma InsertKeepsTicket(s: State, s': State, o: nat, k: nat, t: Ticket)
    requires KeysOk(s) && Inserts(s, s', o, k) && KeysOk(s') && TicketOk(s, t)
    ensures TicketOk(s', t)
  {
    if t.Planned? && 2 <= t.attempt == s'.orders[t.order].rows + 1 {
      assert DueAt(s'.calls[Key(t.order, t.attempt - 1)], t.attempt - 1, t.now);
    }
  }

  lemma InsertKeepsInv(s: State, s': State, o: nat, k: nat)
    requires Inv(s) && Inserts(s, s', o, k)
    ensures Inv(s')
  {
    InsertKeepsKeys(s, s', o, k);
    forall key | key in s'.calls ensures CallOk(s', key) { InsertKeepsCall(s, s', o, k, key); }
    forall x | x in s'.orders ensures OrderOk(s', x) { InsertKeepsOrder(s, s', o, k, x); }
    forall t | t in s'.tickets ensures TicketOk(s', t) { InsertKeepsTicket(s, s', o, k, t); }
    assert Key(o, k) !in s.calls;
  }

  // ---------------------------------------------------------------- steps that plan

  lemma ListingLength(s: State, o: nat, attempts: seq<nat>)
    requires Inv(s) && o in s.orders && IsListing(s, o, attempts)
    ensures |attempts| == s.orders[o].rows
    ensures Listing(Records(s, o, attempts))
  {
    var n := s.orders[o].rows;
    forall a ensures a in attempts <==> 1 <= a <= n {
      assert Key(o, a) in s.calls <==> 1 <= a <= n;
      if Key(o, a) in s.calls { assert Key(o, a).attempt in attempts; }
    }
    DistinctRange(attempts, n);
    forall i | 0 <= i < |attempts| ensures 1 <= attempts[i] <= n { assert attempts[i] in attempts; }
  }

  lemma Member(xs: seq<nat>) returns (x: nat)
    requires xs != []
    ensures x in xs
  {
    x := xs[0];
  }

  lemma {:induction false} DistinctRange(xs: seq<nat>, n: nat)
    requires forall i, j :: 0 <= i < j < |xs| ==> xs[i] != xs[j]
    requires forall a :: a in xs <==> 1 <= a <= n
    ensures |xs| == n
    decreases n
  {
    if n == 0 {
      if xs != [] {
        var x := Member(xs);
        assert false;
      }
    } else {
      assert n in xs;
      var i :| 0 <= i < |xs| && xs[i] == n;
      var ys := xs[..i] + xs[i + 1..];
      forall a ensures a in ys <==> 1 <= a <= n - 1 {
        if a in ys {
          var j :| 0 <= j < |ys| && ys[j] == a;
          assert a == xs[if j < i then j else j + 1];
          assert a in xs;
        }
        if 1 <= a <= n - 1 {
          assert a in xs;
          var j :| 0 <= j < |xs| && xs[j] == a;
          assert a == ys[if j < i then j else j - 1];
        }
      }
      DistinctRange(ys, n - 1);
    }
  }

  lemma PlannedIsNext(s: State, o: nat, attempts: seq<nat>, now: int)
    requires Inv(s) && o in s.orders && IsListing(s, o, attempts) && now <= s.clock
    requires NextAttemptNumber(Records(s, o, attempts), now).Some?
    ensures NextAttemptNumber(Records(s, o, attempts), now) == Some(s.orders[o].rows + 1)
    ensures TicketOk(s, Planned(o, s.orders[o].rows + 1, now))
  {
    ListingLength(s, o, attempts);
    var n := s.orders[o].rows;
    var records := Records(s, o, attempts);
    if n > 0 {
      assert Key(o, n) in s.calls;
      assert Key(o, n).attempt in attempts;
      var i :| 0 <= i < |attempts| && attempts[i] == n;
      assert records[i] == Record(Key(o, n), s.calls[Key(o, n)]);
      NextAttemptDue(records, records[i], now);
      assert CallOk(s, Key(o, n));
    }
  }

  // s' is s, or s remembering the attempt planned.
  predicate AddsAttempt(s: State, s': State, o: nat, attempts: seq<nat>, now: int) {
    || s' == s
    || (&& SeenPending(o) in s.tickets && now <= s.clock && IsListing(s, o, attempts)
        && NextAttemptNumber(Records(s, o, attempts), now).Some?
        && s' == s.(tickets := s.tickets + {Planned(o, NextAttemptNumber(Records(s, o, attempts), now).value, now)}))
  }

  lemma PlanAttemptAdds(s: State, o: nat, attempts: seq<nat>, now: int, minute: nat)
    ensures AddsAttempt(s, Apply(s, PlanAttempt(o, attempts, now, minute)), o, attempts, now)
  {
  }

  lemma AddsAttemptKeepsInv(s: State, s': State, o: nat, attempts: seq<nat>, now: int)
    requires Inv(s) && AddsAttempt(s, s', o, attempts, now)
    ensures Inv(s')
  {
    if s' != s {
      assert TicketOk(s, SeenPending(o));
      PlannedIsNext(s, o, attempts, now);
      TicketKeepsInv(s, s', Planned(o, s.orders[o].rows + 1, now));
    }
  }

  lemma PlanAttemptKeepsInv(s: State, o: nat, attempts: seq<nat>, now: int, minute: nat)
    requires Inv(s)
    ensures Inv(Apply(s, PlanAttempt(o, attempts, now, minute)))
  {
    PlanAttemptAdds(s, o, attempts, now, minute);
    AddsAttemptKeepsInv(s, Apply(s, PlanAttempt(o, attempts, now, minute)), o, attempts, now);
  }

  lemma TicketKeepsInv(s: State, s': State, t: Ticket)
    requires Inv(s) && s' == s.(tickets := s.tickets + {t})
    requires TicketOk(s, t)
    ensures Inv(s')
  {
    forall key | key in s'.calls ensures CallOk(s', key) { assert CallOk(s, key); }
    forall o | o in s'.orders ensures OrderOk(s', o) { assert OrderOk(s, o); }
    forall u | u in s'.tickets ensures TicketOk(s', u) { if u != t { assert TicketOk(s, u); } }
  }

  lemma {:induction false} HighestIs(xs: seq<nat>)
    requires xs != []
    ensures Highest(xs) in xs && forall i :: 0 <= i < |xs| ==> xs[i] <= Highest(xs)
    decreases |xs|
  {
    assert xs == [xs[0]] + xs[1..];
    if |xs| > 1 {
      HighestIs(xs[1..]);
      forall i | 0 <= i < |xs| ensures xs[i] <= Highest(xs) {
        if i > 0 { assert xs[i] == xs[1..][i - 1]; }
      }
    }
  }

  // s' is s, or s remembering the retry planned.
  predicate AddsRetry(s: State, s': State, o: nat, attempts: seq<nat>) {
    || s' == s
    || (&& SeenUnreachable(o) in s.tickets && IsListing(s, o, attempts) && attempts != []
        && s' == s.(tickets := s.tickets + {RetryPlanned(o, Highest(attempts) + 1)}))
  }

  lemma PlanRetryAdds(s: State, o: nat, attempts: seq<nat>)
    ensures AddsRetry(s, Apply(s, PlanRetry(o, attempts)), o, attempts)
  {
  }

  // The highest attempt listed is the number of rows.
  lemma HighestIsLast(s: State, o: nat, attempts: seq<nat>)
    requires KeysOk(s) && o in s.orders && IsListing(s, o, attempts) && attempts != []
    ensures Highest(attempts) == s.orders[o].rows
  {
    var n := s.orders[o].rows;
    HighestIs(attempts);
    assert Key(o, Highest(attempts)) in s.calls;
    assert Key(o, n) in s.calls;
    assert Key(o, n).attempt in attempts;
  }

  lemma RetryTicketOk(s: State, o: nat, attempts: seq<nat>)
    requires KeysOk(s) && TicketOk(s, SeenUnreachable(o)) && IsListing(s, o, attempts) && attempts != []
    ensures TicketOk(s, RetryPlanned(o, Highest(attempts) + 1))
  {
    HighestIsLast(s, o, attempts);
  }

  lemma AddsRetryKeepsInv(s: State, s': State, o: nat, attempts: seq<nat>)
    requires Inv(s) && AddsRetry(s, s', o, attempts)
    ensures Inv(s')
  {
    if s' != s {
      assert TicketOk(s, SeenUnreachable(o));
      RetryTicketOk(s, o, attempts);
      TicketKeepsInv(s, s', RetryPlanned(o, Highest(attempts) + 1));
    }
  }

  lemma PlanRetryKeepsInv(s: State, o: nat, attempts: seq<nat>)
    requires Inv(s)
    ensures Inv(Apply(s, PlanRetry(o, attempts)))
  {
    PlanRetryAdds(s, o, attempts);
    AddsRetryKeepsInv(s, Apply(s, PlanRetry(o, attempts)), o, attempts);
  }

  // ---------------------------------------------------------------- steps that write rows

  lemma CreateInserts(s: State, o: nat, k: nat, now: int)
    requires KeysOk(s) && o in s.orders && OrderOk(s, o) && TicketOk(s, Planned(o, k, now)) && Key(o, k) !in s.calls
    requires k > 1 && Key(o, k - 1) in s.calls ==> CallOk(s, Key(o, k - 1))
    ensures Inserts(s, InsertCall(s, o, k), o, k)
  {
    assert k == s.orders[o].rows + 1;
    if k > 1 {
      assert Key(o, k - 1) in s.calls;
    }
  }

  lemma CreateKeepsInv(s: State, o: nat, k: nat, now: int)
    requires Inv(s)
    ensures Inv(Apply(s, CreateAttempt(o, k, now)))
  {
    if Planned(o, k, now) in s.tickets && o in s.orders && Key(o, k) !in s.calls {
      assert TicketOk(s, Planned(o, k, now)) && OrderOk(s, o);
      CreateInserts(s, o, k, now);
      InsertKeepsInv(s, InsertCall(s, o, k), o, k);
    }
  }

  function Reopened(s: State, o: nat): State
    requires o in s.orders
  {
    s.(orders := s.orders[o := s.orders[o].(status := OrderPending, retries := s.orders[o].retries + 1)])
  }

  lemma RetryInserts(s: State, o: nat, k: nat)
    requires KeysOk(s) && o in s.orders && OrderOk(s, o) && TicketOk(s, RetryPlanned(o, k)) && Key(o, k) !in s.calls
    requires s.orders[o].status == OrderUnreachable && k >= 1
    requires Key(o, k - 1) in s.calls ==> CallOk(s, Key(o, k - 1))
    ensures Inserts(s, InsertCall(Reopened(s, o), o, k), o, k)
  {
    assert k == s.orders[o].rows + 1;
    assert Key(o, k - 1) in s.calls;
  }

  predicate RetryCommits(s: State, o: nat, k: nat) {
    && RetryPlanned(o, k) in s.tickets && o in s.orders && s.orders[o].status == OrderUnreachable
    && Key(o, k) !in s.calls
  }

  lemma CommitRetryIs(s: State, o: nat, k: nat)
    ensures Apply(s, CommitRetry(o, k)) == if RetryCommits(s, o, k) then InsertCall(Reopened(s, o), o, k) else s
  {
  }

  lemma CommitRetryKeepsInv(s: State, o: nat, k: nat)
    requires Inv(s)
    ensures Inv(Apply(s, CommitRetry(o, k)))
  {
    CommitRetryIs(s, o, k);
    if RetryCommits(s, o, k) {
      RetryPlanIsNext(s, o, k);
      RetryInserts(s, o, k);
      InsertKeepsInv(s, InsertCall(Reopened(s, o), o, k), o, k);
    }
  }

  lemma RetryPlanIsNext(s: State, o: nat, k: nat)
    requires Inv(s) && RetryCommits(s, o, k)
    ensures TicketOk(s, RetryPlanned(o, k)) && OrderOk(s, o) && k >= 1
    ensures Key(o, k - 1) in s.calls ==> CallOk(s, Key(o, k - 1))
  {
    assert TicketOk(s, RetryPlanned(o, k));
  }

  lemma NoDecisionYet(s: State, key: Key)
    requires Inv(s) && key in s.calls && s.calls[key].status == CallPending
    ensures forall k :: k in s.calls && k.order == key.order ==> !Decided(s.calls[k])
  {
    assert CallOk(s, key);
    forall k | k in s.calls && k.order == key.order ensures !Decided(s.calls[k]) {
      assert CallOk(s, k);
      assert k == Key(k.order, k.attempt) && key == Key(key.order, key.attempt);
    }
  }

  // What closing a call with its order writes, and the two rows it leaves.
  lemma CloseRewrites(s: State, s': State, key: Key, status: CallStatus, disposition: Disposition, at: int,
                      order: OrderStatus)
    requires KeysOk(s) && key in s.calls && CallOk(s, key) && OrderOk(s, key.order) && ActiveOk(s)
    requires s.calls[key].status == CallPending && s.calls[key].taskId.Some?
    requires forall k :: k in s.calls && k.order == key.order ==> !Decided(s.calls[k])
    requires status != CallPending && (status == CallConfirmed ==> disposition == Confirmed)
    requires s' == Close(s, key, status, disposition, at).(orders :=
                     s.orders[key.order := s.orders[key.order].(status := order)])
    requires s.orders[key.order].status != OrderPending ==> order == s.orders[key.order].status
    requires status == CallConfirmed || disposition == Declined ==> order in {OrderConfirmed, OrderCancelled}
    requires order == OrderUnreachable ==> s.orders[key.order].rows >= MAX_ATTEMPTS
    requires order == OrderPending ==> NotStranded(s'.calls[key], s.orders[key.order].rows)
    ensures Rewrites(s, s', key) && KeysOk(s') && CallOk(s', key) && OrderOk(s', key.order) && ActiveOk(s')
  {
    assert key == Key(key.order, key.attempt);
  }

  /** Closing a pending call, and moving its order as the outcome asks. */
  lemma CloseKeepsInv(s: State, s': State, key: Key, status: CallStatus, disposition: Disposition, at: int,
                      order: OrderStatus)
    requires Inv(s) && key in s.calls && s.calls[key].status == CallPending && s.calls[key].taskId.Some?
    requires status != CallPending && (status == CallConfirmed ==> disposition == Confirmed)
    requires s' == Close(s, key, status, disposition, at).(orders :=
                     s.orders[key.order := s.orders[key.order].(status := order)])
    requires s.orders[key.order].status != OrderPending ==> order == s.orders[key.order].status
    requires status == CallConfirmed || disposition == Declined ==> order in {OrderConfirmed, OrderCancelled}
    requires order == OrderUnreachable ==> s.orders[key.order].rows >= MAX_ATTEMPTS
    requires order == OrderPending ==> NotStranded(s'.calls[key], s.orders[key.order].rows)
    ensures Inv(s')
  {
    assert CallOk(s, key) && OrderOk(s, key.order);
    NoDecisionYet(s, key);
    CloseRewrites(s, s', key, status, disposition, at, order);
    WriteKeepsInv(s, s', key);
  }

  // What a result writes is what CloseKeepsInv asks for.
  lemma ResultCloses(s: State, key: Key, result: VoiceResult)
    requires KeysOk(s) && key in s.calls && s.calls[key].status == CallPending
    requires CallOk(s, key) && OrderOk(s, key.order)
    ensures var s' := ApplyResult(s, key, result);
      && key in s'.calls && s'.calls[key].disposition.Some? && s'.calls[key].completedAt.Some? && key.order in s'.orders
      && var c, order := s'.calls[key], s'.orders[key.order].status;
      && s' == Close(s, key, c.status, c.disposition.value, c.completedAt.value).(orders :=
                 s.orders[key.order := s.orders[key.order].(status := order)])
      && c.status != CallPending && (c.status == CallConfirmed ==> c.disposition.value == Confirmed)
      && (s.orders[key.order].status != OrderPending ==> order == s.orders[key.order].status)
      && (c.status == CallConfirmed || c.disposition.value == Declined ==> order in {OrderConfirmed, OrderCancelled})
      && (order == OrderUnreachable ==> s.orders[key.order].rows >= MAX_ATTEMPTS)
      && (order == OrderPending ==> NotStranded(c, s.orders[key.order].rows))
  {
    assert key == Key(key.order, key.attempt);
  }

  lemma ResultKeepsInv(s: State, task: nat, key: Key, result: VoiceResult)
    requires Inv(s)
    ensures Inv(Apply(s, AgentResult(task, key, result)))
  {
    if key in s.calls && s.calls[key].taskId == Some(task) && s.calls[key].status == CallPending {
      assert CallOk(s, key) && OrderOk(s, key.order);
      ResultCloses(s, key, result);
      var s' := ApplyResult(s, key, result);
      var c := s'.calls[key];
      CloseKeepsInv(s, s', key, c.status, c.disposition.value, c.completedAt.value, s'.orders[key.order].status);
    }
  }

  lemma ExpireKeepsInv(s: State, key: Key, now: int)
    requires Inv(s)
    ensures Inv(Apply(s, Expire(key, now)))
  {
    var s' := Apply(s, Expire(key, now));
    if s' != s {
      assert TicketOk(s, SeenStale(key, now));
      assert CallOk(s, key) && OrderOk(s, key.order);
      CloseKeepsInv(s, s', key, CallNoAnswer, NoAnswer, now, s'.orders[key.order].status);
    }
  }

  // No decided call of the order without a decided order.
  ghost predicate DecidedOk(s: State, o: nat)
    requires o in s.orders
  {
    forall k :: k in s.calls && k.order == o && Decided(s.calls[k]) ==>
      s.orders[o].status in {OrderConfirmed, OrderCancelled}
  }

  lemma EventRewrites(s: State, key: Key, phase: Phase, timestamp: Option<int>)
    requires KeysOk(s) && key in s.calls && CallOk(s, key) && OrderOk(s, key.order) && ActiveOk(s)
    requires DecidedOk(s, key.order)
    ensures var s' := ApplyEvent(s, key, phase, timestamp);
      && Rewrites(s, s', key) && ActiveOk(s')
      && (KeysOk(s') ==> CallOk(s', key) && OrderOk(s', key.order))
  {
  }

  lemma AgentEventKeepsInv(s: State, task: nat, key: Key, phase: Phase, timestamp: Option<int>)
    requires Inv(s)
    ensures Inv(Apply(s, AgentEvent(task, key, phase, timestamp)))
  {
    if key in s.calls && s.calls[key].taskId == Some(task) {
      assert CallOk(s, key) && OrderOk(s, key.order);
      DecidedOrders(s, key.order);
      EventRewrites(s, key, phase, timestamp);
      WriteKeepsInv(s, ApplyEvent(s, key, phase, timestamp), key);
    }
  }

  lemma DecidedOrders(s: State, o: nat)
    requires Inv(s) && o in s.orders
    ensures DecidedOk(s, o)
  {
    forall k | k in s.calls && k.order == o && Decided(s.calls[k])
      ensures s.orders[o].status in {OrderConfirmed, OrderCancelled}
    {
      assert CallOk(s, k);
    }
  }

  lemma ReplyRewrites(s: State, d: Dispatch, reply: Reply)
    requires KeysOk(s) && ActiveOk(s) && s.active == Some(d)
    requires CallOk(s, d.key) && OrderOk(s, d.key.order) && DecidedOk(s, d.key.order)
    ensures var s' := ApplyReply(s, d, reply).(active := None);
      && Rewrites(s, s', d.key) && ActiveOk(s')
      && (KeysOk(s') ==> CallOk(s', d.key) && OrderOk(s', d.key.order))
  {
  }

  lemma EndDispatchKeepsInv(s: State, reply: Reply)
    requires Inv(s)
    ensures Inv(Apply(s, EndDispatch(reply)))
  {
    if s.active.Some? {
      var d := s.active.value;
      assert CallOk(s, d.key) && OrderOk(s, d.key.order);
      DecidedOrders(s, d.key.order);
      ReplyRewrites(s, d, reply);
      WriteKeepsInv(s, ApplyReply(s, d, reply).(active := None), d.key);
    }
  }

  // The merchant's word settles an order whatever its calls are doing.
  function Settle(s: State, o: nat, confirm: bool): State
    requires o in s.orders
  {
    s.(orders := s.orders[o := s.orders[o].(status := if confirm then OrderConfirmed else OrderCancelled)])
  }

  lemma SettleKeepsCall(s: State, o: nat, confirm: bool, key: Key)
    requires KeysOk(s) && o in s.orders && key in s.calls && CallOk(s, key)
    ensures KeysOk(Settle(s, o, confirm)) && CallOk(Settle(s, o, confirm), key)
  {
  }

  lemma SettleKeepsOrder(s: State, o: nat, confirm: bool, x: nat)
    requires KeysOk(s) && o in s.orders && x in s.orders && OrderOk(s, x)
    ensures KeysOk(Settle(s, o, confirm)) && OrderOk(Settle(s, o, confirm), x)
  {
  }

  lemma SettleKeepsTicket(s: State, o: nat, confirm: bool, t: Ticket)
    requires KeysOk(s) && o in s.orders && TicketOk(s, t)
    ensures KeysOk(Settle(s, o, confirm)) && TicketOk(Settle(s, o, confirm), t)
  {
  }

  lemma MerchantKeepsInv(s: State, o: nat, confirm: bool)
    requires Inv(s)
    ensures Inv(Apply(s, MerchantSets(o, confirm)))
  {
    if o in s.orders {
      var s' := Settle(s, o, confirm);
      assert KeysOk(s');
      forall key | key in s'.calls ensures CallOk(s', key) { SettleKeepsCall(s, o, confirm, key); }
      forall x | x in s'.orders ensures OrderOk(s', x) { SettleKeepsOrder(s, o, confirm, x); }
      forall t | t in s'.tickets ensures TicketOk(s', t) { SettleKeepsTicket(s, o, confirm, t); }
    }
  }

  function Add(s: State, o: nat, callStart: Option<string>, callEnd: Option<string>): State {
    s.(orders := s.orders[o := Order(OrderPending, callStart, callEnd, 0, 0)])
  }

  lemma AddKeepsRows(s: State, o: nat, callStart: Option<string>, callEnd: Option<string>)
    requires KeysOk(s) && o !in s.orders
    ensures var s' := Add(s, o, callStart, callEnd);
      && KeysOk(s')
      && (forall key :: key in s.calls && CallOk(s, key) ==> CallOk(s', key))
      && (forall x :: x in s.orders && OrderOk(s, x) ==> OrderOk(s', x)) && OrderOk(s', o)
  {
  }

  lemma AddKeepsTicket(s: State, o: nat, callStart: Option<string>, callEnd: Option<string>, t: Ticket)
    requires KeysOk(s) && o !in s.orders && TicketOk(s, t)
    ensures var s' := Add(s, o, callStart, callEnd); KeysOk(s') && TicketOk(s', t)
  {
  }

  lemma NewOrderKeepsInv(s: State, o: nat, callStart: Option<string>, callEnd: Option<string>)
    requires Inv(s)
    ensures Inv(Apply(s, NewOrder(o, callStart, callEnd)))
  {
    if o !in s.orders {
      var s' := Add(s, o, callStart, callEnd);
      AddKeepsRows(s, o, callStart, callEnd);
      forall t | t in s'.tickets ensures TicketOk(s', t) { AddKeepsTicket(s, o, callStart, callEnd, t); }
    }
  }

  lemma ReadKeepsInv(s: State, e: Event)
    requires Inv(s)
    requires e.SeeOrder? || e.SeeUnreachable? || e.SeeStale?
    ensures Inv(Apply(s, e))
  {
    var s' := Apply(s, e);
    if s' != s {
      var t := if e.SeeStale? then SeenStale(e.key, e.now)
               else if e.SeeOrder? then SeenPending(e.order) else SeenUnreachable(e.order);
      if e.SeeUnreachable? { assert OrderOk(s, e.order); }
      TicketKeepsInv(s, s', t);
    }
  }

  // Neither the tables nor the tickets change, and time does not run back.
  lemma SameTablesKeepsInv(s: State, s': State)
    requires Inv(s) && s.clock <= s'.clock && ActiveOk(s')
    requires s'.orders == s.orders && s'.calls == s.calls && s'.tickets == s.tickets
    ensures Inv(s')
  {
    forall key | key in s'.calls ensures CallOk(s', key) { assert CallOk(s, key); }
    forall o | o in s'.orders ensures OrderOk(s', o) { assert OrderOk(s, o); }
    forall t | t in s'.tickets ensures TicketOk(s', t) { assert TicketOk(s, t); }
  }

  /** Every step of a run keeps the invariant. */
  lemma StepKeepsInv(s: State, e: Event)
    requires Inv(s) && Fresh(s, e)
    ensures Inv(Apply(s, e))
  {
    match e
    case NewOrder(o, a, b) => NewOrderKeepsInv(s, o, a, b);
    case PlanAttempt(o, attempts, now, minute) => PlanAttemptKeepsInv(s, o, attempts, now, minute);
    case CreateAttempt(o, k, now) => CreateKeepsInv(s, o, k, now);
    case PlanRetry(o, attempts) => PlanRetryKeepsInv(s, o, attempts);
    case CommitRetry(o, k) => CommitRetryKeepsInv(s, o, k);
    case EndDispatch(reply) => EndDispatchKeepsInv(s, reply);
    case AgentEvent(task, key, phase, at) => AgentEventKeepsInv(s, task, key, phase, at);
    case AgentResult(task, key, result) => ResultKeepsInv(s, task, key, result);
    case Expire(key, now) => ExpireKeepsInv(s, key, now);
    case MerchantSets(o, confirm) => MerchantKeepsInv(s, o, confirm);
    case Tick(_) => SameTablesKeepsInv(s, Apply(s, e));
    case BeginDispatch(_, _) => SameTablesKeepsInv(s, Apply(s, e));
    case SeeOrder(_) => ReadKeepsInv(s, e);
    case SeeUnreachable(_) => ReadKeepsInv(s, e);
    case SeeStale(_, _) => ReadKeepsInv(s, e);
  }

  /** ... so it holds in every reachable state. */
  lemma {:induction false} RunKeepsInv(s: State, es: seq<Event>)
    requires Inv(s) && Run(s, es)
    ensures Inv(Exec(s, es))
    decreases |es|
  {
    if es != [] {
      RunKeepsInv(s, es[..|es| - 1]);
      StepKeepsInv(Exec(s, es[..|es| - 1]), es[|es| - 1]);
    }
  }
}
