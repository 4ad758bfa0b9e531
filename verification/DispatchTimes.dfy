/** When calls were handed to an agent, and that an agent which never answers does not keep them for ever. */
module DispatchTimes {
  import opened Options
  import opened CallPolicy
  import opened VoiceRules
  import opened CallProtocol
  import opened CallTheorems
  import opened CallSteps

  // The moment of the last step of the run in which an agent accepted the call.
  function AcceptedAt(s: State, es: seq<Event>, key: Key): Option<int>
    decreases |es|
  {
    if es == [] then None
    else
      var before := Exec(s, es[..|es| - 1]);
      if TakesUp(before, es[|es| - 1], key) && key in before.calls then Some(before.clock)
      else AcceptedAt(s, es[..|es| - 1], key)
  }

  // The row says when the call was last accepted, and says so if an agent has it.
  ghost predicate TimeOk(s: State, key: Key, at: Option<int>) {
    if key !in s.calls then at.None?
    else
      && s.calls[key].dispatchedAt == at && (at.Some? ==> at.value <= s.clock)
      && (s.calls[key].status == CallPending && s.calls[key].taskId.Some? ==> at.Some?)
  }

  lemma TimeStep(s: State, e: Event, key: Key, at: Option<int>)
    requires TimeOk(s, key, at)
    ensures TimeOk(Apply(s, e), key, if TakesUp(s, e, key) && key in s.calls then Some(s.clock) else at)
  {
    match e
    case CreateAttempt(o, k, now) =>
    case CommitRetry(o, k) =>
    case EndDispatch(reply) => ReplyTime(s, reply, key, at);
    case AgentEvent(task, k, phase, stamp) =>
    case AgentResult(task, k, result) => if k in s.calls { ResultTime(s, k, result, key, at); }
    case Expire(k, now) =>
    case _ =>
  }

  lemma ReplyTime(s: State, reply: Reply, key: Key, at: Option<int>)
    requires TimeOk(s, key, at)
    ensures TimeOk(Apply(s, EndDispatch(reply)), key,
                   if TakesUp(s, EndDispatch(reply), key) && key in s.calls then Some(s.clock) else at)
  {
  }

  lemma ResultTime(s: State, k: Key, result: VoiceResult, key: Key, at: Option<int>)
    requires TimeOk(s, key, at) && k in s.calls
    ensures TimeOk(ApplyResult(s, k, result), key, at)
  {
  }

  lemma {:induction false} DispatchedWhenAccepted(clock: int, min: real, es: seq<Event>, key: Key)
    ensures TimeOk(Exec(Init(clock, min), es), key, AcceptedAt(Init(clock, min), es, key))
    decreases |es|
  {
    if es != [] {
      var some := es[..|es| - 1];
      DispatchedWhenAccepted(clock, min, some, key);
      TimeStep(Exec(Init(clock, min), some), es[|es| - 1], key, AcceptedAt(Init(clock, min), some, key));
    }
  }

  /**
   * In every run a pending call that has a task id was accepted by an agent, its row says exactly when
   * that was last, and ten minutes later the next expiry finds it.
   */
  lemma PendingCallExpires(clock: int, min: real, es: seq<Event>, key: Key, now: int)
    requires key in Exec(Init(clock, min), es).calls
    requires Exec(Init(clock, min), es).calls[key].status == CallPending
    requires Exec(Init(clock, min), es).calls[key].taskId.Some?
    ensures var s, at := Exec(Init(clock, min), es), AcceptedAt(Init(clock, min), es, key);
      && at.Some? && at.value <= s.clock && s.calls[key].dispatchedAt == at
      && (Stale(s, key, now) <==> now > at.value + 10 * 60_000)
  {
    DispatchedWhenAccepted(clock, min, es, key);
  }
}
