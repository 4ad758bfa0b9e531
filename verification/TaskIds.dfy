/** A task id names one call for ever. */
module TaskIds {
  import opened Options
  import opened VoiceRules
  import opened CallProtocol

  // Task ids given out so far are below the next one.
  ghost predicate Known(s: State) {
    forall k :: k in s.calls && s.calls[k].taskId.Some? ==> s.calls[k].taskId.value < s.nextTask
  }

  // No two rows share one.
  ghost predicate Unique(s: State) {
    forall k, l :: k in s.calls && l in s.calls && s.calls[k].taskId.Some? && s.calls[k].taskId == s.calls[l].taskId ==> k == l
  }

  // The dispatch in progress has one that no row has yet.
  ghost predicate Unused(s: State) {
    s.active.Some? ==>
      && s.active.value.task < s.nextTask
      && forall k :: k in s.calls ==> s.calls[k].taskId != Some(s.active.value.task)
  }

  ghost predicate TasksOk(s: State) { Known(s) && Unique(s) && Unused(s) }

  // What a step does to task ids: only the end of a dispatch writes one, its own, to its call.
  ghost predicate TasksFollow(s: State, s': State) {
    && s.nextTask <= s'.nextTask
    && (s'.active.Some? ==> s'.active == s.active || s'.active.value.task == s.nextTask < s'.nextTask)
    && forall k :: k in s'.calls && s'.calls[k].taskId.Some? ==>
         || (k in s.calls && s.calls[k].taskId == s'.calls[k].taskId)
         || (s.active.Some? && s'.active.None? && s.active.value == Dispatch(k, s'.calls[k].taskId.value))
  }

  lemma ReplyFollows(s: State, reply: Reply)
    ensures TasksFollow(s, Apply(s, EndDispatch(reply)))
  {
  }

  lemma ResultFollows(s: State, key: Key, result: VoiceResult)
    requires key in s.calls
    ensures TasksFollow(s, ApplyResult(s, key, result))
  {
  }

  lemma InsertFollows(s: State, s': State, o: nat, k: nat)
    requires s'.calls == s.calls[Key(o, k) := NewCall(s.clock)] && s'.active == s.active && s'.nextTask == s.nextTask
    ensures TasksFollow(s, s')
  {
  }

  lemma StepFollows(s: State, e: Event)
    ensures TasksFollow(s, Apply(s, e))
  {
    match e
    case CreateAttempt(o, k, now) => if Apply(s, e) != s { InsertFollows(s, Apply(s, e), o, k); }
    case CommitRetry(o, k) => if Apply(s, e) != s { InsertFollows(s, Apply(s, e), o, k); }
    case EndDispatch(reply) => ReplyFollows(s, reply);
    case AgentResult(task, k, result) => if k in s.calls { ResultFollows(s, k, result); }
    case _ =>
  }

  lemma FollowKeeps(s: State, s': State)
    requires TasksOk(s) && TasksFollow(s, s')
    ensures TasksOk(s')
  {
  }

  /** In every run, whatever calls it dispatches, no two calls ever have the same task id. */
  lemma {:induction false} TaskIdsAreUnique(clock: int, min: real, es: seq<Event>)
    ensures TasksOk(Exec(Init(clock, min), es))
    decreases |es|
  {
    if es != [] {
      var s := Exec(Init(clock, min), es[..|es| - 1]);
      TaskIdsAreUnique(clock, min, es[..|es| - 1]);
      StepFollows(s, es[|es| - 1]);
      FollowKeeps(s, Apply(s, es[|es| - 1]));
    }
  }
}
