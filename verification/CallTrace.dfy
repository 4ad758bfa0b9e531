/** The states a run of the call protocol goes through, kept beside the events that lead from each to the next. */
module CallTrace {
  import opened Options
  import opened CallProtocol

  ghost predicate StepAt(states: seq<State>, events: seq<Event>, i: nat)
    requires i < |events| && |states| == |events| + 1
  {
    states[i + 1] == Apply(states[i], events[i]) && Fresh(states[i], events[i])
  }

  ghost predicate Trace(states: seq<State>, events: seq<Event>) {
    |states| == |events| + 1 && forall i :: 0 <= i < |events| ==> StepAt(states, events, i)
  }

  lemma {:induction false} TraceIsRun(states: seq<State>, events: seq<Event>, i: nat)
    requires Trace(states, events) && i <= |events|
    ensures Run(states[0], events[..i]) && states[i] == Exec(states[0], events[..i])
  {
    if i > 0 {
      TraceIsRun(states, events, i - 1);
      assert StepAt(states, events, i - 1);
      assert events[..i][..i - 1] == events[..i - 1];
    }
  }

  /** The events of a trace are a run from its first state to its last. */
  lemma TraceEnds(states: seq<State>, events: seq<Event>)
    requires Trace(states, events)
    ensures Run(states[0], events) && states[|events|] == Exec(states[0], events)
  {
    TraceIsRun(states, events, |events|);
    assert events[..|events|] == events;
  }

  lemma TraceGrows(states: seq<State>, events: seq<Event>, e: Event, after: State)
    requires Trace(states, events) && Fresh(states[|events|], e) && after == Apply(states[|events|], e)
    ensures Trace(states + [after], events + [e])
  {
    var more, longer := states + [after], events + [e];
    forall i | 0 <= i < |longer| ensures StepAt(more, longer, i) {
      if i < |events| {
        assert StepAt(states, events, i);
      }
    }
  }

  lemma LastOf(s: State, es: seq<Event>)
    requires es != [] && Run(s, es)
    ensures var before := Exec(s, es[..|es| - 1]);
      Run(s, es[..|es| - 1]) && Fresh(before, es[|es| - 1]) && Exec(s, es) == Apply(before, es[|es| - 1])
  {
  }

  // A run from the last state extends the trace.
  lemma {:induction false} TraceRuns(states: seq<State>, events: seq<Event>, es: seq<Event>) returns (more: seq<State>)
    requires Trace(states, events) && Run(states[|events|], es)
    ensures Trace(more, events + es) && more[0] == states[0]
    ensures more[|events + es|] == Exec(states[|events|], es)
    decreases |es|
  {
    if es == [] {
      more := states;
      assert events + es == events;
    } else {
      LastOf(states[|events|], es);
      var some, last := es[..|es| - 1], es[|es| - 1];
      more := TraceRuns(states, events, some);
      var after := Apply(more[|events + some|], last);
      TraceGrows(more, events + some, last, after);
      more := more + [after];
      assert events + some + [last] == events + es;
    }
  }
}
