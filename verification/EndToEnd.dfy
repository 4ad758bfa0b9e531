/**
 * The backend and its voice agents together: why did an order change? Reports travel through an
 * unreliable channel that may delay, reorder, repeat or lose them.
 */
module EndToEnd {
  import opened Options
  import opened CallPolicy
  import opened VoiceRules
  import Tables = CallProtocol
  import Agents = VoiceAgent
  import AgentEffects
  import CallEffects
  import TaskIds

  datatype Mail = Mail(task: nat, result: VoiceResult)

  // agents: everything that happened in the run of each task's agent, in order. callOf: the call each
  // was launched for.
  datatype System = System(
    tables: Tables.State, agents: map<nat, seq<Agents.AgentEvent>>, callOf: map<nat, Tables.Key>, sent: set<Mail>)

  datatype Event =
    | Backend(step: Tables.Event)
    | Launch(task: nat)                                          // a worker starts for the dispatch
    | Acts(task: nat, callback: Agents.AgentEvent, at: Option<int>)    // a callback in that worker
    | WorkerFails(task: nat)                                     // the adapter reports a dead worker
    | Deliver(task: nat, key: Tables.Key, result: VoiceResult)

  function AgentOf(s: System, task: nat): Agents.Agent
    requires task in s.agents
  {
    Agents.Exec(Agents.Init(true), s.agents[task])
  }

  // The report as posted: the decision's fields are absent when there is none.
  function ToResult(report: Agents.Report, at: Option<int>): VoiceResult {
    VoiceResult(
      report.disposition,
      if report.decision.Some? then Some(report.decision.value.intent) else None,
      if report.decision.Some? then Some(report.decision.value.confidence) else None,
      at)
  }

  // One more callback in the run of a task's agent.
  function Acted(s: System, task: nat, e: Agents.AgentEvent): System
    requires task in s.agents
  {
    s.(agents := s.agents[task := s.agents[task] + [e]])
  }

  // A new report goes out as a message.
  function Posted(s: System, task: nat, before: seq<Agents.Report>, reports: seq<Agents.Report>, at: Option<int>): System {
    if |reports| > |before|
    then s.(sent := s.sent + {Mail(task, ToResult(reports[|reports| - 1], at))}) else s
  }

  function Apply(s: System, e: Event): System {
    match e
    case Backend(b) => if b.AgentResult? then s else s.(tables := Tables.Apply(s.tables, b))
    case Launch(task) =>
      if s.tables.active.Some? && s.tables.active.value.task == task && task !in s.agents
      then s.(agents := s.agents[task := []], callOf := s.callOf[task := s.tables.active.value.key]) else s
    case Acts(task, a, at) =>
      if task !in s.agents then s
      else
        var acted := Acted(s, task, a);
        Posted(acted, task, AgentOf(s, task).reports, AgentOf(acted, task).reports, at)
    case WorkerFails(task) => s.(sent := s.sent + {Mail(task, VoiceResult(Error, None, None, None))})
    case Deliver(task, key, result) =>
      if Mail(task, result) in s.sent
      then s.(tables := Tables.Apply(s.tables, Tables.AgentResult(task, key, result))) else s
  }

  function Exec(s: System, es: seq<Event>): System
    decreases |es|
  {
    if es == [] then s else Apply(Exec(s, es[..|es| - 1]), es[|es| - 1])
  }

  function Init(clock: int, min: real): System { System(Tables.Init(clock, min), map[], map[], {}) }

  // Every message sent is a dead worker's, or the one report of that task's agent.
  ghost predicate MailOk(s: System, m: Mail) {
    || m.result.disposition == Error
    || (&& m.task in s.agents
        && AgentOf(s, m.task).reports != []
        && m.result == ToResult(AgentOf(s, m.task).reports[0], m.result.timestamp))
  }

  ghost predicate Inv(s: System) { forall m :: m in s.sent ==> MailOk(s, m) }

  // An agent's callback repeats no report and takes none back.
  lemma ReportsGrow(es: seq<Agents.AgentEvent>, e: Agents.AgentEvent)
    ensures Agents.Exec(Agents.Init(true), es).reports <= Agents.Exec(Agents.Init(true), es + [e]).reports
    ensures |Agents.Exec(Agents.Init(true), es + [e]).reports| <= 1
  {
    Agents.RunKeeps(Agents.Init(true), es);
    Agents.ExecOne(Agents.Init(true), es, e);
    Agents.StepKeeps(Agents.Exec(Agents.Init(true), es), e);
  }

  lemma MailStays(s: System, task: nat, e: Agents.AgentEvent, m: Mail)
    requires task in s.agents && MailOk(s, m)
    ensures MailOk(Acted(s, task, e), m)
  {
    ReportsGrow(s.agents[task], e);
  }

  // What goes out is the agent's only report.
  lemma PostedMail(s: System, task: nat, before: seq<Agents.Report>, reports: seq<Agents.Report>, at: Option<int>, m: Mail)
    requires |reports| <= 1 && m in Posted(s, task, before, reports, at).sent && m !in s.sent
    ensures m.task == task && |reports| == 1 && m.result == ToResult(reports[0], m.result.timestamp)
  {
  }

  lemma SameAgentsMail(s: System, s': System, m: Mail)
    requires s'.agents == s.agents && MailOk(s, m)
    ensures MailOk(s', m)
  {
  }

  lemma ActsMail(s: System, task: nat, e: Agents.AgentEvent, at: Option<int>, m: Mail)
    requires task in s.agents && m in Apply(s, Acts(task, e, at)).sent && (m in s.sent ==> MailOk(s, m))
    ensures MailOk(Acted(s, task, e), m)
  {
    if m in s.sent {
      MailStays(s, task, e, m);
    } else {
      ReportsGrow(s.agents[task], e);
      PostedMail(Acted(s, task, e), task, AgentOf(s, task).reports, AgentOf(Acted(s, task, e), task).reports, at, m);
    }
  }

  lemma ActsKeepsInv(s: System, task: nat, e: Agents.AgentEvent, at: Option<int>)
    requires Inv(s) && task in s.agents
    ensures Inv(Apply(s, Acts(task, e, at)))
  {
    var s' := Apply(s, Acts(task, e, at));
    forall m | m in s'.sent ensures MailOk(s', m) {
      ActsMail(s, task, e, at, m);
      SameAgentsMail(Acted(s, task, e), s', m);
    }
  }

  lemma StepKeepsInv(s: System, e: Event)
    requires Inv(s)
    ensures Inv(Apply(s, e))
  {
    match e
    case Acts(task, a, at) => if task in s.agents { ActsKeepsInv(s, task, a, at); }
    case Launch(task) =>
      forall m | m in s.sent ensures MailOk(Apply(s, e), m) { assert MailOk(s, m); }
    case _ =>
      forall m | m in Apply(s, e).sent ensures MailOk(Apply(s, e), m) {
        if m in s.sent { assert MailOk(s, m); }
      }
  }

  lemma {:induction false} RunKeepsInv(clock: int, min: real, es: seq<Event>)
    ensures Inv(Exec(Init(clock, min), es)) && Exec(Init(clock, min), es).tables.minConfidence == min
    decreases |es|
  {
    if es != [] {
      var s := Exec(Init(clock, min), es[..|es| - 1]);
      RunKeepsInv(clock, min, es[..|es| - 1]);
      StepKeepsInv(s, es[|es| - 1]);
      if es[|es| - 1].Backend? { MinConfidenceStays(s.tables, es[|es| - 1].step); }
      if es[|es| - 1].Deliver? {
        MinConfidenceStays(s.tables, Tables.AgentResult(es[|es| - 1].task, es[|es| - 1].key, es[|es| - 1].result));
      }
    }
  }

  lemma MinConfidenceStays(s: Tables.State, e: Tables.Event)
    ensures Tables.Apply(s, e).minConfidence == s.minConfidence
  {
    match e
    case AgentResult(task, key, result) =>
    case Expire(key, now) =>
    case EndDispatch(reply) =>
    case _ =>
  }

  // This task id is on no row but that of the call its agent was launched for.
  ghost predicate LinkOk(tables: Tables.State, task: nat, key: Tables.Key) {
    && task < tables.nextTask
    && (forall k :: k in tables.calls && tables.calls[k].taskId == Some(task) ==> k == key)
    && (tables.active.Some? && tables.active.value.task == task ==> tables.active.value.key == key)
  }

  ghost predicate Linked(s: System) {
    && TaskIds.TasksOk(s.tables)
    && s.callOf.Keys == s.agents.Keys
    && forall task :: task in s.callOf ==> LinkOk(s.tables, task, s.callOf[task])
  }

  lemma LinkFollows(t: Tables.State, t': Tables.State, task: nat, key: Tables.Key)
    requires LinkOk(t, task, key) && TaskIds.TasksFollow(t, t')
    ensures LinkOk(t', task, key)
  {
  }

  lemma TablesKeepLinks(s: System, step: Tables.Event)
    requires Linked(s)
    ensures Linked(s.(tables := Tables.Apply(s.tables, step)))
  {
    var after := Tables.Apply(s.tables, step);
    TaskIds.StepFollows(s.tables, step);
    TaskIds.FollowKeeps(s.tables, after);
    forall task | task in s.callOf ensures LinkOk(after, task, s.callOf[task]) {
      LinkFollows(s.tables, after, task, s.callOf[task]);
    }
  }

  lemma LaunchKeepsLinks(s: System, task: nat)
    requires Linked(s)
    ensures Linked(Apply(s, Launch(task)))
  {
  }

  lemma StepKeepsLinks(s: System, e: Event)
    requires Linked(s)
    ensures Linked(Apply(s, e))
  {
    match e
    case Backend(b) => if !b.AgentResult? { TablesKeepLinks(s, b); }
    case Launch(task) => LaunchKeepsLinks(s, task);
    case Deliver(task, key, result) => if Mail(task, result) in s.sent { TablesKeepLinks(s, Tables.AgentResult(task, key, result)); }
    case Acts(task, a, at) =>
    case WorkerFails(task) =>
  }

  /** Whatever happens, an agent's task id is found on no row but that of the call it was launched for. */
  lemma {:induction false} RunKeepsLinks(clock: int, min: real, es: seq<Event>)
    ensures Linked(Exec(Init(clock, min), es))
    decreases |es|
  {
    if es != [] {
      RunKeepsLinks(clock, min, es[..|es| - 1]);
      StepKeepsLinks(Exec(Init(clock, min), es[..|es| - 1]), es[|es| - 1]);
    }
  }

  // The order was confirmed (or cancelled) by this step.
  predicate Becomes(s: System, s': System, order: nat, status: Tables.OrderStatus) {
    && order in s.tables.orders && order in s'.tables.orders
    && s.tables.orders[order].status != status && s'.tables.orders[order].status == status
  }

  // Apart from the merchant, only a result can confirm or cancel an order, and only a trusted one.
  lemma OnlyResultsDecide(s: Tables.State, e: Tables.Event, order: nat)
    requires order in s.orders && order in Tables.Apply(s, e).orders && !e.MerchantSets?
    requires var status := Tables.Apply(s, e).orders[order].status;
      status != s.orders[order].status && status in {Tables.OrderConfirmed, Tables.OrderCancelled}
    ensures e.AgentResult? && e.key.order == order && s.orders[order].status == Tables.OrderPending
    ensures e.key in s.calls && s.calls[e.key].taskId == Some(e.task)
    ensures Trusted(e.result, s.minConfidence,
      if Tables.Apply(s, e).orders[order].status == Tables.OrderConfirmed then IntentConfirmed else IntentCancelled)
  {
    match e
    case AgentResult(task, key, result) =>
    case Expire(key, now) =>
    case EndDispatch(reply) =>
    case AgentEvent(task, key, phase, at) =>
    case CreateAttempt(o, k, now) =>
    case CommitRetry(o, k) =>
    case _ =>
  }

  // The tool was called with this very intent, and a confidence between the minimum and 1.
  predicate Asked(e: Agents.AgentEvent, intent: Intent, min: real) {
    && e.DecisionTool? && e.intent == Some(intent)
    && (0.0 < min ==> e.confidence.Some? && min <= e.confidence.value && e.confidence.value <= 1.0)
  }

  function Meant(status: Tables.OrderStatus): Intent {
    if status == Tables.OrderConfirmed then IntentConfirmed else IntentCancelled
  }

  // The first decision put to this agent was the tool's, with this intent.
  ghost predicate FirstAsked(es: seq<Agents.AgentEvent>, intent: Intent, min: real) {
    exists i: nat :: AgentEffects.FirstPut(true, es, i) && Asked(es[i], intent, min)
  }

  lemma SaidIsAsked(es: seq<Agents.AgentEvent>, d: Agents.Decision, intent: Intent, min: real)
    requires AgentEffects.Said(true, es, Some(d)) && d.intent == intent && intent != IntentUnclear
    requires min <= d.confidence <= 1.0
    ensures FirstAsked(es, intent, min)
  {
    var i: nat :| AgentEffects.FirstPut(true, es, i) && AgentEffects.Says(es[i], d);
    assert Asked(es[i], intent, min);
  }

  /**
   * Whenever the system, not the merchant, confirms or cancels an order: the order was pending, and
   * the agent launched for a call of that order was first of all asked, by the tool, to decide just
   * that, with a confidence between the configured minimum and 1; the agent's run was over and had not
   * ended in an error or a rejection.
   */
  lemma SystemDecisionsAreTheCustomers(clock: int, min: real, es: seq<Event>, e: Event, order: nat,
                                       status: Tables.OrderStatus)
    requires status in {Tables.OrderConfirmed, Tables.OrderCancelled}
    requires var s := Exec(Init(clock, min), es); Becomes(s, Apply(s, e), order, status)
    requires !(e.Backend? && e.step.MerchantSets?)
    ensures var s := Exec(Init(clock, min), es);
      && s.tables.orders[order].status == Tables.OrderPending
      && e.Deliver? && e.key.order == order && e.task in s.agents
      && e.key in s.tables.calls && s.tables.calls[e.key].taskId == Some(e.task)
      && e.task in s.callOf && s.callOf[e.task] == e.key
      && (status == Tables.OrderConfirmed ==> FirstAsked(s.agents[e.task], IntentConfirmed, min))
      && (status == Tables.OrderCancelled ==> FirstAsked(s.agents[e.task], IntentCancelled, min))
      && AgentOf(s, e.task).closing
      && AgentOf(s, e.task).finishPhase !in {Some(Agents.FinishError), Some(Agents.FinishRejected)}
  {
    var s := Exec(Init(clock, min), es);
    RunKeepsInv(clock, min, es);
    RunKeepsLinks(clock, min, es);
    var step := if e.Backend? then e.step else Tables.AgentResult(e.task, e.key, e.result);
    OnlyResultsDecide(s.tables, step, order);
    assert MailOk(s, Mail(e.task, e.result));
    var a := AgentOf(s, e.task);
    Agents.RunKeeps(Agents.Init(true), s.agents[e.task]);
    AgentEffects.DecisionIsWhatWasSaid(true, s.agents[e.task]);
    assert a.reports == [Agents.Report.Report(Agents.DispositionOf(a.FinishedAs()), a.decision)];
    SaidIsAsked(s.agents[e.task], a.decision.value, Meant(status), min);
  }

  // What the report of a run that ended well carries for this decision.
  function Letter(intent: Intent, confidence: real, at: Option<int>): VoiceResult {
    VoiceResult(Completed, Some(intent), Some(confidence), at)
  }

  lemma Decided(es: seq<Agents.AgentEvent>, i: nat, intent: Intent, confidence: real)
    requires AgentEffects.FirstPut(true, es, i) && es[i] == Agents.DecisionTool(Some(intent), Some(confidence))
    requires 0.0 <= confidence <= 1.0
    ensures Agents.Exec(Agents.Init(true), es).decision == Some(Agents.Decision.Decision(intent, confidence))
  {
    AgentEffects.DecisionIsWhatWasSaid(true, es);
    var d := Agents.Exec(Agents.Init(true), es).decision;
    assert AgentEffects.PutsAt(true, es, i);
    if d.Some? {
      var k: nat :| AgentEffects.FirstPut(true, es, k) && AgentEffects.Says(es[k], d.value);
      assert k == i;
    }
  }

  lemma ReportIsSent(s: System, task: nat, i: nat, intent: Intent, confidence: real, at: Option<int>)
    requires task in s.agents && AgentEffects.FirstPut(true, s.agents[task], i)
    requires s.agents[task][i] == Agents.DecisionTool(Some(intent), Some(confidence)) && 0.0 <= confidence <= 1.0
    requires AgentOf(s, task).cleaning > 0
    requires AgentOf(s, task).finishPhase in {Some(Agents.FinishEnded), Some(Agents.FinishTimeout)}
    ensures Mail(task, Letter(intent, confidence, at)) in Apply(s, Acts(task, Agents.CleanupReports, at)).sent
  {
    var es, a := s.agents[task], AgentOf(s, task);
    Decided(es, i, intent, confidence);
    Agents.RunKeeps(Agents.Init(true), es);
    Agents.ExecOne(Agents.Init(true), es, Agents.CleanupReports);
    AgentEffects.CleanupEffect(a);
    assert a.reports == [];
  }

  lemma DeliveredIsDone(t: System, task: nat, intent: Intent, confidence: real, at: Option<int>, key: Tables.Key)
    requires intent == IntentConfirmed || intent == IntentCancelled
    requires t.tables.minConfidence <= confidence <= 1.0
    requires Mail(task, Letter(intent, confidence, at)) in t.sent
    requires key in t.tables.calls && t.tables.calls[key].taskId == Some(task) && t.tables.calls[key].status == CallPending
    requires key.order in t.tables.orders && t.tables.orders[key.order].status == Tables.OrderPending
    ensures var after := Apply(t, Deliver(task, key, Letter(intent, confidence, at)));
      && key.order in after.tables.orders
      && after.tables.orders[key.order].status ==
           (if intent == IntentConfirmed then Tables.OrderConfirmed else Tables.OrderCancelled)
  {
    CallEffects.ResultEffect(t.tables, task, key, Letter(intent, confidence, at));
  }

  lemma ActsLeavesTables(s: System, task: nat, e: Agents.AgentEvent, at: Option<int>)
    ensures Apply(s, Acts(task, e, at)).tables == s.tables
  {
  }

  /**
   * And the other way round: the tool's first call with a yes or a no the backend trusts, in a run that
   * ends well, is reported, and that report, delivered while call and order are pending, decides the
   * order just so.
   */
  lemma CustomersDecisionIsDone(s: System, task: nat, i: nat, intent: Intent, confidence: real, at: Option<int>, key: Tables.Key)
    requires intent == IntentConfirmed || intent == IntentCancelled
    requires task in s.agents && AgentEffects.FirstPut(true, s.agents[task], i)
    requires s.agents[task][i] == Agents.DecisionTool(Some(intent), Some(confidence))
    requires 0.0 <= confidence <= 1.0 && s.tables.minConfidence <= confidence
    requires AgentOf(s, task).cleaning > 0
    requires AgentOf(s, task).finishPhase in {Some(Agents.FinishEnded), Some(Agents.FinishTimeout)}
    requires key in s.tables.calls && s.tables.calls[key].taskId == Some(task)
    requires s.tables.calls[key].status == CallPending
    requires key.order in s.tables.orders && s.tables.orders[key.order].status == Tables.OrderPending
    ensures var told := Apply(s, Acts(task, Agents.CleanupReports, at));
      var after := Apply(told, Deliver(task, key, Letter(intent, confidence, at)));
      && key.order in after.tables.orders
      && after.tables.orders[key.order].status ==
           (if intent == IntentConfirmed then Tables.OrderConfirmed else Tables.OrderCancelled)
  {
    ReportIsSent(s, task, i, intent, confidence, at);
    ActsLeavesTables(s, task, Agents.CleanupReports, at);
    DeliveredIsDone(Apply(s, Acts(task, Agents.CleanupReports, at)), task, intent, confidence, at, key);
  }
}
