/** The progress tracker (app/utils/progress_tracker.py): each handler reports itself here
    before doing anything else, which advances that agent's step counter in the session
    state, raises its completion flag, and switches the active tab. */
module ProgressTracker {
  import opened Wrappers

  const SolarRetailSteps: seq<string> :=
    ["Search Providers", "Select Plan", "Initialize Agreement", "Confirm Purchase", "Activation Status"]
  const SolarServiceSteps: seq<string> :=
    ["Request Service", "Schedule Visit", "Technician Dispatch", "Confirm Service", "Service Status"]
  const OnboardingSteps: seq<string> :=
    ["Search Devices", "Select Network", "Initialize Connection", "Confirm Setup", "Status Check"]
  const SubsidySteps: seq<string> :=
    ["Explore Subsidies", "Apply for Subsidy", "Application Status"]

  /** `HANDLER_TO_STEP_MAPPING`: `<agent type>_<handler name>` to the step index it reports. */
  const HandlerToStepMapping: map<string, int> := map[
    "solar_retail_search" := 0, "solar_retail_select" := 1, "solar_retail_init" := 2,
    "solar_retail_confirm" := 3, "solar_retail_status" := 4,
    "solar_service_search" := 0, "solar_service_select" := 1, "solar_service_init" := 2,
    "solar_service_confirm" := 3, "solar_service_status" := 4,
    "connection_search" := 0, "connection_select" := 1, "connection_init" := 2,
    "connection_confirm" := 3, "connection_status" := 4,
    "subsidy_search" := 0, "subsidy_confirm" := 1, "subsidy_status" := 2
  ]

  /** `AGENT_TO_TAB_MAPPING`. */
  const AgentToTabMapping: map<string, string> := map[
    "solar_retail" := "Solar Retail", "solar_service" := "Solar Service",
    "connection" := "User Onboarding", "subsidy" := "Subsidy Subscription"
  ]

  const NeedsRerun := "needs_rerun"

  function HandlerKey(agentType: string, handlerName: string): string {
    agentType + "_" + handlerName
  }

  /** The session-state key of an agent's step counter, the key of its completion flag,
      and the step index at which that flag is raised. */
  datatype Counter = Counter(stepKey: string, completionKey: string, lastStep: int)

  /** The four branches of `update_progress_by_handler`, one per agent type. */
  function CounterOf(agentType: string): Option<Counter> {
    if agentType == "solar_retail" then Some(Counter("retail_current_step", "retail_show_completion", 4))
    else if agentType == "solar_service" then Some(Counter("service_current_step", "service_show_completion", 4))
    else if agentType == "connection" then Some(Counter("onboarding_current_step", "onboarding_show_completion", 4))
    else if agentType == "subsidy" then Some(Counter("subsidy_current_step", "subsidy_show_completion", 2))
    else None
  }

  /** The advance rule: from -1 the counter jumps to the requested index; otherwise it moves
      one step forward when a later step is requested, and stays put when it is not. */
  function Advance(current: int, requested: int): (next: int)
    ensures current == -1 ==> next == requested
    ensures current != -1 ==> current <= next <= current + 1
    ensures current != -1 ==> (next == current + 1 <==> requested > current)
  {
    if current == -1 || current + 1 == requested then requested
    else if current < requested then current + 1
    else current
  }

  /** The part of `st.session_state` the tracker uses: `active_tab` (absent or a tab name),
      the step counters, and boolean flags (`needs_rerun` and the completion flags). */
  datatype Progress = Progress(activeTab: Option<string>, counters: map<string, int>, flags: map<string, bool>)

  /** The tab switch: only when `active_tab` exists, and `needs_rerun` only when it changes. */
  function SwitchTab(p: Progress, agentType: string): Progress {
    if agentType in AgentToTabMapping && AgentToTabMapping[agentType] != "" && p.activeTab.Some? then
      var tab := AgentToTabMapping[agentType];
      p.(activeTab := Some(tab),
         flags := if p.activeTab.value != tab then p.flags[NeedsRerun := true] else p.flags)
    else p
  }

  /** The session state after `update_progress_by_handler(agentType, handlerName)`. */
  function ProgressAfter(p: Progress, agentType: string, handlerName: string): Progress {
    var key := HandlerKey(agentType, handlerName);
    if key !in HandlerToStepMapping then p
    else
      var index := HandlerToStepMapping[key];
      var q := SwitchTab(p, agentType);
      match CounterOf(agentType)
      case None => q
      case Some(c) =>
        if c.stepKey !in q.counters then q
        else
          q.(counters := q.counters[c.stepKey := Advance(q.counters[c.stepKey], index)],
             flags := if index == c.lastStep then q.flags[c.completionKey := true] else q.flags)
  }

  /** `st.session_state`, as far as the tracker reads and writes it. */
  class SessionState {
    var activeTab: Option<string>
    var counters: map<string, int>
    var flags: map<string, bool>

    constructor (activeTab: Option<string>, counters: map<string, int>, flags: map<string, bool>)
      ensures Contents() == Progress(activeTab, counters, flags)
    {
      this.activeTab, this.counters, this.flags := activeTab, counters, flags;
    }

    function Contents(): Progress
      reads this
    {
      Progress(activeTab, counters, flags)
    }

    /** `update_progress_by_handler(agent_type, handler_name)`. */
    method UpdateProgressByHandler(agentType: string, handlerName: string)
      modifies this
      ensures Contents() == ProgressAfter(old(Contents()), agentType, handlerName)
    {
      var handlerKey := HandlerKey(agentType, handlerName);
      if handlerKey !in HandlerToStepMapping {
        return;
      }
      var stepIndex := HandlerToStepMapping[handlerKey];
      ghost var switched := SwitchTab(Contents(), agentType);

      if agentType in AgentToTabMapping && AgentToTabMapping[agentType] != "" && activeTab.Some? {
        var tabName := AgentToTabMapping[agentType];
        var tabChanged := activeTab.value != tabName;
        activeTab := Some(tabName);
        if tabChanged {
          flags := flags[NeedsRerun := true];
        }
      }

      assert Contents() == switched;
      var counter := CounterOf(agentType);
      if counter.Some? && counter.value.stepKey in counters {
        var currentStep := counters[counter.value.stepKey];
        if currentStep == -1 || currentStep + 1 == stepIndex {
          counters := counters[counter.value.stepKey := stepIndex];
        } else if currentStep < stepIndex {
          counters := counters[counter.value.stepKey := currentStep + 1];
        }
        if stepIndex == counter.value.lastStep {
          flags := flags[counter.value.completionKey := true];
        }
      }
    }
  }

  /** The step list of an agent type; empty for an unknown type. */
  function StepsOf(agentType: string): seq<string> {
    if agentType == "solar_retail" then SolarRetailSteps
    else if agentType == "solar_service" then SolarServiceSteps
    else if agentType == "connection" then OnboardingSteps
    else if agentType == "subsidy" then SubsidySteps
    else []
  }

  /** `get_progress_step_name`: the name of step `stepIndex`, or "" when there is none. */
  function GetProgressStepName(agentType: string, stepIndex: int): (name: string)
    ensures 0 <= stepIndex < |StepsOf(agentType)| ==> name == StepsOf(agentType)[stepIndex]
    ensures name != "" <==> 0 <= stepIndex < |StepsOf(agentType)|
  {
    var steps := StepsOf(agentType);
    if 0 <= stepIndex < |steps| then steps[stepIndex] else ""
  }

  /** A handler key that is not in the mapping changes nothing at all. */
  lemma UnmappedHandlerChangesNothing(p: Progress, agentType: string, handlerName: string)
    requires HandlerKey(agentType, handlerName) !in HandlerToStepMapping
    ensures ProgressAfter(p, agentType, handlerName) == p
  {
  }

  /** No counter appears or disappears, and every counter not at -1 moves forward by at most one. */
  lemma CountersMoveForwardByAtMostOne(p: Progress, agentType: string, handlerName: string, key: string)
    requires key in p.counters
    ensures key in ProgressAfter(p, agentType, handlerName).counters
    ensures ProgressAfter(p, agentType, handlerName).counters.Keys == p.counters.Keys
    ensures p.counters[key] != -1 ==>
      p.counters[key] <= ProgressAfter(p, agentType, handlerName).counters[key] <= p.counters[key] + 1
  {
  }

  /** The counter and completion flag change only when the agent's counter key already exists. */
  lemma CounterNeedsExistingKey(p: Progress, agentType: string, handlerName: string)
    requires CounterOf(agentType).Some? && CounterOf(agentType).value.stepKey !in p.counters
    ensures ProgressAfter(p, agentType, handlerName).counters == p.counters
    ensures HandlerKey(agentType, handlerName) in HandlerToStepMapping ==>
      ProgressAfter(p, agentType, handlerName).flags == SwitchTab(p, agentType).flags
  {
  }

  /** Requesting the last step raises the completion flag whether or not the counter reaches it. */
  lemma LastStepRaisesCompletion(p: Progress, agentType: string, handlerName: string)
    requires HandlerKey(agentType, handlerName) in HandlerToStepMapping
    requires CounterOf(agentType).Some? && CounterOf(agentType).value.stepKey in p.counters
    requires HandlerToStepMapping[HandlerKey(agentType, handlerName)] == CounterOf(agentType).value.lastStep
    ensures CounterOf(agentType).value.completionKey in ProgressAfter(p, agentType, handlerName).flags
    ensures ProgressAfter(p, agentType, handlerName).flags[CounterOf(agentType).value.completionKey]
  {
  }

  /** Jumping from step 1 to the connection status handler moves the counter to 2 only,
      yet raises the completion flag. */
  lemma CompletionWithoutReachingLastStep()
    ensures var q := ProgressAfter(Progress(None, map["onboarding_current_step" := 1], map[]), "connection", "status");
      "onboarding_current_step" in q.counters && q.counters["onboarding_current_step"] == 2
      && "onboarding_show_completion" in q.flags && q.flags["onboarding_show_completion"]
  {
    assert HandlerKey("connection", "status") == "connection_status";
  }

  /** `active_tab` is only ever set where it exists, and `needs_rerun` is raised exactly when the tab changes. */
  lemma TabSwitchRule(p: Progress, agentType: string, handlerName: string)
    requires HandlerKey(agentType, handlerName) in HandlerToStepMapping
    requires agentType in AgentToTabMapping
    ensures ProgressAfter(p, agentType, handlerName).activeTab ==
      if p.activeTab.Some? then Some(AgentToTabMapping[agentType]) else None
    ensures p.activeTab.Some? && p.activeTab.value != AgentToTabMapping[agentType] ==>
      ProgressAfter(p, agentType, handlerName).flags[NeedsRerun]
    ensures p.activeTab.None? || p.activeTab.value == AgentToTabMapping[agentType] ==>
      var q := ProgressAfter(p, agentType, handlerName);
      (NeedsRerun in q.flags) == (NeedsRerun in p.flags) &&
      (NeedsRerun in p.flags ==> q.flags[NeedsRerun] == p.flags[NeedsRerun])
  {
    if CounterOf(agentType).Some? {
      assert CounterOf(agentType).value.completionKey != NeedsRerun;
    }
  }

  /** A step other than the agent's last leaves its completion flag as it was. */
  lemma NonLastStepKeepsCompletion(p: Progress, agentType: string, handlerName: string)
    requires CounterOf(agentType).Some?
    requires HandlerKey(agentType, handlerName) in HandlerToStepMapping
    requires HandlerToStepMapping[HandlerKey(agentType, handlerName)] != CounterOf(agentType).value.lastStep
    ensures var c := CounterOf(agentType).value; var q := ProgressAfter(p, agentType, handlerName);
      (c.completionKey in q.flags) == (c.completionKey in p.flags) &&
      (c.completionKey in p.flags ==> q.flags[c.completionKey] == p.flags[c.completionKey])
  {
    assert CounterOf(agentType).value.completionKey != NeedsRerun;
  }

  /** The session state after a series of handler reports, in order. */
  function ProgressAfterAll(p: Progress, calls: seq<(string, string)>): Progress
    decreases |calls|
  {
    if calls == [] then p else ProgressAfterAll(ProgressAfter(p, calls[0].0, calls[0].1), calls[1..])
  }

  /** Over any series of reports, a counter that has left -1 never decreases and grows by at
      most one per report. */
  lemma {:induction false} CounterBoundedOverRuns(p: Progress, calls: seq<(string, string)>, key: string)
    requires key in p.counters && p.counters[key] >= 0
    ensures key in ProgressAfterAll(p, calls).counters
    ensures p.counters[key] <= ProgressAfterAll(p, calls).counters[key] <= p.counters[key] + |calls|
    decreases |calls|
  {
    if calls != [] {
      var q := ProgressAfter(p, calls[0].0, calls[0].1);
      CountersMoveForwardByAtMostOne(p, calls[0].0, calls[0].1, key);
      CounterBoundedOverRuns(q, calls[1..], key);
    }
  }

  /** The five handlers of a five-step agent, in their canonical order. */
  function FiveStepRun(agentType: string): seq<(string, string)> {
    [(agentType, "search"), (agentType, "select"), (agentType, "init"),
     (agentType, "confirm"), (agentType, "status")]
  }

  /** One report of the handler mapped to step `index`, on a counter standing just before
      it, moves the counter onto that step. */
  lemma ReportAdvancesByOne(p: Progress, agentType: string, handlerName: string, index: int)
    requires CounterOf(agentType).Some? && CounterOf(agentType).value.stepKey in p.counters
    requires HandlerKey(agentType, handlerName) in HandlerToStepMapping
    requires HandlerToStepMapping[HandlerKey(agentType, handlerName)] == index
    requires p.counters[CounterOf(agentType).value.stepKey] == index - 1
    ensures var c := CounterOf(agentType).value; var q := ProgressAfter(p, agentType, handlerName);
      c.stepKey in q.counters && q.counters[c.stepKey] == index
      && (c.completionKey in p.flags && p.flags[c.completionKey] ==> c.completionKey in q.flags && q.flags[c.completionKey])
      && (index == c.lastStep ==> c.completionKey in q.flags && q.flags[c.completionKey])
  {
    assert CounterOf(agentType).value.completionKey != NeedsRerun;
  }

  /** The five handler names of `agentType` are mapped to steps 0 to 4 in order. */
  predicate FiveStepKeys(agentType: string) {
    && HandlerKey(agentType, "search") in HandlerToStepMapping && HandlerToStepMapping[HandlerKey(agentType, "search")] == 0
    && HandlerKey(agentType, "select") in HandlerToStepMapping && HandlerToStepMapping[HandlerKey(agentType, "select")] == 1
    && HandlerKey(agentType, "init") in HandlerToStepMapping && HandlerToStepMapping[HandlerKey(agentType, "init")] == 2
    && HandlerKey(agentType, "confirm") in HandlerToStepMapping && HandlerToStepMapping[HandlerKey(agentType, "confirm")] == 3
    && HandlerKey(agentType, "status") in HandlerToStepMapping && HandlerToStepMapping[HandlerKey(agentType, "status")] == 4
  }

  /** The retail, service and connection agents are the five-step ones. */
  lemma FiveStepAgents(agentType: string)
    requires agentType == "solar_retail" || agentType == "solar_service" || agentType == "connection"
    ensures FiveStepKeys(agentType) && CounterOf(agentType).Some? && CounterOf(agentType).value.lastStep == 4
  {
    if agentType == "solar_retail" {
      assert HandlerKey(agentType, "search") == "solar_retail_search";
      assert HandlerKey(agentType, "select") == "solar_retail_select";
      assert HandlerKey(agentType, "init") == "solar_retail_init";
      assert HandlerKey(agentType, "confirm") == "solar_retail_confirm";
      assert HandlerKey(agentType, "status") == "solar_retail_status";
    } else if agentType == "solar_service" {
      assert HandlerKey(agentType, "search") == "solar_service_search";
      assert HandlerKey(agentType, "select") == "solar_service_select";
      assert HandlerKey(agentType, "init") == "solar_service_init";
      assert HandlerKey(agentType, "confirm") == "solar_service_confirm";
      assert HandlerKey(agentType, "status") == "solar_service_status";
    } else {
      assert HandlerKey(agentType, "search") == "connection_search";
      assert HandlerKey(agentType, "select") == "connection_select";
      assert HandlerKey(agentType, "init") == "connection_init";
      assert HandlerKey(agentType, "confirm") == "connection_confirm";
      assert HandlerKey(agentType, "status") == "connection_status";
    }
  }

  /** The five handlers of the retail, service or connection agent, reported in order from a
      counter at -1, leave that counter on its last step with the completion flag raised. */
  lemma FiveStepRunCompletes(p: Progress, agentType: string)
    requires agentType == "solar_retail" || agentType == "solar_service" || agentType == "connection"
    requires CounterOf(agentType).value.stepKey in p.counters
    requires p.counters[CounterOf(agentType).value.stepKey] == -1
    ensures var c := CounterOf(agentType).value; var q := ProgressAfterAll(p, FiveStepRun(agentType));
      c.stepKey in q.counters && q.counters[c.stepKey] == 4
      && c.completionKey in q.flags && q.flags[c.completionKey]
  {
    FiveStepAgents(agentType);
    var calls := FiveStepRun(agentType);
    var p1 := ProgressAfter(p, agentType, "search");
    ReportAdvancesByOne(p, agentType, "search", 0);
    var p2 := ProgressAfter(p1, agentType, "select");
    ReportAdvancesByOne(p1, agentType, "select", 1);
    var p3 := ProgressAfter(p2, agentType, "init");
    ReportAdvancesByOne(p2, agentType, "init", 2);
    var p4 := ProgressAfter(p3, agentType, "confirm");
    ReportAdvancesByOne(p3, agentType, "confirm", 3);
    var p5 := ProgressAfter(p4, agentType, "status");
    ReportAdvancesByOne(p4, agentType, "status", 4);
    assert ProgressAfterAll(p, calls) == ProgressAfterAll(p1, calls[1..]);
    assert ProgressAfterAll(p1, calls[1..]) == ProgressAfterAll(p2, calls[2..]);
    assert ProgressAfterAll(p2, calls[2..]) == ProgressAfterAll(p3, calls[3..]);
    assert ProgressAfterAll(p3, calls[3..]) == ProgressAfterAll(p4, calls[4..]);
    assert ProgressAfterAll(p4, calls[4..]) == ProgressAfterAll(p5, calls[5..]);
  }

  /** Every index in the mapping names a step of its own agent's list. */
  lemma MappedStepsAreNamed(agentType: string, handlerName: string)
    requires CounterOf(agentType).Some?
    requires HandlerKey(agentType, handlerName) in HandlerToStepMapping
    ensures GetProgressStepName(agentType, HandlerToStepMapping[HandlerKey(agentType, handlerName)]) != ""
  {
    var key := HandlerKey(agentType, handlerName);
    assert 0 <= HandlerToStepMapping[key] <= 4;
    if agentType == "subsidy" {
      assert key[1] == 'u';
    }
  }
}
