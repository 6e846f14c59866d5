# Transaction state of the energy-services agents

This project models the transaction-state layer shared by the agents of an energy-services
assistant. The assistant walks users through a Beckn-style sequence of steps: search,
select, init, confirm and status.

- **`ContextStore`.** A process-wide singleton holding three dicts: `user_details`,
  `connection_details` and `transaction_history`.
- **Step handlers.** The handlers of four agents share the store:
  - the connection and solar-retail handlers check that the previous step has a truthy
    history entry, merge their arguments into the store, call their agent's protocol client
    and record the response under their own step name;
  - the subsidy handlers check the previous step where they have one and then, as written,
    fail on store methods `ContextStore` does not define, so they never merge, call or record;
  - the older connection agent calls the mock responders instead of a protocol client, and
    its search and status handlers check no previous step.
- **Progress tracker.** Every newer handler reports to it first. It moves a per-agent step
  counter in the UI session state, raises a completion flag and switches the active tab.
- **Mock responders.** The older agent calls these mocks of the protocol operations.

One Dafny module per concern:

- **`Values`**: Python values and truthiness.
- **`Dicts`**: insertion-ordered dicts, plus the shared mutable dict object.
- **`ContextStores`**: the store and its singleton class object.
- **`ProgressTracker`**: the session state and `update_progress_by_handler`.
- **`ProtocolClients`**: an abstract client. It answers the n-th request with a response or
  a failure.
- **`Sequencing`**: the history conditions the handlers test.
- **`StepHandlers`**: the connection and solar-retail handlers. Their code is identical
  apart from the agent name they report progress under and the client they send through;
  both are parameters here.
- **`SubsidyAgent`**.
- **`ConnectionApis`**: the mocks.
- **`LegacyConnectionAgent`**: the older connection agent, app/agent.py.

The handlers are methods that take the shared `ContextStore` object (the older agent's are
methods of `AgentModule`, which holds that module's globals). Each handler's contract covers:

- each error path;
- on success, the exact new store contents;
- the value it returns;
- for the connection and solar-retail handlers, the request sent to the client;
- for the connection, solar-retail and subsidy handlers, the new session progress.

## Model

| member | source | states |
|---|---|---|
| Dicts.AsMapKeys | app/store/context_store.py:33-39 | the mapping of a call's keyword arguments has exactly the keys the call names |
| Dicts.AsMapLastWins | app/store/context_store.py:35 | each key the call names gets the value of its last pair in the call |
| Dicts.SetProperties | app/store/context_store.py:41-43 | item assignment gives the key its value, leaves every other key's value alone, appends a new key after the existing ones (an existing key keeps its place) and keeps the dict well formed |
| Dicts.UpdateMerges | app/store/context_store.py:33-39 | `dict.update(**kwargs)` leaves the old entries overridden by the call's mapping |
| Dicts.UpdateKeepsValid | app/store/context_store.py:33-39 | an update keeps every key listed once and the existing keys in their order |
| Dicts.SetOverwrites | app/store/context_store.py:41-43 | recording the same key twice keeps only the second value and never duplicates the key |
| Dicts.UpdateLeavesOtherKeys | app/store/context_store.py:33-39 | a key the call does not name keeps its value |
| Dicts.Dictionary.Update | app/store/context_store.py:35 | the shared dict object's contents become the updated dict |
| Dicts.Dictionary.Put | app/store/context_store.py:43 | the shared dict object's contents become the dict with the key assigned |
| ContextStores.AllNone | app/store/context_store.py:15-31 | the section dict maps each listed field, in order, to None, and is well formed |
| ContextStores.Initial | app/store/context_store.py:13-31 | the initial state has the five user fields and five connection fields, in source order, all None, and an empty history in which no step is done |
| ContextStores.UpdatesTouchOneSection | app/store/context_store.py:33-39 | an update of the user or connection details merges the arguments into that section only; the other two sections are unchanged |
| ContextStores.RecordSetsOneStep | app/store/context_store.py:41-43 | `add_transaction_history(a, d)` leaves `history[a] == d`, every other action unchanged, one more key only when `a` is new, and both detail sections unchanged |
| ContextStores.ContextStore.constructor | app/store/context_store.py:7-31 | a new store holds three distinct, fresh section dicts in the initial state |
| ContextStores.ContextStore.Initialize | app/store/context_store.py:13-31 | `_initialize` replaces the three sections by fresh dicts in the initial state |
| ContextStores.ContextStore.UpdateUserDetails | app/store/context_store.py:33-35 | only `user_details` changes, by the dict update, and the store stays well formed |
| ContextStores.ContextStore.UpdateConnectionDetails | app/store/context_store.py:37-39 | only `connection_details` changes, by the dict update, and the store stays well formed |
| ContextStores.ContextStore.AddTransactionHistory | app/store/context_store.py:41-43 | only `transaction_history` changes, by assigning the action's entry |
| ContextStores.ContextStore.GetUserDetails | app/store/context_store.py:45-47 | returns the store's own `user_details` object, not a copy |
| ContextStores.ContextStore.GetConnectionDetails | app/store/context_store.py:49-51 | returns the store's own `connection_details` object |
| ContextStores.ContextStore.GetTransactionHistory | app/store/context_store.py:53-55 | returns the store's own `transaction_history` object |
| ContextStores.ContextStore.Section | app/store/context_store.py:60-61 | `self.context.get(key)` finds a section exactly for the three section names |
| ContextStores.ContextStore.GetValue | app/store/context_store.py:57-61 | with a non-empty subkey: the entry of that section, or None when the section or the entry is missing; with a None or empty subkey: the live section itself, or None for an unknown key |
| ContextStores.ContextStore.Reset | app/store/context_store.py:63-65 | whatever came before, the store is back in the initial state, held in fresh dicts |
| ContextStores.ContextStoreClass.New | app/store/context_store.py:7-11 | the first construction creates and initialises the instance; every later one returns that same instance with its state untouched |
| ContextStores.SingletonKeepsState | app/store/context_store.py:7-11 | two constructions give one object, and the second does not clear what was recorded through the first |
| ContextStores.HistoryViewIsLive | app/store/context_store.py:53-55 | a history dict returned earlier shows a later recording; after `reset` that dict is no longer the store's |
| ContextStores.ResetDropsAddedKeys | app/store/context_store.py:63-65 | `reset` also drops keys that updates added beyond the ten initial fields |
| ProgressTracker.Advance | app/utils/progress_tracker.py:86-91 | from -1 the counter jumps to the requested index; otherwise it grows by one exactly when a later step is requested, and never more |
| ProgressTracker.SessionState.UpdateProgressByHandler | app/utils/progress_tracker.py:57-133 | the session state afterwards is `ProgressAfter` of the one before: unmapped key, tab switch, per-agent counter advance and completion flag |
| ProgressTracker.GetProgressStepName | app/utils/progress_tracker.py:136-160 | returns `steps[i]` when `0 <= i < len(steps)`, and "" otherwise; the name is non-empty exactly when the index is valid, so an unknown agent type gives "" |
| ProgressTracker.UnmappedHandlerChangesNothing | app/utils/progress_tracker.py:66-70 | a handler key missing from the mapping leaves the whole session state unchanged |
| ProgressTracker.CountersMoveForwardByAtMostOne | app/utils/progress_tracker.py:83-133 | no counter appears or disappears, and a counter not at -1 never decreases and grows by at most one |
| ProgressTracker.CounterNeedsExistingKey | app/utils/progress_tracker.py:84-94 | when the agent's counter key is missing, no counter changes, and for a mapped handler the flags are exactly the tab switch's |
| ProgressTracker.LastStepRaisesCompletion | app/utils/progress_tracker.py:93-94 | requesting the last step raises the agent's completion flag |
| ProgressTracker.CompletionWithoutReachingLastStep | app/utils/progress_tracker.py:109-120 | jumping from step 1 to connection status moves the counter only to 2 but raises the completion flag |
| ProgressTracker.TabSwitchRule | app/utils/progress_tracker.py:73-81 | `active_tab` is set to the agent's tab only where it exists; `needs_rerun` is raised when the tab changes, and left as it was when the tab is absent or unchanged |
| ProgressTracker.NonLastStepKeepsCompletion | app/utils/progress_tracker.py:93-94 | a step other than the agent's last leaves its completion flag as it was |
| ProgressTracker.CounterBoundedOverRuns | app/utils/progress_tracker.py:83-133 | over any series of reports, a counter that has left -1 never decreases and grows by at most the number of reports |
| ProgressTracker.ReportAdvancesByOne | app/utils/progress_tracker.py:86-94 | reporting the step just after the counter moves the counter onto it, keeps a raised completion flag, and raises it at the last step |
| ProgressTracker.FiveStepAgents | app/utils/progress_tracker.py:21-41 | the retail, service and connection handlers map search to status onto steps 0 to 4, and their last step is 4 |
| ProgressTracker.FiveStepRunCompletes | app/utils/progress_tracker.py:83-120 | the five handlers reported in order from a counter at -1 leave it on step 4 with the completion flag raised |
| ProgressTracker.MappedStepsAreNamed | app/utils/progress_tracker.py:4-47 | every index in the mapping names a non-empty step of its agent's list |
| ProtocolClients.Client.Send | app/connection_agent/agent.py:106-109 | each request is logged, and its reply is the client's answer to a request at that position |
| StepHandlers.Exchange | app/connection_agent/agent.py:101-112 | merge, call, then record: a failed call raises with the merge done and nothing recorded; a reply is recorded under the step and returned |
| StepHandlers.HandleSearch | app/connection_agent/agent.py:48-70 | progress is reported; exactly one search request is sent; its reply is returned and recorded (the same handler as app/solar_retail_agent/agent.py:48-67); the history order is preserved |
| StepHandlers.HandleSelect | app/connection_agent/agent.py:73-114 | progress is reported first; without a truthy `search` entry, or then with an empty id, it raises with store and client untouched; otherwise the ids go into `connection_details`, a select is sent, and its reply is recorded (as app/solar_retail_agent/agent.py:70-105) |
| StepHandlers.HandleInit | app/connection_agent/agent.py:117-156 | without a truthy `select` entry it raises with nothing changed; otherwise the ids go into `user_details` and the init reply is recorded (as app/solar_retail_agent/agent.py:108-141) |
| StepHandlers.HandleConfirm | app/connection_agent/agent.py:159-214 | without a truthy `init` entry it raises with nothing changed; otherwise the six fields go into `connection_details` and the confirm reply is recorded; a failing call leaves the merge but no entry (as app/solar_retail_agent/agent.py:144-193) |
| StepHandlers.HandleStatus | app/connection_agent/agent.py:217-247 | without a truthy `confirm` entry it raises with nothing changed; otherwise `order_id` goes into `connection_details` and the status reply replaces any earlier `status` entry (as app/solar_retail_agent/agent.py:196-220) |
| StepHandlers.SharedSearchUnlocksRetailSelect | app/solar_retail_agent/agent.py:83-89 | a truthy search recorded by the connection agent, through its own client, in the shared store lets the retail select through to the retail agent's separate client: each client logs only its own request |
| SubsidyAgent.HandleSearch | app/subsidy_agent/agent.py:47-67 | reports progress as subsidy search, then fails on the missing `get_solar_details`; the store is untouched |
| SubsidyAgent.HandleConfirm | app/subsidy_agent/agent.py:70-120 | reports progress; without a truthy `init` entry it raises "Initialization must be done before confirmation"; otherwise it fails on the missing `update_subsidy_details`; never writes to the store |
| SubsidyAgent.HandleStatus | app/subsidy_agent/agent.py:123-147 | reports progress; without a truthy `confirm` entry it raises "Confirmation must be done before status check"; otherwise it fails on the missing `update_subsidy_details` |
| SubsidyAgent.SubsidyStepsAreMapped | app/utils/progress_tracker.py:43-46 | the subsidy handlers map to steps 0, 1 and 2, and the completion flag's step is the last of the three-step list |
| SubsidyAgent.InitFromConnectionAgent | app/subsidy_agent/agent.py:94-99 | an init recorded by the connection agent satisfies the subsidy confirm check, which then fails on the missing store method |
| ConnectionApis.MockSearch | app/beckn_apis/connection_apis.py:32-47 | a success response with one provider list, whatever the arguments |
| ConnectionApis.SearchCatalogueIsFixed | app/beckn_apis/connection_apis.py:35-47 | every search gives the same catalogue: one provider `prov_123` with items `item_resi_001` and `item_comm_001` |
| ConnectionApis.MockSelect | app/beckn_apis/connection_apis.py:50-61 | echoes provider, item and connection type in `selection_details`, with cost 150.0 and no `selection_id` key |
| ConnectionApis.MockInit | app/beckn_apis/connection_apis.py:64-71 | a `transaction_id` made of `txn_` and the generated suffix, and the selection id echoed |
| ConnectionApis.MockConfirm | app/beckn_apis/connection_apis.py:74-81 | a `confirmation_id` made of `conf_` and the generated suffix, and the transaction id echoed |
| ConnectionApis.MockStatus | app/beckn_apis/connection_apis.py:84-92 | echoes the transaction id with status "processing" |
| LegacyConnectionAgent.SelectionIdOf | app/agent.py:84-85 | the nested lookup of `selection_id`: None when either level is missing, AttributeError when a level is not a dict |
| LegacyConnectionAgent.TransactionIdOf | app/agent.py:113 | the recorded init response's `transaction_id`, None when absent, AttributeError when the response is not a dict |
| LegacyConnectionAgent.MockSelectHasNoSelectionId | app/beckn_apis/connection_apis.py:53-61 | the selection id init would read from a mock select response is None |
| LegacyConnectionAgent.MockInitHasTransactionId | app/beckn_apis/connection_apis.py:67-71 | the transaction id confirm reads from a mock init response is the truthy `txn_` id |
| LegacyConnectionAgent.AgentModule.HandleSearch | app/agent.py:10-31 | empty location or type raises with nothing changed; otherwise it stores the type and location and records the search, and then `.json()` on the dict raises AttributeError |
| LegacyConnectionAgent.AgentModule.HandleSelect | app/agent.py:34-58 | needs a truthy search; uses the argument or else the stored connection type; raises with nothing changed when an id or the resolved type is empty; otherwise stores the ids and records the mock select |
| LegacyConnectionAgent.AgentModule.HandleInit | app/agent.py:61-94 | needs a truthy select; merges the customer details first, so a missing selection id raises with `user_details` already changed; otherwise stores the id and records the mock init |
| LegacyConnectionAgent.AgentModule.HandleConfirm | app/agent.py:97-121 | needs a truthy init; takes the transaction id from the recorded init response, raises with nothing changed when it is absent, otherwise stores it and records the mock confirm |
| LegacyConnectionAgent.AgentModule.HandleStatus | app/agent.py:124-141 | no sequencing check; the argument, or else the stored transaction id; raises only when both are empty, otherwise records the mock status |
| LegacyConnectionAgent.AgentModule.Reset | app/agent.py:144-148 | `current_state` becomes None and the store returns to its initial state |
| LegacyConnectionAgent.AgentModule.SelectThenInit | app/agent.py:84-88 | after a successful select against the mock, init always raises "Selection ID not found", and the history holds only the new select entry on top of what it had |
| LegacyConnectionAgent.StatusBreaksOrder | app/agent.py:124-141 | from the initial state, a status call records `status` with no `confirm`: the order the newer agents keep is not kept here |

## Left out

- I/O is not modelled:
  - the `_save_context_store` JSON snapshots;
  - logging;
  - `print`;
  - `setup_output_dir`/`save_to_json` in the mocks.
- Protocol clients:
  - The real HTTP protocol clients (`BAPClient`, `SubsidyClient`) are not modelled. The newer agents' client is an abstract `ProtocolClients.Client`. It answers the n-th request with an arbitrary response or a failure.
  - A failure is surfaced unchanged as `RemoteError`.
- The UI:
  - The Streamlit UI is not modelled.
  - `st.session_state` appears only as far as the tracker reads and writes it: `active_tab`, the four counters, the completion flags and `needs_rerun`.
- The `uuid4()` suffixes of the mock ids are parameters; only their prefixes are fixed.
- Mock arguments left out:
  - The default argument values of the mocks are not modelled, because every caller passes all arguments.
  - The `customer_details` and `payment_details` arguments of mock init and confirm are left out, because the mocks only log them.
- Subsidy agent:
  - What the subsidy handlers would record if `ContextStore` had `get_solar_details`, `get_service_details` and `update_subsidy_details` is not modelled. As written, every subsidy handler fails on the first of these calls and records nothing.
  - The `SubsidyClient` calls after those lines are therefore unreachable and are not modelled.
- The solar-service agent has no handlers in this model. Its keys and step list exist in the tracker only; they are modelled there.
- Agent wiring:
  - The LLM agent wiring is not modelled: the `Agent(...)` constructions, the prompts and the tool registration.
  - Across domains, no code enforces the connection → retail → service ordering, so there is nothing to model.
- `app/app.py` is not part of this model. It is a console loop around a class app/agent.py does not define.
- ContextStores.ContextStore.GetValue: a dict built by the caller is not modelled. Python's `context.get(key, {})` for an unknown key returns a fresh empty dict; its `.get(subkey)` is None, which is what the model returns.
- Multi-handler runs: a run through all five handlers is stated in pieces.
  - Each handler's contract covers its own step.
  - `ProgressTracker.FiveStepRunCompletes` covers the progress of a whole run.
  - The shared-store methods cover two handlers in a row.
  - No single method chains all five handlers.
- Exceptions raised inside Python, such as `KeyError`, are only modelled where the code can reach them. A `.get` on a recorded response that is not a dict becomes `AttributeError("get")`.
