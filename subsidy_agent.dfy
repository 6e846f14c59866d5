/** The subsidy agent's three handlers (app/subsidy_agent/agent.py). Each reports its progress
    under "subsidy" first. Search then asks the store for `get_solar_details`, and confirm and
    status, once their predecessor check passes, call `update_subsidy_details`; `ContextStore`
    defines neither, so as written every handler that gets that far raises AttributeError
    before its client call, and the subsidy agent never writes to the store. */
module SubsidyAgent {
  import opened Wrappers
  import opened Values
  import opened ContextStores
  import opened ProgressTracker
  import opened Sequencing
  import opened ProtocolClients
  import StepHandlers

  const Agent := "subsidy"

  /** `_handle_search()`. */
  method HandleSearch(store: ContextStore, session: SessionState) returns (r: Result<Value, Error>)
    requires store.Valid()
    modifies session
    ensures session.Contents() == ProgressAfter(old(session.Contents()), Agent, "search")
    ensures r == Failure(AttributeError("get_solar_details"))
  {
    session.UpdateProgressByHandler(Agent, "search");
    return Failure(AttributeError("get_solar_details"));
  }

  /** `_handle_confirm(...)`: needs an `init` entry, which only another agent writes, since the
      subsidy agent has no init handler. */
  method HandleConfirm(store: ContextStore, session: SessionState,
                       providerId: string, itemId: string, fulfillmentId: string,
                       customerName: string, customerPhone: string, customerEmail: string)
    returns (r: Result<Value, Error>)
    requires store.Valid()
    modifies session
    ensures session.Contents() == ProgressAfter(old(session.Contents()), Agent, "confirm")
    ensures !store.Contents().StepDone("init") ==> r == Failure(Raised(InitFirst))
    ensures store.Contents().StepDone("init") ==> r == Failure(AttributeError("update_subsidy_details"))
  {
    session.UpdateProgressByHandler(Agent, "confirm");
    var history := store.GetTransactionHistory();
    if !Truthy(history.contents.Get("init")) {
      return Failure(Raised(InitFirst));
    }
    return Failure(AttributeError("update_subsidy_details"));
  }

  /** `_handle_status(order_id)`: needs a `confirm` entry. */
  method HandleStatus(store: ContextStore, session: SessionState, orderId: string)
    returns (r: Result<Value, Error>)
    requires store.Valid()
    modifies session
    ensures session.Contents() == ProgressAfter(old(session.Contents()), Agent, "status")
    ensures !store.Contents().StepDone("confirm") ==> r == Failure(Raised(ConfirmFirst))
    ensures store.Contents().StepDone("confirm") ==> r == Failure(AttributeError("update_subsidy_details"))
  {
    session.UpdateProgressByHandler(Agent, "status");
    var history := store.GetTransactionHistory();
    if !Truthy(history.contents.Get("confirm")) {
      return Failure(Raised(ConfirmFirst));
    }
    return Failure(AttributeError("update_subsidy_details"));
  }

  /** The subsidy counter runs over three steps and its completion flag is raised at status. */
  lemma SubsidyStepsAreMapped()
    ensures HandlerKey(Agent, "search") in HandlerToStepMapping && HandlerToStepMapping[HandlerKey(Agent, "search")] == 0
    ensures HandlerKey(Agent, "confirm") in HandlerToStepMapping && HandlerToStepMapping[HandlerKey(Agent, "confirm")] == 1
    ensures HandlerKey(Agent, "status") in HandlerToStepMapping && HandlerToStepMapping[HandlerKey(Agent, "status")] == 2
    ensures CounterOf(Agent).Some? && CounterOf(Agent).value.lastStep == 2 == |SubsidySteps| - 1
  {
    assert HandlerKey(Agent, "search") == "subsidy_search";
    assert HandlerKey(Agent, "confirm") == "subsidy_confirm";
    assert HandlerKey(Agent, "status") == "subsidy_status";
  }

  /** The subsidy `init` entry has to come from another agent through the shared store: once
      the connection agent's init has been recorded, subsidy confirm passes its check, and
      then fails on the missing store method. */
  method InitFromConnectionAgent(store: ContextStore, session: SessionState, client: Client,
                                 providerId: string, itemId: string)
    returns (initialised: Result<Value, Error>, confirmed: Result<Value, Error>)
    requires store.Valid() && store.Contents().StepDone("select")
    requires client.respond(|client.sent|, Init(providerId, itemId)).Success?
    requires Truthy(client.respond(|client.sent|, Init(providerId, itemId)).value)
    modifies store.Sections(), session, client
    ensures initialised.Success?
    ensures confirmed == Failure(AttributeError("update_subsidy_details"))
  {
    ghost var before := store.Contents();
    initialised := StepHandlers.HandleInit("connection", store, session, client, providerId, itemId);
    RecordSetsOneStep(before.UpdateUserDetails(IdFields(providerId, itemId)), "init", initialised.value);
    confirmed := HandleConfirm(store, session, providerId, itemId, "", "", "", "");
  }
}
