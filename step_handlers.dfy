/** The five step handlers of the connection and solar-retail agents. The two agents share
    every line of them except the agent name they report progress under ("connection" or
    "solar_retail") and the client they send through, so both are given here once, with
    the agent name and the client as parameters.

    Every handler first reports its progress, then checks the predecessor step's entry in
    `transaction_history` (raising an exception that leaves the store as it was), then merges
    its arguments into the store, sends its request, and records the response under its own
    step name. A failed request raises after the merge and before the record. */
module StepHandlers {
  import opened Wrappers
  import opened Values
  import opened Dicts
  import opened ContextStores
  import opened ProgressTracker
  import opened ProtocolClients
  import opened Sequencing

  /** The part every handler ends with once its checks have passed: merge the arguments,
      send the request, and record the response under the step's name. */
  method Exchange(store: ContextStore, client: Client, target: Target, kwargs: seq<(string, Value)>,
                  request: Request, step: string)
    returns (r: Result<Value, Error>)
    requires store.Valid()
    modifies store.Sections(), client
    ensures store.Valid()
    ensures client.sent == old(client.sent) + [request]
    ensures var reply := client.respond(|old(client.sent)|, request);
      r == Returned(reply) && store.Contents() == Recorded(Merged(old(store.Contents()), target, kwargs), step, reply)
  {
    if target == IntoUser {
      store.UpdateUserDetails(kwargs);
    } else {
      store.UpdateConnectionDetails(kwargs);
    }
    var reply := client.Send(request);
    if reply.Failure? {
      return Failure(RemoteError(reply.error));
    }
    store.AddTransactionHistory(step, reply.value);
    return Success(reply.value);
  }

  /** `_handle_search()`: merges nothing into either section, sends a search and records its
      response. */
  method HandleSearch(agent: string, store: ContextStore, session: SessionState, client: Client)
    returns (r: Result<Value, Error>)
    requires store.Valid()
    modifies store.Sections(), session, client
    ensures store.Valid()
    ensures session.Contents() == ProgressAfter(old(session.Contents()), agent, "search")
    ensures client.sent == old(client.sent) + [Search]
    ensures var reply := client.respond(|old(client.sent)|, Search);
      r == Returned(reply) && store.Contents() == Recorded(old(store.Contents()), "search", reply)
    ensures Ordered(old(store.Contents()).history) ==> Ordered(store.Contents().history)
  {
    session.UpdateProgressByHandler(agent, "search");
    ghost var before := store.Contents();
    store.UpdateConnectionDetails([]);
    assert store.Contents() == before;
    r := Exchange(store, client, IntoUser, [], Search, "search");
  }

  /** `_handle_select(provider_id, item_id)`: needs a search, then both identifiers non-empty. */
  method HandleSelect(agent: string, store: ContextStore, session: SessionState, client: Client,
                      providerId: string, itemId: string)
    returns (r: Result<Value, Error>)
    requires store.Valid()
    modifies store.Sections(), session, client
    ensures store.Valid()
    ensures session.Contents() == ProgressAfter(old(session.Contents()), agent, "select")
    ensures !old(store.Contents()).StepDone("search") ==>
      r == Failure(Raised(SearchFirst)) && store.Contents() == old(store.Contents()) && client.sent == old(client.sent)
    ensures old(store.Contents()).StepDone("search") && (providerId == "" || itemId == "") ==>
      r == Failure(Raised(IdsRequired)) && store.Contents() == old(store.Contents()) && client.sent == old(client.sent)
    ensures old(store.Contents()).StepDone("search") && providerId != "" && itemId != "" ==>
      var request := Select(providerId, itemId);
      var reply := client.respond(|old(client.sent)|, request);
      client.sent == old(client.sent) + [request] && r == Returned(reply) &&
      store.Contents() == Recorded(old(store.Contents()).UpdateConnectionDetails(IdFields(providerId, itemId)), "select", reply)
    ensures Ordered(old(store.Contents()).history) ==> Ordered(store.Contents().history)
  {
    session.UpdateProgressByHandler(agent, "select");
    var history := store.GetTransactionHistory();
    if !Truthy(history.contents.Get("search")) {
      return Failure(Raised(SearchFirst));
    }
    if providerId == "" || itemId == "" {
      return Failure(Raised(IdsRequired));
    }
    r := Exchange(store, client, IntoConnection, IdFields(providerId, itemId), Select(providerId, itemId), "select");
  }

  /** `_handle_init(provider_id, item_id)`: needs a selection; merges the identifiers into the
      user details (not the connection details). */
  method HandleInit(agent: string, store: ContextStore, session: SessionState, client: Client,
                    providerId: string, itemId: string)
    returns (r: Result<Value, Error>)
    requires store.Valid()
    modifies store.Sections(), session, client
    ensures store.Valid()
    ensures session.Contents() == ProgressAfter(old(session.Contents()), agent, "init")
    ensures !old(store.Contents()).StepDone("select") ==>
      r == Failure(Raised(SelectFirst)) && store.Contents() == old(store.Contents()) && client.sent == old(client.sent)
    ensures old(store.Contents()).StepDone("select") ==>
      var request := Init(providerId, itemId);
      var reply := client.respond(|old(client.sent)|, request);
      client.sent == old(client.sent) + [request] && r == Returned(reply) &&
      store.Contents() == Recorded(old(store.Contents()).UpdateUserDetails(IdFields(providerId, itemId)), "init", reply)
    ensures Ordered(old(store.Contents()).history) ==> Ordered(store.Contents().history)
  {
    session.UpdateProgressByHandler(agent, "init");
    var history := store.GetTransactionHistory();
    if !Truthy(history.contents.Get("select")) {
      return Failure(Raised(SelectFirst));
    }
    r := Exchange(store, client, IntoUser, IdFields(providerId, itemId), Init(providerId, itemId), "init");
  }

  /** `_handle_confirm(...)`: needs an initialisation; merges the six arguments into the
      connection details. */
  method HandleConfirm(agent: string, store: ContextStore, session: SessionState, client: Client,
                       providerId: string, itemId: string, fulfillmentId: string,
                       customerName: string, customerPhone: string, customerEmail: string)
    returns (r: Result<Value, Error>)
    requires store.Valid()
    modifies store.Sections(), session, client
    ensures store.Valid()
    ensures session.Contents() == ProgressAfter(old(session.Contents()), agent, "confirm")
    ensures !old(store.Contents()).StepDone("init") ==>
      r == Failure(Raised(InitFirst)) && store.Contents() == old(store.Contents()) && client.sent == old(client.sent)
    ensures old(store.Contents()).StepDone("init") ==>
      var request := Confirm(providerId, itemId, fulfillmentId, customerName, customerPhone, customerEmail);
      var reply := client.respond(|old(client.sent)|, request);
      client.sent == old(client.sent) + [request] && r == Returned(reply) &&
      store.Contents() == Recorded(old(store.Contents()).UpdateConnectionDetails(
        ConfirmFields(providerId, itemId, fulfillmentId, customerName, customerPhone, customerEmail)), "confirm", reply)
    ensures Ordered(old(store.Contents()).history) ==> Ordered(store.Contents().history)
  {
    session.UpdateProgressByHandler(agent, "confirm");
    var history := store.GetTransactionHistory();
    if !Truthy(history.contents.Get("init")) {
      return Failure(Raised(InitFirst));
    }
    r := Exchange(store, client, IntoConnection,
                  ConfirmFields(providerId, itemId, fulfillmentId, customerName, customerPhone, customerEmail),
                  Confirm(providerId, itemId, fulfillmentId, customerName, customerPhone, customerEmail), "confirm");
  }

  /** `_handle_status(order_id)`: needs a confirmation; merges `order_id` into the connection
      details. */
  method HandleStatus(agent: string, store: ContextStore, session: SessionState, client: Client,
                      orderId: string)
    returns (r: Result<Value, Error>)
    requires store.Valid()
    modifies store.Sections(), session, client
    ensures store.Valid()
    ensures session.Contents() == ProgressAfter(old(session.Contents()), agent, "status")
    ensures !old(store.Contents()).StepDone("confirm") ==>
      r == Failure(Raised(ConfirmFirst)) && store.Contents() == old(store.Contents()) && client.sent == old(client.sent)
    ensures old(store.Contents()).StepDone("confirm") ==>
      var request := Status(orderId);
      var reply := client.respond(|old(client.sent)|, request);
      client.sent == old(client.sent) + [request] && r == Returned(reply) &&
      store.Contents() == Recorded(old(store.Contents()).UpdateConnectionDetails([("order_id", Str(orderId))]), "status", reply)
    ensures Ordered(old(store.Contents()).history) ==> Ordered(store.Contents().history)
  {
    session.UpdateProgressByHandler(agent, "status");
    var history := store.GetTransactionHistory();
    if !Truthy(history.contents.Get("confirm")) {
      return Failure(Raised(ConfirmFirst));
    }
    r := Exchange(store, client, IntoConnection, [("order_id", Str(orderId))], Status(orderId), "status");
  }

  /** The store is the one shared singleton, so a search recorded by the connection agent
      already satisfies the retail agent's select check: the select goes out to the retail
      agent's own client. */
  method SharedSearchUnlocksRetailSelect(store: ContextStore, session: SessionState,
                                         connectionClient: Client, retailClient: Client,
                                         providerId: string, itemId: string)
    returns (searched: Result<Value, Error>, selected: Result<Value, Error>)
    requires store.Valid() && connectionClient != retailClient
    requires providerId != "" && itemId != ""
    requires connectionClient.respond(|connectionClient.sent|, Search).Success?
    requires Truthy(connectionClient.respond(|connectionClient.sent|, Search).value)
    modifies store.Sections(), session, connectionClient, retailClient
    ensures connectionClient.sent == old(connectionClient.sent) + [Search]
    ensures retailClient.sent == old(retailClient.sent) + [Select(providerId, itemId)]
    ensures selected == Returned(retailClient.respond(|old(retailClient.sent)|, Select(providerId, itemId)))
  {
    ghost var before := store.Contents();
    ghost var retailLog := retailClient.sent;
    searched := HandleSearch("connection", store, session, connectionClient);
    RecordSetsOneStep(before, "search", searched.value);
    assert store.Contents().StepDone("search");
    assert retailClient.sent == retailLog;
    ghost var connectionLog := connectionClient.sent;
    assert connectionClient !in store.Sections();
    selected := HandleSelect("solar_retail", store, session, retailClient, providerId, itemId);
    assert connectionClient.sent == connectionLog;
  }
}
