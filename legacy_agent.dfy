/** The older connection agent (app/agent.py). It calls the mock responders of
    app/beckn_apis/connection_apis.py directly, reports no progress, and reads the ids it
    needs back out of the responses it recorded earlier. Its module-level globals, the
    store and `current_state`, are the fields of `AgentModule`. */
module LegacyConnectionAgent {
  import opened Wrappers
  import opened Values
  import opened Dicts
  import opened ContextStores
  import opened Sequencing
  import opened ConnectionApis

  const LocationRequired := "Location and connection type are required for search"
  const SelectionFieldsRequired := "Provider ID, Item ID, and connection type are required"
  const SelectionIdMissing := "Selection ID not found"
  const TransactionIdMissing := "Transaction ID not found"
  const TransactionIdRequired := "Transaction ID is required"

  /** `init_data`, as merged into `user_details`. */
  function InitData(name: string, phone: string, email: string, address: string): seq<(string, Value)> {
    [("name", Str(name)), ("phone", Str(phone)), ("email", Str(email)), ("address", Str(address))]
  }

  /** `history['select'].get('selection_details', {}).get('selection_id')`. */
  function SelectionIdOf(selectResponse: Value): (r: Result<Value, Error>)
    ensures !selectResponse.Object? ==> r == Failure(AttributeError("get"))
    ensures selectResponse.Object? && "selection_details" !in selectResponse.fields ==> r == Success(Null)
    ensures selectResponse.Object? && "selection_details" in selectResponse.fields ==>
      var details := selectResponse.fields["selection_details"];
      (!details.Object? ==> r == Failure(AttributeError("get"))) &&
      (details.Object? && "selection_id" in details.fields ==> r == Success(details.fields["selection_id"])) &&
      (details.Object? && "selection_id" !in details.fields ==> r == Success(Null))
  {
    match GetOr(selectResponse, "selection_details", Object(map[]))
    case Failure(e) => Failure(e)
    case Success(details) => GetOr(details, "selection_id", Null)
  }

  /** `history['init'].get('transaction_id')`. */
  function TransactionIdOf(initResponse: Value): (r: Result<Value, Error>)
    ensures !initResponse.Object? ==> r == Failure(AttributeError("get"))
    ensures initResponse.Object? && "transaction_id" in initResponse.fields ==> r == Success(initResponse.fields["transaction_id"])
    ensures initResponse.Object? && "transaction_id" !in initResponse.fields ==> r == Success(Null)
  {
    GetOr(initResponse, "transaction_id", Null)
  }

  /** The mock select response carries no `selection_id`, so the id init looks up is None. */
  lemma MockSelectHasNoSelectionId(providerId: string, itemId: string, connectionType: Value)
    ensures SelectionIdOf(MockSelect(providerId, itemId, connectionType)) == Success(Null)
  {
    var response := MockSelect(providerId, itemId, connectionType);
    assert "selection_details" in response.fields;
    assert "selection_id" !in response.fields["selection_details"].fields;
  }

  /** The mock init response carries its `txn_` id, which confirm then finds. */
  lemma MockInitHasTransactionId(selectionId: Value, uuid: string)
    ensures TransactionIdOf(MockInit(selectionId, uuid)) == Success(Str("txn_" + uuid))
    ensures Truthy(TransactionIdOf(MockInit(selectionId, uuid)).value)
  {
    var response := MockInit(selectionId, uuid);
    assert "transaction_id" in response.fields;
  }

  /** The module's globals: the shared store and `current_state`. */
  class AgentModule {
    const store: ContextStore
    var currentState: Value

    ghost predicate Valid()
      reads this, store, store.Sections()
    {
      store.Valid()
    }

    constructor (store: ContextStore)
      ensures this.store == store && currentState == Null
    {
      this.store := store;
      currentState := Null;
    }

    /** `_handle_search(location, connection_type)`: after recording the search it calls
        `.json()` on the response dict, which raises AttributeError, so the caller never sees
        the response although it is recorded. */
    method HandleSearch(location: string, connectionType: string) returns (r: Result<Value, Error>)
      requires Valid()
      modifies store.Sections()
      ensures Valid()
      ensures location == "" || connectionType == "" ==>
        r == Failure(Raised(LocationRequired)) && store.Contents() == old(store.Contents())
      ensures location != "" && connectionType != "" ==>
        r == Failure(AttributeError("json")) &&
        store.Contents() == old(store.Contents())
          .UpdateConnectionDetails([("connection_type", Str(connectionType))])
          .UpdateUserDetails([("location", Str(location))])
          .AddTransactionHistory("search", MockSearch(location, connectionType))
      ensures location != "" && connectionType != "" ==> store.Contents().StepDone("search")
      ensures Ordered(old(store.Contents()).history) ==> Ordered(store.Contents().history)
    {
      if location == "" || connectionType == "" {
        return Failure(Raised(LocationRequired));
      }
      store.UpdateConnectionDetails([("connection_type", Str(connectionType))]);
      store.UpdateUserDetails([("location", Str(location))]);
      var response := MockSearch(location, connectionType);
      store.AddTransactionHistory("search", response);
      return Failure(AttributeError("json"));
    }

    /** `_handle_select(provider_id, item_id, connection_type=None)`: the argument, or else
        the stored connection type. */
    method HandleSelect(providerId: string, itemId: string, connectionType: Option<string>)
      returns (r: Result<Value, Error>)
      requires Valid()
      modifies store.Sections()
      ensures Valid()
      ensures !old(store.Contents()).StepDone("search") ==>
        r == Failure(Raised(SearchFirst)) && store.Contents() == old(store.Contents())
      ensures var resolved := Or(FromOptional(connectionType), old(store.Contents()).connection.Get("connection_type"));
        old(store.Contents()).StepDone("search") && (providerId == "" || itemId == "" || !Truthy(resolved)) ==>
        r == Failure(Raised(SelectionFieldsRequired)) && store.Contents() == old(store.Contents())
      ensures var resolved := Or(FromOptional(connectionType), old(store.Contents()).connection.Get("connection_type"));
        old(store.Contents()).StepDone("search") && providerId != "" && itemId != "" && Truthy(resolved) ==>
        r == Success(MockSelect(providerId, itemId, resolved)) &&
        store.Contents() == old(store.Contents()).UpdateConnectionDetails(IdFields(providerId, itemId))
          .AddTransactionHistory("select", MockSelect(providerId, itemId, resolved))
      ensures Ordered(old(store.Contents()).history) ==> Ordered(store.Contents().history)
    {
      var history := store.GetTransactionHistory();
      if !Truthy(history.contents.Get("search")) {
        return Failure(Raised(SearchFirst));
      }
      var lookup := store.GetValue(ConnectionSection, Some("connection_type"));
      var stored := if lookup.Plain? then lookup.v else Null;
      var resolved := Or(FromOptional(connectionType), stored);
      if providerId == "" || itemId == "" || !Truthy(resolved) {
        return Failure(Raised(SelectionFieldsRequired));
      }
      store.UpdateConnectionDetails(IdFields(providerId, itemId));
      var response := MockSelect(providerId, itemId, resolved);
      store.AddTransactionHistory("select", response);
      return Success(response);
    }

    /** `_handle_init(name, phone, email, address)`: merges the customer details before it
        looks up the selection id, so a missing id raises with `user_details` changed. */
    method HandleInit(name: string, phone: string, email: string, address: string, uuid: string)
      returns (r: Result<Value, Error>)
      requires Valid()
      modifies store.Sections()
      ensures Valid()
      ensures !old(store.Contents()).StepDone("select") ==>
        r == Failure(Raised(SelectFirst)) && store.Contents() == old(store.Contents())
      ensures var merged := old(store.Contents()).UpdateUserDetails(InitData(name, phone, email, address));
        var id := SelectionIdOf(old(store.Contents()).history.Get("select"));
        old(store.Contents()).StepDone("select") ==>
        (id.Failure? ==> r == Failure(id.error) && store.Contents() == merged) &&
        (id.Success? && !Truthy(id.value) ==> r == Failure(Raised(SelectionIdMissing)) && store.Contents() == merged) &&
        (id.Success? && Truthy(id.value) ==>
          r == Success(MockInit(id.value, uuid)) &&
          store.Contents() == merged.UpdateConnectionDetails([("selection_id", id.value)])
            .AddTransactionHistory("init", MockInit(id.value, uuid)))
      ensures Ordered(old(store.Contents()).history) ==> Ordered(store.Contents().history)
    {
      var history := store.GetTransactionHistory();
      if !Truthy(history.contents.Get("select")) {
        return Failure(Raised(SelectFirst));
      }
      store.UpdateUserDetails(InitData(name, phone, email, address));
      history := store.GetTransactionHistory();
      var id := SelectionIdOf(history.contents.Get("select"));
      if id.Failure? {
        return Failure(id.error);
      }
      if !Truthy(id.value) {
        return Failure(Raised(SelectionIdMissing));
      }
      store.UpdateConnectionDetails([("selection_id", id.value)]);
      var response := MockInit(id.value, uuid);
      store.AddTransactionHistory("init", response);
      return Success(response);
    }

    /** `_handle_confirm(payment_method, payment_id)`: the transaction id comes from the
        recorded init response; the payment details are only passed on to the mock. */
    method HandleConfirm(paymentMethod: string, paymentId: string, uuid: string)
      returns (r: Result<Value, Error>)
      requires Valid()
      modifies store.Sections()
      ensures Valid()
      ensures !old(store.Contents()).StepDone("init") ==>
        r == Failure(Raised(InitFirst)) && store.Contents() == old(store.Contents())
      ensures var id := TransactionIdOf(old(store.Contents()).history.Get("init"));
        old(store.Contents()).StepDone("init") ==>
        (id.Failure? ==> r == Failure(id.error) && store.Contents() == old(store.Contents())) &&
        (id.Success? && !Truthy(id.value) ==>
          r == Failure(Raised(TransactionIdMissing)) && store.Contents() == old(store.Contents())) &&
        (id.Success? && Truthy(id.value) ==>
          r == Success(MockConfirm(id.value, uuid)) &&
          store.Contents() == old(store.Contents()).UpdateConnectionDetails([("transaction_id", id.value)])
            .AddTransactionHistory("confirm", MockConfirm(id.value, uuid)))
      ensures Ordered(old(store.Contents()).history) ==> Ordered(store.Contents().history)
    {
      var history := store.GetTransactionHistory();
      if !Truthy(history.contents.Get("init")) {
        return Failure(Raised(InitFirst));
      }
      var id := TransactionIdOf(history.contents.Get("init"));
      if id.Failure? {
        return Failure(id.error);
      }
      if !Truthy(id.value) {
        return Failure(Raised(TransactionIdMissing));
      }
      store.UpdateConnectionDetails([("transaction_id", id.value)]);
      var response := MockConfirm(id.value, uuid);
      store.AddTransactionHistory("confirm", response);
      return Success(response);
    }

    /** `_handle_status(transaction_id=None)`: no check of earlier steps at all; the argument,
        or else the stored transaction id. */
    method HandleStatus(transactionId: Option<string>) returns (r: Result<Value, Error>)
      requires Valid()
      modifies store.Sections()
      ensures Valid()
      ensures var id := Or(FromOptional(transactionId), old(store.Contents()).connection.Get("transaction_id"));
        !Truthy(id) ==> r == Failure(Raised(TransactionIdRequired)) && store.Contents() == old(store.Contents())
      ensures var id := Or(FromOptional(transactionId), old(store.Contents()).connection.Get("transaction_id"));
        Truthy(id) ==>
        r == Success(MockStatus(id)) &&
        store.Contents() == old(store.Contents()).AddTransactionHistory("status", MockStatus(id))
    {
      var lookup := store.GetValue(ConnectionSection, Some("transaction_id"));
      var stored := if lookup.Plain? then lookup.v else Null;
      var id := Or(FromOptional(transactionId), stored);
      if !Truthy(id) {
        return Failure(Raised(TransactionIdRequired));
      }
      var response := MockStatus(id);
      store.AddTransactionHistory("status", response);
      return Success(response);
    }

    /** A select answered by the mock, followed by init: the mock's response has no
        `selection_id`, so init always raises, after merging the customer details, and
        records nothing. */
    method SelectThenInit(providerId: string, itemId: string, connectionType: Option<string>,
                          name: string, phone: string, email: string, address: string, uuid: string)
      returns (selected: Result<Value, Error>, initialised: Result<Value, Error>)
      requires Valid()
      modifies store.Sections()
      ensures Valid()
      ensures selected.Success? ==> initialised == Failure(Raised(SelectionIdMissing))
      ensures selected.Success? ==> store.Contents().history == old(store.Contents()).history.Set("select", selected.value)
    {
      ghost var before := store.Contents();
      selected := HandleSelect(providerId, itemId, connectionType);
      if selected.Success? {
        ghost var resolved := Or(FromOptional(connectionType), before.connection.Get("connection_type"));
        RecordSetsOneStep(before.UpdateConnectionDetails(IdFields(providerId, itemId)), "select", selected.value);
        MockSelectHasNoSelectionId(providerId, itemId, resolved);
      }
      initialised := HandleInit(name, phone, email, address, uuid);
    }

    /** `reset()`: clears `current_state` and returns the store to its initial state. */
    method Reset()
      requires Valid()
      modifies this, store
      ensures Valid()
      ensures currentState == Null
      ensures store.Contents() == Initial()
    {
      currentState := Null;
      store.Reset();
    }
  }

  /** Status skips the sequencing the newer agents enforce: from the initial state, a status
      call with an explicit id records `status` with no `confirm` before it. */
  lemma StatusBreaksOrder(transactionId: string)
    requires transactionId != ""
    ensures Ordered(Initial().history)
    ensures !Ordered(Initial().AddTransactionHistory("status", MockStatus(Str(transactionId))).history)
  {
    RecordSetsOneStep(Initial(), "status", MockStatus(Str(transactionId)));
    SetProperties(Initial().history, "status", MockStatus(Str(transactionId)));
  }
}
