/** The mock responders of app/beckn_apis/connection_apis.py: each builds a fixed-shape
    response dict from its arguments. The random `uuid4()` suffixes of the generated ids are
    parameters here, since only their prefixes are fixed. */
module ConnectionApis {
  import opened Values

  const StatusSuccess := Str("success")

  /** The catalogue item with the given id, name and connection type. */
  function CatalogueItem(id: string, name: string, kind: string): Value {
    Object(map["id" := Str(id), "name" := Str(name), "type" := Str(kind)])
  }

  /** The one provider every search returns. */
  const MockProvider: Value := Object(map[
    "id" := Str("prov_123"),
    "name" := Str("Mock Electric Co"),
    "items" := List([
      CatalogueItem("item_resi_001", "Standard Residential Connection", "Residential"),
      CatalogueItem("item_comm_001", "Basic Commercial Connection", "Commercial")])])

  /** `search(location, connection_type)`: the arguments are only logged. */
  function MockSearch(location: string, connectionType: string): (r: Value)
    ensures r.Object? && r.fields.Keys == {"status", "providers"}
    ensures r.fields["status"] == StatusSuccess
    ensures r.fields["providers"] == List([MockProvider])
    ensures Truthy(r)
  {
    Object(map["status" := StatusSuccess, "providers" := List([MockProvider])])
  }

  /** The catalogue holds one provider, `prov_123`, offering `item_resi_001` and
      `item_comm_001`, whatever the search asked for. */
  lemma SearchCatalogueIsFixed(location: string, connectionType: string, location': string, connectionType': string)
    ensures MockSearch(location, connectionType) == MockSearch(location', connectionType')
    ensures var providers := MockSearch(location, connectionType).fields["providers"].items;
      |providers| == 1 && providers[0].fields["id"] == Str("prov_123") &&
      providers[0].fields["items"].items[0].fields["id"] == Str("item_resi_001") &&
      providers[0].fields["items"].items[1].fields["id"] == Str("item_comm_001") &&
      |providers[0].fields["items"].items| == 2
  {
    var providers := MockSearch(location, connectionType).fields["providers"].items;
    assert providers == [MockProvider];
  }

  /** `select(provider_id, item_id, connection_type)`: echoes its arguments with a fixed
      estimated cost. The connection type is whatever value the caller resolved, so it is a
      `Value`. */
  function MockSelect(providerId: string, itemId: string, connectionType: Value): (r: Value)
    ensures r.Object? && r.fields.Keys == {"status", "selection_details"}
    ensures r.fields["status"] == StatusSuccess
    ensures var details := r.fields["selection_details"];
      details.Object? &&
      details.fields.Keys == {"provider_id", "item_id", "connection_type", "estimated_cost"} &&
      details.fields["provider_id"] == Str(providerId) &&
      details.fields["item_id"] == Str(itemId) &&
      details.fields["connection_type"] == connectionType &&
      details.fields["estimated_cost"] == Real(150.0)
    ensures "selection_id" !in r.fields["selection_details"].fields
    ensures Truthy(r)
  {
    Object(map[
      "status" := StatusSuccess,
      "selection_details" := Object(map[
        "provider_id" := Str(providerId),
        "item_id" := Str(itemId),
        "connection_type" := connectionType,
        "estimated_cost" := Real(150.0)])])
  }

  /** `init(selection_id, customer_details)`: a fresh `txn_` id; the customer details are only
      logged. */
  function MockInit(selectionId: Value, uuid: string): (r: Value)
    ensures r.Object? && r.fields.Keys == {"status", "transaction_id", "selection_id"}
    ensures r.fields["status"] == StatusSuccess
    ensures r.fields["selection_id"] == selectionId
    ensures r.fields["transaction_id"].Str? && |r.fields["transaction_id"].s| == 4 + |uuid|
    ensures r.fields["transaction_id"].s[..4] == "txn_"
    ensures r.fields["transaction_id"].s[4..] == uuid
    ensures Truthy(r)
  {
    Object(map["status" := StatusSuccess, "transaction_id" := Str("txn_" + uuid), "selection_id" := selectionId])
  }

  /** `confirm(transaction_id, payment_details)`: a fresh `conf_` id; the payment details are
      only logged. */
  function MockConfirm(transactionId: Value, uuid: string): (r: Value)
    ensures r.Object? && r.fields.Keys == {"status", "confirmation_id", "transaction_id"}
    ensures r.fields["status"] == StatusSuccess
    ensures r.fields["transaction_id"] == transactionId
    ensures r.fields["confirmation_id"].Str? && |r.fields["confirmation_id"].s| == 5 + |uuid|
    ensures r.fields["confirmation_id"].s[..5] == "conf_"
    ensures r.fields["confirmation_id"].s[5..] == uuid
    ensures Truthy(r)
  {
    Object(map["status" := StatusSuccess, "confirmation_id" := Str("conf_" + uuid), "transaction_id" := transactionId])
  }

  /** `status(transaction_id)`: always still processing. */
  function MockStatus(transactionId: Value): (r: Value)
    ensures r.Object? && r.fields.Keys == {"status", "transaction_status", "transaction_id", "estimated_completion"}
    ensures r.fields["status"] == StatusSuccess
    ensures r.fields["transaction_status"] == Str("processing")
    ensures r.fields["transaction_id"] == transactionId
    ensures r.fields["estimated_completion"] == Str("2024-02-01")
    ensures Truthy(r)
  {
    Object(map[
      "status" := StatusSuccess,
      "transaction_status" := Str("processing"),
      "transaction_id" := transactionId,
      "estimated_completion" := Str("2024-02-01")])
  }
}
