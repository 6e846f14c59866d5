/** What the step handlers of every agent share: the canonical step order, the messages of
    the exceptions they raise, the argument lists they merge into the store, and how a
    client reply turns into a recorded entry and a return value. */
module Sequencing {
  import opened Wrappers
  import opened Values
  import opened Dicts
  import opened ContextStores
  import opened ProtocolClients

  const SearchFirst := "Search must be performed before selection"
  const IdsRequired := "Provider ID and Item ID are required"
  const SelectFirst := "Selection must be made before initialization"
  const InitFirst := "Initialization must be done before confirmation"
  const ConfirmFirst := "Confirmation must be done before status check"

  /** Each step of the canonical order search, select, init, confirm, status that has a
      history entry has its predecessor's entry too. */
  predicate Ordered(history: Dict) {
    && ("select" in history.entries ==> "search" in history.entries)
    && ("init" in history.entries ==> "select" in history.entries)
    && ("confirm" in history.entries ==> "init" in history.entries)
    && ("status" in history.entries ==> "confirm" in history.entries)
  }

  /** The section a handler merges its arguments into. */
  datatype Target = IntoUser | IntoConnection

  /** `update_user_details(**kwargs)` or `update_connection_details(**kwargs)`. */
  function Merged(s: StoreState, target: Target, kwargs: seq<(string, Value)>): (t: StoreState)
    ensures t.history == s.history
  {
    match target
    case IntoUser => s.UpdateUserDetails(kwargs)
    case IntoConnection => s.UpdateConnectionDetails(kwargs)
  }

  /** `provider_id=..., item_id=...`. */
  function IdFields(providerId: string, itemId: string): seq<(string, Value)> {
    [("provider_id", Str(providerId)), ("item_id", Str(itemId))]
  }

  /** The six confirm arguments, as merged into `connection_details`. */
  function ConfirmFields(providerId: string, itemId: string, fulfillmentId: string,
                         customerName: string, customerPhone: string, customerEmail: string)
    : seq<(string, Value)>
  {
    [("provider_id", Str(providerId)), ("item_id", Str(itemId)), ("fulfillment_id", Str(fulfillmentId)),
     ("customer_name", Str(customerName)), ("customer_phone", Str(customerPhone)),
     ("customer_email", Str(customerEmail))]
  }

  /** What the handler returns for a reply: the response, or the client's failure unchanged. */
  function Returned(reply: Reply): (r: Result<Value, Error>)
    ensures reply.Success? ==> r == Success(reply.value)
    ensures reply.Failure? ==> r == Failure(RemoteError(reply.error))
  {
    match reply
    case Success(response) => Success(response)
    case Failure(reason) => Failure(RemoteError(reason))
  }

  /** The store after the client call: the response recorded under the step's name, or,
      when the call failed, nothing recorded. */
  function Recorded(s: StoreState, step: string, reply: Reply): (t: StoreState)
    ensures reply.Success? ==> t == s.AddTransactionHistory(step, reply.value)
    ensures reply.Failure? ==> t == s
  {
    if reply.Success? then s.AddTransactionHistory(step, reply.value) else s
  }
}
