/** The protocol client the handlers call (`BAPClient`, `SubsidyClient`). Its network side is
    not modelled: the reply to each request is whatever the remote side gives, a response
    or a failure. */
module ProtocolClients {
  import opened Wrappers
  import opened Values

  /** The five client calls and their arguments. */
  datatype Request =
    | Search
    | Select(providerId: string, itemId: string)
    | Init(providerId: string, itemId: string)
    | Confirm(providerId: string, itemId: string, fulfillmentId: string,
              customerName: string, customerPhone: string, customerEmail: string)
    | Status(orderId: string)

  /** A response (`resp.json()`), or the failure the call raised (`raise_for_status`). */
  type Reply = Result<Value, string>

  class Client {
    /** The remote side: the reply to the n-th request sent (counting from 0). */
    const respond: (nat, Request) -> Reply
    /** Every request sent so far, in order. */
    var sent: seq<Request>

    constructor (respond: (nat, Request) -> Reply)
      ensures this.respond == respond && sent == []
    {
      this.respond := respond;
      sent := [];
    }

    method Send(request: Request) returns (reply: Reply)
      modifies this
      ensures sent == old(sent) + [request]
      ensures reply == respond(|old(sent)|, request)
    {
      reply := respond(|sent|, request);
      sent := sent + [request];
    }
  }
}
