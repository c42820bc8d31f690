/**
  What the payment gateway answers and what the service sends back to its
  client: the gateway outcome of one outbound call, the `details` of a
  failure, and the HTTP responses of both endpoints.
 */
module Envelopes {
  import opened Wrappers
  import opened Js

  /**
    The outcome of one outbound call. A reply carries the decoded response
    body; a failure carries `err.response?.data` (None when the gateway was not
    reached or sent no response) and `err.message`.
   */
  datatype GatewayResult<T> =
    | Reply(value: T)
    | Failure(body: Option<Json>, message: string)

  /** The `details` of an error envelope: the upstream body, or else the error message. */
  datatype Details = Upstream(body: Json) | Message(text: string)

  datatype Body =
    | ErrorBody(error: string)
    | ErrorWithDetails(error: string, details: Details)
    | CheckoutCreated(success: bool, sessionId: Option<string>, paymentUrl: Option<string>,
                      cancelUrl: Option<string>, message: string)
    | Document(doc: Json)

  datatype Response = Response(status: nat, body: Body)

  /** `err.response?.data || err.message`. */
  function FailureDetails(body: Option<Json>, message: string): (d: Details)
    ensures d.Upstream? <==> body.Some? && Truthy(body.value)
    ensures d.Upstream? ==> d.body == body.value
    ensures d.Message? ==> d.text == message
  {
    if body.Some? && Truthy(body.value) then Upstream(body.value) else Message(message)
  }
}
