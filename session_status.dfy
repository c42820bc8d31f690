/**
  The payment-status endpoint: the sessionId check, the gateway URL it reads
  from, and the envelope returned for each gateway outcome.
 */
module SessionStatus {
  import opened Wrappers
  import opened Js
  import opened Envelopes

  const StatusEndpoint := "https://gateway.arifpay.org/api/checkout/session/"
  const SessionIdRequired := "sessionId is required"
  const StatusFailedError := "Failed to check payment status"

  /** What the handler does before any gateway call: answer at once, or read one URL. */
  datatype StatusStep = Reject(response: Response) | Fetch(url: string)

  /** The gateway URL for a session: the fixed endpoint, then the sessionId verbatim. */
  function StatusUrl(sessionId: string): (url: string)
    ensures |url| == |StatusEndpoint| + |sessionId|
    ensures url[..|StatusEndpoint|] == "https://gateway.arifpay.org/api/checkout/session/"
    ensures url[|StatusEndpoint|..] == sessionId
  {
    StatusEndpoint + sessionId
  }

  /** Validation first: a falsy sessionId is answered 400 and no URL is formed. */
  function PlanStatus(sessionId: Option<string>): (s: StatusStep)
    ensures s.Reject? <==> !IsTruthyString(sessionId)
    ensures s.Reject? ==> s.response == Response(400, ErrorBody("sessionId is required"))
    ensures s.Fetch? ==> s.url == "https://gateway.arifpay.org/api/checkout/session/" + sessionId.value
  {
    if !IsTruthyString(sessionId) then Reject(Response(400, ErrorBody(SessionIdRequired)))
    else Fetch(StatusUrl(sessionId.value))
  }

  /** The envelope for the gateway's outcome: 200 with its document verbatim, or 500 with details. */
  function StatusResponse(g: GatewayResult<Json>): (resp: Response)
    ensures g.Reply? <==> resp.status == 200
    ensures g.Reply? ==> resp.body == Document(g.value)
    ensures g.Failure? ==>
              resp == Response(500, ErrorWithDetails("Failed to check payment status",
                                                     FailureDetails(g.body, g.message)))
  {
    match g
    case Reply(doc) => Response(200, Document(doc))
    case Failure(body, message) => Response(500, ErrorWithDetails(StatusFailedError, FailureDetails(body, message)))
  }

  /** The whole handler, with the gateway's session read as a parameter from URL to outcome. */
  function CheckStatus(sessionId: Option<string>, gateway: string -> GatewayResult<Json>): (resp: Response)
    ensures resp.status == 400 <==> !IsTruthyString(sessionId)
    ensures !IsTruthyString(sessionId) ==> resp == Response(400, ErrorBody("sessionId is required"))
    ensures IsTruthyString(sessionId) ==> resp == StatusResponse(gateway(StatusUrl(sessionId.value)))
    ensures resp.status in {200, 400, 500}
  {
    match PlanStatus(sessionId)
    case Reject(response) => response
    case Fetch(url) => StatusResponse(gateway(url))
  }

  /** A falsy sessionId gets 400 whatever the gateway would do: no call is made. */
  lemma MissingSessionIdSkipsGateway(sessionId: Option<string>,
                                     g1: string -> GatewayResult<Json>, g2: string -> GatewayResult<Json>)
    requires !IsTruthyString(sessionId)
    ensures CheckStatus(sessionId, g1) == Response(400, ErrorBody("sessionId is required"))
    ensures CheckStatus(sessionId, g1) == CheckStatus(sessionId, g2)
  {
  }

  /** Distinct sessionIds give distinct status URL strings. */
  lemma StatusUrlInjective(a: string, b: string)
    ensures StatusUrl(a) == StatusUrl(b) <==> a == b
  {
    if StatusUrl(a) == StatusUrl(b) {
      assert a == StatusUrl(a)[|StatusEndpoint|..];
    }
  }
}
