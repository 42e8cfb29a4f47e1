/**
 * The outcome classification of send_stripe_request
 * (app/gateways/MeprStripeGateway.php:1223-1269). The HTTP transport and the
 * JSON decoding are not modelled: a response arrives already classified as a
 * transport failure or a body, and a body as undecodable, an error envelope
 * or a decoded resource.
 */
module StripeClient {

  /** What the JSON decoder made of a response body. */
  datatype Decoded<T> = Undecodable | ErrorEnvelope(message: string, errType: string) | Resource(value: T)

  /** What wp_remote_request returned. */
  datatype Response<T> = TransportFailure | Body(decoded: Decoded<T>)

  /** The exceptions the gateway throws. */
  datatype GatewayError =
    | HttpException(message: string)     // MeprHttpException
    | RemoteException(message: string)   // MeprRemoteException
    | GatewayException(message: string)  // MeprGatewayException

  /** What send_stripe_request hands back to its caller: `true`, the decoded JSON, or a throw. */
  datatype Reply<T> = Acknowledged | Ok(value: T) | Raised(error: GatewayError)

  const HttpErrorMessage := "You had an HTTP error connecting to Stripe"
  const UndecipherableMessage := "There was an issue with the credit card processor. Try again later."

  /** The message of the exception thrown for an error envelope: "message (type)". */
  function EnvelopeMessage(message: string, errType: string): (m: string)
    ensures |m| == |message| + |errType| + 3
    ensures m[..|message|] == message && m[|m| - 1] == ')'
    ensures m[|message|..] == " (" + errType + ")"
  {
    message + " (" + errType + ")"
  }

  /**
   * A non-blocking request succeeds without looking at the response; a
   * blocking one yields the decoded resource, or throws for a transport
   * failure, an error envelope or an undecodable body.
   */
  function Classify<T>(blocking: bool, resp: Response<T>): (r: Reply<T>)
    ensures r.Acknowledged? <==> !blocking
    ensures r.Ok? <==> blocking && resp.Body? && resp.decoded.Resource?
    ensures r.Ok? ==> r.value == resp.decoded.value
    ensures r.Raised? && r.error.HttpException? <==> blocking && resp.TransportFailure?
    ensures blocking && resp.TransportFailure? ==> r == Raised(HttpException(HttpErrorMessage))
    ensures blocking && resp.Body? && resp.decoded.ErrorEnvelope? ==>
              r == Raised(RemoteException(EnvelopeMessage(resp.decoded.message, resp.decoded.errType)))
    ensures blocking && resp.Body? && resp.decoded.Undecodable? ==>
              r == Raised(RemoteException(UndecipherableMessage))
    ensures !r.Raised? || !r.error.GatewayException?
  {
    if !blocking then Acknowledged
    else match resp
      case TransportFailure => Raised(HttpException(HttpErrorMessage))
      case Body(Resource(v)) => Ok(v)
      case Body(ErrorEnvelope(m, t)) => Raised(RemoteException(EnvelopeMessage(m, t)))
      case Body(Undecodable) => Raised(RemoteException(UndecipherableMessage))
  }
}
