/** SubscriptionController: what each route answers. A service result passes
    through unchanged; an error is turned into an HTTP exception by a fixed
    decision table on the error's code. */
module SubscriptionController {
  import opened Wrappers
  import SubscriptionService

  /** The codes the controller compares `err.message` with, and any other
      message. */
  datatype ErrorCode =
    | EmailAlreadySubscribed      // SubscriptionErrorCode.EMAIL_ALREADY_SUBSCRIBED
    | SubscriptionTokenNotFound   // SubscriptionErrorCode.TOKEN_NOT_FOUND
    | InvalidToken                // TokenErrorCode.INVALID_TOKEN
    | TokenNotFound               // TokenErrorCode.TOKEN_NOT_FOUND
    | Unrecognised(message: string)

  /** The HTTP_ERROR_MESSAGES the exceptions carry. */
  datatype HttpMessage =
    | EmailAlreadySubscribedMessage
    | InvalidInputMessage
    | InvalidTokenMessage
    | TokenNotFoundMessage

  datatype HttpException =
    | BadRequest(message: HttpMessage)
    | Conflict(message: HttpMessage)
    | NotFound(message: HttpMessage)

  function Status(e: HttpException): nat {
    match e
    case BadRequest(_) => 400
    case Conflict(_) => 409
    case NotFound(_) => 404
  }

  /** The switch in `subscribe`: a conflict exactly for an already
      subscribed email, a bad request for anything else. */
  function SubscribeError(code: ErrorCode): (e: HttpException)
    ensures e.Conflict? <==> code == EmailAlreadySubscribed
    ensures e.Conflict? ==> e.message == EmailAlreadySubscribedMessage
    ensures !e.Conflict? ==> e == BadRequest(InvalidInputMessage)
  {
    match code
    case EmailAlreadySubscribed => Conflict(EmailAlreadySubscribedMessage)
    case _ => BadRequest(InvalidInputMessage)
  }

  /** The switch shared by `confirm` and `unsubscribe`: an invalid token is a
      bad request naming the token, either not-found code is a not-found,
      anything else a bad request for invalid input; never a conflict. */
  function TokenRouteError(code: ErrorCode): (e: HttpException)
    ensures e == BadRequest(InvalidTokenMessage) <==> code == InvalidToken
    ensures e.NotFound? <==> code == TokenNotFound || code == SubscriptionTokenNotFound
    ensures e.NotFound? ==> e.message == TokenNotFoundMessage
    ensures !e.NotFound? && code != InvalidToken ==> e == BadRequest(InvalidInputMessage)
    ensures !e.Conflict?
  {
    match code
    case InvalidToken => BadRequest(InvalidTokenMessage)
    case TokenNotFound => NotFound(TokenNotFoundMessage)
    case SubscriptionTokenNotFound => NotFound(TokenNotFoundMessage)
    case _ => BadRequest(InvalidInputMessage)
  }

  /** POST subscription/subscribe. */
  function Subscribe<T>(outcome: Result<T, ErrorCode>): (r: Result<T, HttpException>)
    ensures r.Success? <==> outcome.Success?
    ensures r.Success? ==> r.value == outcome.value
    ensures r.Failure? ==> r.error == SubscribeError(outcome.error)
  {
    match outcome
    case Success(v) => Success(v)
    case Failure(code) => Failure(SubscribeError(code))
  }

  /** GET subscription/confirm/:token. */
  function Confirm<T>(outcome: Result<T, ErrorCode>): (r: Result<T, HttpException>)
    ensures r.Success? <==> outcome.Success?
    ensures r.Success? ==> r.value == outcome.value
    ensures r.Failure? ==> r.error == TokenRouteError(outcome.error)
  {
    match outcome
    case Success(v) => Success(v)
    case Failure(code) => Failure(TokenRouteError(code))
  }

  /** GET subscription/unsubscribe/:token: nothing on success. */
  function Unsubscribe(outcome: Result<(), ErrorCode>): (r: Result<(), HttpException>)
    ensures r.Success? <==> outcome.Success?
    ensures r.Failure? ==> r.error == TokenRouteError(outcome.error)
  {
    match outcome
    case Success(_) => Success(())
    case Failure(code) => Failure(TokenRouteError(code))
  }

  /** The code a service exception would carry if its message were the
      corresponding error-code constant. */
  function CodeOf(e: SubscriptionService.ServiceError): ErrorCode {
    match e
    case AlreadySubscribed => EmailAlreadySubscribed
    case InvalidToken => InvalidToken
    case TokenNotFound => SubscriptionTokenNotFound
  }

  /** Were the service's messages those codes, each route would answer
      with the same HTTP status the service's own exception carries: 409
      from subscribe, 400 and 404 from confirm and unsubscribe. */
  lemma StatusesAgreeWithService(e: SubscriptionService.ServiceError)
    ensures e.AlreadySubscribed? ==>
      Status(SubscribeError(CodeOf(e))) == SubscriptionService.StatusOf(e)
    ensures !e.AlreadySubscribed? ==>
      Status(TokenRouteError(CodeOf(e))) == SubscriptionService.StatusOf(e)
  {
  }
}
