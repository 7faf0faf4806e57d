/**
 * The `GET /calculate/addTwoTo/{value}` handler of `CalculationResource`:
 * it calls the injected service once and turns what happened into exactly
 * one HTTP response.
 */
module Resource {
  import opened JavaInt
  import opened Service

  datatype Status = Ok | Unauthorized | InternalServerError {
    /** The HTTP status code sent for this status. */
    function Code(): (c: int)
      ensures c in {200, 401, 500}
    {
      match this
      case Ok => 200
      case Unauthorized => 401
      case InternalServerError => 500
    }
  }

  /** The entity of a response: the service's int, or a fixed text. */
  datatype Body = Json(n: Int32) | Text(message: string)

  datatype Response = Response(status: Status, body: Body)

  const DOWN_MESSAGE: string := "CalculationService is down, try again later."
  const FAILED_MESSAGE: string := "CalculationService failed, please let support know."

  /**
   * A response the handler can produce: 200 carries an int, 401 and 500
   * carry their fixed texts.
   */
  predicate WellFormed(r: Response) {
    match r.status
    case Ok => r.body.Json?
    case Unauthorized => r.body == Text(DOWN_MESSAGE)
    case InternalServerError => r.body == Text(FAILED_MESSAGE)
  }

  /** The body of `addTwoTo` once the service call has happened. */
  function Respond(outcome: Outcome): (r: Response)
    ensures WellFormed(r)
    ensures r.status == Ok <==> outcome.Value? && outcome.value >= 0
    ensures r.status == Unauthorized <==> outcome.Value? && outcome.value < 0
    ensures r.status == InternalServerError <==> outcome.Failure?
    ensures r.status == Ok ==> r.body == Json(outcome.value)
  {
    match outcome
    case Failure => Response(InternalServerError, Text(FAILED_MESSAGE))
    case Value(result) =>
      if result < 0 then Response(Unauthorized, Text(DOWN_MESSAGE))
      else Response(Ok, Json(result))
  }

  /** `addTwoTo(value)` with the injected service passed in as a function. */
  function AddTwoTo(service: Int32 -> Outcome, value: Int32): (r: Response)
    ensures WellFormed(r)
    ensures r.status.Code() == 200 <==> service(value).Value? && service(value).value >= 0
    ensures r.status.Code() == 401 <==> service(value).Value? && service(value).value < 0
    ensures r.status.Code() == 500 <==> service(value).Failure?
    ensures r.status.Code() == 200 ==> r.body == Json(service(value).value)
  {
    Respond(service(value))
  }

  /**
   * A 200 response gives back the service's result unchanged: two outcomes
   * that both succeed with the same response are the same outcome.
   */
  lemma SuccessIsFaithful(o1: Outcome, o2: Outcome)
    requires Respond(o1).status == Ok && Respond(o1) == Respond(o2)
    ensures o1 == o2
  {
  }

  /** A result of 0 is a success: the test is a strict `< 0`. */
  lemma ZeroIsSuccess()
    ensures Respond(Value(0)) == Response(Ok, Json(0))
  {
  }

  /**
   * Every negative result yields the same response, so a caller cannot
   * tell a legitimately negative sum from the "down" signal.
   */
  lemma NegativesIndistinguishable(a: Int32, b: Int32)
    requires a < 0 && b < 0
    ensures Respond(Value(a)) == Respond(Value(b)) == Response(Unauthorized, Text(DOWN_MESSAGE))
  {
  }
}
