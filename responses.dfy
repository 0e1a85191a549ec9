/**
 * The HTTP answers of the handlers: a status code and a JSON body that is the
 * payload, a not-found `{ message }`, or an error `{ error, message }`. Every
 * caught error becomes a 500 with a generic message.
 */
module Responses {
  import opened Values

  datatype Body<T> = Payload(value: T) | NotFound(message: string) | Failure(error: string, message: string)

  datatype Response<T> = Response(status: int, body: Body<T>)

  const InternalServerError: string := "Internal Server Error"

  /** A list or options handler: 200 with the service's result, 500 when it threw. */
  function ListResponse<T>(outcome: Settled<T>, failed: string): (r: Response<T>)
    ensures r.status == 200 || r.status == 500
    ensures r.status == 200 <==> outcome.Resolved?
    ensures r.status == 200 ==> r.body == Payload(outcome.value)
    ensures r.status == 500 ==> r.body == Failure(InternalServerError, failed)
  {
    match outcome
    case Resolved(v) => Response(200, Payload(v))
    case Rejected => Response(500, Failure(InternalServerError, failed))
  }

  /**
   * A detail handler: 404 with `{ message }` when the lookup found nothing,
   * 200 with the record unchanged, 500 when the lookup threw.
   */
  function DetailResponse<T>(outcome: Settled<Option<T>>, notFound: string, failed: string): (r: Response<T>)
    ensures r.status == 200 || r.status == 404 || r.status == 500
    ensures r.status == 200 <==> outcome.Resolved? && outcome.value.Some?
    ensures r.status == 404 <==> outcome.Resolved? && outcome.value.None?
    ensures r.status == 200 ==> r.body == Payload(outcome.value.value)
    ensures r.status == 404 ==> r.body == NotFound(notFound)
    ensures r.status == 500 ==> r.body == Failure(InternalServerError, failed)
  {
    match outcome
    case Rejected => Response(500, Failure(InternalServerError, failed))
    case Resolved(None) => Response(404, NotFound(notFound))
    case Resolved(Some(v)) => Response(200, Payload(v))
  }
}
