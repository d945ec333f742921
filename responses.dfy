/**
 * How a handler error becomes an HTTP response: a permanent redirect to the
 * login page, a permanent redirect to the closet page, or a server error
 * whose body is the error's text.
 */
module Responses {
  import opened Closet

  const Ok200: nat := 200
  const PermanentRedirect308: nat := 308
  const InternalServerError500: nat := 500

  /** A response: a page with a combo, a redirect, or a plain-text status. */
  datatype Response =
    | Page(status: nat, combo: ComboView)
    | Redirect(status: nat, location: string)
    | Text(status: nat, body: string)

  /** The three ways an error can surface to the user. */
  datatype Disposition = ToLogin | ToCloset | ServerError

  /** Which of the three outcomes a response is, if it is an error response at all. */
  function DispositionOf(r: Response): Option<Disposition> {
    if r == Redirect(PermanentRedirect308, "/login") then Some(ToLogin)
    else if r == Redirect(PermanentRedirect308, "/closet") then Some(ToCloset)
    else if r.Text? && r.status == InternalServerError500 then Some(ServerError)
    else None
  }

  /** The error-to-response mapping. */
  function IntoResponse(e: Error): (r: Response)
    ensures DispositionOf(r) == Some(ToLogin) <==> e.UserIdAndDays?
    ensures DispositionOf(r) == Some(ToCloset) <==> e.EmptyClothes?
    ensures DispositionOf(r) == Some(ServerError) <==> e.Render? || e.Sqlx? || e.Join? || e.Uuid?
    ensures r.Text? ==> r.body == Message(e)
  {
    match e
    case Render(_) => Text(InternalServerError500, Message(e))
    case Sqlx(_) => Text(InternalServerError500, Message(e))
    case Join(_) => Text(InternalServerError500, Message(e))
    case Uuid(_) => Text(InternalServerError500, Message(e))
    case UserIdAndDays => Redirect(PermanentRedirect308, "/login")
    case EmptyClothes(_) => Redirect(PermanentRedirect308, "/closet")
  }

  /**
   * The mapping is total: every error lands in one of the three outcomes, a
   * corollary of the three equivalences in `IntoResponse`'s contract.
   */
  lemma EveryErrorHasOneDisposition(e: Error)
    ensures DispositionOf(IntoResponse(e)).Some?
  {
  }

  /** The missing item named in an empty-closet error does not change where the user is sent. */
  lemma EmptyClothesIgnoresWhat(a: string, b: string)
    ensures IntoResponse(EmptyClothes(a)) == IntoResponse(EmptyClothes(b))
  {
  }
}
