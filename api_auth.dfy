/**
 * The guard in front of the task REST handlers: resolve the user of the request, answer
 * 401 when there is none and 500 when resolving fails, otherwise hand the user to the handler.
 */
module ApiAuth {
  import opened Http

  datatype ApiUser = ApiUser(id: int, email: string, name: string)

  /**
   * What resolving the request's user produced: a user, no user, or an exception. The
   * session and token lookups catch their own errors and report no user, so an invalid
   * token is `NoUser`; `ResolveFailed` stands for an exception raised outside them.
   */
  datatype Resolution = Resolved(user: ApiUser) | NoUser | ResolveFailed

  /** The guard's decision: answer without the handler, or admit this user. */
  datatype Gate = Reject(response: Response) | Admit(user: ApiUser)

  const UnauthorizedJson := Response(401, ErrorJson("Unauthorized"))

  function Guard(auth: Resolution): (g: Gate)
    ensures g.Admit? <==> auth.Resolved?
    ensures g.Admit? ==> g.user == auth.user
    ensures auth.NoUser? ==> g.response.status == 401 && g.response.body == ErrorJson("Unauthorized")
    ensures auth.ResolveFailed? ==> g.response.status == 500 && g.response.body == ErrorJson(InternalServerError)
  {
    match auth
    case Resolved(u) => Admit(u)
    case NoUser => Reject(UnauthorizedJson)
    case ResolveFailed => Reject(ServerErrorJson)
  }

  /** `withAuth(handler)` applied to a request whose user resolved as `auth`. */
  function WithAuth(auth: Resolution, handler: ApiUser -> Response): Response {
    match Guard(auth)
    case Reject(r) => r
    case Admit(u) => handler(u)
  }

  /** Without a user the handler is never consulted: any two handlers give the same response. */
  lemma HandlerNotInvokedWithoutUser(auth: Resolution, h1: ApiUser -> Response, h2: ApiUser -> Response)
    requires !auth.Resolved?
    ensures WithAuth(auth, h1) == WithAuth(auth, h2)
    ensures WithAuth(auth, h1).status in {401, 500}
  {
  }

  /** With a user, the response is the handler's response for exactly that user. */
  lemma HandlerAnswersForUser(u: ApiUser, h: ApiUser -> Response)
    ensures WithAuth(Resolved(u), h) == h(u)
  {
  }
}
