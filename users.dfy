/** The user service: registration by email. Its error handler is the same
    decision table as the authentication service's, with the sign-out on 401
    delegated to that service. */
module Users {
  import opened Wrappers
  import opened Models
  import opened Http
  import opened Auth

  /** The registration request: a POST of the normalised email. */
  function RegisterRequest(api: string, email: string): (r: Request)
    ensures r.verb == Post && r.url == api + "/user" && r.headers == JsonHeaders
    ensures r.body == EmailOnly(NormalizeEmail(email))
  {
    Request(Post, api + "/user", EmailOnly(NormalizeEmail(email)), JsonHeaders)
  }

  /** Registration and sign-in send the same normalised email. */
  lemma SameEmailAsLogin(api: string, email: string)
    ensures RegisterRequest(api, email).body == LoginRequest(api, email).body
  {
  }

  /** What a registration produces besides its request: what the caller
      receives, whether the success message is logged, and whether the
      authentication service is asked to sign out. */
  datatype RegisterResult = RegisterResult(result: Result<CreateUserReply>, logsSuccess: bool, logout: bool)

  /** A reply is handed on as it is, and the success log fires only for a
      successful reply whose user has a non-empty email. An error becomes the
      error table's message, and exactly a server 401 signs out. */
  function Register(outcome: Outcome<CreateUserReply>): (r: RegisterResult)
    ensures r.logsSuccess <==> outcome.Replied? && outcome.reply.success && outcome.reply.data.email != ""
    ensures outcome.Replied? ==> r.result == Ok(outcome.reply) && !r.logout
    ensures outcome.Failed? ==> r.result == Err(Decide(outcome.failure).message)
    ensures r.logout <==> outcome.Failed? && outcome.failure.error.ServerSide? && outcome.failure.status == 401
  {
    match outcome
    case Replied(reply) => RegisterResult(Ok(reply), reply.success && reply.data.email != "", false)
    case Failed(err) =>
      var decision := Decide(err);
      RegisterResult(Err(decision.message), false, decision.logout)
  }

  /** A registration that fails with a 401 signs the session out through the
      authentication service; no other outcome touches it. */
  method RegisterWith(auth: AuthService, outcome: Outcome<CreateUserReply>) returns (r: RegisterResult)
    modifies auth
    ensures r == Register(outcome)
    ensures r.logout ==> auth.state == SignedOut && auth.storage == NothingStored
    ensures !r.logout ==> auth.state == old(auth.state) && auth.storage == old(auth.storage)
  {
    r := Register(outcome);
    if r.logout {
      auth.Logout();
    }
  }
}
