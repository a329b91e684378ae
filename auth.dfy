/** The authentication service: it holds the session state (signed in or not,
    the user, the token), restores it from browser storage at start-up, signs
    in by email, signs out, validates email syntax and turns HTTP errors into
    user-facing messages. Browser storage is modelled as a field holding the
    two stored items. */
module Auth {
  import opened Wrappers
  import opened Strings
  import opened Models
  import opened Http

  /** `email.trim().toLowerCase()`: the email without surrounding whitespace,
      in lower case; nothing else about it changes. */
  function NormalizeEmail(email: string): (r: string)
    ensures |r| <= |email|
    ensures r == [] || (!IsWhitespace(r[0]) && !IsWhitespace(r[|r| - 1]))
    ensures forall k :: 0 <= k < |r| ==> !IsUpper(r[k])
    ensures LeadingWhitespace(email) + |r| <= |email|
    ensures forall k :: 0 <= k < |r| ==> r[k] == LowerChar(email[LeadingWhitespace(email) + k])
    ensures forall k :: 0 <= k < LeadingWhitespace(email) ==> IsWhitespace(email[k])
    ensures forall k :: LeadingWhitespace(email) + |r| <= k < |email| ==> IsWhitespace(email[k])
  {
    var t := Trim(email);
    var r := ToLower(t);
    forall k | 0 <= k < |r| ensures IsWhitespace(r[k]) <==> IsWhitespace(t[k]) {
      LowerCharKeepsWhitespace(t[k]);
    }
    r
  }

  /** Normalising twice is normalising once. */
  lemma {:induction false} NormalizeEmailIdempotent(email: string)
    ensures NormalizeEmail(NormalizeEmail(email)) == NormalizeEmail(email)
  {
    var n := NormalizeEmail(email);
    TrimOfTrimmed(n);
    var l := ToLower(n);
    forall k | 0 <= k < |n|
      ensures l[k] == n[k]
    {
      assert !IsUpper(n[k]);
    }
    assert l == n;
  }

  /** The sign-in request: a POST of the normalised email. */
  function LoginRequest(api: string, email: string): (r: Request)
    ensures r.verb == Post && r.url == api + "/auth/login" && r.headers == JsonHeaders
    ensures r.body == EmailOnly(NormalizeEmail(email))
  {
    Request(Post, api + "/auth/login", EmailOnly(NormalizeEmail(email)), JsonHeaders)
  }

  // ---------------------------------------------------------------------------
  // Email syntax

  /** `/^[^\s@]+@[^\s@]+\.[^\s@]+$/.test(email)`, stated as the four conditions
      it amounts to: exactly one '@', something before it, no whitespace
      anywhere, and a '.' in the domain that is neither its first nor its last
      character. */
  predicate IsValidEmail(email: string)
  {
    match LastIndexOf(email, '@')
    case None => false
    case Some(at) =>
      && 0 < at
      && (forall k :: 0 <= k < at ==> email[k] != '@')
      && (forall k :: 0 <= k < |email| ==> !IsWhitespace(email[k]))
      && HasInnerDot(email[at + 1..])
  }

  predicate HasInnerDot(domain: string)
  {
    exists k :: 0 < k < |domain| - 1 && domain[k] == '.'
  }

  /** `[^\s@]+`: non-empty, no whitespace, no '@'. */
  predicate IsAtomRun(s: string)
  {
    |s| > 0 && forall k :: 0 <= k < |s| ==> !IsWhitespace(s[k]) && s[k] != '@'
  }

  /** The regular expression read literally: the email splits at an '@' at
      index i and a '.' at index j into three runs of `[^\s@]+`. */
  ghost predicate MatchesEmailPattern(email: string)
  {
    exists i, j :: 0 <= i < j < |email| && email[i] == '@' && email[j] == '.'
                   && IsAtomRun(email[..i]) && IsAtomRun(email[i + 1..j]) && IsAtomRun(email[j + 1..])
  }

  lemma {:induction false} ValidEmailMatchesPattern(email: string)
    requires IsValidEmail(email)
    ensures MatchesEmailPattern(email)
  {
    var at := LastIndexOf(email, '@').value;
    var domain := email[at + 1..];
    var k :| 0 < k < |domain| - 1 && domain[k] == '.';
    var i, j := at, at + 1 + k;
    var local, host, tld := email[..i], email[i + 1..j], email[j + 1..];
    assert email[j] == '.';
    assert forall m :: 0 <= m < |local| ==> local[m] == email[m];
    assert forall m :: 0 <= m < |host| ==> host[m] == email[i + 1 + m];
    assert forall m :: 0 <= m < |tld| ==> tld[m] == email[j + 1 + m];
    assert IsAtomRun(local) && IsAtomRun(host) && IsAtomRun(tld);
  }

  /** Where the three runs of a pattern match sit in the email. */
  lemma {:induction false} PatternPieces(email: string, i: nat, j: nat)
    requires i < j < |email| && email[i] == '@' && email[j] == '.'
    requires IsAtomRun(email[..i]) && IsAtomRun(email[i + 1..j]) && IsAtomRun(email[j + 1..])
    ensures forall m :: 0 <= m < |email| && m != i ==> email[m] != '@'
    ensures forall m :: 0 <= m < |email| ==> !IsWhitespace(email[m])
  {
    var local, host, tld := email[..i], email[i + 1..j], email[j + 1..];
    forall m | 0 <= m < |email|
      ensures m != i ==> email[m] != '@'
      ensures !IsWhitespace(email[m])
    {
      if m < i {
        assert email[m] == local[m];
      } else if i < m < j {
        assert email[m] == host[m - i - 1];
      } else if j < m {
        assert email[m] == tld[m - j - 1];
      }
    }
  }

  /** The only '@' of the email is the last one. */
  lemma {:induction false} SingleAtIsLast(email: string, i: nat)
    requires i < |email| && email[i] == '@'
    requires forall m :: 0 <= m < |email| && m != i ==> email[m] != '@'
    ensures LastIndexOf(email, '@') == Some(i)
  {
    var domain := email[i + 1..];
    assert forall m :: 0 <= m < |domain| ==> domain[m] == email[i + 1 + m];
    assert email == email[..i] + ['@'] + domain;
    LastIndexOfJoin(email[..i], '@', domain);
  }

  lemma {:induction false} PatternIsValidEmail(email: string)
    requires MatchesEmailPattern(email)
    ensures IsValidEmail(email)
  {
    var i, j :| 0 <= i < j < |email| && email[i] == '@' && email[j] == '.'
                && IsAtomRun(email[..i]) && IsAtomRun(email[i + 1..j]) && IsAtomRun(email[j + 1..]);
    PatternPieces(email, i, j);
    SingleAtIsLast(email, i);
    var domain := email[i + 1..];
    assert domain[j - i - 1] == '.';
    assert HasInnerDot(domain);
  }

  /** The four conditions are exactly what the regular expression accepts. */
  lemma IsValidEmailIffPattern(email: string)
    ensures IsValidEmail(email) <==> MatchesEmailPattern(email)
  {
    if IsValidEmail(email) { ValidEmailMatchesPattern(email); }
    if MatchesEmailPattern(email) { PatternIsValidEmail(email); }
  }

  /** Addresses the service accepts. */
  lemma AcceptedEmailExamples()
    ensures IsValidEmail("test@example.com")
    ensures IsValidEmail("user.name@domain.co")
  {
    AcceptedExample("test", "example", "com");
    assert "test" + "@" + "example" + "." + "com" == "test@example.com";
    AcceptedExample("user.name", "domain", "co");
    assert "user.name" + "@" + "domain" + "." + "co" == "user.name@domain.co";
  }

  /** An address with a '+' tag is accepted. */
  lemma AcceptedTaggedEmailExample()
    ensures IsValidEmail("user+tag@example.org")
  {
    AcceptedExample("user+tag", "example", "org");
    assert "user+tag" + "@" + "example" + "." + "org" == "user+tag@example.org";
  }

  /** An address with digits and a '-' in the host is accepted. */
  lemma AcceptedHyphenEmailExample()
    ensures IsValidEmail("user123@example-domain.com")
  {
    AcceptedExample("user123", "example-domain", "com");
    assert "user123" + "@" + "example-domain" + "." + "com" == "user123@example-domain.com";
  }

  /** `local@host.tld` with no '@' and no whitespace in the three parts is
      accepted. */
  lemma {:induction false} AcceptedExample(local: string, host: string, tld: string)
    requires IsAtomRun(local) && IsAtomRun(host) && IsAtomRun(tld)
    ensures IsValidEmail(local + "@" + host + "." + tld)
  {
    var email := local + "@" + host + "." + tld;
    var i, j := |local|, |local| + 1 + |host|;
    assert email[..i] == local;
    assert email[i + 1..j] == host;
    assert email[j + 1..] == tld;
    assert email[i] == '@' && email[j] == '.';
    assert MatchesEmailPattern(email);
    PatternIsValidEmail(email);
  }

  /** Addresses the service rejects. */
  lemma RejectedEmailExamples()
    ensures !IsValidEmail("invalid-email")
    ensures !IsValidEmail("@example.com")
    ensures !IsValidEmail("user@")
    ensures !IsValidEmail("user@.com")
    ensures !IsValidEmail("user space@example.com")
    ensures !IsValidEmail("user@@example.com")
    ensures !IsValidEmail("")
  {
    assert "user space@example.com"[4] == ' ';
    assert "user@@example.com" == "user@" + ['@'] + "example.com";
    LastIndexOfJoin("user@", '@', "example.com");
    assert "user@@example.com"[4] == '@';
  }

  // ---------------------------------------------------------------------------
  // Error messages

  /** What an HTTP error becomes: the message of the error the observable then
      fails with, and whether the session must be cleared. */
  datatype ErrorDecision = ErrorDecision(message: string, logout: bool)

  const Unauthorized := "No autorizado"
  const NotFound := "Usuario no encontrado"
  const ServerFailure := "Error interno del servidor"
  const InvalidData := "Datos inv\U{00E1}lidos"

  /** `error.error?.message || fallback`. */
  function BodyMessageOr(payload: ErrorPayload, fallback: string): string
  {
    if payload.ServerSide? && Truthy(payload.bodyMessage) then payload.bodyMessage.value else fallback
  }

  /** The error handler's decision table. A client-side error gives "Error: "
      and its message, whatever the status. For a server error: 401, 404 and
      500 give fixed messages whatever the body says, and only 401 clears the
      session; 400 and every other status prefer a non-empty body message, with
      "Datos inválidos" or "Error <status>: <statusText>" as fallback. */
  function Decide(e: HttpError): (r: ErrorDecision)
    ensures r.logout <==> e.error.ServerSide? && e.status == 401
    ensures e.error.ClientSide? ==> r.message == "Error: " + e.error.eventMessage
    ensures e.error.ServerSide? ==>
              && (e.status == 401 ==> r.message == Unauthorized)
              && (e.status == 404 ==> r.message == NotFound)
              && (e.status == 500 ==> r.message == ServerFailure)
    ensures e.error.ServerSide? && e.status !in {401, 404, 500} ==>
              r.message == if Truthy(e.error.bodyMessage) then e.error.bodyMessage.value
                           else if e.status == 400 then InvalidData
                           else "Error " + IntToString(e.status) + ": " + e.statusText
  {
    if e.error.ClientSide? then ErrorDecision("Error: " + e.error.eventMessage, false)
    else if e.status == 400 then ErrorDecision(BodyMessageOr(e.error, InvalidData), false)
    else if e.status == 401 then ErrorDecision(Unauthorized, true)
    else if e.status == 404 then ErrorDecision(NotFound, false)
    else if e.status == 500 then ErrorDecision(ServerFailure, false)
    else ErrorDecision(BodyMessageOr(e.error, "Error " + IntToString(e.status) + ": " + e.statusText), false)
  }

  /** For 401, 404 and 500 the server's body makes no difference. */
  lemma FixedStatusesIgnoreBody(e: HttpError, other: Option<string>)
    requires e.error.ServerSide? && e.status in {401, 404, 500}
    ensures Decide(e.(error := ServerSide(other))) == Decide(e)
  {
  }

  /** A request that never reached the server (status 0, no body) reads
      "Error 0: Unknown Error". */
  lemma UnknownErrorMessage()
    ensures Decide(HttpError(0, "Unknown Error", ServerSide(None))).message == "Error 0: Unknown Error"
  {
    assert IntToString(0) == "0";
  }

  // ---------------------------------------------------------------------------
  // Session state

  /** The two items kept in browser storage. */
  datatype StoredSession = StoredSession(token: Option<string>, user: Option<User>)

  const NothingStored := StoredSession(None, None)

  /** The state the service starts in: signed in only when both a token
      (non-empty) and a user are stored, otherwise signed out. */
  function StartupState(stored: StoredSession): (r: AuthState)
    ensures r.isAuthenticated <==> Truthy(stored.token) && stored.user.Some?
    ensures r.isAuthenticated ==> r.user == stored.user && r.token == stored.token
    ensures !r.isAuthenticated ==> r == SignedOut
  {
    if Truthy(stored.token) && stored.user.Some? then AuthState(true, stored.user, stored.token)
    else SignedOut
  }

  /** The reply signs the user in when it reports success and carries data. */
  predicate AcceptsLogin(reply: LoginReply)
  {
    reply.success && reply.data.Some?
  }

  /** The state a sign-in reply leads to. */
  function SignedIn(session: Session): AuthState
  {
    AuthState(true, Some(session.user), Some(session.token))
  }

  /** A restart after a successful sign-in restores the signed-in state,
      unless the server's token was empty. */
  lemma {:induction false} RestartAfterLogin(session: Session)
    ensures session.token != "" ==>
              StartupState(StoredSession(Some(session.token), Some(session.user))) == SignedIn(session)
    ensures session.token == "" ==>
              StartupState(StoredSession(Some(session.token), Some(session.user))) == SignedOut
  {
  }

  /** The shapes the state can take: signed out with neither user nor token,
      or signed in with both. */
  predicate Consistent(s: AuthState)
  {
    s == SignedOut || (s.isAuthenticated && s.user.Some? && s.token.Some?)
  }

  class AuthService {
    var state: AuthState
    var storage: StoredSession

    /** Every state the service publishes is consistent. */
    predicate Valid()
      reads this
    {
      Consistent(state)
    }

    /** Starts from what storage holds. */
    constructor(stored: StoredSession)
      ensures state == StartupState(stored) && storage == stored
      ensures Valid()
    {
      storage := stored;
      state := StartupState(stored);
    }

    /** Whether a session is active; when none is, there is neither a user
        nor a token. */
    function IsAuthenticated(): (b: bool)
      reads this
      ensures Valid() && !b ==> state == SignedOut
    {
      state.isAuthenticated
    }

    /** The signed-in user: present exactly while signed in. */
    function GetCurrentUser(): (u: Option<User>)
      reads this
      ensures Valid() ==> (u.Some? <==> state.isAuthenticated)
    {
      state.user
    }

    /** The session token: present exactly while signed in. */
    function GetToken(): (t: Option<string>)
      reads this
      ensures Valid() ==> (t.Some? <==> state.isAuthenticated)
    {
      state.token
    }

    /** Stores the session and signs in. */
    method SetAuthData(token: string, user: User)
      modifies this
      ensures storage == StoredSession(Some(token), Some(user))
      ensures state == AuthState(true, Some(user), Some(token))
      ensures Valid()
    {
      storage := StoredSession(Some(token), Some(user));
      state := AuthState(true, Some(user), Some(token));
    }

    /** Forgets the stored session and signs out. */
    method Logout()
      modifies this
      ensures storage == NothingStored && state == SignedOut
      ensures !IsAuthenticated() && GetCurrentUser() == None && GetToken() == None
      ensures Valid()
    {
      storage := NothingStored;
      state := SignedOut;
    }

    /** Turns an error into its message, signing out on 401. */
    method HandleError(e: HttpError) returns (message: string)
      modifies this
      ensures old(Valid()) ==> Valid()
      ensures message == Decide(e).message
      ensures Decide(e).logout ==> state == SignedOut && storage == NothingStored
      ensures !Decide(e).logout ==> state == old(state) && storage == old(storage)
    {
      var decision := Decide(e);
      if decision.logout {
        Logout();
      }
      message := decision.message;
    }

    /** Signs in; `outcome` is what the sign-in call would produce. Returns the
        request sent and what the caller receives: the reply, or the failure
        message. Only an accepting reply changes the state. */
    method Login(api: string, email: string, outcome: Outcome<LoginReply>) returns (request: Request, result: Result<LoginReply>)
      modifies this
      ensures old(Valid()) ==> Valid()
      ensures request == LoginRequest(api, email)
      ensures outcome.Replied? ==> result == Ok(outcome.reply)
      ensures outcome.Replied? && AcceptsLogin(outcome.reply) ==>
                state == SignedIn(outcome.reply.data.value)
                && storage == StoredSession(Some(outcome.reply.data.value.token), Some(outcome.reply.data.value.user))
      ensures outcome.Replied? && !AcceptsLogin(outcome.reply) ==> state == old(state) && storage == old(storage)
      ensures outcome.Failed? ==> result == Err(Decide(outcome.failure).message)
      ensures outcome.Failed? && Decide(outcome.failure).logout ==> state == SignedOut && storage == NothingStored
      ensures outcome.Failed? && !Decide(outcome.failure).logout ==> state == old(state) && storage == old(storage)
    {
      request := LoginRequest(api, email);
      match outcome {
        case Replied(reply) =>
          if AcceptsLogin(reply) {
            SetAuthData(reply.data.value.token, reply.data.value.user);
          }
          result := Ok(reply);
        case Failed(err) =>
          var message := HandleError(err);
          result := Err(message);
      }
    }
  }
}
