/** The auth controller: login, logout and validate, each forwarding to the
    external auth service over HTTP and mapping its reply (or the exception
    the call threw) to an HTTP answer. The service is a parameter mapping
    what is sent to its reply. */
module AuthApi {

  import opened Common

  /** The reply to an HTTP call: a status with its raw content and that
      content read as `B`; or an `HttpRequestException`; or any other
      exception (including the client's timeout). */
  datatype HttpReply<B> = Responded(status: int, content: string, body: B) | RequestFailed | OtherFailure

  /** The content read as a reference type: a value, JSON null, or content
      that does not deserialise (which throws). */
  datatype Parsed<T> = Value(value: T) | Null | Unreadable

  /** The content read as a `JsonElement`, which every JSON document
      (null included) is; only content that is not JSON throws. */
  datatype Json<J> = Element(element: J) | Malformed

  /** The bodies the controller answers with. */
  datatype AuthBody<T> =
    | Payload(value: T)                          // the service's body, unchanged
    | InvalidModel                               // { Message = "Invalid request", Errors = ModelState }
    | Message(text: string)                      // { Message }
    | MessageAndDetails(text: string, details: string)  // { Message, Details }
    | Validity(isValid: bool, text: string)      // { IsValid, Message }

  datatype AuthResult<T> = AuthResult(status: int, body: AuthBody<T>)

  const UnavailableMessage: string := "Authentication service is unavailable"
  const UnexpectedMessage: string := "An unexpected error occurred"
  const NoTokenMessage: string := "No token provided"
  const InvalidResponseMessage: string := "Invalid response from authentication service"

  /** `IsSuccessStatusCode`. */
  predicate IsSuccessStatus(status: int)
  {
    200 <= status <= 299
  }

  /** `Login`: an invalid model is refused before the service is called;
      otherwise the credentials are posted and the reply is mapped. */
  function Login<R, L>(modelValid: bool, request: R, post: R -> HttpReply<Parsed<L>>): (r: AuthResult<L>)
    ensures !modelValid ==> r == AuthResult(400, InvalidModel)
    ensures r.status == 200 <==> modelValid && post(request).Responded? && IsSuccessStatus(post(request).status)
                                 && post(request).body.Value?
    ensures r.status == 200 ==> r.body == Payload(post(request).body.value)
    ensures modelValid && post(request).RequestFailed? ==> r == AuthResult(503, Message(UnavailableMessage))
  {
    if !modelValid then AuthResult(400, InvalidModel)
    else
      match post(request)
      case RequestFailed => AuthResult(503, Message(UnavailableMessage))
      case OtherFailure => AuthResult(500, Message(UnexpectedMessage))
      case Responded(status, content, body) =>
        if !IsSuccessStatus(status) then
          if status == 401 then AuthResult(401, Message("Invalid credentials"))
          else if status == 503 then AuthResult(503, Message(UnavailableMessage))
          else AuthResult(status, MessageAndDetails("Login failed", content))
        else
          match body
          case Null => AuthResult(500, Message(InvalidResponseMessage))
          case Value(v) => AuthResult(200, Payload(v))
          case Unreadable => AuthResult(500, Message(UnexpectedMessage))
  }

  /** `Logout`: the first Authorization value must be present, non-empty and
      start with "Bearer "; it is then forwarded verbatim. */
  function Logout<J>(authValues: seq<string>, send: string -> HttpReply<Json<J>>): (r: AuthResult<J>)
    ensures r == AuthResult(400, Message(NoTokenMessage)) <==> !HasBearerScheme(FirstHeader(authValues))
    ensures r.status == 200 ==> && HasBearerScheme(FirstHeader(authValues))
                                && send(authValues[0]).Responded?
                                && IsSuccessStatus(send(authValues[0]).status)
                                && r.body.Payload?
                                && send(authValues[0]).body == Element(r.body.value)
    ensures HasBearerScheme(FirstHeader(authValues)) && send(authValues[0]).Responded?
            && !IsSuccessStatus(send(authValues[0]).status)
            ==> r == AuthResult(send(authValues[0]).status, MessageAndDetails("Logout failed", send(authValues[0]).content))
  {
    var authHeader := FirstHeader(authValues);
    if !HasBearerScheme(authHeader) then
      AuthResult(400, Message(NoTokenMessage))
    else
      match send(authHeader.value)
      case RequestFailed => AuthResult(503, Message(UnavailableMessage))
      case OtherFailure => AuthResult(500, Message(UnexpectedMessage))
      case Responded(status, content, body) =>
        if !IsSuccessStatus(status) then AuthResult(status, MessageAndDetails("Logout failed", content))
        else
          match body
          case Element(j) => AuthResult(200, Payload(j))
          case Malformed => AuthResult(500, Message(UnexpectedMessage))
  }

  /** `ValidateToken`: only an absent or empty first Authorization value is
      refused; the value is forwarded verbatim with no scheme check, and the
      service's body is answered with 200 whatever its status. */
  function ValidateToken<J>(authValues: seq<string>, send: string -> HttpReply<Json<J>>): (r: AuthResult<J>)
    ensures r.status == 400 <==> IsNullOrEmpty(FirstHeader(authValues))
    ensures r.status == 200 ==> && !IsNullOrEmpty(FirstHeader(authValues))
                                && send(authValues[0]).Responded?
                                && r.body.Payload?
                                && send(authValues[0]).body == Element(r.body.value)
  {
    var authHeader := FirstHeader(authValues);
    if IsNullOrEmpty(authHeader) then AuthResult(400, Validity(false, NoTokenMessage))
    else
      match send(authHeader.value)
      case RequestFailed => AuthResult(503, Validity(false, UnavailableMessage))
      case OtherFailure => AuthResult(500, Validity(false, UnexpectedMessage))
      case Responded(_, _, body) =>
        match body
        case Element(j) => AuthResult(200, Payload(j))
        case Malformed => AuthResult(500, Validity(false, UnexpectedMessage))
  }

  // ----- Login -----

  /** An invalid model gives 400 without contacting the service: the answer
      is the same whatever the service would reply. */
  lemma InvalidModelNotForwarded<R, L>(request: R, p1: R -> HttpReply<Parsed<L>>, p2: R -> HttpReply<Parsed<L>>)
    ensures Login(false, request, p1) == AuthResult(400, InvalidModel)
    ensures Login(false, request, p1) == Login(false, request, p2)
  {
  }

  /** The mapping of a reply with a status: 401 and 503 get their own
      messages, any other failure status is kept with "Login failed" and the
      content; a success is 200 with the body unchanged, or 500 "Invalid
      response from authentication service" when the body is null. */
  lemma LoginStatusMapping<R, L>(request: R, post: R -> HttpReply<Parsed<L>>)
    requires post(request).Responded?
    ensures var reply := post(request);
            var r := Login(true, request, post);
            && (reply.status == 401 ==> r == AuthResult(401, Message("Invalid credentials")))
            && (reply.status == 503 ==> r == AuthResult(503, Message(UnavailableMessage)))
            && (!IsSuccessStatus(reply.status) && reply.status != 401 && reply.status != 503
                ==> r == AuthResult(reply.status, MessageAndDetails("Login failed", reply.content)))
            && (IsSuccessStatus(reply.status) && reply.body.Null?
                ==> r == AuthResult(500, Message(InvalidResponseMessage)))
            && (IsSuccessStatus(reply.status) && reply.body.Value?
                ==> r == AuthResult(200, Payload(reply.body.value)))
            && (r.status == 200 <==> IsSuccessStatus(reply.status) && reply.body.Value?)
  {
  }

  /** In every action, an `HttpRequestException` gives 503 and any other
      exception 500, a body that cannot be read included; and whenever an
      action answers 200, its body is the service's body unchanged. */
  lemma ExceptionsMapped<R, L, J>(request: R, post: R -> HttpReply<Parsed<L>>,
                                  authValues: seq<string>, send: string -> HttpReply<Json<J>>)
    ensures post(request).RequestFailed? ==> Login(true, request, post).status == 503
    ensures post(request).OtherFailure? ==> Login(true, request, post).status == 500
    ensures var reply := post(request);
            reply.Responded? && IsSuccessStatus(reply.status) && reply.body.Unreadable?
            ==> Login(true, request, post) == AuthResult(500, Message(UnexpectedMessage))
    ensures var h := FirstHeader(authValues);
            HasBearerScheme(h) && send(h.value).RequestFailed? ==> Logout(authValues, send).status == 503
    ensures var h := FirstHeader(authValues);
            HasBearerScheme(h) && send(h.value).OtherFailure? ==> Logout(authValues, send).status == 500
    ensures var h := FirstHeader(authValues);
            HasBearerScheme(h) && send(h.value).Responded? && IsSuccessStatus(send(h.value).status)
            && send(h.value).body.Malformed?
            ==> Logout(authValues, send) == AuthResult(500, Message(UnexpectedMessage))
    ensures var h := FirstHeader(authValues);
            !IsNullOrEmpty(h) && send(h.value).RequestFailed?
            ==> ValidateToken(authValues, send) == AuthResult(503, Validity(false, UnavailableMessage))
    ensures var h := FirstHeader(authValues);
            !IsNullOrEmpty(h) && send(h.value).OtherFailure?
            ==> ValidateToken(authValues, send) == AuthResult(500, Validity(false, UnexpectedMessage))
    ensures var h := FirstHeader(authValues);
            !IsNullOrEmpty(h) && send(h.value).Responded? && send(h.value).body.Malformed?
            ==> ValidateToken(authValues, send) == AuthResult(500, Validity(false, UnexpectedMessage))
    ensures Login(true, request, post).status == 200 ==> Login(true, request, post).body.Payload?
    ensures Logout(authValues, send).status == 200 ==> Logout(authValues, send).body.Payload?
  {
  }

  // ----- Logout -----

  /** A missing, empty or non-bearer header gives 400 "No token provided" and
      nothing is forwarded; otherwise the service is asked about exactly the
      first header value. */
  lemma LogoutHeaderCheck<J>(authValues: seq<string>, s1: string -> HttpReply<Json<J>>, s2: string -> HttpReply<Json<J>>)
    ensures !HasBearerScheme(FirstHeader(authValues)) ==> Logout(authValues, s1) == AuthResult(400, Message(NoTokenMessage))
    ensures !HasBearerScheme(FirstHeader(authValues)) ==> Logout(authValues, s1) == Logout(authValues, s2)
    ensures HasBearerScheme(FirstHeader(authValues)) && s1(authValues[0]) == s2(authValues[0])
            ==> Logout(authValues, s1) == Logout(authValues, s2)
    ensures Logout(authValues, s1) == AuthResult(400, Message(NoTokenMessage))
            <==> !HasBearerScheme(FirstHeader(authValues))
  {
  }

  /** The mapping of a reply with a status, once the bearer header was
      forwarded: a failure status is kept with "Logout failed" and the
      content; a success is 200 with the JSON body unchanged, or 500 when the
      content is not JSON. */
  lemma LogoutStatusMapping<J>(authValues: seq<string>, send: string -> HttpReply<Json<J>>)
    requires HasBearerScheme(FirstHeader(authValues))
    requires send(authValues[0]).Responded?
    ensures var reply := send(authValues[0]);
            var r := Logout(authValues, send);
            && (!IsSuccessStatus(reply.status)
                ==> r == AuthResult(reply.status, MessageAndDetails("Logout failed", reply.content)))
            && (IsSuccessStatus(reply.status) && reply.body.Element?
                ==> r == AuthResult(200, Payload(reply.body.element)))
            && (IsSuccessStatus(reply.status) && reply.body.Malformed?
                ==> r == AuthResult(500, Message(UnexpectedMessage)))
            && (r.status == 200 <==> IsSuccessStatus(reply.status) && reply.body.Element?)
  {
  }

  // ----- Validate -----

  /** Only an absent or empty header is refused (400, IsValid = false); a
      header without the bearer scheme is forwarded, and any readable body is
      answered with 200 whatever status the service gave. */
  lemma ValidateOnlyRejectsEmpty<J>(authValues: seq<string>, send: string -> HttpReply<Json<J>>)
    ensures IsNullOrEmpty(FirstHeader(authValues))
            ==> ValidateToken(authValues, send) == AuthResult(400, Validity(false, NoTokenMessage))
    ensures !IsNullOrEmpty(FirstHeader(authValues)) && send(authValues[0]).Responded?
            && send(authValues[0]).body.Element?
            ==> ValidateToken(authValues, send) == AuthResult(200, Payload(send(authValues[0]).body.element))
    ensures ValidateToken(authValues, send).status == 400 <==> IsNullOrEmpty(FirstHeader(authValues))
  {
  }
}
