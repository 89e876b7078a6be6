/** The two request handlers of the API route (GET and POST): derive the
    client key, consult the rate limiter, validate the optional `name`, and
    choose the response. Only the status and the greeting are modelled. */
module Route {
  import opened JsValues
  import opened RateLimiting

  /** Client key used when neither the platform nor the proxy names one. */
  const UnknownClient: string := "unknown"

  /** Length bounds of a `name`, in UTF-16 code units: a `string` here is read
      as a sequence of code units, so a character outside the Basic
      Multilingual Plane is two elements. */
  const MinNameLength: int := 1
  const MaxNameLength: int := 100

  /** The key a request is rate-limited under: the platform-provided IP if it
      is a non-empty string, else the `x-forwarded-for` header if that is a
      non-empty string, else "unknown". */
  function ClientKey(ip: Option<string>, forwardedFor: Option<string>): (key: string)
    ensures Truthy(ip) ==> key == ip.value
    ensures !Truthy(ip) && Truthy(forwardedFor) ==> key == forwardedFor.value
    ensures !Truthy(ip) && !Truthy(forwardedFor) ==> key == UnknownClient
    ensures key != ""
  {
    Or(Or(ip, forwardedFor), Some(UnknownClient)).value
  }

  /** The `name` field as the validation schema receives it. */
  datatype NameInput =
    | Absent            // no `name` property (the value `undefined`)
    | Null              // the value `null`
    | Str(s: string)    // a string
    | OtherJson         // a number, boolean, array or object

  /** A POST body after JSON parsing: an object, with its `name` field, or any
      other JSON value (`null`, an array, a number, a string, a boolean). */
  datatype Body = Object(name: NameInput) | NotObject

  /** The result of validating a request's input: the validated `name`
      (absent or a string) or a validation failure. */
  datatype Parsed = Accepted(name: Option<string>) | Rejected

  /** The schema `{ name?: string of length 1..100 }` applied to the `name`
      field: an absent field passes, a string passes when its length is within
      bounds, everything else (including `null`) fails. */
  function ValidateName(n: NameInput): (r: Parsed)
    ensures r.Accepted? <==> n.Absent? || (n.Str? && MinNameLength <= |n.s| <= MaxNameLength)
    ensures r.Accepted? && n.Absent? ==> r.name == None
    ensures r.Accepted? && n.Str? ==> r.name == Some(n.s)
  {
    match n
    case Absent => Accepted(None)
    case Str(s) => if |s| < MinNameLength || |s| > MaxNameLength then Rejected else Accepted(Some(s))
    case _ => Rejected
  }

  /** The schema applied to a whole POST body: it must be an object. */
  function ValidateBody(b: Body): Parsed
  {
    match b
    case Object(n) => ValidateName(n)
    case NotObject => Rejected
  }

  /** The response a handler chooses. */
  datatype Outcome = TooManyRequests | InvalidInput | Success(message: string)

  /** The HTTP status of an outcome. */
  function Status(o: Outcome): int
  {
    match o
    case TooManyRequests => 429
    case InvalidInput => 400
    case Success(_) => 200
  }

  const GetGenericGreeting: string := "Hello, world! Welcome to the Next-Gen Web Scaffold!"

  function GetPersonalGreeting(name: string): string
  {
    "Hello, " + name + "! Welcome to the Next-Gen Web Scaffold!"
  }

  const PostGenericGreeting: string := "Hello! Your POST request was successful."

  function PostPersonalGreeting(name: string): string
  {
    "Hello, " + name + "! Your POST request was successful."
  }

  /** The GET greeting: personal when the validated name is truthy. */
  function GetMessage(name: Option<string>): string
  {
    if Truthy(name) then GetPersonalGreeting(name.value) else GetGenericGreeting
  }

  /** The POST greeting: personal when the validated name is truthy. */
  function PostMessage(name: Option<string>): string
  {
    if Truthy(name) then PostPersonalGreeting(name.value) else PostGenericGreeting
  }

  /** The GET outcome once the limiter has decided: a rejected request is
      429 whatever its input; an admitted one is validated with the query
      parameter `name` as given, where a missing parameter is `null`. */
  function GetOutcome(admitted: bool, nameParam: Option<string>): (o: Outcome)
    ensures Status(o) == 429 <==> !admitted
    ensures Status(o) == 400 <==>
              admitted && !(nameParam.Some? && MinNameLength <= |nameParam.value| <= MaxNameLength)
    ensures o.Success? ==> nameParam.Some? && o.message == GetPersonalGreeting(nameParam.value)
  {
    if !admitted then TooManyRequests
    else
      var parsed := ValidateName(if nameParam.Some? then Str(nameParam.value) else Null);
      if parsed.Rejected? then InvalidInput
      else Success(GetMessage(parsed.name))
  }

  /** The GET outcome as evidently intended: a missing query parameter means
      no name was given, which is valid and earns the generic greeting. */
  function GetOutcomeIntended(admitted: bool, nameParam: Option<string>): (o: Outcome)
    ensures nameParam.Some? ==> o == GetOutcome(admitted, nameParam)
    ensures admitted && nameParam.None? ==> o == Success(GetGenericGreeting)
    ensures !admitted ==> o == TooManyRequests
  {
    if !admitted then TooManyRequests
    else
      var parsed := ValidateName(if nameParam.Some? then Str(nameParam.value) else Absent);
      if parsed.Rejected? then InvalidInput
      else Success(GetMessage(parsed.name))
  }

  /** As written, a GET without a `name` parameter that the limiter admits
      is answered 400. */
  lemma GetWithoutNameIsRejected()
    ensures GetOutcome(true, None) == InvalidInput
  {
  }

  /** The POST outcome once the limiter has decided: a rejected request is
      429 whatever its body; an admitted one is 400 unless the body is an
      object whose `name` is absent or a string of allowed length, and then
      200 with a greeting that is personal exactly when a name was given. */
  function PostOutcome(admitted: bool, body: Body): (o: Outcome)
    ensures Status(o) == 429 <==> !admitted
    ensures Status(o) == 400 <==>
              admitted && !(body.Object? &&
                            (body.name.Absent? ||
                             (body.name.Str? && MinNameLength <= |body.name.s| <= MaxNameLength)))
    ensures o.Success? ==> body.Object?
    ensures o.Success? && body.Object? && body.name.Str? ==> o.message == PostPersonalGreeting(body.name.s)
    ensures o.Success? && body.Object? ==> (o.message == PostGenericGreeting <==> body.name.Absent?)
  {
    if !admitted then TooManyRequests
    else
      var parsed := ValidateBody(body);
      if parsed.Rejected? then InvalidInput
      else
        assert forall n :: PostPersonalGreeting(n)[5] == ',';
        Success(PostMessage(parsed.name))
  }

  /** A GET request: the platform IP, the `x-forwarded-for` header and the
      `name` query parameter (each possibly missing). */
  datatype GetRequest = GetRequest(ip: Option<string>, forwardedFor: Option<string>, name: Option<string>)

  /** A POST request: the platform IP, the `x-forwarded-for` header and the
      parsed JSON body. */
  datatype PostRequest = PostRequest(ip: Option<string>, forwardedFor: Option<string>, body: Body)

  /** The GET handler against the process-wide limiter: the limiter is
      consulted before the input is looked at, so an admitted request uses up
      a slot even when its `name` is then refused. */
  method Get(limiter: RateLimiter, request: GetRequest, now: int) returns (o: Outcome)
    modifies limiter
    ensures var s := Step(old(limiter.records), ClientKey(request.ip, request.forwardedFor), now);
            limiter.records == s.records && o == GetOutcome(s.admitted, request.name)
    ensures old(limiter.Valid()) ==> limiter.Valid()
  {
    var ip := ClientKey(request.ip, request.forwardedFor);
    var admitted := limiter.CheckRateLimit(ip, now);
    if !admitted {
      return TooManyRequests;
    }
    var name := if request.name.Some? then Str(request.name.value) else Null;
    var parsed := ValidateName(name);
    if parsed.Rejected? {
      return InvalidInput;
    }
    o := Success(GetMessage(parsed.name));
  }

  /** The POST handler against the process-wide limiter, in the same order. */
  method Post(limiter: RateLimiter, request: PostRequest, now: int) returns (o: Outcome)
    modifies limiter
    ensures var s := Step(old(limiter.records), ClientKey(request.ip, request.forwardedFor), now);
            limiter.records == s.records && o == PostOutcome(s.admitted, request.body)
    ensures old(limiter.Valid()) ==> limiter.Valid()
  {
    var ip := ClientKey(request.ip, request.forwardedFor);
    var admitted := limiter.CheckRateLimit(ip, now);
    if !admitted {
      return TooManyRequests;
    }
    var parsed := ValidateBody(request.body);
    if parsed.Rejected? {
      return InvalidInput;
    }
    o := Success(PostMessage(parsed.name));
  }
}
