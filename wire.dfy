/**
 * What an endpoint function hands to the transport client: the argument values a
 * caller may pass, the HTTP verb, the request (URL and payload), and the validation
 * gate that stands in front of every transport call.
 */
module Wire {

  import opened Wrappers

  /** A Python argument value as it may reach an endpoint function; `Null` is `None`. */
  datatype Value =
    | Null
    | Str(s: string)
    | Int(i: int)
    | Bool(b: bool)
    | List(items: seq<Value>)

  /** The verbs of the transport client that the endpoint functions use. */
  datatype Verb = Get | Post | Delete

  /** One call to the transport client: its verb, the fully qualified URL and the payload. */
  datatype Request = Request(verb: Verb, url: string, payload: map<string, Value>)

  /** Either the validation error raised before any transport call, or the one request sent. */
  datatype Result = Invalid(param: string) | Ok(request: Request)

  /** The parts of the request context the endpoint functions read. */
  datatype Context = Context(baseApiUrl: string, perPage: int)

  /**
   * The attribute check applied to every restricted parameter: an omitted value
   * passes, any other value must be one of the allowed strings.
   */
  function Acceptable(v: Value, allowed: set<string>): (ok: bool)
    ensures v.Null? ==> ok
    ensures !v.Null? ==> (ok <==> exists a | a in allowed :: v == Str(a))
  {
    match v
    case Null => true
    case Str(s) => s in allowed
    case _ => false
  }

  /** One restricted parameter: its name, the value the caller gave and its allowed set. */
  datatype Check = Check(param: string, value: Value, allowed: set<string>)

  predicate Passes(c: Check)
  {
    Acceptable(c.value, c.allowed)
  }

  /**
   * Runs the checks in order and names the first parameter that fails, as the
   * sequence of validation calls in an endpoint function does (the first failing
   * call raises, so later ones are never reached).
   */
  function FirstInvalid(checks: seq<Check>): (r: Option<string>)
    ensures r.None? <==> forall i | 0 <= i < |checks| :: Passes(checks[i])
    ensures r.Some? ==>
      exists i | 0 <= i < |checks| ::
        checks[i].param == r.value && !Passes(checks[i]) &&
        forall j | 0 <= j < i :: Passes(checks[j])
  {
    if checks == [] then None
    else if !Passes(checks[0]) then Some(checks[0].param)
    else
      assert forall i | 1 <= i < |checks| :: checks[i] == checks[1..][i - 1];
      FirstInvalid(checks[1..])
  }

  /** `request_ctx.per_page` stands in for a page size the caller left out. */
  function PageSize(ctx: Context, perPage: Value): (r: Value)
    ensures !r.Null?
    ensures !perPage.Null? ==> r == perPage
    ensures perPage.Null? ==> r == Int(ctx.perPage)
  {
    match perPage
    case Null => Int(ctx.perPage)
    case _ => perPage
  }

  /**
   * The common shape of an endpoint function: validate, then one transport call
   * with the given verb, URL and payload; nothing is sent when validation fails.
   */
  function Dispatch(checks: seq<Check>, verb: Verb, url: string, payload: map<string, Value>): (r: Result)
    ensures r.Ok? <==> forall i | 0 <= i < |checks| :: Passes(checks[i])
    ensures r.Ok? ==> r.request == Request(verb, url, payload)
    ensures r.Invalid? ==>
      exists i | 0 <= i < |checks| ::
        checks[i].param == r.param && !Passes(checks[i]) &&
        forall j | 0 <= j < i :: Passes(checks[j])
  {
    match FirstInvalid(checks)
    case Some(p) => Invalid(p)
    case None => Ok(Request(verb, url, payload))
  }
}
