/**
 * The HTTP layer (backend/app/main.py): the two shared handlers, which turn the
 * calculation's and the meal-plan generation's exceptions into HTTP statuses, and the
 * routes, which are served both at the root and under the /api prefix.
 */
module Api {
  import opened Outcomes
  import opened Text
  import opened Models
  import opened MealPlanModels
  import Calc
  import LlmMealPlan

  /**
   * What a handler produces: the response body, an HTTP error with its status and detail,
   * or an exception the handler does not catch (left to the framework).
   */
  datatype HttpResponse<+T> = Success(body: T) | HttpError(statusCode: int, detail: string) | Unhandled(error: Exc)

  const RateLimitMarker := "RATE_LIMIT"
  const ResourceExhaustedMarker := "RESOURCE_EXHAUSTED"

  /** `do_calc`: the calculation with its default horizon; a ValueError becomes a 400. */
  function DoCalc(h: Calc.Helpers, user: UserInput): (r: HttpResponse<CalcOutput>)
    ensures var c := Calc.CalculateAllDefault(h, user);
      && (r.Success? <==> c.Ok?)
      && (c.Ok? ==> r.body == c.value)
      && (r.HttpError? <==> c.Err? && c.error.ValueError?)
      && (r.HttpError? ==> r.statusCode == 400 && r.detail == c.error.msg)
      && (r.Unhandled? ==> c == Err(r.error) && !r.error.ValueError?)
  {
    match Calc.CalculateAllDefault(h, user)
    case Ok(out) => Success(out)
    case Err(ValueError(m)) => HttpError(400, m)
    case Err(e) => Unhandled(e)
  }

  /** Whether a RuntimeError's message marks a quota or rate-limit failure. */
  predicate IsRateLimited(msg: string) {
    Contains(msg, ResourceExhaustedMarker) || Contains(msg, RateLimitMarker)
  }

  /**
   * The exception mapping of `do_mealplan`: a ValueError is a 400, a RuntimeError a 429 when
   * its message names a quota or rate limit and a 503 otherwise; any other exception is not
   * caught. The detail is the exception's message.
   */
  function MealPlanErrorToHttp(e: Exc): (r: HttpResponse<MealPlanResponse>)
    ensures r.HttpError? <==> e.ValueError? || e.RuntimeError?
    ensures r.HttpError? ==> r.detail == e.msg
    ensures e.ValueError? ==> r.statusCode == 400
    ensures e.RuntimeError? ==> (r.statusCode == 429 <==> IsRateLimited(e.msg))
    ensures e.RuntimeError? ==> (r.statusCode == 503 <==> !IsRateLimited(e.msg))
    ensures r.Unhandled? ==> r.error == e
  {
    match e
    case ValueError(m) => HttpError(400, m)
    case RuntimeError(m) => if IsRateLimited(m) then HttpError(429, m) else HttpError(503, m)
    case OtherError(_, _) => Unhandled(e)
  }

  /**
   * `do_mealplan`: the calculation, then the generation; the plan is returned unchanged
   * and the exceptions of either step are mapped as above.
   */
  function DoMealPlan<J>(h: Calc.Helpers, apiKey: Option<string>, user: UserInput, o: LlmMealPlan.Oracles<J>)
    : (r: HttpResponse<MealPlanResponse>)
    ensures var c := Calc.CalculateAllDefault(h, user);
      && (c.Err? ==> r == MealPlanErrorToHttp(c.error))
      && (c.Ok? ==> var run := LlmMealPlan.GenerateMealPlanSpec(apiKey, user, c.value, o);
            && (run.result.Ok? ==> r == Success(run.result.value))
            && (run.result.Err? ==> r == MealPlanErrorToHttp(run.result.error)))
  {
    match Calc.CalculateAllDefault(h, user)
    case Err(e) => MealPlanErrorToHttp(e)
    case Ok(out) =>
      match LlmMealPlan.GenerateMealPlanSpec(apiKey, user, out, o).result
      case Ok(plan) => Success(plan)
      case Err(e) => MealPlanErrorToHttp(e)
  }

  /** A missing API key is a 400 with the key's message, provided the calculation succeeds. */
  lemma MissingKeyIsBadRequest<J>(h: Calc.Helpers, user: UserInput, o: LlmMealPlan.Oracles<J>)
    requires Calc.CalculateAllDefault(h, user).Ok?
    ensures DoMealPlan(h, None, user, o) == HttpError(400, LlmMealPlan.ApiKeyMessage)
    ensures DoMealPlan(h, Some(""), user, o) == HttpError(400, LlmMealPlan.ApiKeyMessage)
  {
  }

  /** A successful generation reaches the client unchanged, and it is a valid plan. */
  lemma SuccessIsUnchanged<J>(h: Calc.Helpers, apiKey: Option<string>, user: UserInput, o: LlmMealPlan.Oracles<J>)
    requires DoMealPlan(h, apiKey, user, o).Success?
    ensures var c := Calc.CalculateAllDefault(h, user);
      && c.Ok?
      && LlmMealPlan.GenerateMealPlanSpec(apiKey, user, c.value, o).result == Ok(DoMealPlan(h, apiKey, user, o).body)
      && DoMealPlan(h, apiKey, user, o).body.Valid()
  {
    var c := Calc.CalculateAllDefault(h, user);
    LlmMealPlan.SuccessIsValid(apiKey, LlmMealPlan.BuildPrompt(user, c.value, o.formatFixed0), o);
  }

  lemma RateLimitPrefixMarked(m: string)
    ensures IsRateLimited(LlmMealPlan.RateLimitPrefix + m)
  {
    var s := LlmMealPlan.RateLimitPrefix + m;
    assert s[..|RateLimitMarker|] == RateLimitMarker;
    PrefixIsContained(s, RateLimitMarker);
  }

  /**
   * A provider 429 surfaces as an HTTP 429: whenever the generation fails with the
   * rate-limit error, the response is a 429 carrying that message.
   */
  lemma ProviderRateLimitIs429(m: string)
    ensures MealPlanErrorToHttp(RuntimeError(LlmMealPlan.RateLimitPrefix + m)) ==
      HttpError(429, LlmMealPlan.RateLimitPrefix + m)
  {
    RateLimitPrefixMarked(m);
  }

  /** Running out of attempts on overload is a 503. */
  lemma UnavailableIs503()
    ensures MealPlanErrorToHttp(RuntimeError(LlmMealPlan.UnavailableMessage)) ==
      HttpError(503, LlmMealPlan.UnavailableMessage)
  {
    assert 'R' !in LlmMealPlan.UnavailableMessage;
    MissingFirstCharNotContained(LlmMealPlan.UnavailableMessage, RateLimitMarker);
    MissingFirstCharNotContained(LlmMealPlan.UnavailableMessage, ResourceExhaustedMarker);
  }

  /**
   * The non-JSON error ends up a 503 unless the reply's preview, which the message quotes,
   * itself mentions a rate limit, in which case it is a 429.
   */
  lemma NonJsonStatus(msg: string, lineno: int, colno: int, text: string)
    requires IsRateLimited(LlmMealPlan.Preview(text))
    ensures MealPlanErrorToHttp(RuntimeError(LlmMealPlan.NonJsonMessage(msg, lineno, colno, text))).statusCode == 429
  {
    var p := LlmMealPlan.Preview(text);
    var mid := msg + " at line " + IntToString(lineno) + " col " + IntToString(colno) + ". Preview: ";
    assert LlmMealPlan.NonJsonMessage(msg, lineno, colno, text) == LlmMealPlan.NonJsonPrefix + mid + p + "";
    if Contains(p, ResourceExhaustedMarker) {
      ContainsInConcat(LlmMealPlan.NonJsonPrefix + mid, p, "", ResourceExhaustedMarker);
    } else {
      ContainsInConcat(LlmMealPlan.NonJsonPrefix + mid, p, "", RateLimitMarker);
    }
  }

  /** A reply that says only RATE_LIMIT is not JSON, and its failure is reported as a 429. */
  lemma RateLimitTextLooksLikeRateLimit()
    ensures IsRateLimited(LlmMealPlan.Preview(RateLimitMarker))
  {
    LlmMealPlan.PreviewOfShortLine(RateLimitMarker);
    PrefixIsContained(RateLimitMarker, RateLimitMarker);
  }

  // ---------------------------------------------------------------------------
  // Routes
  // ---------------------------------------------------------------------------

  datatype Endpoint = Health | CalcEndpoint | MealPlanEndpoint {
    function Method(): string {
      if this == Health then "GET" else "POST"
    }

    function Path(): string {
      match this
      case Health => "/health"
      case CalcEndpoint => "/calc"
      case MealPlanEndpoint => "/mealplan"
    }
  }

  const ApiPrefix := "/api"
  const AllEndpoints: seq<Endpoint> := [Health, CalcEndpoint, MealPlanEndpoint]

  /** The endpoint a request reaches: each one is served at its path and again under /api. */
  function RouteFor(verb: string, path: string): (r: Option<Endpoint>)
    ensures r.Some? ==> verb == r.value.Method() && (path == r.value.Path() || path == ApiPrefix + r.value.Path())
  {
    if verb == "GET" && (path == "/health" || path == ApiPrefix + "/health") then Some(Health)
    else if verb == "POST" && (path == "/calc" || path == ApiPrefix + "/calc") then Some(CalcEndpoint)
    else if verb == "POST" && (path == "/mealplan" || path == ApiPrefix + "/mealplan") then Some(MealPlanEndpoint)
    else None
  }

  /** Every endpoint is reached at its own path and under the /api prefix. */
  lemma EveryEndpointIsRoutedTwice(e: Endpoint)
    ensures RouteFor(e.Method(), e.Path()) == Some(e)
    ensures RouteFor(e.Method(), ApiPrefix + e.Path()) == Some(e)
  {
    match e
    case Health =>
    case CalcEndpoint =>
      assert "/calc" != "/health" && ApiPrefix + "/calc" != "/health";
      assert ApiPrefix + "/calc" != ApiPrefix + "/health";
    case MealPlanEndpoint =>
      assert "/mealplan"[1] != "/calc"[1] && "/mealplan"[1] != (ApiPrefix + "/calc")[1];
      assert (ApiPrefix + "/mealplan")[5] != (ApiPrefix + "/calc")[5];
      assert |ApiPrefix + "/mealplan"| != |"/calc"|;
  }

  /** What an endpoint answers. */
  datatype Answer = HealthAnswer(status: string) | CalcAnswer(calcReply: HttpResponse<CalcOutput>)
                  | MealPlanAnswer(plan: HttpResponse<MealPlanResponse>)

  /** The route handlers: the health check, and the two endpoints that delegate to the shared handlers. */
  function Serve<J>(e: Endpoint, h: Calc.Helpers, apiKey: Option<string>, user: UserInput, o: LlmMealPlan.Oracles<J>): (r: Answer)
    ensures e == Health ==> r == HealthAnswer("ok")
    ensures e == CalcEndpoint ==> r == CalcAnswer(DoCalc(h, user))
    ensures e == MealPlanEndpoint ==> r == MealPlanAnswer(DoMealPlan(h, apiKey, user, o))
  {
    match e
    case Health => HealthAnswer("ok")
    case CalcEndpoint => CalcAnswer(DoCalc(h, user))
    case MealPlanEndpoint => MealPlanAnswer(DoMealPlan(h, apiKey, user, o))
  }

  /** A request answers the same at a path and under /api: the /api routes mirror the root ones. */
  lemma ApiRoutesMirrorRootRoutes<J>(verb: string, path: string, h: Calc.Helpers, apiKey: Option<string>,
                                     user: UserInput, o: LlmMealPlan.Oracles<J>)
    requires RouteFor(verb, path).Some? && path != ApiPrefix + RouteFor(verb, path).value.Path()
    ensures RouteFor(verb, ApiPrefix + path) == RouteFor(verb, path)
    ensures Serve(RouteFor(verb, ApiPrefix + path).value, h, apiKey, user, o) ==
            Serve(RouteFor(verb, path).value, h, apiKey, user, o)
  {
    EveryEndpointIsRoutedTwice(RouteFor(verb, path).value);
  }
}
