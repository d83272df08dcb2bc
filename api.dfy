/**
 * The authenticated GET client of src/lib/api.ts. `fetch` is not modelled as
 * I/O: the caller supplies the result the network would deliver if a request
 * were sent, and `ApiGet` reports the request it sent, if any.
 */
module Api {
  import opened Wrappers
  import opened JsValues
  import opened JsStrings
  import Auth

  datatype ApiErrorCode = Unauthorized | PaymentRequired | RateLimited | Unknown

  /** `class ApiError extends Error` */
  datatype ApiError = ApiError(status: int, code: ApiErrorCode, message: string, body: Value)

  /** What an awaited call rejects with: an `ApiError`, or any other thrown value. */
  datatype Thrown = ApiFailure(err: ApiError) | OtherThrown(v: Value)

  /** `inferCode(status)` */
  function InferCode(status: int): (code: ApiErrorCode)
    ensures code == Unauthorized <==> status == 401
    ensures code == PaymentRequired <==> status == 402
    ensures code == RateLimited <==> status == 429
    ensures code == Unknown <==> status != 401 && status != 402 && status != 429
  {
    if status == 401 then Unauthorized
    else if status == 402 then PaymentRequired
    else if status == 429 then RateLimited
    else Unknown
  }

  const MissingBaseMessage := "Missing NEXT_PUBLIC_API_BASE"
  const MissingKeyMessage := "Missing API key"
  const ProxyPrefix := "/api/proxy"
  const JsonMediaType := "application/json"

  /** The `fetch` call `apiGet` makes. */
  datatype Request = Request(url: string, httpMethod: string, authorization: string, accept: string, cache: string)

  /** A response as `apiGet` sees it: the status, the content-type header if
      any, and what `res.json()` and `res.text()` would resolve to (None when
      they reject). */
  datatype FetchResponse = FetchResponse(status: int, contentType: Option<string>, json: Option<Value>, text: Option<string>)

  /** `fetch` either rejects (a network failure) or delivers a response. */
  datatype FetchResult = Rejected(reason: Value) | Delivered(response: FetchResponse)

  /** `res.ok` */
  predicate IsOk(status: int) {
    200 <= status <= 299
  }

  /** `!!API_BASE`: the variable is set and not empty. */
  predicate Configured(apiBase: Option<string>) {
    apiBase.Some? && apiBase.value != ""
  }

  /** `!!key` for the value `getApiKey` returned. */
  predicate HasKey(key: Option<string>) {
    key.Some? && key.value != ""
  }

  /** `res.headers.get("content-type") || ""` */
  function ContentType(res: FetchResponse): string {
    if res.contentType.Some? then res.contentType.value else ""
  }

  /** The body `apiGet` reads: JSON when the content type says so, text
      otherwise, `undefined` when reading fails. */
  function DecodeBody(res: FetchResponse): Value {
    if Contains(ContentType(res), JsonMediaType) then
      if res.json.Some? then res.json.value else Undefined
    else
      if res.text.Some? then Str(res.text.value) else Undefined
  }

  function OutboundRequest(path: string, key: string): Request {
    Request(ProxyPrefix + path, "GET", "Bearer " + key, JsonMediaType, "no-store")
  }

  function ErrorMessage(status: int, path: string): string {
    "API error " + IntToString(status) + " on " + path
  }

  /** Everything one `apiGet` call does: its result, the request it sent, and
      whether it clears the stored key. */
  datatype GetOutcome = GetOutcome(result: Result<Value, Thrown>, sent: Option<Request>, clearsKey: bool)

  /** `apiGet(path)` with `API_BASE` = `apiBase`, `getApiKey()` = `key`, and
      `fetched` being what the network delivers. */
  function ApiGetSpec(apiBase: Option<string>, key: Option<string>, inBrowser: bool, path: string, fetched: FetchResult): (o: GetOutcome)
    // The guards come first, in order, and stop the call before any request.
    ensures !Configured(apiBase) ==>
      o.result == Failure(OtherThrown(ErrorObject("Error", MissingBaseMessage)))
    ensures Configured(apiBase) && !HasKey(key) ==>
      o.result == Failure(ApiFailure(ApiError(401, Unauthorized, MissingKeyMessage, Undefined)))
    ensures o.sent.Some? <==> Configured(apiBase) && HasKey(key)
    ensures o.sent.Some? ==>
      && o.sent.value.url == ProxyPrefix + path && o.sent.value.httpMethod == "GET"
      && o.sent.value.authorization == "Bearer " + key.value && o.sent.value.accept == JsonMediaType
      && o.sent.value.cache == "no-store"
    // A network failure propagates unchanged.
    ensures o.sent.Some? && fetched.Rejected? ==> o.result == Failure(OtherThrown(fetched.reason))
    // A delivered response: the decoded body is returned, or carried by a classified ApiError.
    ensures o.sent.Some? && fetched.Delivered? ==>
      var res := fetched.response;
      o.result == if IsOk(res.status) then Success(DecodeBody(res))
                  else Failure(ApiFailure(ApiError(res.status, InferCode(res.status), ErrorMessage(res.status, path), DecodeBody(res))))
    // The stored key is cleared exactly when a request got a 401 back in a browser.
    ensures o.clearsKey <==> o.sent.Some? && fetched.Delivered? && fetched.response.status == 401 && inBrowser
  {
    if !Configured(apiBase) then
      GetOutcome(Failure(OtherThrown(ErrorObject("Error", MissingBaseMessage))), None, false)
    else if !HasKey(key) then
      GetOutcome(Failure(ApiFailure(ApiError(401, Unauthorized, MissingKeyMessage, Undefined))), None, false)
    else
      var sent := Some(OutboundRequest(path, key.value));
      match fetched
      case Rejected(reason) => GetOutcome(Failure(OtherThrown(reason)), sent, false)
      case Delivered(res) =>
        var body := DecodeBody(res);
        if IsOk(res.status) then
          GetOutcome(Success(body), sent, false)
        else
          var err := ApiError(res.status, InferCode(res.status), ErrorMessage(res.status, path), body);
          GetOutcome(Failure(ApiFailure(err)), sent, res.status == 401 && inBrowser)
  }

  /** `apiGet(path)`: reads the key from `store`, sends at most one request,
      decodes and classifies the response, and clears the key on a 401. */
  method ApiGet(store: Auth.CredentialStore, apiBase: Option<string>, path: string, fetched: FetchResult)
    returns (result: Result<Value, Thrown>, sent: Option<Request>)
    modifies store
    ensures var o := ApiGetSpec(apiBase, Auth.ReadSlot(store.inBrowser, old(store.entries)), store.inBrowser, path, fetched);
      && result == o.result && sent == o.sent
      && store.entries == if o.clearsKey then Auth.StoredAfterClear(old(store.entries)) else old(store.entries)
  {
    if !Configured(apiBase) {
      return Failure(OtherThrown(ErrorObject("Error", MissingBaseMessage))), None;
    }
    var key := store.GetApiKey();
    if !HasKey(key) {
      return Failure(ApiFailure(ApiError(401, Unauthorized, MissingKeyMessage, Undefined))), None;
    }
    sent := Some(OutboundRequest(path, key.value));
    if fetched.Rejected? {
      return Failure(OtherThrown(fetched.reason)), sent;
    }
    var res := fetched.response;
    var body := Undefined;
    var ct := ContentType(res);
    if Contains(ct, JsonMediaType) {
      if res.json.Some? {
        body := res.json.value;
      }
    } else {
      if res.text.Some? {
        body := Str(res.text.value);
      }
    }
    if !IsOk(res.status) {
      var code := InferCode(res.status);
      if res.status == 401 && store.inBrowser {
        var _ := store.ClearApiKey();
      }
      return Failure(ApiFailure(ApiError(res.status, code, ErrorMessage(res.status, path), body))), sent;
    }
    result := Success(body);
  }

  datatype Plan = Starter | Pro | Agency

  function PlanName(plan: Plan): string {
    match plan
    case Starter => "starter"
    case Pro => "pro"
    case Agency => "agency"
  }

  /** The path `getUpgradeUrl` asks for. */
  function UpgradePath(plan: Plan): string {
    "/v1/billing/paypro/checkout-url?plan=" + PlanName(plan)
  }

  /** `getUpgradeUrl(plan)`: an `apiGet` of the checkout-url endpoint whose
      body it returns as it is, without looking for a `url` field. */
  method GetUpgradeUrl(store: Auth.CredentialStore, apiBase: Option<string>, plan: Plan, fetched: FetchResult)
    returns (result: Result<Value, Thrown>, sent: Option<Request>)
    modifies store
    ensures var o := ApiGetSpec(apiBase, Auth.ReadSlot(store.inBrowser, old(store.entries)), store.inBrowser, UpgradePath(plan), fetched);
      && result == o.result && sent == o.sent
      && store.entries == if o.clearsKey then Auth.StoredAfterClear(old(store.entries)) else old(store.entries)
  {
    result, sent := ApiGet(store, apiBase, UpgradePath(plan), fetched);
  }

  /** Distinct plans ask for distinct URLs. */
  lemma UpgradePathInjective(p: Plan, q: Plan)
    requires UpgradePath(p) == UpgradePath(q)
    ensures p == q
  {
    var prefix := "/v1/billing/paypro/checkout-url?plan=";
    assert PlanName(p) == UpgradePath(p)[|prefix|..];
    assert PlanName(q) == UpgradePath(q)[|prefix|..];
  }
}
