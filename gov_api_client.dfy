/**
 * The governance client of src/lib/gov-api-client.ts: it builds the path and
 * the body each tools/policies/agents endpoint is called with, and shapes an
 * error response into a `GovApiError`. Each operation is modelled by the call
 * it hands to `apiGet`, `apiPost` or `apiDelete`; the last two are not part
 * of this model, so what those calls do is left open.
 */
module GovApiClient {
  import opened Wrappers
  import opened JsValues
  import opened JsStrings
  import opened Uri

  /** The call an operation makes to the authenticated HTTP client. */
  datatype Call = Get(path: string) | Post(path: string, body: Value) | Delete(path: string)

  /** The scope tool operations use when none is given. */
  const GlobalScope := "global"

  function ToolPath(toolName: string, scopeId: string): string {
    "/v1/tools/" + EncodeURIComponent(toolName) + "?scope_id=" + EncodeURIComponent(scopeId)
  }

  function PolicyPath(agentId: string): string {
    "/v1/policies/" + EncodeURIComponent(agentId)
  }

  function AgentPath(agentId: string): string {
    "/v1/agents/" + EncodeURIComponent(agentId)
  }

  function ListingPath(scopeId: string): string {
    ListingPrefix + EncodeURIComponent(scopeId)
  }

  function TogglePath(toolName: string, scopeId: string): string {
    "/v1/tools/" + EncodeURIComponent(toolName) + "/toggle?scope_id=" + EncodeURIComponent(scopeId)
  }

  function FromTemplatePath(agentId: string): string {
    "/v1/policies/" + EncodeURIComponent(agentId) + "/from-template"
  }

  function DisablePath(agentId: string): string {
    AgentPath(agentId) + "/disable"
  }

  function EnablePath(agentId: string): string {
    AgentPath(agentId) + "/enable"
  }

  function LogsPath(agentId: string, limit: int): string {
    AgentPath(agentId) + "/logs?limit=" + IntToString(limit)
  }

  function MetricsPath(agentId: string, period: Period): string {
    AgentPath(agentId) + "/metrics?period=" + PeriodName(period)
  }

  /** `getTool(toolName, scopeId = "global")`: a read of the one tool path
      that names this tool in this scope. */
  function GetTool(toolName: string, scopeId: string := GlobalScope): (c: Call)
    ensures c.Get?
    ensures forall n, s :: ToolPath(n, s) == c.path <==> n == toolName && s == scopeId
  {
    ToolPathInjective(toolName, scopeId);
    Get(ToolPath(toolName, scopeId))
  }

  /** What every tool listing path starts with. */
  const ListingPrefix := "/v1/tools?scope_id="

  /** `listTools(scopeId = "global")` */
  function ListTools(scopeId: string := GlobalScope): (c: Call)
    ensures c.Get? && StartsWith(c.path, ListingPrefix)
    ensures forall s :: ListingPath(s) == c.path <==> s == scopeId
  {
    ListingPathInjective(scopeId);
    Get(ListingPath(scopeId))
  }

  /** `upsertTool(payload)`: the payload's fields, with `scope_id` defaulted
      to "global" when falsy and `auth` rebuilt as an HMAC-SHA256 entry that
      keeps only the secret. Reading `payload.auth.secret` throws a TypeError
      when `auth` is missing. */
  function UpsertTool(payload: map<string, Value>): (r: Result<Call, Value>)
    ensures r.Failure? <==> IsNullish(Prop(Obj(payload), "auth"))
    ensures r.Failure? ==> r.error.ErrorObject? && r.error.name == "TypeError"
    ensures r.Success? ==> r.value.Post? && r.value.path == "/v1/tools" && r.value.body.Obj?
    ensures r.Success? ==>
      var body := r.value.body.fields;
      var scope := Prop(Obj(payload), "scope_id");
      && "scope_id" in body && body["scope_id"] == (if Truthy(scope) then scope else Str(GlobalScope))
      && "auth" in body
      && body["auth"] == Obj(map["type" := Str("hmac_sha256"), "secret" := Prop(payload["auth"], "secret")])
      && body - {"scope_id", "auth"} == payload - {"scope_id", "auth"}
  {
    var auth := Prop(Obj(payload), "auth");
    if IsNullish(auth) then
      Failure(ErrorObject("TypeError", "Cannot read properties of undefined (reading 'secret')"))
    else
      var data := payload["scope_id" := Or(Prop(Obj(payload), "scope_id"), Str(GlobalScope))]
        ["auth" := Obj(map["type" := Str("hmac_sha256"), "secret" := Prop(auth, "secret")])];
      Success(Post("/v1/tools", Obj(data)))
  }

  /** `toggleTool(toolName, enabled, scopeId = "global")` */
  function ToggleTool(toolName: string, enabled: bool, scopeId: string := GlobalScope): (c: Call)
    ensures c.Post? && c.body.Obj? && c.body.fields.Keys == {"enabled"}
    ensures c.body.fields["enabled"].Bool? && c.body.fields["enabled"].b == enabled
    ensures forall n, s :: TogglePath(n, s) == c.path <==> n == toolName && s == scopeId
  {
    TogglePathInjective(toolName, scopeId);
    Post(TogglePath(toolName, scopeId), Obj(map["enabled" := Bool(enabled)]))
  }

  /** `deleteTool(toolName, scopeId = "global")` */
  function DeleteTool(toolName: string, scopeId: string := GlobalScope): (c: Call)
    ensures c.Delete? && c.path == GetTool(toolName, scopeId).path
  {
    Delete(ToolPath(toolName, scopeId))
  }

  /** `getPolicy(agentId)` */
  function GetPolicy(agentId: string): (c: Call)
    ensures c.Get?
    ensures forall a :: PolicyPath(a) == c.path <==> a == agentId
  {
    PolicyPathInjective(agentId);
    Get(PolicyPath(agentId))
  }

  /** `listPolicies()` */
  function ListPolicies(): (c: Call)
    ensures c.Get? && forall agentId :: StartsWith(PolicyPath(agentId), c.path + "/")
  {
    Get("/v1/policies")
  }

  /** `upsertPolicy(agentId, payload)`: `{ agent_id: agentId, ...payload }`,
      so an `agent_id` in the payload wins over the path argument. */
  function UpsertPolicy(agentId: string, payload: map<string, Value>): (c: Call)
    ensures c.Post? && c.path == PolicyPath(agentId) && c.body.Obj?
    ensures "agent_id" in c.body.fields
    ensures c.body.fields["agent_id"] == if "agent_id" in payload then payload["agent_id"] else Str(agentId)
    ensures c.body.fields - {"agent_id"} == payload - {"agent_id"}
  {
    Post(PolicyPath(agentId), Obj(map["agent_id" := Str(agentId)] + payload))
  }

  datatype Template = Strict | Moderate | Permissive | ReadOnly | SupportBot

  function TemplateName(t: Template): string {
    match t
    case Strict => "strict"
    case Moderate => "moderate"
    case Permissive => "permissive"
    case ReadOnly => "read_only"
    case SupportBot => "support_bot"
  }

  /** `createPolicyFromTemplate(agentId, template, overrides?)` */
  function CreatePolicyFromTemplate(agentId: string, template: Template, overrides: Value := Undefined): (c: Call)
    ensures c.Post?
    ensures forall a :: FromTemplatePath(a) == c.path <==> a == agentId
    ensures c.body.Obj? && c.body.fields.Keys == {"agent_id", "template", "overrides"}
    ensures c.body.fields["agent_id"] == Str(agentId) && c.body.fields["overrides"] == overrides
    ensures forall t :: c.body.fields["template"] == Str(TemplateName(t)) <==> t == template
  {
    FromTemplatePathInjective(agentId);
    TemplateNameInjective(template);
    Post(FromTemplatePath(agentId),
         Obj(map["agent_id" := Str(agentId), "template" := Str(TemplateName(template)), "overrides" := overrides]))
  }

  /** `disableAgent(agentId, reason?)` */
  function DisableAgent(agentId: string, reason: Value := Undefined): (c: Call)
    ensures c.Post? && c.body.Obj? && c.body.fields.Keys == {"reason"} && c.body.fields["reason"] == reason
    ensures forall a :: DisablePath(a) == c.path <==> a == agentId
  {
    AgentActionsInjective(agentId, Day);
    Post(DisablePath(agentId), Obj(map["reason" := reason]))
  }

  /** `enableAgent(agentId)` */
  function EnableAgent(agentId: string): (c: Call)
    ensures c.Post? && c.body.Obj? && c.body.fields == map[]
    ensures forall a :: EnablePath(a) == c.path <==> a == agentId
  {
    AgentActionsInjective(agentId, Day);
    Post(EnablePath(agentId), Obj(map[]))
  }

  /** `getAgentLogs(agentId, limit = 100)` */
  function GetAgentLogs(agentId: string, limit: int := 100): (c: Call)
    ensures c.Get?
    ensures forall a, n :: LogsPath(a, n) == c.path <==> a == agentId && n == limit
  {
    AgentLogsPathInjective(agentId, limit);
    Get(LogsPath(agentId, limit))
  }

  datatype Period = Hour | Day | Week

  function PeriodName(p: Period): string {
    match p
    case Hour => "hour"
    case Day => "day"
    case Week => "week"
  }

  /** `getAgentMetrics(agentId, period = "day")` */
  function GetAgentMetrics(agentId: string, period: Period := Day): (c: Call)
    ensures c.Get?
    ensures forall a, p :: MetricsPath(a, p) == c.path <==> a == agentId && p == period
  {
    AgentActionsInjective(agentId, period);
    Get(MetricsPath(agentId, period))
  }

  // ---------------------------------------------------------------- errors

  /** `class GovApiError`; `details` is the response's `detail` field. The
      `Error` constructor keeps the string form of the message it is given,
      while `status`, `code` and `details` are stored as they are. */
  datatype GovApiError = GovApiError(status: int, code: Value, message: string, details: Value)

  /** An error response: its status, status text, and what `response.json()`
      resolves to (None when it rejects). */
  datatype GovResponse = GovResponse(status: int, statusText: string, json: Option<Value>)

  /** What `handleGovApiError` throws. */
  datatype GovThrown = GovFailure(err: GovApiError) | TypeErrorThrown

  /** `handleGovApiError(response)` as written: when the body is the JSON
      literal `null`, reading `data.detail` throws a TypeError before any
      GovApiError is built. */
  function HandleGovApiErrorAsWritten(response: GovResponse): (t: GovThrown)
    ensures t.TypeErrorThrown? <==> response.json.Some? && IsNullish(response.json.value)
    ensures t.GovFailure? ==> t.err.status == response.status && t.err == ShapeGovError(response, ErrorData(response))
  {
    var data := if response.json.Some? then response.json.value else Obj(map[]);
    if IsNullish(data) then
      TypeErrorThrown
    else
      GovFailure(ShapeGovError(response, data))
  }

  /** The GovApiError built from a non-nullish parsed body `data`. */
  function ShapeGovError(response: GovResponse, data: Value): GovApiError {
    var detail := Prop(data, "detail");
    var message := ToJsString(Or(Or(OptionalProp(detail, "message"), Prop(data, "message")), Str(response.statusText)));
    var code := Or(OptionalProp(detail, "error"), Str("UNKNOWN_ERROR"));
    GovApiError(response.status, code, message, detail)
  }

  /** The body `handleGovApiError` evidently means to read: the parsed JSON,
      or `{}` when there is none or it is `null`. */
  function ErrorData(response: GovResponse): Value {
    if response.json.Some? && !IsNullish(response.json.value) then response.json.value else Obj(map[])
  }

  /** `handleGovApiError(response)` with a `null` body read like a missing
      one: it always yields a GovApiError with the response's status. */
  function HandleGovApiError(response: GovResponse): (e: GovApiError)
    ensures e.status == response.status
    ensures var detail := Prop(ErrorData(response), "detail");
      && e.details == detail
      && e.message == ToJsString(if Truthy(OptionalProp(detail, "message")) then OptionalProp(detail, "message")
                                 else if Truthy(Prop(ErrorData(response), "message")) then Prop(ErrorData(response), "message")
                                 else Str(response.statusText))
      && e.code == (if Truthy(OptionalProp(detail, "error")) then OptionalProp(detail, "error") else Str("UNKNOWN_ERROR"))
    ensures response.json.None? ==>
      e.message == response.statusText && e.code == Str("UNKNOWN_ERROR") && e.details == Undefined
  {
    ShapeGovError(response, ErrorData(response))
  }

  /** A numeric `message` reaches `err.message` in its string form: 42
      reads "42". */
  lemma NumericMessageIsPrinted(status: int, statusText: string)
    ensures HandleGovApiError(GovResponse(status, statusText, Some(Obj(map["message" := Num(42)])))).message == "42"
  {
    var data := Obj(map["message" := Num(42)]);
    var response := GovResponse(status, statusText, Some(data));
    assert ErrorData(response) == data;
    assert Prop(data, "detail") == Undefined;
    assert Prop(data, "message") == Num(42);
    assert HandleGovApiError(response).message == ToJsString(Num(42));
    PrintsFortyTwo();
  }

  lemma PrintsFortyTwo()
    ensures ToJsString(Num(42)) == "42"
  {
    assert NatToString(42) == NatToString(4) + ['2'];
  }

  /** An object `detail.message` reaches `err.message` as "[object Object]". */
  lemma ObjectMessageIsPrinted(status: int, statusText: string, inner: map<string, Value>)
    ensures HandleGovApiError(GovResponse(status, statusText,
              Some(Obj(map["detail" := Obj(map["message" := Obj(inner)])])))).message == "[object Object]"
  {
    var detail := Obj(map["message" := Obj(inner)]);
    var data := Obj(map["detail" := detail]);
    assert ErrorData(GovResponse(status, statusText, Some(data))) == data;
    assert Prop(data, "detail") == detail;
    assert OptionalProp(detail, "message") == Obj(inner);
  }

  /** The body `null` makes the code as written throw a TypeError. */
  lemma NullBodyThrowsTypeError(status: int, statusText: string)
    ensures HandleGovApiErrorAsWritten(GovResponse(status, statusText, Some(Null))) == TypeErrorThrown
  {
  }

  /** On every other response the code as written and the corrected one agree. */
  lemma AsWrittenAgreesElsewhere(response: GovResponse)
    requires response.json != Some(Null) && response.json != Some(Undefined)
    ensures HandleGovApiErrorAsWritten(response) == GovFailure(HandleGovApiError(response))
  {
  }

  // ---------------------------------------------------------------- paths

  /** Where two equal paths `pre + x + mid + s` put the separator: when one
      head is shorter, the longer head has the separator's first character
      at that position. */
  lemma SeparatorPosition(pre: string, x: string, mid: string, s: string, y: string, t: string)
    requires pre + x + mid + s == pre + y + mid + t
    requires mid != []
    ensures |x| < |y| ==> y[|x|] == mid[0]
    ensures |y| < |x| ==> x[|y|] == mid[0]
  {
    var p := pre + x + mid + s;
    var q := pre + y + mid + t;
    assert |x| < |y| ==> p[|pre| + |x|] == mid[0] && q[|pre| + |x|] == y[|x|];
    assert |y| < |x| ==> q[|pre| + |y|] == mid[0] && p[|pre| + |y|] == x[|y|];
  }

  /** Two paths `pre + x + mid + s` with the same prefix and separator
      agree part by part when the separator's first character occurs in
      neither `x` nor `y`. */
  lemma SplitAtSeparator(pre: string, x: string, mid: string, s: string, y: string, t: string)
    requires pre + x + mid + s == pre + y + mid + t
    requires mid != []
    requires forall k :: 0 <= k < |x| ==> x[k] != mid[0]
    requires forall k :: 0 <= k < |y| ==> y[k] != mid[0]
    ensures x == y && s == t
  {
    SeparatorPosition(pre, x, mid, s, y, t);
    var p := pre + x + mid + s;
    var q := pre + y + mid + t;
    assert x == p[|pre|..|pre| + |x|] && y == q[|pre|..|pre| + |y|];
    assert s == p[|pre| + |x| + |mid|..] && t == q[|pre| + |y| + |mid|..];
  }

  lemma EncodedHasNo(s: string, c: char)
    requires !IsUnreserved(c) && c != '%'
    ensures forall k :: 0 <= k < |EncodeURIComponent(s)| ==> EncodeURIComponent(s)[k] != c
  {
  }

  /** A tool path names exactly one tool in exactly one scope, whatever
      characters the name and the scope contain. */
  lemma ToolPathInjective(name: string, scope: string)
    ensures forall n, s :: ToolPath(n, s) == ToolPath(name, scope) ==> n == name && s == scope
  {
    forall n, s | ToolPath(n, s) == ToolPath(name, scope)
      ensures n == name && s == scope
    {
      EncodedHasNo(n, '?');
      EncodedHasNo(name, '?');
      SplitAtSeparator("/v1/tools/", EncodeURIComponent(n), "?scope_id=", EncodeURIComponent(s),
                       EncodeURIComponent(name), EncodeURIComponent(scope));
      EncodeInjective(n, name);
      EncodeInjective(s, scope);
    }
  }

  /** `getTool` and `deleteTool` address the same resource. */
  lemma GetAndDeleteAgree(name: string, scope: string)
    ensures GetTool(name, scope).path == DeleteTool(name, scope).path
  {
  }

  /** Omitting the scope means the "global" scope, spelled as it is. */
  lemma DefaultScopeIsGlobal(name: string)
    ensures GetTool(name) == GetTool(name, GlobalScope)
    ensures ListTools() == Get(ListingPrefix + GlobalScope)
  {
    GlobalScopeUnencoded();
  }

  /** "global" needs no escaping. */
  lemma GlobalScopeUnencoded()
    ensures EncodeURIComponent(GlobalScope) == GlobalScope
  {
    EncodeUnreserved(GlobalScope);
  }

  /** The default only replaces an omitted argument: an empty scope stays
      empty in the path, whereas `upsertTool` turns an empty `scope_id` into
      "global". */
  lemma EmptyScopeIsNotDefaulted(name: string, payload: map<string, Value>)
    requires "scope_id" in payload && payload["scope_id"] == Str("")
    requires !IsNullish(Prop(Obj(payload), "auth"))
    ensures GetTool(name, "") != GetTool(name)
    ensures UpsertTool(payload).value.body.fields["scope_id"] == Str(GlobalScope)
  {
    GlobalScopeUnencoded();
    assert EncodeURIComponent("") == "";
    assert |ToolPath(name, "")| < |ToolPath(name, GlobalScope)|;
  }

  /** A tool listing names exactly one scope. */
  lemma ListingPathInjective(scope: string)
    ensures forall s :: ListingPath(s) == ListingPath(scope) ==> s == scope
  {
    forall s | ListingPath(s) == ListingPath(scope)
      ensures s == scope
    {
      var n := |ListingPrefix|;
      assert EncodeURIComponent(s) == ListingPath(s)[n..];
      assert EncodeURIComponent(scope) == ListingPath(scope)[n..];
      EncodeInjective(s, scope);
    }
  }

  /** A tool listing is never the path of a single tool. */
  lemma ListingIsNoToolPath(scopeId: string, toolName: string, toolScope: string)
    ensures ListTools(scopeId).path != ToolPath(toolName, toolScope)
  {
    assert ListTools(scopeId).path == ListingPath(scopeId);
    ListingDiffersAtNine(EncodeURIComponent(scopeId), EncodeURIComponent(toolName), EncodeURIComponent(toolScope));
  }

  /** Position 9 holds `?` in a listing path and `/` in a tool path. */
  lemma ListingDiffersAtNine(x: string, name: string, scope: string)
    ensures ListingPrefix + x != "/v1/tools/" + name + "?scope_id=" + scope
  {
    PrefixIndex(ListingPrefix, x, 9);
    PrefixIndex("/v1/tools/", name, 9);
    PrefixIndex("/v1/tools/" + name, "?scope_id=", 9);
    PrefixIndex("/v1/tools/" + name + "?scope_id=", scope, 9);
  }

  /** A policy path names exactly one agent. */
  lemma PolicyPathInjective(agentId: string)
    ensures forall a :: PolicyPath(a) == PolicyPath(agentId) ==> a == agentId
  {
    forall a | PolicyPath(a) == PolicyPath(agentId)
      ensures a == agentId
    {
      var n := |"/v1/policies/"|;
      assert PolicyPath(a)[n..] == EncodeURIComponent(a);
      assert PolicyPath(agentId)[n..] == EncodeURIComponent(agentId);
      EncodeInjective(a, agentId);
    }
  }

  /** A from-template path names exactly one agent. */
  lemma FromTemplatePathInjective(agentId: string)
    ensures forall a :: FromTemplatePath(a) == FromTemplatePath(agentId) ==> a == agentId
  {
    forall a | FromTemplatePath(a) == FromTemplatePath(agentId)
      ensures a == agentId
    {
      var x, y := EncodeURIComponent(a), EncodeURIComponent(agentId);
      EncodedHasNo(a, '/');
      EncodedHasNo(agentId, '/');
      assert "/v1/policies/" + x + "/from-template" + "" == "/v1/policies/" + y + "/from-template" + "";
      SplitAtSeparator("/v1/policies/", x, "/from-template", "", y, "");
      EncodeInjective(a, agentId);
    }
  }

  /** An agent-logs path names exactly one agent and one limit. */
  lemma AgentLogsPathInjective(agentId: string, limit: int)
    ensures forall a, n :: LogsPath(a, n) == LogsPath(agentId, limit) ==> a == agentId && n == limit
  {
    forall a, n | LogsPath(a, n) == LogsPath(agentId, limit)
      ensures a == agentId && n == limit
    {
      EncodedHasNo(a, '/');
      EncodedHasNo(agentId, '/');
      SplitAtSeparator("/v1/agents/", EncodeURIComponent(a), "/logs?limit=", IntToString(n),
                       EncodeURIComponent(agentId), IntToString(limit));
      IntToStringRoundTrip(n);
      IntToStringRoundTrip(limit);
      EncodeInjective(a, agentId);
    }
  }

  /** A toggle path names exactly one tool in one scope. */
  lemma TogglePathInjective(name: string, scope: string)
    ensures forall n, s :: TogglePath(n, s) == TogglePath(name, scope) ==> n == name && s == scope
  {
    forall n, s | TogglePath(n, s) == TogglePath(name, scope)
      ensures n == name && s == scope
    {
      EncodedHasNo(n, '/');
      EncodedHasNo(name, '/');
      SplitAtSeparator("/v1/tools/", EncodeURIComponent(n), "/toggle?scope_id=", EncodeURIComponent(s),
                       EncodeURIComponent(name), EncodeURIComponent(scope));
      EncodeInjective(n, name);
      EncodeInjective(s, scope);
    }
  }

  /** The disable, enable and metrics paths each name exactly one agent
      (and the metrics path one period). */
  lemma AgentActionsInjective(agentId: string, period: Period)
    ensures forall a :: DisablePath(a) == DisablePath(agentId) ==> a == agentId
    ensures forall a :: EnablePath(a) == EnablePath(agentId) ==> a == agentId
    ensures forall a, p :: MetricsPath(a, p) == MetricsPath(agentId, period) ==> a == agentId && p == period
  {
    var y := EncodeURIComponent(agentId);
    EncodedHasNo(agentId, '/');
    forall a | DisablePath(a) == DisablePath(agentId)
      ensures a == agentId
    {
      var x := EncodeURIComponent(a);
      EncodedHasNo(a, '/');
      assert "/v1/agents/" + x + "/disable" + "" == "/v1/agents/" + y + "/disable" + "";
      SplitAtSeparator("/v1/agents/", x, "/disable", "", y, "");
      EncodeInjective(a, agentId);
    }
    forall a | EnablePath(a) == EnablePath(agentId)
      ensures a == agentId
    {
      var x := EncodeURIComponent(a);
      EncodedHasNo(a, '/');
      assert "/v1/agents/" + x + "/enable" + "" == "/v1/agents/" + y + "/enable" + "";
      SplitAtSeparator("/v1/agents/", x, "/enable", "", y, "");
      EncodeInjective(a, agentId);
    }
    forall a, p | MetricsPath(a, p) == MetricsPath(agentId, period)
      ensures a == agentId && p == period
    {
      var x := EncodeURIComponent(a);
      EncodedHasNo(a, '/');
      SplitAtSeparator("/v1/agents/", x, "/metrics?period=", PeriodName(p), y, PeriodName(period));
      EncodeInjective(a, agentId);
    }
  }

  /** Distinct templates have distinct wire names. */
  lemma TemplateNameInjective(template: Template)
    ensures forall t :: Str(TemplateName(t)) == Str(TemplateName(template)) ==> t == template
  {
    forall t | Str(TemplateName(t)) == Str(TemplateName(template))
      ensures t == template
    {
      assert TemplateName(t) == TemplateName(template);
      assert TemplateName(t)[0] == TemplateName(template)[0];
      assert |TemplateName(t)| == |TemplateName(template)|;
    }
  }

  /** Creating from a template sends the agent, the template's wire name and
      the overrides; distinct templates have distinct wire names. */
  lemma FromTemplateCarriesArguments(agentId: string, t: Template, overrides: Value,
                                     agentId': string, t': Template, overrides': Value)
    ensures CreatePolicyFromTemplate(agentId, t, overrides).path == PolicyPath(agentId) + "/from-template"
    ensures CreatePolicyFromTemplate(agentId, t, overrides) == CreatePolicyFromTemplate(agentId', t', overrides') ==>
      agentId == agentId' && t == t' && overrides == overrides'
    ensures CreatePolicyFromTemplate(agentId, t).body.fields["overrides"] == Undefined
  {
    if CreatePolicyFromTemplate(agentId, t, overrides) == CreatePolicyFromTemplate(agentId', t', overrides') {
      var f, g := CreatePolicyFromTemplate(agentId, t, overrides).body.fields,
                  CreatePolicyFromTemplate(agentId', t', overrides').body.fields;
      assert f["agent_id"] == Str(agentId) && g["agent_id"] == Str(agentId');
      assert f["template"] == Str(TemplateName(t)) && g["template"] == Str(TemplateName(t'));
      assert f["overrides"] == overrides && g["overrides"] == overrides';
    }
  }

  /** The documented defaults: 100 log entries, a daily metrics period. */
  lemma AgentDefaults(agentId: string)
    ensures GetAgentLogs(agentId) == Get(AgentPath(agentId) + "/logs?limit=100")
    ensures GetAgentMetrics(agentId) == Get(AgentPath(agentId) + "/metrics?period=day")
  {
    assert IntToString(100) == "100" by {
      assert NatToString(100) == NatToString(10) + ['0'];
      assert NatToString(10) == NatToString(1) + ['0'];
    }
  }
}
