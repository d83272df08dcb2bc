# OnceOnly dashboard — client logic in Dafny

This project models the client-side logic of the OnceOnly dashboard, a
Next.js app. The dashboard shows the account, usage, an event feed and
metrics of an "exactly-once" request-deduplication service, and it has a
governance console for tools and agent policies. The model covers these parts:

- **Credential store** (`Auth`, `src/lib/auth.ts`): one bearer token in one
  `localStorage` slot. Setting it trims the key, and there is nothing to read
  outside a browser. It is a class with a mutable `entries` map.
- **Authenticated GET client** (`Api`, `src/lib/api.ts`). It checks that the
  API base is set, then that a key is stored. It sends one request through
  the `/api/proxy` prefix and decodes the body by content type. Failures
  become `ApiError`s, classified by status, and a 401 in a browser clears
  the store. `ApiGet` is a method proved against the function `ApiGetSpec`.
- **Data hooks** (`Hooks`, `src/lib/hooks.ts`) `useMe`, `useUsage`,
  `useEvents` and `useMetrics`. They hold the `{data, loading, error}` state,
  the per-run `alive` flag and the `useEvents` polling interval. The class
  `ResourceHook` is proved against pure transition functions, and run
  numbers stand in for the closures' `alive` flags.
- **Governance client** (`GovApiClient`, `src/lib/gov-api-client.ts`): the
  path and body of every tools/policies/agents call, and `handleGovApiError`.
  `encodeURIComponent` is written out per ECMA-262 (`Uri`). With it the
  model proves that a tool, toggle, listing, policy, agent-action or logs path
  names exactly one set of arguments, and that a listing path is never a
  tool path.
- **Event display** (`EventsList`, `src/components/EventsList.tsx`): the
  timestamp fallback chain, the type labels, the AI/automation badge, the
  request-id shortening and the metadata markers. The event feed shown here
  has no pagination and does not de-duplicate events.
- **Date formatting** (`Dates`, `src/lib/date.ts`): `toISODate`.
- **Recovery page** (`RecoverPage`, `src/app/recover/page.tsx`). It has the
  email validator, proved equal to the meaning of its regular expression.
  It also has the submit and rotation transitions, including the
  `cancelled` flag.
- **Login page** (`LoginPage`, `src/app/login/page.tsx`): the mount redirect,
  the submit-enabled rule and `onSubmit`. `onSubmit` stores the key first,
  then checks it with `apiGet("/v1/me")`.

JavaScript values that the code tests for truthiness or reads properties of
are modelled by `JsValues.Value`. String built-ins (`trim`, `startsWith`,
`includes`, `padStart`, number-to-string) are in `JsStrings`, together with
the UTF-16 code units that `length` counts and `slice` cuts. Asynchronous
steps are split at their `await`, and each part is a separate transition.
The caller chooses the order in which responses, timer ticks and cleanups
arrive. `fetch` becomes a caller-supplied `FetchResult`: a rejection, or a
delivered response whose `json()`/`text()` results are given.

Three behaviours of the GET client are worth stating plainly:

- With no stored key, `apiGet` throws an `ApiError` with status **401** (`src/lib/api.ts:31`).
- `getUpgradeUrl` requests `/v1/billing/paypro/checkout-url` and returns the
  body unchanged, without checking for a non-empty `url` (`src/lib/api.ts:73-75`).
- A missing API base makes `apiGet` throw `Missing NEXT_PUBLIC_API_BASE`
  before any request is sent (`src/lib/api.ts:28`).

## Model

| member | source | states |
|---|---|---|
| Auth.ReadSlot | src/lib/auth.ts:3-6 | outside a browser there is never a key; in a browser a key is returned exactly when the slot holds one, and it is the stored value |
| Auth.StoredAfterSet | src/lib/auth.ts:8-10 | the slot holds the trimmed key and every other storage entry is unchanged |
| Auth.StoredAfterClear | src/lib/auth.ts:12-14 | the slot is gone and every other storage entry is unchanged |
| Auth.CredentialStore.GetApiKey | src/lib/auth.ts:3-6 | returns what `ReadSlot` says for the current storage |
| Auth.CredentialStore.SetApiKey | src/lib/auth.ts:8-10 | in a browser the storage becomes `StoredAfterSet`; without a window it fails and nothing is written |
| Auth.CredentialStore.ClearApiKey | src/lib/auth.ts:12-14 | in a browser the storage becomes `StoredAfterClear`; without a window it fails and nothing changes |
| Auth.SetThenGet | src/lib/auth.ts:3-10 | reading right after setting returns exactly the trimmed key |
| Auth.SetIdempotent | src/lib/auth.ts:8-10 | setting twice, or setting an already trimmed key, stores the same as setting once |
| Auth.ClearThenGet | src/lib/auth.ts:3-14 | after clearing no key is read, whatever was stored |
| Api.InferCode | src/lib/api.ts:20-25 | UNAUTHORIZED iff 401, PAYMENT_REQUIRED iff 402, RATE_LIMITED iff 429, UNKNOWN for every other status |
| Api.ApiGetSpec | src/lib/api.ts:27-71 | a missing base URL, then a missing or empty key, fail in that order before any request. A request is sent iff both are present: GET of `/api/proxy` + path, bearer key, JSON accept, no-store. A network rejection propagates. A 2xx returns the decoded body; any other status throws an `ApiError` with that status, the inferred code, `API error <status> on <path>` and the body. The key is cleared iff a sent request got 401 in a browser |
| Api.ApiGet | src/lib/api.ts:27-71 | result, request sent and new storage are those `ApiGetSpec` gives for the key read from the store |
| Api.GetUpgradeUrl | src/lib/api.ts:73-75 | behaves as `apiGet` of the plan's checkout-url path and returns its body unchanged |
| Api.UpgradePathInjective | src/lib/api.ts:73-75 | distinct plans ask for distinct checkout URLs |
| Hooks.NormalizeApiError | src/lib/hooks.ts:48-51 | an `ApiError` passes through unchanged; anything else becomes status 0, UNKNOWN, "Unknown error", with the thrown value as body |
| Hooks.RequestPath | src/lib/hooks.ts:53-128 | every hook requests a path under `/v1/` |
| Hooks.RequestPathsDistinguishKinds | src/lib/hooks.ts:53-128 | hooks of different kinds never request the same path |
| Hooks.EventsPathDeterminesLimit | src/lib/hooks.ts:87-97 | the events path determines the requested limit |
| Hooks.EventsDefaults | src/lib/hooks.ts:87 | `useEvents` by default asks for the latest 50 events and polls every 7000 ms |
| Hooks.Initial | src/lib/hooks.ts:54 | a hook starts with its own parameters, no data, loading, no error, run number 0, and no live run, interval or request |
| Hooks.StartStep | src/lib/hooks.ts:56-61 | an effect run sets loading, clears the error, keeps the data, gets a fresh live run, issues one request for its own path, and registers an interval iff it is `useEvents` |
| Hooks.ResolveOkStep | src/lib/hooks.ts:60 | a resolution from a dead or superseded run changes nothing; otherwise data is the body, loading ends, error is cleared |
| Hooks.ResolveErrStep | src/lib/hooks.ts:98-102 | a rejection from a dead or superseded run changes nothing; otherwise loading ends with the normalized error, and data is kept by `useEvents` and reset to null by the others |
| Hooks.TickStep | src/lib/hooks.ts:108-111 | while the interval is registered a tick increments `tick.current` and issues one more request for the same path, without touching data, loading or error; otherwise nothing happens |
| Hooks.TeardownStep | src/lib/hooks.ts:62-64 | cleanup marks the run dead and clears the interval, changing nothing else |
| Hooks.StepKeepsWf | src/lib/hooks.ts:87-117 | every transition keeps the invariant that only a live `useEvents` run polls |
| Hooks.RunKeepsWf | src/lib/hooks.ts:87-117 | any sequence of events keeps that invariant |
| Hooks.NothingChangesAfterTeardown | src/lib/hooks.ts:113-116 | after cleanup, no tick, resolution or further cleanup changes the state until the effect runs again |
| Hooks.TeardownIsFinal | src/lib/hooks.ts:113-116 | the state right after cleanup is final for any sequence without a new run |
| Hooks.PollsNeverAssertLoading | src/lib/hooks.ts:94-95 | without a new run, `loading` never becomes true again: polls load with `isInitial` false |
| Hooks.TicksIssueOneLoadEach | src/lib/hooks.ts:108-111 | n ticks of a registered interval add n to the tick count and issue exactly n requests for the same path, and nothing else changes |
| Hooks.OnlyEventsPoll | src/lib/hooks.ts:53-85 | `useMe`, `useUsage` and `useMetrics` never poll and never tick |
| Hooks.ResourceHook.Start | src/lib/hooks.ts:56-61 | the hook's new state is `StartStep` of the old one |
| Hooks.ResourceHook.Tick | src/lib/hooks.ts:108-111 | the hook's new state is `TickStep` of the old one |
| Hooks.ResourceHook.ResolveOk | src/lib/hooks.ts:97-99 | the hook's new state is `ResolveOkStep` of the old one |
| Hooks.ResourceHook.ResolveErr | src/lib/hooks.ts:100-102 | the hook's new state is `ResolveErrStep` of the old one |
| Hooks.ResourceHook.Teardown | src/lib/hooks.ts:113-116 | the hook's new state is `TeardownStep` of the old one |
| Uri.EncodeURIComponent | src/lib/gov-api-client.ts:19 | every output character is unreserved or `%`, and the output is at least as long as the input |
| Uri.EncodeInjective | src/lib/gov-api-client.ts:19 | distinct strings have distinct encodings |
| Uri.EncodeUnreserved | src/lib/gov-api-client.ts:16 | a string of unreserved characters, such as `global`, is its own encoding |
| Uri.Utf8RoundTrip | src/lib/gov-api-client.ts:19 | the UTF-8 bytes of a code point decode back to it, and their lead byte gives their number |
| Uri.EncodeCharPrefixFree | src/lib/gov-api-client.ts:19 | no character's encoding is a proper prefix of another's |
| GovApiClient.GetTool | src/lib/gov-api-client.ts:14-21 | a GET whose path is the tool path of exactly this name in exactly this scope: no other name or scope has it |
| GovApiClient.ListTools | src/lib/gov-api-client.ts:26-28 | a GET of a path under `/v1/tools?scope_id=` that is the listing of exactly this scope and of no other |
| GovApiClient.ListingPathInjective | src/lib/gov-api-client.ts:26-28 | a listing path names exactly one scope |
| GovApiClient.ListingIsNoToolPath | src/lib/gov-api-client.ts:14-28 | no listing path is the path of a tool |
| GovApiClient.ToggleTool | src/lib/gov-api-client.ts:50-59 | a POST whose path is the toggle path of exactly this tool and scope, with a body whose only field `enabled` is the requested flag |
| GovApiClient.DeleteTool | src/lib/gov-api-client.ts:64-71 | a DELETE of the same path `getTool` reads |
| GovApiClient.GetPolicy | src/lib/gov-api-client.ts:78-80 | a GET whose path is the policy path of exactly this agent |
| GovApiClient.ListPolicies | src/lib/gov-api-client.ts:85-87 | a GET of the directory that contains every agent's policy path |
| GovApiClient.CreatePolicyFromTemplate | src/lib/gov-api-client.ts:105-115 | a POST whose path is the from-template path of exactly this agent; the body has exactly the fields `agent_id`, `template` and `overrides`, carries the agent id and the overrides, and its template name reads back to exactly this template |
| GovApiClient.DisableAgent | src/lib/gov-api-client.ts:122-130 | a POST whose path is the disable path of exactly this agent, with `reason` as the only body field |
| GovApiClient.EnableAgent | src/lib/gov-api-client.ts:135-142 | a POST whose path is the enable path of exactly this agent, with an empty body |
| GovApiClient.GetAgentLogs | src/lib/gov-api-client.ts:147-152 | a GET whose path is the logs path of exactly this agent and this limit |
| GovApiClient.GetAgentMetrics | src/lib/gov-api-client.ts:157-171 | a GET whose path is the metrics path of exactly this agent and this period |
| GovApiClient.UpsertTool | src/lib/gov-api-client.ts:33-45 | a missing `auth` throws a TypeError; otherwise it posts to `/v1/tools` the payload's fields with a falsy `scope_id` replaced by `global` and `auth` rebuilt as HMAC-SHA256 with only the secret |
| GovApiClient.UpsertPolicy | src/lib/gov-api-client.ts:92-100 | posts to the agent's policy path the payload's fields, with `agent_id` taken from the payload when it has one and from the argument otherwise |
| GovApiClient.ToolPathInjective | src/lib/gov-api-client.ts:14-21 | a tool path names exactly one tool in exactly one scope |
| GovApiClient.GetAndDeleteAgree | src/lib/gov-api-client.ts:64-71 | deleting a tool addresses the same path as reading it |
| GovApiClient.DefaultScopeIsGlobal | src/lib/gov-api-client.ts:26-28 | omitting the scope means the `global` scope, which appears in the path unencoded |
| GovApiClient.EmptyScopeIsNotDefaulted | src/lib/gov-api-client.ts:37 | an explicit empty scope stays empty in a tool path, whereas `upsertTool` turns an empty `scope_id` into `global` |
| GovApiClient.TogglePathInjective | src/lib/gov-api-client.ts:50-59 | a toggle path names exactly one tool in exactly one scope |
| GovApiClient.PolicyPathInjective | src/lib/gov-api-client.ts:78-80 | a policy path names exactly one agent |
| GovApiClient.FromTemplatePathInjective | src/lib/gov-api-client.ts:105-115 | a from-template path names exactly one agent |
| GovApiClient.TemplateNameInjective | src/lib/gov-api-client.ts:105-115 | distinct templates are sent under distinct names |
| GovApiClient.FromTemplateCarriesArguments | src/lib/gov-api-client.ts:105-115 | the call posts to the agent's `/from-template` path, determines agent, template and overrides, and sends no overrides when none are given |
| GovApiClient.AgentActionsInjective | src/lib/gov-api-client.ts:122-171 | the disable, enable and metrics paths each name exactly one agent, and the metrics path one period |
| GovApiClient.AgentLogsPathInjective | src/lib/gov-api-client.ts:147-152 | a logs path names exactly one agent and one limit |
| GovApiClient.AgentDefaults | src/lib/gov-api-client.ts:147-171 | the defaults are a limit of 100 log entries and the `day` metrics period |
| GovApiClient.HandleGovApiError | src/lib/gov-api-client.ts:190-202 | the corrected version (see "## Findings"; as written a `null` body throws instead): always a `GovApiError` with the response's status. Its message is the string form of the first truthy of `detail.message`, `message` and the status text. Its code is `detail.error` or `UNKNOWN_ERROR`, and its details are `detail`. An unreadable body gives the status text and `UNKNOWN_ERROR` |
| GovApiClient.NumericMessageIsPrinted | src/lib/gov-api-client.ts:182-198 | a numeric `message` of 42 gives the message "42" |
| GovApiClient.ObjectMessageIsPrinted | src/lib/gov-api-client.ts:182-198 | an object `detail.message` gives the message "[object Object]" |
| JsValues.ToJsString | src/lib/gov-api-client.ts:182 | the string form `String(v)`: a string is itself, a number prints as decimal digits that read back as the number, booleans and `null` print as their names, a plain object as `[object Object]`, and a one-element array as its element |
| GovApiClient.HandleGovApiErrorAsWritten | src/lib/gov-api-client.ts:190-202 | the code as written: a TypeError is thrown exactly when the parsed body is `null` (or `undefined`); otherwise the `GovApiError` has the response's status and is the one built from the body the corrected version reads |
| GovApiClient.NullBodyThrowsTypeError | src/lib/gov-api-client.ts:191-198 | as written, a JSON body `null` throws a TypeError instead of a `GovApiError` |
| GovApiClient.AsWrittenAgreesElsewhere | src/lib/gov-api-client.ts:190-202 | on every other response the code as written throws what the corrected version returns |
| EventsList.Timestamp | src/components/EventsList.tsx:8 | the first truthy of `ts`, `first_seen_at` and `done_at`, and falsy only when all three are |
| EventsList.FormatWhen | src/components/EventsList.tsx:6-12 | blank iff no timestamp field is truthy; a numeric timestamp is read as seconds and becomes 1000 times as many milliseconds; anything else is handed to the date parser |
| EventsList.ZeroTimestampFallsThrough | src/components/EventsList.tsx:8 | a numeric `ts` of 0 is skipped in favour of the next field |
| EventsList.DisplayType | src/components/EventsList.tsx:63 | a listed type shows its label, any other type shows itself, and a non-empty type never shows as empty |
| EventsList.LabelsDistinct | src/components/EventsList.tsx:17-28 | the ten listed types have ten different labels |
| EventsList.Badge | src/components/EventsList.tsx:62-91 | "AI Agent" iff the event has a truthy lease id or an `ai_` type, "Automation" otherwise |
| EventsList.LabelledTypesAgreeWithBadge | src/components/EventsList.tsx:17-28 | every listed `ai_` type is badged AI and labelled "AI …"; the other three listed types are AI only with a lease |
| EventsList.ReqIdLabel | src/components/EventsList.tsx:108-110 | shown iff the request id is non-empty, as the UTF-16 code units of `id:`, the id's first eight code units (all of them if fewer), and `...` |
| EventsList.ReqIdLabelDistinguishesPrefix | src/components/EventsList.tsx:109 | two ids of at least eight code units show the same label exactly when their first eight UTF-16 code units agree |
| EventsList.NarrowReqIdShowsEightCharacters | src/components/EventsList.tsx:109 | an id of characters below U+10000 shows its first eight characters |
| EventsList.SliceCanSplitPair | src/components/EventsList.tsx:109 | `slice(0, 8)` can cut a surrogate pair: one narrow and four wide characters show a lone high surrogate before `...` |
| EventsList.RowMarkers | src/components/EventsList.tsx:101-118 | the key and error markers show iff those fields are truthy, and the credit marker iff `charged` is exactly the number 1 |
| EventsList.CreditNeedsNumberOne | src/components/EventsList.tsx:118 | `true` or `"1"` are truthy but show no credit |
| Dates.TwoDigits | src/lib/date.ts:4-5 | two digits denoting the number; a single digit gets a leading `0` and two-digit numbers are unchanged |
| Dates.ToISODate | src/lib/date.ts:1-7 | the year, `-`, the two-digit month `getMonth() + 1`, `-`, the two-digit day, of length year + 6 |
| Dates.FourDigitYear | src/lib/date.ts:2-6 | a four-digit year gives ten characters |
| Dates.MonthField | src/lib/date.ts:4 | the month field reads as 1 to 12, one more than the 0-based month |
| Dates.ToISODateInjective | src/lib/date.ts:1-7 | distinct dates give distinct strings: year, month and day can be read back |
| RecoverPage.IsValidEmail | src/app/recover/page.tsx:20-22 | a valid email has at least five characters |
| RecoverPage.IsValidEmailMeansPattern | src/app/recover/page.tsx:20-22 | `isValidEmail` holds iff somewhere in the string there is `\S+`, `@`, `\S+`, `.`, `\S+` |
| RecoverPage.ValidEmailInContext | src/app/recover/page.tsx:21 | the test is unanchored: text around a valid address keeps it valid |
| RecoverPage.RecoverErrorMessage | src/app/recover/page.tsx:37-43 | a 429 `ApiError` shows "Too many attempts…", every other failure the generic recovery message |
| RecoverPage.RotateErrorMessage | src/app/recover/page.tsx:65-71 | a 400 `ApiError` shows "This recovery link is invalid or expired.", every other failure "Recovery failed. Please try again." |
| RecoverPage.SubmitStep | src/app/recover/page.tsx:24-35 | an invalid email sets the valid-email error and changes nothing else; otherwise the error is cleared, `busy` set and `{email}` posted to `/v1/recover` |
| RecoverPage.SubmitSettledStep | src/app/recover/page.tsx:35-46 | a settled request leaves `busy` false; success sets `success`, a failure sets its message |
| RecoverPage.RotateStartStep | src/app/recover/page.tsx:49-57 | without a (non-empty) token nothing happens; otherwise a new uncancelled run clears the error, sets `rotating` and posts `{token}` to `/v1/recover-rotate` |
| RecoverPage.RotateCancelStep | src/app/recover/page.tsx:78-80 | cleanup sets the latest run's `cancelled` flag and nothing else |
| RecoverPage.RotateSettledStep | src/app/recover/page.tsx:57-74 | a cancelled run's success changes nothing. A live run's string key is stored trimmed and shown as delivered. A missing key gives the "request a new link" error, and a non-string key gives the retry error. A failure always sets its message, but ends `rotating` only for a live run |
| RecoverPage.InvalidEmailSendsNothing | src/app/recover/page.tsx:26-29 | an invalid email posts nothing and leaves `busy` as it was |
| RecoverPage.SubmitRoundTrip | src/app/recover/page.tsx:31-46 | a submission is busy while out and not busy afterwards; it succeeds iff the request does, and a 429 shows "Too many attempts…" |
| RecoverPage.NoTokenNoRotation | src/app/recover/page.tsx:50 | with no token, or an empty one, the rotation effect does nothing |
| RecoverPage.RotatedKeyIsStored | src/app/recover/page.tsx:57-61 | a key delivered to the live run reads back from the store trimmed, is shown, and ends `rotating` without error |
| RecoverPage.CancelledRunStillReportsFailure | src/app/recover/page.tsx:58-73 | after cleanup a success is ignored, but a failure still sets the error while `rotating` stays set |
| RecoverPage.StaleRunStoresNothing | src/app/recover/page.tsx:58 | a run older than the latest never stores or shows a key |
| RecoverPage.Page.Submit | src/app/recover/page.tsx:24-35 | the page's new state is `SubmitStep` of the old one |
| RecoverPage.Page.SubmitSettled | src/app/recover/page.tsx:35-46 | the page's new state is `SubmitSettledStep` of the old one |
| RecoverPage.Page.StartRotation | src/app/recover/page.tsx:49-57 | the page's new state is `RotateStartStep` of the old one |
| RecoverPage.Page.CancelRotation | src/app/recover/page.tsx:78-80 | the page's new state is `RotateCancelStep` of the old one |
| RecoverPage.Page.RotationSettled | src/app/recover/page.tsx:57-74 | the page's and the store's new state is `RotateSettledStep` of the old one |
| RecoverPage.Page.SetEmail | src/app/recover/page.tsx:194 | the input's change replaces the email and nothing else |
| RecoverPage.Page.CanSubmit | src/app/recover/page.tsx:207 | the button is enabled iff not busy and the email is non-empty |
| LoginPage.LoginErrorMessage | src/app/login/page.tsx:29-31 | a 401 `ApiError` shows "Invalid API key (401)", every other failure the generic login message |
| LoginPage.MountRedirect | src/app/login/page.tsx:14-17 | redirects to `/overview` iff a non-empty key is stored |
| LoginPage.LoginAttempt | src/app/login/page.tsx:19-35 | the trimmed key is stored, then `apiGet("/v1/me")` runs on the new store. Success redirects to `/overview` without error. A failure shows its message and does not redirect. The store ends as that `apiGet` leaves it, and without a window nothing is sent |
| LoginPage.LoginSendsTrimmedKey | src/app/login/page.tsx:25-27 | the check carries the trimmed key just stored |
| LoginPage.Login401EmptiesStore | src/app/login/page.tsx:27-31 | a 401 shows the invalid-key message, does not redirect, and leaves no key stored |
| LoginPage.OtherFailureKeepsKey | src/app/login/page.tsx:27-31 | a network failure or any other error status shows the generic message and keeps the trimmed key stored |
| LoginPage.SuccessRedirects | src/app/login/page.tsx:27-28 | a successful check redirects to `/overview` and keeps the key |
| LoginPage.BlankKeyReportsInvalidKey | src/app/login/page.tsx:25-31 | a blank key is stored as `""`, which `apiGet` reads as no key: nothing is sent and "Invalid API key (401)" is shown |
| LoginPage.MissingApiBaseReportsGenericFailure | src/app/login/page.tsx:27-31 | without an API base nothing is sent, the generic message shows and the key stays stored |
| LoginPage.Page.CanSubmit | src/app/login/page.tsx:58 | the button is enabled iff not busy and the trimmed key has at least 8 UTF-16 code units |
| LoginPage.NarrowKeyCountsCharacters | src/app/login/page.tsx:58 | for a key of characters below U+10000 the rule counts characters: enabled iff not busy and at least 8 trimmed characters |
| LoginPage.WideKeyCountsTwice | src/app/login/page.tsx:58 | a character above U+10000 counts twice: four of them enable the button and three do not |
| LoginPage.Page.SetKey | src/app/login/page.tsx:46 | the input's change replaces the key and nothing else |
| LoginPage.Page.Mount | src/app/login/page.tsx:14-17 | the page redirects as `MountRedirect` says for the stored key, and otherwise stays put |
| LoginPage.Page.BeginSubmit | src/app/login/page.tsx:21-25 | the error is cleared, `busy` set and the key stored; without a window the generic message shows and `busy` drops at once |
| LoginPage.Page.FinishSubmit | src/app/login/page.tsx:27-34 | the store, request, redirect and error follow `ApiGetSpec` for `/v1/me`, and `busy` ends false |
| LoginPage.Page.Submit | src/app/login/page.tsx:19-35 | a whole submission ends with the store, error, redirect and request of `LoginAttempt` |
| JsStrings.Trim | src/lib/auth.ts:9 | the result is the input with whitespace removed at both ends, and it neither starts nor ends with whitespace |
| JsStrings.TrimIdempotent | src/lib/auth.ts:9 | trimming twice is trimming once |
| JsStrings.TrimUnpadded | src/lib/auth.ts:9 | a string with no whitespace at either end trims to itself |
| JsStrings.CodeUnits | src/app/login/page.tsx:58 | a character below U+10000 is one code unit equal to it; any other is a high and a low surrogate that decode back to it |
| JsStrings.Utf16 | src/app/login/page.tsx:58 | a string has between one and two code units per character |
| JsStrings.Utf16Append | src/components/EventsList.tsx:109 | the code units of a concatenation are the concatenation of the code units |
| JsStrings.NarrowUtf16 | src/components/EventsList.tsx:109 | a string of characters below U+10000 has one code unit per character, equal to it |
| JsStrings.WideUtf16 | src/app/login/page.tsx:58 | n copies of a character above U+10000 have 2n code units |
| JsStrings.NatToString | src/lib/date.ts:4-5 | the decimal digits of the number, without a leading zero |
| JsStrings.IntToStringRoundTrip | src/lib/api.ts:67 | the decimal form of an integer reads back as that integer |
| JsStrings.PadStart | src/lib/date.ts:4-5 | a string at least n long is unchanged; a shorter one gets fill characters in front up to length n |

## Left out

- `apiPost` and `apiDelete` are imported by `src/lib/gov-api-client.ts` and
  `src/app/recover/page.tsx`, but `src/lib/api.ts` defines neither. The
  governance operations are modelled as the `Call` they would make. The
  recovery page receives each post's outcome as a caller-chosen
  `Result<Value, Thrown>`.
- The same-origin proxy route is not part of this model. So neither is
  its forwarding, nor its mapping of a missing upstream base to a server error.
- `fetch`, `localStorage`, `navigator.clipboard`, the router and
  `window.location` are I/O. They become a caller-supplied response, an
  in-memory map, and a recorded redirect. Copying the new key to the clipboard is not modelled.
- `setInterval` timing and overlapping polls are left out. Ticks and
  resolutions are discrete events in any order the caller picks. React's
  guarantee that an effect's cleanup runs before its next run is assumed:
  runs older than the latest count as cancelled.
- Turning the chosen timestamp into a `Date`, `toLocaleString`, the
  invalid-date fallback to `String(raw)`, and `addDays`
  (`src/lib/date.ts:9-13`) are left out. They depend on the JavaScript
  calendar, time zone and locale. `EventsList.FormatWhen` stops at the value handed to `new Date`.
- Numbers are integers. Floating-point timestamps, `NaN`, and number-to-string
  conversion in exponent form are not modelled. The progress-bar percentage is not modelled either.
- `JSON.stringify` is not modelled: key order, and `undefined` fields such
  as an omitted `reason` or `overrides`, dropped from the wire body. Bodies are kept as the object literal the code builds.
- `JsValues.ToJsString`: a JSON object with its own `toString` field is
  printed as `[object Object]`. In the program that field shadows the inherited
  method, and since it is never callable the conversion throws a TypeError.
  Numbers print in exponent form from 10^21 up; that form is not modelled.
- `TYPE_LABELS` is a plain object, so `TYPE_LABELS["constructor"]` finds an
  inherited function. `EventsList.DisplayType` treats only the ten listed types as labelled.
- `EventsList.ReqIdLabel`: `req_id` is taken to be a string when present. A
  non-string value, on which `.slice` would throw or behave differently, is not modelled.
- Presentation components (`UpgradeBanner`, `TopNav`, `AppShell`,
  `StatCard`, `InfoTip`, `AuthGate`, layouts), styling and JSX rendering
  are left out. So are the React `key` string of each event row and the
  hooks' `useMemo` wrapper.
- `Hooks.ResourceHook` records the paths of the requests it issues. It does
  not model which of several in-flight requests of one run resolves first.
  Every resolution of the live run is applied in the order the caller delivers it.
- Lone UTF-16 surrogates cannot occur in Dafny strings, so the `URIError`
  that `encodeURIComponent` throws for them is not modelled. Likewise an
  input string holding a lone surrogate (a key, an email or a request id) is
  not modelled. Strings are sequences of characters, and `JsStrings.Utf16`
  gives the code units that `length` and `slice` work on.

## Findings

| source | as written | input that shows it | evidently intended | confidence | as-written member | corrected member |
|---|---|---|---|---|---|---|
| src/lib/gov-api-client.ts:191-201 | `data` is replaced by the parsed body, and `data.detail?.message` reads `detail` on it without a guard | an error response whose body is the JSON literal `null`: `data.detail` throws a TypeError, so callers get no `GovApiError` and no status | a `GovApiError` with the response's status, with a `null` body read like a missing one (`data?.detail?.message`) | not executed | GovApiClient.HandleGovApiErrorAsWritten, GovApiClient.NullBodyThrowsTypeError | GovApiClient.HandleGovApiError |
