/**
 * The login page of src/app/login/page.tsx. It stores the typed key first,
 * then checks it with a GET of `/v1/me`, and redirects to the overview once
 * the check succeeds. The request's response is a caller-chosen event that
 * arrives after the synchronous part of `onSubmit`.
 */
module LoginPage {
  import opened Wrappers
  import opened JsValues
  import opened JsStrings
  import Auth
  import opened Api

  const OverviewRoute := "/overview"
  const MePath := "/v1/me"
  const InvalidKeyMessage := "Invalid API key (401)"
  const LoginFailedMessage := "Login failed. Check API base + key."

  /** The submit button: `disabled={busy || key.trim().length < 8}`, where
      `length` counts UTF-16 code units. */
  predicate SubmitEnabled(busy: bool, key: string) {
    !busy && |Utf16(Trim(key))| >= 8
  }

  /** For a key of characters below U+10000 the button counts characters:
      it needs eight once the surrounding whitespace is gone. */
  lemma NarrowKeyCountsCharacters(busy: bool, key: string)
    requires forall k :: 0 <= k < |Trim(key)| ==> Trim(key)[k] as int < 0x1_0000
    ensures SubmitEnabled(busy, key) <==> !busy && |Trim(key)| >= 8
  {
    NarrowUtf16(Trim(key));
  }

  /** A character above U+10000 counts twice: four of them enable the button. */
  lemma WideKeyCountsTwice(c: char)
    requires c as int >= 0x1_0000
    ensures SubmitEnabled(false, Repeat(c, 4)) && !SubmitEnabled(false, Repeat(c, 3))
  {
    TrimUnpadded(Repeat(c, 4));
    TrimUnpadded(Repeat(c, 3));
    WideUtf16(c, 4);
    WideUtf16(c, 3);
  }

  /** The message a failed login shows: only an `ApiError` with status 401
      counts as an invalid key. */
  function LoginErrorMessage(t: Thrown): (m: string)
    ensures m == InvalidKeyMessage <==> t.ApiFailure? && t.err.status == 401
    ensures m == LoginFailedMessage <==> !(t.ApiFailure? && t.err.status == 401)
  {
    if t.ApiFailure? && t.err.status == 401 then InvalidKeyMessage else LoginFailedMessage
  }

  /** The mount effect: `if (existing) router.replace("/overview")`. */
  function MountRedirect(existing: Option<string>): (route: Option<string>)
    ensures route.Some? <==> existing.Some? && existing.value != ""
    ensures route.Some? ==> route.value == OverviewRoute
  {
    if HasKey(existing) then Some(OverviewRoute) else None
  }

  /** What one submission leaves behind: the store, the error shown, where
      the router went, and the request sent. */
  datatype LoginOutcome = LoginOutcome(entries: map<string, string>, err: Option<string>, redirect: Option<string>, sent: Option<Request>)

  /** All of `onSubmit` for a typed `key`. Without a window `setApiKey` throws
      before any request. Otherwise the trimmed key is stored and `apiGet`
      runs on the new store. */
  function LoginAttempt(inBrowser: bool, entries: map<string, string>, apiBase: Option<string>, key: string, fetched: FetchResult): (o: LoginOutcome)
    ensures !inBrowser ==> o == LoginOutcome(entries, Some(LoginFailedMessage), None, None)
    ensures inBrowser ==>
      var stored := Auth.StoredAfterSet(entries, key);
      var g := ApiGetSpec(apiBase, Auth.ReadSlot(true, stored), true, MePath, fetched);
      && o.sent == g.sent
      && o.entries == (if g.clearsKey then Auth.StoredAfterClear(stored) else stored)
      && (g.result.Success? <==> o.redirect == Some(OverviewRoute))
      && (g.result.Success? ==> o.err == None)
      && (g.result.Failure? ==> o.redirect == None && o.err == Some(LoginErrorMessage(g.result.error)))
  {
    if !inBrowser then
      LoginOutcome(entries, Some(LoginFailedMessage), None, None)
    else
      var stored := Auth.StoredAfterSet(entries, key);
      var g := ApiGetSpec(apiBase, Auth.ReadSlot(true, stored), true, MePath, fetched);
      var after := if g.clearsKey then Auth.StoredAfterClear(stored) else stored;
      match g.result
      case Success(_) => LoginOutcome(after, None, Some(OverviewRoute), g.sent)
      case Failure(t) => LoginOutcome(after, Some(LoginErrorMessage(t)), None, g.sent)
  }

  /** The key is stored before it is checked: the check sends the trimmed key. */
  lemma LoginSendsTrimmedKey(entries: map<string, string>, apiBase: Option<string>, key: string, fetched: FetchResult)
    requires Configured(apiBase) && Trim(key) != ""
    ensures LoginAttempt(true, entries, apiBase, key, fetched).sent == Some(OutboundRequest(MePath, Trim(key)))
  {
  }

  /** A 401 from the check shows the invalid-key message and leaves the store
      without a key. */
  lemma Login401EmptiesStore(entries: map<string, string>, apiBase: Option<string>, key: string, res: FetchResponse)
    requires Configured(apiBase) && Trim(key) != "" && res.status == 401
    ensures var o := LoginAttempt(true, entries, apiBase, key, Delivered(res));
      o.err == Some(InvalidKeyMessage) && Auth.ReadSlot(true, o.entries) == None && o.redirect == None
  {
  }

  /** Any other failure shows the generic message and keeps the typed key
      stored. */
  lemma OtherFailureKeepsKey(entries: map<string, string>, apiBase: Option<string>, key: string, fetched: FetchResult)
    requires Configured(apiBase) && Trim(key) != ""
    requires fetched.Rejected? || (!IsOk(fetched.response.status) && fetched.response.status != 401)
    ensures var o := LoginAttempt(true, entries, apiBase, key, fetched);
      o.err == Some(LoginFailedMessage) && Auth.ReadSlot(true, o.entries) == Some(Trim(key)) && o.redirect == None
  {
  }

  /** A successful check redirects and keeps the stored key. */
  lemma SuccessRedirects(entries: map<string, string>, apiBase: Option<string>, key: string, res: FetchResponse)
    requires Configured(apiBase) && Trim(key) != "" && IsOk(res.status)
    ensures var o := LoginAttempt(true, entries, apiBase, key, Delivered(res));
      o.redirect == Some(OverviewRoute) && o.err == None && Auth.ReadSlot(true, o.entries) == Some(Trim(key))
  {
  }

  /** A blank key is stored as the empty string, which `apiGet` reads as no
      key. Its status-401 error therefore shows the invalid-key message, no
      request goes out, and the empty entry stays behind. */
  lemma BlankKeyReportsInvalidKey(entries: map<string, string>, apiBase: Option<string>, key: string, fetched: FetchResult)
    requires Configured(apiBase) && Trim(key) == ""
    ensures var o := LoginAttempt(true, entries, apiBase, key, fetched);
      && o.sent == None && o.err == Some(InvalidKeyMessage)
      && Auth.ReadSlot(true, o.entries) == Some("")
  {
  }

  /** Without the API base the check fails before any request, with the generic message. */
  lemma MissingApiBaseReportsGenericFailure(entries: map<string, string>, key: string, fetched: FetchResult)
    ensures var o := LoginAttempt(true, entries, None, key, fetched);
      o.sent == None && o.err == Some(LoginFailedMessage) && Auth.ReadSlot(true, o.entries) == Some(Trim(key))
  {
  }

  class Page {
    const store: Auth.CredentialStore
    /** `process.env.NEXT_PUBLIC_API_BASE` */
    const apiBase: Option<string>
    var key: string
    var err: Option<string>
    var busy: bool
    /** where `router.replace` last sent the page */
    var redirect: Option<string>
    /** whether a submission awaits its check */
    var attempting: bool

    constructor (store: Auth.CredentialStore, apiBase: Option<string>)
      ensures this.store == store && this.apiBase == apiBase
      ensures key == "" && err == None && !busy && redirect == None && !attempting
    {
      this.store := store;
      this.apiBase := apiBase;
      key, err, busy, redirect, attempting := "", None, false, None, false;
    }

    /** The key input's `onChange`. */
    method SetKey(value: string)
      modifies this
      ensures key == value && err == old(err) && busy == old(busy)
      ensures redirect == old(redirect) && attempting == old(attempting)
    {
      key := value;
    }

    /** Whether the submit button is enabled. */
    method CanSubmit() returns (enabled: bool)
      ensures enabled == SubmitEnabled(busy, key)
    {
      enabled := !(busy || |Utf16(Trim(key))| < 8);
    }

    /** The mount effect. */
    method Mount()
      modifies this
      ensures var route := MountRedirect(Auth.ReadSlot(store.inBrowser, store.entries));
        redirect == if route.Some? then route else old(redirect)
      ensures key == old(key) && err == old(err) && busy == old(busy) && attempting == old(attempting)
    {
      var existing := store.GetApiKey();
      if existing.Some? && existing.value != "" {
        redirect := Some(OverviewRoute);
      }
    }

    /** `onSubmit` up to its `await`: the error is cleared, `busy` set and the
        key stored; if storing throws, the `catch` and `finally` run at once. */
    method BeginSubmit()
      modifies this, store
      ensures store.entries == if store.inBrowser then Auth.StoredAfterSet(old(store.entries), key) else old(store.entries)
      ensures busy == store.inBrowser && attempting == store.inBrowser
      ensures err == if store.inBrowser then None else Some(LoginFailedMessage)
      ensures key == old(key) && redirect == old(redirect)
    {
      err := None;
      busy := true;
      var stored := store.SetApiKey(key);
      if !stored {
        err := Some(LoginFailedMessage);
        busy := false;
        attempting := false;
      } else {
        attempting := true;
      }
    }

    /** The rest of `onSubmit`: the check with `apiGet("/v1/me")`, the
        redirect or the error, and `busy` dropped. */
    method FinishSubmit(fetched: FetchResult) returns (sent: Option<Request>)
      requires attempting
      modifies this, store
      ensures var g := ApiGetSpec(apiBase, Auth.ReadSlot(store.inBrowser, old(store.entries)), store.inBrowser, MePath, fetched);
        && sent == g.sent
        && store.entries == (if g.clearsKey then Auth.StoredAfterClear(old(store.entries)) else old(store.entries))
        && (g.result.Success? ==> redirect == Some(OverviewRoute) && err == old(err))
        && (g.result.Failure? ==> redirect == old(redirect) && err == Some(LoginErrorMessage(g.result.error)))
      ensures !busy && !attempting && key == old(key)
    {
      var result;
      result, sent := ApiGet(store, apiBase, MePath, fetched);
      if result.Success? {
        redirect := Some(OverviewRoute);
      } else {
        err := Some(LoginErrorMessage(result.error));
      }
      busy := false;
      attempting := false;
    }

    /** A whole submission, from a page that has not been redirected, ends as
        `LoginAttempt` says. */
    method Submit(fetched: FetchResult) returns (sent: Option<Request>)
      requires redirect == None
      modifies this, store
      ensures var o := LoginAttempt(store.inBrowser, old(store.entries), apiBase, old(key), fetched);
        store.entries == o.entries && err == o.err && redirect == o.redirect && sent == o.sent
      ensures !busy && !attempting
    {
      BeginSubmit();
      if attempting {
        sent := FinishSubmit(fetched);
      } else {
        sent := None;
      }
    }
  }
}
