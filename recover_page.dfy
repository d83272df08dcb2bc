/**
 * The key-recovery page of src/app/recover/page.tsx. Without a token it asks
 * for an email address and posts a recovery request. With a `token` query
 * parameter it runs a rotation effect that exchanges the token for a new key,
 * stores it and shows it. Responses arrive as separate, caller-chosen events.
 * Each run of the effect is numbered, and its `cancelled` flag is set by
 * its cleanup.
 */
module RecoverPage {
  import opened Wrappers
  import opened JsValues
  import opened JsStrings
  import Auth
  import opened Api

  // ------------------------------------------------------------ the email check

  /** `\S` */
  predicate NonSpace(c: char) {
    !IsWhitespace(c)
  }

  /** Whether `t` begins with `\S+\.\S`. */
  predicate DotTail(t: string) {
    && |t| >= 3 && NonSpace(t[0]) && NonSpace(t[1])
    && ((t[1] == '.' && NonSpace(t[2])) || DotTail(t[1..]))
  }

  /** `isValidEmail(email)`: `/\S+@\S+\.\S+/.test(email)` */
  predicate IsValidEmail(s: string)
    ensures IsValidEmail(s) ==> |s| >= 5
  {
    |s| >= 2 && ((NonSpace(s[0]) && s[1] == '@' && DotTail(s[2..])) || IsValidEmail(s[1..]))
  }

  /** The regular expression's meaning: `s[p..t]` splits into `\S+` at
      `[p, q)`, `@` at `q`, `\S+` at `[q+1, r)`, `.` at `r`, `\S+` at `[r+1, t)`. */
  ghost predicate MatchAt(s: string, p: int, q: int, r: int, t: int) {
    && 0 <= p < q && q + 1 < r && r + 1 < t <= |s|
    && (forall k :: p <= k < q ==> NonSpace(s[k]))
    && s[q] == '@'
    && (forall k :: q + 1 <= k < r ==> NonSpace(s[k]))
    && s[r] == '.'
    && (forall k :: r + 1 <= k < t ==> NonSpace(s[k]))
  }

  /** The pattern matches somewhere in `s`: the test is not anchored. */
  ghost predicate MatchesEmailPattern(s: string) {
    exists p, q, r, t :: MatchAt(s, p, q, r, t)
  }

  /** `t` begins with `\S+` ending just before a `.` at `r`, and a `\S` follows. */
  ghost predicate DotAt(t: string, r: int) {
    && 1 <= r && r + 1 < |t|
    && (forall k :: 0 <= k < r ==> NonSpace(t[k]))
    && t[r] == '.' && NonSpace(t[r + 1])
  }

  /** An `@` at `q` with a `\S` before it and `\S+\.\S` after it. */
  ghost predicate EmailAt(s: string, q: int) {
    1 <= q < |s| && NonSpace(s[q - 1]) && s[q] == '@' && DotTail(s[q + 1..])
  }

  lemma {:induction false} DotTailWitness(t: string)
    requires DotTail(t)
    ensures exists r :: DotAt(t, r)
  {
    if t[1] == '.' && NonSpace(t[2]) {
      assert DotAt(t, 1);
    } else {
      DotTailWitness(t[1..]);
      var r :| DotAt(t[1..], r);
      assert DotAt(t, r + 1);
    }
  }

  lemma {:induction false} DotTailFromWitness(t: string, r: int)
    requires DotAt(t, r)
    ensures DotTail(t)
    decreases r
  {
    if r > 1 {
      assert DotAt(t[1..], r - 1);
      DotTailFromWitness(t[1..], r - 1);
    }
  }

  lemma {:induction false} ValidEmailWitness(s: string)
    requires IsValidEmail(s)
    ensures exists q :: EmailAt(s, q)
  {
    if NonSpace(s[0]) && s[1] == '@' && DotTail(s[2..]) {
      assert EmailAt(s, 1);
    } else {
      ValidEmailWitness(s[1..]);
      var q :| EmailAt(s[1..], q);
      assert s[1..][q + 1..] == s[q + 2..];
      assert EmailAt(s, q + 1);
    }
  }

  lemma {:induction false} ValidEmailFromWitness(s: string, q: int)
    requires EmailAt(s, q)
    ensures IsValidEmail(s)
    decreases q
  {
    if q > 1 {
      assert s[1..][q..] == s[q + 1..];
      assert EmailAt(s[1..], q - 1);
      ValidEmailFromWitness(s[1..], q - 1);
    }
  }

  /** `isValidEmail` accepts exactly the strings the regular expression matches. */
  lemma IsValidEmailMeansPattern(s: string)
    ensures IsValidEmail(s) <==> MatchesEmailPattern(s)
  {
    if IsValidEmail(s) {
      ValidEmailWitness(s);
      var q :| EmailAt(s, q);
      DotTailWitness(s[q + 1..]);
      var r' :| DotAt(s[q + 1..], r');
      var r := q + 1 + r';
      assert MatchAt(s, q - 1, q, r, r + 2);
    }
    if MatchesEmailPattern(s) {
      var p, q, r, t :| MatchAt(s, p, q, r, t);
      assert DotAt(s[q + 1..], r - q - 1);
      DotTailFromWitness(s[q + 1..], r - q - 1);
      ValidEmailFromWitness(s, q);
    }
  }

  /** Surrounding text does not matter, only a local `x@y.z` shape does. */
  lemma ValidEmailInContext(pre: string, s: string, post: string)
    requires IsValidEmail(s)
    ensures IsValidEmail(pre + s + post)
  {
    IsValidEmailMeansPattern(s);
    var p, q, r, t :| MatchAt(s, p, q, r, t);
    var w := pre + s + post;
    assert MatchAt(w, |pre| + p, |pre| + q, |pre| + r, |pre| + t);
    IsValidEmailMeansPattern(w);
  }

  // ------------------------------------------------------------ messages

  const InvalidEmailMessage := "Please enter a valid email address."
  const TooManyAttemptsMessage := "Too many attempts. Please wait a few minutes."
  const RecoverFailedMessage := "Failed to process recovery. Check email or try again."
  const NewLinkMessage := "Recovery failed. Please request a new link."
  const InvalidLinkMessage := "This recovery link is invalid or expired."
  const RetryMessage := "Recovery failed. Please try again."

  /** The message a failed recovery request shows. */
  function RecoverErrorMessage(t: Thrown): (m: string)
    ensures m == TooManyAttemptsMessage <==> t.ApiFailure? && t.err.status == 429
    ensures m == RecoverFailedMessage <==> !(t.ApiFailure? && t.err.status == 429)
  {
    if t.ApiFailure? && t.err.status == 429 then TooManyAttemptsMessage else RecoverFailedMessage
  }

  /** The message a failed rotation shows. */
  function RotateErrorMessage(t: Thrown): (m: string)
    ensures m == InvalidLinkMessage <==> t.ApiFailure? && t.err.status == 400
    ensures m == RetryMessage <==> !(t.ApiFailure? && t.err.status == 400)
  {
    if t.ApiFailure? && t.err.status == 400 then InvalidLinkMessage else RetryMessage
  }

  // ------------------------------------------------------------ page state

  /** A call to `apiPost(path, body)`. */
  datatype PostRequest = PostRequest(path: string, body: Value)

  /** The page's React state, the credential store's contents, the posts the
      page has made, how many recovery requests are unanswered, and which run
      of the rotation effect is the latest and whether its cleanup ran. */
  datatype RecoverState = RecoverState(
    email: string,
    busy: bool,
    err: Option<string>,
    success: bool,
    rotating: bool,
    newKey: Option<string>,
    entries: map<string, string>,
    posts: seq<PostRequest>,
    inFlight: nat,
    run: nat,
    cancelled: bool)

  function Initial(entries: map<string, string>): (s: RecoverState)
    ensures !s.busy && s.err == None && !s.success && !s.rotating && s.newKey == None
    ensures s.posts == [] && s.inFlight == 0 && s.run == 0 && s.entries == entries
  {
    RecoverState("", false, None, false, false, None, entries, [], 0, 0, false)
  }

  /** `disabled={busy || !email}` */
  predicate SubmitEnabled(s: RecoverState) {
    !s.busy && s.email != ""
  }

  /** `onSubmit` up to its `await`: a malformed address sets the error and
      sends nothing, otherwise the error is cleared, `busy` set and the
      request posted. */
  function SubmitStep(s: RecoverState): (s': RecoverState)
    ensures !IsValidEmail(s.email) ==> s' == s.(err := Some(InvalidEmailMessage))
    ensures IsValidEmail(s.email) ==>
      s' == s.(err := None, busy := true, inFlight := s.inFlight + 1,
               posts := s.posts + [PostRequest("/v1/recover", Obj(map["email" := Str(s.email)]))])
  {
    if !IsValidEmail(s.email) then
      s.(err := Some(InvalidEmailMessage))
    else
      s.(err := None, busy := true, inFlight := s.inFlight + 1,
         posts := s.posts + [PostRequest("/v1/recover", Obj(map["email" := Str(s.email)]))])
  }

  /** The rest of `onSubmit` once a recovery request settles: success is
      recorded, or the failure's message shown; `busy` drops either way. */
  function SubmitSettledStep(s: RecoverState, outcome: Result<Value, Thrown>): (s': RecoverState)
    requires s.inFlight > 0
    ensures !s'.busy && s'.inFlight == s.inFlight - 1
    ensures outcome.Success? ==> s' == s.(success := true, busy := false, inFlight := s.inFlight - 1)
    ensures outcome.Failure? ==>
      s' == s.(err := Some(RecoverErrorMessage(outcome.error)), busy := false, inFlight := s.inFlight - 1)
  {
    var s1 := if outcome.Success? then s.(success := true) else s.(err := Some(RecoverErrorMessage(outcome.error)));
    s1.(busy := false, inFlight := s.inFlight - 1)
  }

  /** `!token` for what `searchParams.get("token")` returned. */
  predicate HasToken(token: Option<string>) {
    token.Some? && token.value != ""
  }

  /** A run of the rotation effect: with no token nothing happens; otherwise
      a new run starts, not cancelled, with the error cleared, `rotating` set
      and the token posted. */
  function RotateStartStep(s: RecoverState, token: Option<string>): (s': RecoverState)
    ensures !HasToken(token) ==> s' == s
    ensures HasToken(token) ==>
      s' == s.(run := s.run + 1, cancelled := false, err := None, rotating := true,
               posts := s.posts + [PostRequest("/v1/recover-rotate", Obj(map["token" := Str(token.value)]))])
  {
    if !HasToken(token) then s
    else
      s.(run := s.run + 1, cancelled := false, err := None, rotating := true,
         posts := s.posts + [PostRequest("/v1/recover-rotate", Obj(map["token" := Str(token.value)]))])
  }

  /** The effect's cleanup: `cancelled = true` for the latest run. */
  function RotateCancelStep(s: RecoverState): (s': RecoverState)
    ensures s' == s.(cancelled := true)
  {
    s.(cancelled := true)
  }

  /** Whether run `fromRun` has been cleaned up: every run but the latest
      has, since React cleans an effect up before running it again. */
  predicate Cancelled(s: RecoverState, fromRun: nat) {
    fromRun != s.run || s.cancelled
  }

  /** The rest of `rotate` once run `fromRun`'s request settles. A response
      to a cancelled run is ignored, but a failure still sets the error: the
      `catch` does not look at `cancelled`, only the `finally` does. A truthy
      `api_key` that is not a string makes `setApiKey` throw, which the
      `catch` turns into the retry message. */
  function RotateSettledStep(s: RecoverState, fromRun: nat, outcome: Result<Value, Thrown>, inBrowser: bool): (s': RecoverState)
    requires 1 <= fromRun <= s.run
    ensures outcome.Success? && Cancelled(s, fromRun) ==> s' == s
    ensures outcome.Failure? ==>
      s' == s.(err := Some(RotateErrorMessage(outcome.error)),
               rotating := if Cancelled(s, fromRun) then s.rotating else false)
    ensures outcome.Success? && !Cancelled(s, fromRun) ==>
      var key := OptionalProp(outcome.value, "api_key");
      && !s'.rotating
      && (key.Str? && key.s != "" && inBrowser ==>
            s' == s.(entries := Auth.StoredAfterSet(s.entries, key.s), newKey := Some(key.s), rotating := false))
      && (!Truthy(key) ==> s' == s.(err := Some(NewLinkMessage), rotating := false))
      && (Truthy(key) && !(key.Str? && inBrowser) ==> s' == s.(err := Some(RetryMessage), rotating := false))
  {
    var cancelled := Cancelled(s, fromRun);
    match outcome
    case Success(data) =>
      if cancelled then s
      else
        var key := OptionalProp(data, "api_key");
        if !Truthy(key) then s.(err := Some(NewLinkMessage), rotating := false)
        else if key.Str? && inBrowser then
          s.(entries := Auth.StoredAfterSet(s.entries, key.s), newKey := Some(key.s), rotating := false)
        else
          s.(err := Some(RetryMessage), rotating := false)
    case Failure(t) =>
      s.(err := Some(RotateErrorMessage(t)), rotating := if cancelled then s.rotating else false)
  }

  // ------------------------------------------------------------ properties

  /** A malformed address never reaches the server. */
  lemma InvalidEmailSendsNothing(s: RecoverState)
    requires !IsValidEmail(s.email)
    ensures SubmitStep(s).posts == s.posts && SubmitStep(s).inFlight == s.inFlight
    ensures SubmitStep(s).err == Some(InvalidEmailMessage) && SubmitStep(s).busy == s.busy
  {
  }

  /** A submission from a quiet page is busy while its request is out, and
      not busy afterwards; it succeeds exactly when the request does and
      otherwise shows a status-dependent message. */
  lemma SubmitRoundTrip(s: RecoverState, outcome: Result<Value, Thrown>)
    requires IsValidEmail(s.email) && s.inFlight == 0 && !s.success
    ensures SubmitStep(s).busy && |SubmitStep(s).posts| == |s.posts| + 1
    ensures var s' := SubmitSettledStep(SubmitStep(s), outcome);
      && !s'.busy && s'.inFlight == 0
      && (s'.success <==> outcome.Success?)
      && (s'.err == None <==> outcome.Success?)
      && (outcome.Failure? && outcome.error.ApiFailure? && outcome.error.err.status == 429 ==>
            s'.err == Some(TooManyAttemptsMessage))
  {
  }

  /** Without a token the rotation effect does nothing at all. */
  lemma NoTokenNoRotation(s: RecoverState)
    ensures RotateStartStep(s, None) == s && RotateStartStep(s, Some("")) == s
  {
  }

  /** A key delivered to the live run is stored trimmed, shown as delivered,
      and reads back from the store. */
  lemma RotatedKeyIsStored(s: RecoverState, token: string, key: string)
    requires token != "" && key != ""
    ensures var s1 := RotateStartStep(s, Some(token));
      var s2 := RotateSettledStep(s1, s1.run, Success(Obj(map["api_key" := Str(key)])), true);
      && s2.newKey == Some(key) && !s2.rotating && s2.err == None
      && Auth.ReadSlot(true, s2.entries) == Some(Trim(key))
  {
  }

  /** Once cleaned up, a run's success changes nothing, but its failure
      still overwrites the error the page shows. */
  lemma CancelledRunStillReportsFailure(s: RecoverState, token: string, t: Thrown)
    requires token != ""
    ensures var s1 := RotateCancelStep(RotateStartStep(s, Some(token)));
      var s2 := RotateSettledStep(s1, s1.run, Failure(t), true);
      && RotateSettledStep(s1, s1.run, Success(Obj(map["api_key" := Str("k")])), true) == s1
      && s2.err == Some(RotateErrorMessage(t)) && s2.rotating
  {
  }

  /** A stale run (one started before the latest) cannot store a key. */
  lemma StaleRunStoresNothing(s: RecoverState, fromRun: nat, outcome: Result<Value, Thrown>, inBrowser: bool)
    requires 1 <= fromRun < s.run
    ensures RotateSettledStep(s, fromRun, outcome, inBrowser).entries == s.entries
    ensures RotateSettledStep(s, fromRun, outcome, inBrowser).newKey == s.newKey
  {
  }

  // ------------------------------------------------------------ the page

  class Page {
    /** `searchParams.get("token")` */
    const token: Option<string>
    const store: Auth.CredentialStore
    var email: string
    var busy: bool
    var err: Option<string>
    var success: bool
    var rotating: bool
    var newKey: Option<string>
    var posts: seq<PostRequest>
    var inFlight: nat
    var run: nat
    var cancelled: bool

    function State(): RecoverState
      reads this, store
    {
      RecoverState(email, busy, err, success, rotating, newKey, store.entries, posts, inFlight, run, cancelled)
    }

    constructor (token: Option<string>, store: Auth.CredentialStore)
      ensures this.token == token && this.store == store
      ensures State() == Initial(store.entries)
    {
      this.token := token;
      this.store := store;
      email, busy, err, success, rotating, newKey := "", false, None, false, false, None;
      posts, inFlight, run, cancelled := [], 0, 0, false;
    }

    /** The email input's `onChange`. */
    method SetEmail(value: string)
      modifies this
      ensures State() == old(State()).(email := value)
    {
      email := value;
    }

    /** Whether the submit button is enabled. */
    method CanSubmit() returns (enabled: bool)
      ensures enabled == SubmitEnabled(State())
    {
      enabled := !(busy || email == "");
    }

    /** `onSubmit` up to its `await`. */
    method Submit()
      modifies this
      ensures State() == SubmitStep(old(State()))
    {
      if !IsValidEmail(email) {
        err := Some(InvalidEmailMessage);
        return;
      }
      err := None;
      busy := true;
      posts := posts + [PostRequest("/v1/recover", Obj(map["email" := Str(email)]))];
      inFlight := inFlight + 1;
    }

    /** A recovery request settles. */
    method SubmitSettled(outcome: Result<Value, Thrown>)
      requires inFlight > 0
      modifies this
      ensures State() == SubmitSettledStep(old(State()), outcome)
    {
      if outcome.Success? {
        success := true;
      } else {
        err := Some(RecoverErrorMessage(outcome.error));
      }
      busy := false;
      inFlight := inFlight - 1;
    }

    /** The rotation effect runs (on mount, or again after its cleanup). */
    method StartRotation()
      modifies this
      ensures State() == RotateStartStep(old(State()), token)
    {
      if !HasToken(token) {
        return;
      }
      run := run + 1;
      cancelled := false;
      err := None;
      rotating := true;
      posts := posts + [PostRequest("/v1/recover-rotate", Obj(map["token" := Str(token.value)]))];
    }

    /** The rotation effect's cleanup. */
    method CancelRotation()
      modifies this
      ensures State() == RotateCancelStep(old(State()))
    {
      cancelled := true;
    }

    /** Run `fromRun`'s rotation request settles. */
    method RotationSettled(fromRun: nat, outcome: Result<Value, Thrown>)
      requires 1 <= fromRun <= run
      modifies this, store
      ensures State() == RotateSettledStep(old(State()), fromRun, outcome, store.inBrowser)
    {
      var isCancelled := fromRun != run || cancelled;
      if outcome.Failure? {
        err := Some(RotateErrorMessage(outcome.error));
        if !isCancelled {
          rotating := false;
        }
        return;
      }
      if isCancelled {
        return;
      }
      var key := OptionalProp(outcome.value, "api_key");
      if !Truthy(key) {
        err := Some(NewLinkMessage);
      } else if key.Str? {
        var stored := store.SetApiKey(key.s);
        if stored {
          newKey := Some(key.s);
        } else {
          err := Some(RetryMessage);
        }
      } else {
        err := Some(RetryMessage);
      }
      rotating := false;
    }
  }
}
