/** The WordPress campaign API client (src/lib/api.ts): the token slot in
    local storage, the request helper that derives headers and error
    messages, and the typed campaign operations. The network is not modelled:
    every operation receives what `fetch` would have produced as a `Fetched`
    value, and records the request it issued in the client's log. */
module CampaignApi {
  import opened Common

  /** The local-storage key that holds the session token. */
  const SessionTokenKey := "netapp_campaign_token"

  const ContentType := "Content-Type"
  const Authorization := "Authorization"
  const SessionTokenHeader := "X-Session-Token"
  const NonceHeader := "X-WP-Nonce"
  const JsonMediaType := "application/json"

  // ---------------------------------------------------------------------
  // Wire types

  datatype Day = Day(
    dayNumber: int,
    dayDate: Option<string>,
    prizeName: string,
    prizeImage: Option<string>,
    isCurrent: bool,
    isAvailable: bool,
    isLocked: bool,
    isCompleted: bool,
    isCorrect: Option<bool>)

  datatype DayDetails = DayDetails(
    dayNumber: int,
    dayDate: Option<string>,
    prizeName: string,
    prizeImage: Option<string>,
    question: string,
    answerA: string,
    answerB: string,
    answerC: string,
    answerD: string,
    correctAnswer: Option<string>,
    correctAnswerText: Option<string>,
    alreadyAnswered: bool,
    userAnswer: Option<string>,
    isCorrect: Option<bool>)

  /** The correct-answer fields travel only with an answered day. */
  predicate AnswerGated(d: DayDetails) {
    (d.correctAnswer.Some? || d.correctAnswerText.Some?) ==> d.alreadyAnswered
  }

  datatype AnswerResponse = AnswerResponse(
    success: bool,
    isCorrect: bool,
    correctAnswer: string,
    correctAnswerText: string,
    message: Option<string>)

  datatype DashboardResponse = DashboardResponse(
    success: bool,
    campaignId: int,
    currentDay: Option<int>,
    days: seq<Day>,
    totalDays: Option<int>)

  datatype DayDetailsResponse = DayDetailsResponse(success: bool, day: Option<DayDetails>)

  datatype SessionInfo = SessionInfo(id: int, email: string, campaignId: int)

  /** The session payload; `message` is not declared in the `SessionResponse` interface of api.ts but
      the identity form reads it. */
  datatype SessionResponse = SessionResponse(
    success: bool,
    token: Option<string>,
    session: Option<SessionInfo>,
    message: Option<string>)

  datatype Progress = Progress(
    totalDays: int,
    completedDays: int,
    correctAnswers: int,
    incorrectAnswers: int,
    completedDayNumbers: seq<int>)

  datatype ProgressResponse = ProgressResponse(success: bool, progress: Option<Progress>)

  /** `{ success: false, session: null, token: null }`. */
  function NoSession(): SessionResponse {
    SessionResponse(false, None, None, None)
  }

  /** `response.success && response.session`. */
  predicate SessionValid(r: SessionResponse) {
    r.success && r.session.Some?
  }

  // ---------------------------------------------------------------------
  // Requests

  datatype Verb = Get | Post

  /** The paths under the campaign namespace; `DayEndpoint(n)` is `/day/${n}`. */
  datatype Endpoint =
    | RegisterEndpoint
    | SessionEndpoint
    | DashboardEndpoint
    | DayEndpoint(dayNumber: int)
    | AnswerEndpoint
    | ProgressEndpoint

  /** JSON request bodies; a `None` field is an `undefined` one, which
      `JSON.stringify` leaves out. */
  datatype RequestBody =
    | RegisterBody(
        email: string,
        firstName: Option<string>,
        lastName: Option<string>,
        company: Option<string>,
        jobTitle: Option<string>,
        businessPhone: Option<string>)
    | SessionBody(email: string)
    | AnswerBody(dayNumber: int, answer: string)

  /** An issued request: what `apiRequest` builds its headers from (the
      caller's headers, the page nonce and the stored token) and its body. */
  datatype Request = Request(
    verb: Verb,
    endpoint: Endpoint,
    callerHeaders: map<string, string>,
    nonce: Option<string>,
    token: Option<string>,
    body: Option<RequestBody>)
  {
    /** The headers sent with it (see `Headers` and `BuildHeaders`). */
    function SentHeaders(): map<string, string> {
      Headers(callerHeaders, nonce, token)
    }
  }

  /** The value of header `k` by priority: the token headers, then the nonce,
      then the caller's own headers, then the JSON default. */
  function HeaderValue(k: string, caller: map<string, string>, nonce: Option<string>, token: Option<string>): string {
    if k == Authorization && Truthy(token) then "Bearer " + token.value
    else if k == SessionTokenHeader && Truthy(token) then token.value
    else if k == NonceHeader && Truthy(nonce) then nonce.value
    else if k in caller then caller[k]
    else JsonMediaType
  }

  function NonceKeys(nonce: Option<string>): set<string> {
    if Truthy(nonce) then {NonceHeader} else {}
  }

  function TokenKeys(token: Option<string>): set<string> {
    if Truthy(token) then {Authorization, SessionTokenHeader} else {}
  }

  /** The headers `apiRequest` sends, as a reference definition by priority. */
  function Headers(caller: map<string, string>, nonce: Option<string>, token: Option<string>): map<string, string> {
    map k | k in caller.Keys + {ContentType} + NonceKeys(nonce) + TokenKeys(token) :: HeaderValue(k, caller, nonce, token)
  }

  /** The header rules of src/lib/api.ts:51-65: a JSON content type unless the
      caller overrides it; the bearer and session-token headers exactly when a
      token is stored, overriding the caller's; the nonce header only when a
      nonce was found; every other caller header passed through. */
  lemma HeaderRules(caller: map<string, string>, nonce: Option<string>, token: Option<string>)
    ensures var h := Headers(caller, nonce, token);
      && ContentType in h
      && h[ContentType] == (if ContentType in caller then caller[ContentType] else JsonMediaType)
    ensures var h := Headers(caller, nonce, token);
      Truthy(token) ==>
        Authorization in h && h[Authorization] == "Bearer " + token.value &&
        SessionTokenHeader in h && h[SessionTokenHeader] == token.value
    ensures var h := Headers(caller, nonce, token);
      !Truthy(token) ==>
        (Authorization in h <==> Authorization in caller) &&
        (SessionTokenHeader in h <==> SessionTokenHeader in caller)
    ensures var h := Headers(caller, nonce, token);
      && (NonceHeader in h <==> Truthy(nonce) || NonceHeader in caller)
      && (Truthy(nonce) ==> h[NonceHeader] == nonce.value)
    ensures var h := Headers(caller, nonce, token);
      forall k :: k in caller && k != Authorization && k != SessionTokenHeader && k != NonceHeader ==>
        k in h && h[k] == caller[k]
    ensures var h := Headers(caller, nonce, token);
      forall k :: k in h ==> k in caller || k == ContentType || k in NonceKeys(nonce) || k in TokenKeys(token)
  {
  }

  /** With no caller headers and no token, the only credentials sent are the
      nonce, and the JSON content type is always there. */
  lemma AnonymousHeaders(nonce: Option<string>)
    ensures Headers(map[], nonce, None).Keys == {ContentType} + NonceKeys(nonce)
    ensures Headers(map[], nonce, None)[ContentType] == JsonMediaType
  {
    var h := Headers(map[], nonce, None);
    forall k | k in h ensures k == ContentType || k in NonceKeys(nonce) { }
  }

  /** A `campaignAPI` request (no caller headers) is sent as JSON and carries
      the stored token both as a bearer token and as `X-Session-Token` when
      one is stored, and neither header otherwise. */
  lemma CampaignRequestCredentials(verb: Verb, endpoint: Endpoint, nonce: Option<string>, token: Option<string>,
                                   body: Option<RequestBody>)
    ensures var h := Request(verb, endpoint, map[], nonce, token, body).SentHeaders();
      && ContentType in h && h[ContentType] == JsonMediaType
      && (Truthy(token) ==> Authorization in h && h[Authorization] == "Bearer " + token.value)
      && (Truthy(token) ==> SessionTokenHeader in h && h[SessionTokenHeader] == token.value)
      && (!Truthy(token) ==> Authorization !in h && SessionTokenHeader !in h)
  {
    HeaderRules(map[], nonce, token);
  }

  /** The JSON default overridden by the caller's headers. */
  lemma BaseStage(caller: map<string, string>)
    ensures Headers(caller, None, None) == map[ContentType := JsonMediaType] + caller
  {
    var r := Headers(caller, None, None);
    var b := map[ContentType := JsonMediaType] + caller;
    assert r.Keys == b.Keys;
    forall k | k in r ensures r[k] == b[k] { }
  }

  /** A found nonce is set over the caller's headers. */
  lemma NonceStage(caller: map<string, string>, nonce: Option<string>)
    ensures Headers(caller, nonce, None) ==
      if Truthy(nonce) then Headers(caller, None, None)[NonceHeader := nonce.value] else Headers(caller, None, None)
  {
    var r := Headers(caller, nonce, None);
    var b := if Truthy(nonce) then Headers(caller, None, None)[NonceHeader := nonce.value] else Headers(caller, None, None);
    assert r.Keys == b.Keys;
    forall k | k in r ensures r[k] == b[k] { }
  }

  /** A stored token is set over everything else. */
  lemma TokenStage(caller: map<string, string>, nonce: Option<string>, token: Option<string>)
    ensures Headers(caller, nonce, token) ==
      if Truthy(token) then Headers(caller, nonce, None)[Authorization := "Bearer " + token.value][SessionTokenHeader := token.value]
      else Headers(caller, nonce, None)
  {
    var r := Headers(caller, nonce, token);
    var base := Headers(caller, nonce, None);
    if Truthy(token) {
      var b := base[Authorization := "Bearer " + token.value][SessionTokenHeader := token.value];
      assert r.Keys == b.Keys;
      forall k | k in r ensures r[k] == b[k] {
        if k != Authorization && k != SessionTokenHeader {
          assert r[k] == base[k];
        }
      }
    } else {
      assert r.Keys == base.Keys;
      forall k | k in r ensures r[k] == base[k] { }
    }
  }

  /** `apiRequest`'s header building (src/lib/api.ts:51-65), one assignment at a time. */
  method BuildHeaders(caller: map<string, string>, nonce: Option<string>, token: Option<string>) returns (h: map<string, string>)
    ensures h == Headers(caller, nonce, token)
  {
    h := map[ContentType := JsonMediaType] + caller;
    BaseStage(caller);
    if Truthy(nonce) {
      h := h[NonceHeader := nonce.value];
    }
    NonceStage(caller, nonce);
    if Truthy(token) {
      h := h[Authorization := "Bearer " + token.value];
      h := h[SessionTokenHeader := token.value];
    }
    TokenStage(caller, nonce, token);
  }

  // ---------------------------------------------------------------------
  // Responses and errors

  /** The body of a non-2xx response: unparseable, or a JSON object whose
      `message` is a string or absent. */
  datatype ErrorBody = Unparseable | ErrorJson(message: Option<string>)

  /** What `fetch` and `response.json()` produced: a rejection with its
      message, a non-2xx status, or a parsed 2xx body. */
  datatype Fetched<T> =
    | Rejected(message: string)
    | NotOk(statusText: string, errorBody: ErrorBody)
    | Delivered(value: T)

  /** A settled promise: its value, or the message of the error it threw. */
  datatype Outcome<T> = Returned(value: T) | Thrown(message: string)

  /** The message of the error thrown for a non-2xx response (src/lib/api.ts:74-77).
      It is never empty, so a caller's `error.message || fallback` never falls
      back for an HTTP error. */
  function ErrorMessage(body: ErrorBody, statusText: string): (m: string)
    ensures m != ""
    ensures body.Unparseable? ==> m == "Unknown error"
    ensures body.ErrorJson? && Truthy(body.message) ==> m == body.message.value
    ensures body.ErrorJson? && !Truthy(body.message) ==> m == "API request failed: " + statusText
  {
    match body
    case Unparseable => "Unknown error"
    case ErrorJson(message) => if Truthy(message) then message.value else "API request failed: " + statusText
  }

  /** How `apiRequest` settles: it rejects exactly when there is no 2xx body. */
  function Settle<T>(f: Fetched<T>): (o: Outcome<T>)
    ensures o.Returned? <==> f.Delivered?
    ensures f.Delivered? ==> o.value == f.value
    ensures f.Rejected? ==> o.message == f.message
    ensures f.NotOk? ==> o.message == ErrorMessage(f.errorBody, f.statusText) && o.message != ""
  {
    match f
    case Rejected(m) => Thrown(m)
    case NotOk(statusText, body) => Thrown(ErrorMessage(body, statusText))
    case Delivered(v) => Returned(v)
  }

  // ---------------------------------------------------------------------
  // Session token rules, as functions of the stored token

  /** What `getSession` returns (src/lib/api.ts:185-222). */
  function GetSessionResponse(token: Option<string>, f: Fetched<SessionResponse>): (r: SessionResponse)
    ensures !Truthy(token) ==> r == NoSession()
    ensures Truthy(token) && !f.Delivered? ==> r == NoSession()
    ensures Truthy(token) && f.Delivered? ==> r == f.value
  {
    if !Truthy(token) then NoSession()
    else match Settle(f)
      case Thrown(_) => NoSession()
      case Returned(response) => response
  }

  /** The stored token after `getSession`. A usable token remains stored
      exactly when the response reports a valid session. */
  function GetSessionToken(token: Option<string>, f: Fetched<SessionResponse>): (t: Option<string>)
    ensures Truthy(t) <==> SessionValid(GetSessionResponse(token, f))
    ensures !Truthy(token) ==> t == token
    ensures Truthy(token) && !SessionValid(GetSessionResponse(token, f)) ==> t == None
    ensures Truthy(token) && SessionValid(GetSessionResponse(token, f)) ==>
      t == if Truthy(f.value.token) then f.value.token else token
  {
    if !Truthy(token) then token
    else match Settle(f)
      case Thrown(_) => None
      case Returned(response) =>
        if !response.success || response.session.None? then None
        else if Truthy(response.token) then response.token
        else token
  }

  /** `createSession` stores the returned token only on `success` with a token. */
  predicate StoresToken(o: Outcome<SessionResponse>) {
    o.Returned? && o.value.success && Truthy(o.value.token)
  }

  /** A 401 whose JSON body says "Invalid session" surfaces as an error whose
      message contains "session". */
  lemma InvalidSessionMessage(statusText: string)
    ensures Settle<SessionResponse>(NotOk(statusText, ErrorJson(Some("Invalid session")))) == Thrown("Invalid session")
    ensures Contains("Invalid session", "session")
  {
    ContainsAt("Invalid session", "session", 8);
  }

  // ---------------------------------------------------------------------
  // The token slot

  /** The `sessionStorage` export: one local-storage slot, reachable only when
      a `window` exists. `storage` is the whole of local storage. */
  class TokenStore {
    const hasWindow: bool
    var storage: map<string, string>

    constructor (hasWindow: bool, storage: map<string, string>)
      ensures this.hasWindow == hasWindow && this.storage == storage
    {
      this.hasWindow := hasWindow;
      this.storage := storage;
    }

    /** What `getToken` returns. */
    function Token(): Option<string>
      reads this
    {
      if hasWindow && SessionTokenKey in storage then Some(storage[SessionTokenKey]) else None
    }

    /** Every other local-storage entry. */
    function Others(): map<string, string>
      reads this
    {
      storage - {SessionTokenKey}
    }

    method GetToken() returns (t: Option<string>)
      ensures t == Token()
      ensures !hasWindow ==> t == None
    {
      if hasWindow {
        t := if SessionTokenKey in storage then Some(storage[SessionTokenKey]) else None;
      } else {
        t := None;
      }
    }

    method SetToken(token: string)
      modifies this
      ensures hasWindow ==> Token() == Some(token) && Others() == old(Others())
      ensures storage == if hasWindow then old(storage)[SessionTokenKey := token] else old(storage)
    {
      if hasWindow {
        storage := storage[SessionTokenKey := token];
      }
    }

    method RemoveToken()
      modifies this
      ensures Token() == None
      ensures Others() == old(Others())
      ensures storage == if hasWindow then old(storage) - {SessionTokenKey} else old(storage)
    {
      if hasWindow {
        storage := storage - {SessionTokenKey};
      }
    }
  }

  // ---------------------------------------------------------------------
  // The client

  /** `apiRequest` and `campaignAPI`. `nonce` is what `getNonce` finds in the
      page; `sent` logs every request in the order it was issued. */
  class Client {
    const store: TokenStore
    const nonce: Option<string>
    var sent: seq<Request>

    constructor (store: TokenStore, nonce: Option<string>)
      ensures this.store == store && this.nonce == nonce && sent == []
    {
      this.store := store;
      this.nonce := nonce;
      sent := [];
    }

    /** The request `apiRequest` issues with no caller headers, given the
        token stored now. */
    function Authed(verb: Verb, endpoint: Endpoint, body: Option<RequestBody>): Request
      reads store
    {
      Request(verb, endpoint, map[], nonce, store.Token(), body)
    }

    /** `apiRequest` (src/lib/api.ts:44-80). */
    method ApiRequest<T>(verb: Verb, endpoint: Endpoint, caller: map<string, string>, body: Option<RequestBody>, f: Fetched<T>)
      returns (o: Outcome<T>)
      modifies this
      ensures sent == old(sent) + [Request(verb, endpoint, caller, nonce, store.Token(), body)]
      ensures o == Settle(f)
    {
      var token := store.GetToken();
      sent := sent + [Request(verb, endpoint, caller, nonce, token, body)];
      match f
      case Rejected(m) =>
        o := Thrown(m);
      case NotOk(statusText, errorBody) =>
        var message := ErrorMessage(errorBody, statusText);
        o := Thrown(message);
      case Delivered(v) =>
        o := Returned(v);
    }

    /** `campaignAPI.register`: the six arguments fill the body's six fields in order. */
    method Register(email: string, firstName: Option<string>, lastName: Option<string>, company: Option<string>,
                    jobTitle: Option<string>, businessPhone: Option<string>, f: Fetched<SessionResponse>)
      returns (o: Outcome<SessionResponse>)
      modifies this
      ensures sent == old(sent) + [Authed(Post, RegisterEndpoint,
        Some(RegisterBody(email, firstName, lastName, company, jobTitle, businessPhone)))]
      ensures o == Settle(f)
    {
      o := ApiRequest(Post, RegisterEndpoint, map[],
        Some(RegisterBody(email, firstName, lastName, company, jobTitle, businessPhone)), f);
    }

    /** `campaignAPI.createSession`: stores the token only on success with a
        token, and returns the response unmodified. */
    method CreateSession(email: string, f: Fetched<SessionResponse>) returns (o: Outcome<SessionResponse>)
      modifies this, store
      ensures sent == old(sent) + [old(Authed(Post, SessionEndpoint, Some(SessionBody(email))))]
      ensures o == Settle(f)
      ensures store.hasWindow ==> store.Token() == if StoresToken(o) then o.value.token else old(store.Token())
      ensures store.Others() == old(store.Others())
      ensures !StoresToken(o) || !store.hasWindow ==> store.storage == old(store.storage)
    {
      o := ApiRequest(Post, SessionEndpoint, map[], Some(SessionBody(email)), f);
      if o.Returned? && o.value.success && Truthy(o.value.token) {
        store.SetToken(o.value.token.value);
      }
    }

    /** `campaignAPI.getSession`: never throws; with no token it issues no request. */
    method GetSession(f: Fetched<SessionResponse>) returns (r: SessionResponse)
      modifies this, store
      ensures r == GetSessionResponse(old(store.Token()), f)
      ensures sent == old(sent) + if Truthy(old(store.Token())) then [old(Authed(Get, SessionEndpoint, None))] else []
      ensures store.hasWindow ==> store.Token() == GetSessionToken(old(store.Token()), f)
      ensures store.Others() == old(store.Others())
      ensures !store.hasWindow ==> store.storage == old(store.storage)
    {
      var token := store.GetToken();
      if !Truthy(token) {
        return NoSession();
      }
      var o := ApiRequest(Get, SessionEndpoint, map[], None, f);
      match o
      case Thrown(_) =>
        store.RemoveToken();
        r := NoSession();
      case Returned(response) =>
        if !response.success || response.session.None? {
          store.RemoveToken();
        } else if Truthy(response.token) {
          store.SetToken(response.token.value);
        }
        r := response;
    }

    method GetDashboard(f: Fetched<DashboardResponse>) returns (o: Outcome<DashboardResponse>)
      modifies this
      ensures sent == old(sent) + [Authed(Get, DashboardEndpoint, None)]
      ensures o == Settle(f)
    {
      o := ApiRequest(Get, DashboardEndpoint, map[], None, f);
    }

    method GetDayDetails(dayNumber: int, f: Fetched<DayDetailsResponse>) returns (o: Outcome<DayDetailsResponse>)
      modifies this
      ensures sent == old(sent) + [Authed(Get, DayEndpoint(dayNumber), None)]
      ensures o == Settle(f)
    {
      o := ApiRequest(Get, DayEndpoint(dayNumber), map[], None, f);
    }

    /** `campaignAPI.submitAnswer`: the body is `{day_number, answer}`. */
    method SubmitAnswer(dayNumber: int, answer: string, f: Fetched<AnswerResponse>) returns (o: Outcome<AnswerResponse>)
      modifies this
      ensures sent == old(sent) + [Authed(Post, AnswerEndpoint, Some(AnswerBody(dayNumber, answer)))]
      ensures o == Settle(f)
    {
      o := ApiRequest(Post, AnswerEndpoint, map[], Some(AnswerBody(dayNumber, answer)), f);
    }

    method GetProgress(f: Fetched<ProgressResponse>) returns (o: Outcome<ProgressResponse>)
      modifies this
      ensures sent == old(sent) + [Authed(Get, ProgressEndpoint, None)]
      ensures o == Settle(f)
    {
      o := ApiRequest(Get, ProgressEndpoint, map[], None, f);
    }
  }

  /** The slot's round trips, on a page with a `window`. */
  method TokenRoundTrip(store: TokenStore, t: string) returns (afterSet: Option<string>, afterRemove: Option<string>)
    requires store.hasWindow
    modifies store
    ensures afterSet == Some(t) && afterRemove == None
    ensures store.Others() == old(store.Others())
  {
    store.SetToken(t);
    afterSet := store.GetToken();
    store.RemoveToken();
    afterRemove := store.GetToken();
  }
}
