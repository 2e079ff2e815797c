/** The identity form (src/components/email-entry.tsx): its ordered
    validation guards, the email pattern `^[^\s@]+@[^\s@]+\.[^\s@]+$`, and the
    register-then-create-session sequence its submit handler runs. */
module EmailForm {
  import opened Common
  import opened CampaignApi

  // ---------------------------------------------------------------------
  // The email pattern

  /** JavaScript's `\s`: the WhiteSpace and LineTerminator code points of
      section 22.2.2.9 of ECMA-262. */
  predicate IsSpace(c: char) {
    c == '\t' || c == '\n' || c == '\U{000B}' || c == '\U{000C}' || c == '\r' || c == ' ' ||
    c == '\U{00A0}' || c == '\U{1680}' || ('\U{2000}' <= c <= '\U{200A}') ||
    c == '\U{2028}' || c == '\U{2029}' || c == '\U{202F}' || c == '\U{205F}' ||
    c == '\U{3000}' || c == '\U{FEFF}'
  }

  /** `[^\s@]`. */
  predicate Plain(c: char) {
    c != '@' && !IsSpace(c)
  }

  /** Every character matches `[^\s@]`. */
  predicate AllPlain(s: string) {
    forall i :: 0 <= i < |s| ==> Plain(s[i])
  }

  /** A '.' at an index in `[lo, |s| - 2]`: there is at least one character after it. */
  predicate InnerDotFrom(s: string, lo: int) {
    exists j :: 0 <= j && lo <= j < |s| - 1 && s[j] == '.'
  }

  /** `[^\s@]+\.[^\s@]+` as a whole string: no whitespace or '@', and a '.'
      that is neither the first nor the last character. */
  predicate DottedDomain(d: string) {
    AllPlain(d) && InnerDotFrom(d, 1)
  }

  /** Some '@' at an index `k >= lo` splits `s` into a plain local part and a
      dotted domain. */
  predicate SplitFrom(s: string, lo: int) {
    exists k :: 0 <= k && lo <= k < |s| && s[k] == '@' && AllPlain(s[..k]) && DottedDomain(s[k + 1..])
  }

  /** The declarative reading of the pattern: `local@domain` with a non-empty
      plain local part and a dotted domain. */
  predicate WellFormedEmail(s: string) {
    SplitFrom(s, 1)
  }

  /** The states of a left-to-right matcher for the pattern. */
  datatype Phase =
    | StartLocal   // nothing read yet
    | InLocal      // at least one local character
    | AfterAt      // just read the '@'
    | InDomain     // at least one domain character, no usable '.' yet
    | AfterDot     // a usable '.' was the last character
    | Accepting    // a usable '.' followed by at least one character

  /** One step of the matcher; `None` rejects. */
  function Next(p: Phase, c: char): Option<Phase> {
    if IsSpace(c) then None
    else match p
      case StartLocal => if c == '@' then None else Some(InLocal)
      case InLocal => if c == '@' then Some(AfterAt) else Some(InLocal)
      case AfterAt => if c == '@' then None else Some(InDomain)
      case InDomain => if c == '@' then None else if c == '.' then Some(AfterDot) else Some(InDomain)
      case AfterDot => if c == '@' then None else Some(Accepting)
      case Accepting => if c == '@' then None else Some(Accepting)
  }

  function Scan(p: Phase, s: string): Option<Phase>
    decreases |s|
  {
    if s == [] then Some(p)
    else match Next(p, s[0])
      case None => None
      case Some(q) => Scan(q, s[1..])
  }

  /** `isEmail` (src/components/email-entry.tsx:119-121). */
  predicate IsEmail(s: string) {
    Scan(StartLocal, s) == Some(Accepting)
  }

  lemma AllPlainCons(s: string)
    requires s != []
    ensures AllPlain(s) <==> Plain(s[0]) && AllPlain(s[1..])
  {
    if Plain(s[0]) && AllPlain(s[1..]) {
      forall i | 0 <= i < |s| ensures Plain(s[i]) {
        if i > 0 { assert s[i] == s[1..][i - 1]; }
      }
    }
  }

  lemma {:induction false} ScanAccepting(s: string)
    ensures Scan(Accepting, s) == Some(Accepting) <==> AllPlain(s)
    decreases |s|
  {
    if s != [] {
      AllPlainCons(s);
      ScanAccepting(s[1..]);
    }
  }

  lemma ScanAfterDot(s: string)
    ensures Scan(AfterDot, s) == Some(Accepting) <==> s != [] && AllPlain(s)
  {
    if s != [] {
      AllPlainCons(s);
      ScanAccepting(s[1..]);
    }
  }

  lemma InnerDotShift(s: string, lo: int)
    requires s != [] && lo >= 1
    ensures InnerDotFrom(s, lo) <==> InnerDotFrom(s[1..], lo - 1)
  {
    if InnerDotFrom(s, lo) {
      var j :| 0 <= j && lo <= j < |s| - 1 && s[j] == '.';
      assert s[1..][j - 1] == '.';
    }
    if InnerDotFrom(s[1..], lo - 1) {
      var j :| 0 <= j && lo - 1 <= j < |s[1..]| - 1 && s[1..][j] == '.';
      assert s[j + 1] == '.';
    }
  }

  lemma {:induction false} ScanInDomain(s: string)
    ensures Scan(InDomain, s) == Some(Accepting) <==> AllPlain(s) && InnerDotFrom(s, 0)
    decreases |s|
  {
    if s != [] {
      AllPlainCons(s);
      if s[0] == '.' {
        ScanAfterDot(s[1..]);
        if |s| >= 2 { assert InnerDotFrom(s, 0) by { assert s[0] == '.'; } }
      } else {
        ScanInDomain(s[1..]);
        InnerDotShift(s, 1);
        if InnerDotFrom(s, 0) {
          var j :| 0 <= j && 0 <= j < |s| - 1 && s[j] == '.';
          assert j >= 1;
          assert InnerDotFrom(s, 1);
        }
      }
    }
  }

  lemma ScanAfterAt(s: string)
    ensures Scan(AfterAt, s) == Some(Accepting) <==> DottedDomain(s)
  {
    if s != [] {
      AllPlainCons(s);
      ScanInDomain(s[1..]);
      InnerDotShift(s, 1);
    }
  }

  lemma SplitShift(s: string, lo: int)
    requires s != [] && lo >= 1 && Plain(s[0])
    ensures SplitFrom(s, lo) <==> SplitFrom(s[1..], lo - 1)
  {
    if SplitFrom(s, lo) {
      var k :| 0 <= k && lo <= k < |s| && s[k] == '@' && AllPlain(s[..k]) && DottedDomain(s[k + 1..]);
      SplitDrop(s, k);
    }
    if SplitFrom(s[1..], lo - 1) {
      var t := s[1..];
      var k :| 0 <= k && lo - 1 <= k < |t| && t[k] == '@' && AllPlain(t[..k]) && DottedDomain(t[k + 1..]);
      SplitAdd(s, k);
    }
  }

  lemma SplitDrop(s: string, k: int)
    requires 1 <= k < |s| && s[k] == '@' && AllPlain(s[..k]) && DottedDomain(s[k + 1..])
    ensures var t := s[1..]; t[k - 1] == '@' && AllPlain(t[..k - 1]) && DottedDomain(t[k..])
  {
    var t := s[1..];
    assert t[..k - 1] == s[..k][1..];
    assert t[k..] == s[k + 1..];
    AllPlainCons(s[..k]);
  }

  lemma SplitAdd(s: string, k: int)
    requires s != [] && Plain(s[0])
    requires var t := s[1..]; 0 <= k < |t| && t[k] == '@' && AllPlain(t[..k]) && DottedDomain(t[k + 1..])
    ensures s[k + 1] == '@' && AllPlain(s[..k + 1]) && DottedDomain(s[k + 2..])
  {
    var t := s[1..];
    assert s[..k + 1][1..] == t[..k];
    assert s[k + 2..] == t[k + 1..];
    AllPlainCons(s[..k + 1]);
  }

  /** A split can never be at an index whose prefix already holds an '@' or a space. */
  lemma SplitNotPast(s: string, lo: int)
    requires s != [] && !Plain(s[0]) && lo >= 1
    ensures !SplitFrom(s, lo)
  {
    forall k | 0 <= k && lo <= k < |s| ensures !AllPlain(s[..k]) {
      assert s[..k][0] == s[0];
    }
  }

  /** A split at index `lo` or beyond is one exactly at `lo`, or one beyond it. */
  lemma SplitFromStep(s: string, lo: int)
    requires 0 <= lo < |s|
    ensures SplitFrom(s, lo) <==>
      (s[lo] == '@' && AllPlain(s[..lo]) && DottedDomain(s[lo + 1..])) || SplitFrom(s, lo + 1)
  {
    if SplitFrom(s, lo) {
      var k :| 0 <= k && lo <= k < |s| && s[k] == '@' && AllPlain(s[..k]) && DottedDomain(s[k + 1..]);
      if k != lo { assert SplitFrom(s, lo + 1); }
    }
  }

  lemma {:induction false} ScanInLocal(s: string)
    ensures Scan(InLocal, s) == Some(Accepting) <==> SplitFrom(s, 0)
    decreases |s|
  {
    if s != [] {
      SplitFromStep(s, 0);
      if s[0] == '@' {
        ScanAfterAt(s[1..]);
        SplitNotPast(s, 1);
        assert AllPlain(s[..0]);
        assert s[0 + 1..] == s[1..];
      } else if IsSpace(s[0]) {
        SplitNotPast(s, 1);
      } else {
        ScanInLocal(s[1..]);
        SplitShift(s, 1);
      }
    }
  }

  /** The matcher accepts exactly the well-formed addresses. */
  lemma IsEmailCorrect(s: string)
    ensures IsEmail(s) <==> WellFormedEmail(s)
  {
    if s != [] {
      if Plain(s[0]) {
        ScanInLocal(s[1..]);
        SplitShift(s, 1);
      } else {
        SplitNotPast(s, 1);
      }
    }
  }

  /** The pointwise consequences: exactly one '@', a non-empty local part, and
      a domain with a '.' strictly inside it. */
  lemma IsEmailShape(s: string, k: int)
    requires 0 <= k < |s| && s[k] == '@'
    ensures IsEmail(s) <==> k >= 1 && AllPlain(s[..k]) && DottedDomain(s[k + 1..])
  {
    IsEmailCorrect(s);
    if WellFormedEmail(s) {
      var k' :| 0 <= k' && 1 <= k' < |s| && s[k'] == '@' && AllPlain(s[..k']) && DottedDomain(s[k' + 1..]);
      forall j | 0 <= j < k' ensures s[j] != '@' {
        assert s[j] == s[..k'][j];
      }
      forall j | k' + 1 <= j < |s| ensures s[j] != '@' {
        assert s[j] == s[k' + 1..][j - k' - 1];
      }
      assert k == k';
    }
  }

  /** Sample verdicts of the pattern. */
  lemma AcceptedExample()
    ensures IsEmail("a@b.com")
  {
    assert Scan(Accepting, "m") == Some(Accepting);
    assert Scan(Accepting, "om") == Some(Accepting);
    assert Scan(AfterDot, "com") == Some(Accepting);
    assert Scan(InDomain, ".com") == Some(Accepting);
    assert Scan(AfterAt, "b.com") == Some(Accepting);
    assert Scan(InLocal, "@b.com") == Some(Accepting);
  }

  lemma RejectedExamples()
    ensures !IsEmail("") && !IsEmail("a@.com") && !IsEmail("a@b.") && !IsEmail("@b.com")
  {
  }

  // ---------------------------------------------------------------------
  // Validation and the submit sequence

  datatype Form = Form(email: string, fullName: string, company: string, jobTitle: string, businessPhone: string)

  /** Which guard of `handleSubmit` stops the submission, in the order they are tried. */
  datatype Guard = MissingName | MissingDetails | InvalidEmail | Passed

  /** The guards of src/components/email-entry.tsx:37-65, in order. */
  function Validate(f: Form, registration: bool): (g: Guard)
    ensures g == MissingName <==> f.fullName == ""
    ensures g == MissingDetails <==> f.fullName != "" && registration && (f.company == "" || f.jobTitle == "")
    ensures g == InvalidEmail <==>
      f.fullName != "" && !(registration && (f.company == "" || f.jobTitle == "")) && !WellFormedEmail(f.email)
    ensures g == Passed ==> f.fullName != "" && WellFormedEmail(f.email)
    ensures g == Passed && registration ==> f.company != "" && f.jobTitle != ""
  {
    IsEmailCorrect(f.email);
    if f.fullName == "" then MissingName
    else if registration && (f.company == "" || f.jobTitle == "") then MissingDetails
    else if f.email == "" || !IsEmail(f.email) then InvalidEmail
    else Passed
  }

  /** The toast a failed guard shows. */
  function GuardNotice(g: Guard): Notice {
    match g
    case MissingName => Notice("Missing Information", "Please enter your full name")
    case MissingDetails => Notice("Missing Information", "Please fill in all required fields")
    case InvalidEmail => Notice("Invalid Email", "Please enter a valid email address")
    case Passed => Notice("", "")
  }

  /** The body `campaignAPI.register` sends for this form. The form passes five
      arguments to a six-parameter function, so in registration mode the
      company travels as `last_name`, the job title as `company` and the phone
      as `job_title`; no phone is ever sent as `business_phone`. */
  function RegisterRequestBody(f: Form, registration: bool): (b: RequestBody)
    ensures b.RegisterBody? && b.email == f.email && b.businessPhone == None
    ensures registration ==>
      b.firstName == OrUndefined(f.fullName) && b.lastName == OrUndefined(f.company) &&
      b.company == OrUndefined(f.jobTitle) && b.jobTitle == OrUndefined(f.businessPhone)
    ensures !registration ==>
      b.firstName == Some(f.fullName) && b.lastName == None && b.company == None && b.jobTitle == None
  {
    if registration then
      RegisterBody(f.email, OrUndefined(f.fullName), OrUndefined(f.company), OrUndefined(f.jobTitle),
                   OrUndefined(f.businessPhone), None)
    else
      RegisterBody(f.email, Some(f.fullName), None, None, None, None)
  }

  /** A registration with a company never sends it in the `company` field
      unless the job title happens to be the same text. */
  lemma CompanyIsSentAsLastName(f: Form)
    requires f.company != "" && f.jobTitle != f.company
    ensures RegisterRequestBody(f, true).lastName == Some(f.company)
    ensures RegisterRequestBody(f, true).company != Some(f.company)
  {
  }

  /** What one submit does: the toast it shows, which calls it makes, and
      whether it reports a created session to its parent. */
  datatype SubmitResult = SubmitResult(notice: Notice, registerCalled: bool, sessionRequested: bool, sessionCreated: bool)

  /** `handleSubmit` (src/components/email-entry.tsx:33-117) given the
      outcomes of `register` and `createSession`. */
  function Submit(f: Form, registration: bool, registered: Outcome<SessionResponse>, created: Outcome<SessionResponse>)
    : (r: SubmitResult)
    ensures r.registerCalled <==> Validate(f, registration) == Passed
    ensures !r.registerCalled ==> r.notice == GuardNotice(Validate(f, registration))
    ensures r.sessionRequested <==> r.registerCalled && registered.Returned?
    ensures r.sessionCreated <==> r.sessionRequested && StoresToken(created)
    ensures r.notice.title == "Success!" <==> r.sessionCreated
    ensures r.registerCalled && !r.sessionCreated ==> r.notice.title == "Error" && r.notice.description != ""
    ensures r.registerCalled && registered.Thrown? ==>
      r.notice.description == OrElse(registered.message, "Something went wrong. Please try again.")
    ensures r.sessionRequested && created.Thrown? ==>
      r.notice.description == OrElse(created.message, "Something went wrong. Please try again.")
    ensures r.sessionCreated ==>
      r.notice.description == if registration then "Registration successful! Loading your game..." else "Welcome! Loading your game..."
    ensures r.sessionRequested && created.Returned? && !StoresToken(created) ==>
      r.notice.description == if Truthy(created.value.message) then created.value.message.value else "Failed to create session"
  {
    var g := Validate(f, registration);
    if g != Passed then SubmitResult(GuardNotice(g), false, false, false)
    else match registered
      case Thrown(m) => SubmitResult(Notice("Error", OrElse(m, "Something went wrong. Please try again.")), true, false, false)
      case Returned(_) =>
        match created
        case Thrown(m) => SubmitResult(Notice("Error", OrElse(m, "Something went wrong. Please try again.")), true, true, false)
        case Returned(response) =>
          if response.success && Truthy(response.token) then
            var welcome := if registration then "Registration successful! Loading your game..." else "Welcome! Loading your game...";
            SubmitResult(Notice("Success!", welcome), true, true, true)
          else
            var message := if Truthy(response.message) then response.message.value else "Failed to create session";
            SubmitResult(Notice("Error", OrElse(message, "Something went wrong. Please try again.")), true, true, false)
  }

  /** A sign-in with a name and a valid email whose session is created reports
      the session to the parent with the welcome toast. */
  lemma SignInExample()
    ensures var r := Submit(Form("a@b.com", "Jane Doe", "", "", ""), false,
                            Returned(SessionResponse(true, None, None, None)),
                            Returned(SessionResponse(true, Some("tok123"), Some(SessionInfo(1, "a@b.com", 1)), None)));
      r.sessionCreated && r.notice == Notice("Success!", "Welcome! Loading your game...")
  {
    AcceptedExample();
    IsEmailCorrect("a@b.com");
  }

  datatype Field = EmailField | FullNameField | CompanyField | JobTitleField | BusinessPhoneField

  /** `EmailEntry`: the form's fields are its state; `showRegistration` is
      fixed at mount from the `isRegistration` prop and never reassigned. */
  class EmailEntry {
    const api: Client
    const showRegistration: bool
    var email: string
    var fullName: string
    var company: string
    var jobTitle: string
    var businessPhone: string
    var isLoading: bool
    var notices: seq<Notice>

    constructor (api: Client, isRegistration: bool)
      ensures this.api == api && showRegistration == isRegistration
      ensures Values() == Form("", "", "", "", "") && !isLoading && notices == []
    {
      this.api := api;
      showRegistration := isRegistration;
      email, fullName, company, jobTitle, businessPhone := "", "", "", "", "";
      isLoading := false;
      notices := [];
    }

    function Values(): Form
      reads this
    {
      Form(email, fullName, company, jobTitle, businessPhone)
    }

    /** What a submit with these network results does to this form. */
    function SubmitEffect(registerFetched: Fetched<SessionResponse>, createFetched: Fetched<SessionResponse>): SubmitResult
      reads this
    {
      Submit(Values(), showRegistration, Settle(registerFetched), Settle(createFetched))
    }

    /** An input's `onChange`. */
    method Edit(field: Field, value: string)
      modifies this
      ensures Values() == match field
        case EmailField => old(Values()).(email := value)
        case FullNameField => old(Values()).(fullName := value)
        case CompanyField => old(Values()).(company := value)
        case JobTitleField => old(Values()).(jobTitle := value)
        case BusinessPhoneField => old(Values()).(businessPhone := value)
      ensures isLoading == old(isLoading) && notices == old(notices)
    {
      match field
      case EmailField => email := value;
      case FullNameField => fullName := value;
      case CompanyField => company := value;
      case JobTitleField => jobTitle := value;
      case BusinessPhoneField => businessPhone := value;
    }

    /** `handleSubmit`: returns whether `onSessionCreated` was called. */
    method HandleSubmit(registerFetched: Fetched<SessionResponse>, createFetched: Fetched<SessionResponse>)
      returns (sessionCreated: bool)
      modifies this, api, api.store
      ensures Values() == old(Values())
      ensures sessionCreated == SubmitEffect(registerFetched, createFetched).sessionCreated
      ensures notices == old(notices) + [SubmitEffect(registerFetched, createFetched).notice]
      ensures isLoading == if SubmitEffect(registerFetched, createFetched).registerCalled then false else old(isLoading)
      ensures api.sent == old(api.sent)
        + (if SubmitEffect(registerFetched, createFetched).registerCalled
           then [old(api.Authed(Post, RegisterEndpoint, Some(RegisterRequestBody(Values(), showRegistration))))] else [])
        + (if SubmitEffect(registerFetched, createFetched).sessionRequested
           then [old(api.Authed(Post, SessionEndpoint, Some(SessionBody(email))))] else [])
      ensures api.store.hasWindow ==>
        api.store.Token() == if SubmitEffect(registerFetched, createFetched).sessionCreated
                             then Settle(createFetched).value.token else old(api.store.Token())
      ensures !SubmitEffect(registerFetched, createFetched).sessionCreated ==> api.store.storage == old(api.store.storage)
      ensures api.store.Others() == old(api.store.Others())
    {
      var g := Validate(Values(), showRegistration);
      if g != Passed {
        notices := notices + [GuardNotice(g)];
        return false;
      }
      isLoading := true;
      sessionCreated := RegisterAndCreateSession(registerFetched, createFetched);
      isLoading := false;
    }

    /** The `try` block of `handleSubmit`, once every guard has passed. */
    method RegisterAndCreateSession(registerFetched: Fetched<SessionResponse>, createFetched: Fetched<SessionResponse>)
      returns (sessionCreated: bool)
      requires Validate(Values(), showRegistration) == Passed
      modifies this`notices, api, api.store
      ensures sessionCreated == SubmitEffect(registerFetched, createFetched).sessionCreated
      ensures notices == old(notices) + [SubmitEffect(registerFetched, createFetched).notice]
      ensures api.sent == old(api.sent)
        + [old(api.Authed(Post, RegisterEndpoint, Some(RegisterRequestBody(Values(), showRegistration))))]
        + (if Settle(registerFetched).Returned? then [old(api.Authed(Post, SessionEndpoint, Some(SessionBody(email))))] else [])
      ensures api.store.hasWindow ==>
        api.store.Token() == if SubmitEffect(registerFetched, createFetched).sessionCreated
                             then Settle(createFetched).value.token else old(api.store.Token())
      ensures !SubmitEffect(registerFetched, createFetched).sessionCreated ==> api.store.storage == old(api.store.storage)
      ensures api.store.Others() == old(api.store.Others())
    {
      var registered := CallRegister(registerFetched);
      if registered.Thrown? {
        notices := notices + [Notice("Error", OrElse(registered.message, "Something went wrong. Please try again."))];
        return false;
      }
      var created := api.CreateSession(email, createFetched);
      match created {
        case Thrown(m) =>
          notices := notices + [Notice("Error", OrElse(m, "Something went wrong. Please try again."))];
          sessionCreated := false;
        case Returned(response) =>
          if response.success && Truthy(response.token) {
            var welcome := if showRegistration then "Registration successful! Loading your game..." else "Welcome! Loading your game...";
            notices := notices + [Notice("Success!", welcome)];
            sessionCreated := true;
          } else {
            var message := if Truthy(response.message) then response.message.value else "Failed to create session";
            notices := notices + [Notice("Error", OrElse(message, "Something went wrong. Please try again."))];
            sessionCreated := false;
          }
      }
    }

    /** The `register` call of either mode (src/components/email-entry.tsx:70-91). */
    method CallRegister(registerFetched: Fetched<SessionResponse>) returns (registered: Outcome<SessionResponse>)
      requires fullName != ""
      modifies api
      ensures registered == Settle(registerFetched)
      ensures api.sent == old(api.sent) + [api.Authed(Post, RegisterEndpoint, Some(RegisterRequestBody(Values(), showRegistration)))]
    {
      if showRegistration {
        registered := api.Register(email, OrUndefined(fullName), OrUndefined(company), OrUndefined(jobTitle),
                                   OrUndefined(businessPhone), None, registerFetched);
      } else {
        // the `if (fullName)` of `handleSubmit` here always holds: the first guard rejected an empty name
        assert fullName != "";
        registered := api.Register(email, Some(fullName), None, None, None, None, registerFetched);
      }
    }
  }
}
