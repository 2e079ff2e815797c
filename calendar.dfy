/** The calendar controller (src/components/advent-calendar.tsx): the
    component's state hooks as one `View` record, each handler as a
    transition on it, the render gating that decides which screen shows, the
    tile rules and the question modal's result derivation. The `Calendar`
    class runs the handlers step by step against a `Client`; every handler is
    atomic here. Each transition is a plain function and the lemma beside it
    states its effect. */
module AdventCalendar {
  import opened Common
  import opened CampaignApi
  import opened EmailForm

  datatype AnswerResult = AnswerResult(isCorrect: bool, correctAnswerText: string)

  /** The component's state: one field per `useState` hook, plus whether an
      `onTotalDaysChange` prop was passed, the toasts shown so far, and the
      totals reported to the parent through that callback. */
  datatype View = View(
    notifyParent: bool,
    isClient: bool,
    hasSession: bool,
    isLoading: bool,
    days: seq<Day>,
    currentDay: Option<int>,
    totalDays: int,
    selectedDayNumber: Option<int>,
    selectedDayDetails: Option<DayDetails>,
    answerResult: Option<AnswerResult>,
    showEmailEntry: bool,
    isRegistration: bool,
    loadingDayNumber: Option<int>,
    notices: seq<Notice>,
    reportedTotals: seq<int>)

  const LockedNotice := Notice("Day Locked", "This day is not yet available")
  const AnsweredNotice := Notice("Already Answered", "You have already answered this day's question")
  const SelectAnswerNotice := Notice("Select an answer", "Please select an answer before submitting")

  /** The state before the mount effect runs (src/components/advent-calendar.tsx:27-38). */
  function InitialView(propTotalDays: Option<int>, notifyParent: bool): View {
    View(notifyParent, false, false, true, [], None, if TruthyNum(propTotalDays) then propTotalDays.value else 12,
         None, None, None, false, false, None, [], [])
  }

  // ---------------------------------------------------------------------
  // Rendering decisions

  datatype Screen =
    | Loading
    | IdentityForm(registration: bool)
    | Grid
    | QuestionOpen
    | ResultShown

  datatype ResultView = ResultView(showResult: bool, isCorrect: bool, correctAnswerText: string)

  /** `QuestionModal`'s `showResult`, `isCorrect` and `correctAnswerText`
      (src/components/advent-calendar.tsx:336-338): a fresh result wins over
      what the details recorded. */
  function ResultDisplay(d: DayDetails, a: Option<AnswerResult>): (r: ResultView)
    ensures r.showResult <==> a.Some? || d.alreadyAnswered
    ensures a.Some? ==> r.isCorrect == a.value.isCorrect && r.correctAnswerText == a.value.correctAnswerText
    ensures a.None? ==> (r.isCorrect <==> d.isCorrect == Some(true))
    ensures a.None? ==> r.correctAnswerText == if Truthy(d.correctAnswerText) then d.correctAnswerText.value else ""
  {
    ResultView(
      a.Some? || d.alreadyAnswered,
      match a case Some(x) => x.isCorrect case None => (match d.isCorrect case Some(b) => b case None => false),
      match a case Some(x) => x.correctAnswerText case None => (if Truthy(d.correctAnswerText) then d.correctAnswerText.value else ""))
  }

  /** Which branch of the render runs (src/components/advent-calendar.tsx:211-288, 340). */
  function ScreenOf(v: View): Screen {
    if !v.isClient || (v.isLoading && !v.hasSession && !v.showEmailEntry) then Loading
    else if v.showEmailEntry && !v.isLoading then IdentityForm(v.isRegistration)
    else match v.selectedDayDetails
      case None => Grid
      case Some(d) => if ResultDisplay(d, v.answerResult).showResult then ResultShown else QuestionOpen
  }

  datatype Tile = Tile(disabled: bool, showsLock: bool, showsGift: bool, showsSpinner: bool, month: string, number: int)

  /** One calendar tile (src/components/advent-calendar.tsx:232-266). The
      month label and day of month that a date formats to are inputs. */
  function TileFor(day: Day, loadingDayNumber: Option<int>, dateMonth: string, dateDayOfMonth: int): (t: Tile)
    ensures t.disabled <==> !(day.isAvailable && !day.isLocked) || loadingDayNumber == Some(day.dayNumber)
    ensures t.showsLock <==> !(day.isAvailable && !day.isLocked)
    ensures t.showsGift <==> day.isCompleted
    ensures t.showsSpinner <==> loadingDayNumber == Some(day.dayNumber)
    ensures !Truthy(day.dayDate) ==> t.month == "DECEMBER" && t.number == day.dayNumber
    ensures Truthy(day.dayDate) ==> t.month == dateMonth && t.number == dateDayOfMonth
  {
    var unlocked := day.isAvailable && !day.isLocked;
    Tile(!unlocked || loadingDayNumber == Some(day.dayNumber), !unlocked, day.isCompleted,
         loadingDayNumber == Some(day.dayNumber),
         if Truthy(day.dayDate) then dateMonth else "DECEMBER",
         if Truthy(day.dayDate) then dateDayOfMonth else day.dayNumber)
  }

  // ---------------------------------------------------------------------
  // Handlers as transitions

  /** `dashboard.total_days || dashboard.days.length || 12`: never zero. */
  function DerivedTotalDays(total: Option<int>, days: seq<Day>): (n: int)
    ensures n != 0
    ensures TruthyNum(total) ==> n == total.value
    ensures !TruthyNum(total) && |days| != 0 ==> n == |days|
    ensures !TruthyNum(total) && |days| == 0 ==> n == 12
  {
    if TruthyNum(total) then total.value else if |days| != 0 then |days| else 12
  }

  predicate LoadFailed(o: Outcome<DashboardResponse>) {
    o.Thrown? || !o.value.success
  }

  /** `loadDashboard` (src/components/advent-calendar.tsx:73-99). */
  function AfterLoadDashboard(v: View, o: Outcome<DashboardResponse>): View {
    match o
    case Returned(d) =>
      if d.success then
        var total := DerivedTotalDays(d.totalDays, d.days);
        v.(days := d.days, currentDay := d.currentDay, totalDays := total,
           reportedTotals := if v.notifyParent then v.reportedTotals + [total] else v.reportedTotals)
      else v.(hasSession := false, showEmailEntry := true, isRegistration := true)
    case Thrown(_) => v.(hasSession := false, showEmailEntry := true, isRegistration := true)
  }

  /** What `checkSession` does between its two `setIsLoading` calls. */
  function SessionChecked(v: View, session: SessionResponse, dashboard: Outcome<DashboardResponse>): View {
    if SessionValid(session) then AfterLoadDashboard(v.(hasSession := true, showEmailEntry := false), dashboard)
    else v.(hasSession := false, showEmailEntry := true, isRegistration := false)
  }

  /** `checkSession` (src/components/advent-calendar.tsx:47-71) given what
      `getSession` returned; `getSession` never throws, so its `catch` does
      not arise. */
  function AfterCheckSession(v: View, session: SessionResponse, dashboard: Outcome<DashboardResponse>): View {
    SessionChecked(v.(isLoading := true), session, dashboard).(isLoading := false)
  }

  /** The mount effect (src/components/advent-calendar.tsx:42-45). */
  function AfterMount(v: View, session: SessionResponse, dashboard: Outcome<DashboardResponse>): View {
    AfterCheckSession(v.(isClient := true), session, dashboard)
  }

  datatype Gate = LockedDay | AnsweredDay | OpenDay

  /** The two early returns of `handleDayClick`, in order (src/components/advent-calendar.tsx:102-117). */
  function ClickGate(day: Day): (g: Gate)
    ensures g == LockedDay <==> day.isLocked || !day.isAvailable
    ensures g == AnsweredDay <==> !day.isLocked && day.isAvailable && day.isCompleted
  {
    if day.isLocked || !day.isAvailable then LockedDay
    else if day.isCompleted then AnsweredDay
    else OpenDay
  }

  /** `handleDayClick` (src/components/advent-calendar.tsx:101-136). */
  function AfterDayClick(v: View, day: Day, o: Outcome<DayDetailsResponse>): View {
    match ClickGate(day)
    case LockedDay => v.(notices := v.notices + [LockedNotice])
    case AnsweredDay => v.(notices := v.notices + [AnsweredNotice])
    case OpenDay =>
      var loading := v.(loadingDayNumber := Some(day.dayNumber));
      var loaded := match o
        case Returned(response) =>
          if response.success && response.day.Some? then
            loading.(selectedDayNumber := Some(day.dayNumber), selectedDayDetails := response.day)
          else loading
        case Thrown(m) =>
          loading.(notices := loading.notices + [Notice("Error", OrElse(m, "Failed to load day details"))]);
      loaded.(loadingDayNumber := None)
  }

  /** The details after a successful submission (src/components/advent-calendar.tsx:155-164). */
  function MergeAnswer(d: DayDetails, selected: string, response: AnswerResponse): DayDetails {
    d.(alreadyAnswered := true, isCorrect := Some(response.isCorrect), userAnswer := Some(selected),
       correctAnswer := Some(response.correctAnswer), correctAnswerText := Some(response.correctAnswerText))
  }

  /** A thrown message the handler reads as an authentication failure. */
  predicate AuthFailure(m: string) {
    m != "" && (Contains(m, "session") || Contains(m, "401") || Contains(m, "403"))
  }

  /** A `success: false` response whose message mentions the session. */
  predicate SessionRejected(r: AnswerResponse) {
    Truthy(r.message) && Contains(r.message.value, "session")
  }

  /** `handleAnswerSubmit`'s guard: `selectedDayNumber && selectedDayDetails`. */
  predicate AnswerSelectable(v: View) {
    TruthyNum(v.selectedDayNumber) && v.selectedDayDetails.Some?
  }

  /** The view routed back to the identity form in identity-only mode. */
  function SignedOut(v: View): View {
    v.(hasSession := false, showEmailEntry := true, isRegistration := false)
  }

  /** The submission recorded: the result and the merged details. */
  function Answered(v: View, selected: string, response: AnswerResponse): View
    requires v.selectedDayDetails.Some?
  {
    v.(answerResult := Some(AnswerResult(response.isCorrect, response.correctAnswerText)),
       selectedDayDetails := Some(MergeAnswer(v.selectedDayDetails.value, selected, response)))
  }

  /** What `handleAnswerSubmit` does between its two `setIsLoading` calls. */
  function AnswerApplied(v: View, selected: string, o: Outcome<AnswerResponse>, dashboard: Outcome<DashboardResponse>): View
    requires v.selectedDayDetails.Some?
  {
    match o
    case Returned(response) =>
      if response.success then AfterLoadDashboard(Answered(v, selected, response), dashboard)
      else if SessionRejected(response) then SignedOut(v)
      else v
    case Thrown(m) =>
      if AuthFailure(m) then SignedOut(v)
      else v.(notices := v.notices + [Notice("Error", OrElse(m, "Failed to submit answer"))])
  }

  /** `handleAnswerSubmit` (src/components/advent-calendar.tsx:138-192). On a
      thrown authentication failure the `sessionStorage.removeToken()` at line
      182 names the browser's storage object, which has no such method: it
      throws before the toast, so no toast is shown and no token is cleared. */
  function AfterAnswerSubmit(v: View, selected: string, o: Outcome<AnswerResponse>, dashboard: Outcome<DashboardResponse>): View {
    if !AnswerSelectable(v) then v
    else AnswerApplied(v.(isLoading := true), selected, o, dashboard).(isLoading := false)
  }

  /** `QuestionModal`'s `handleSubmit` (src/components/advent-calendar.tsx:309-320). */
  function AfterModalSubmit(v: View, selected: Option<string>, o: Outcome<AnswerResponse>, dashboard: Outcome<DashboardResponse>)
    : View
  {
    if !Truthy(selected) then v.(notices := v.notices + [SelectAnswerNotice])
    else AfterAnswerSubmit(v, selected.value, o, dashboard)
  }

  /** `handleSessionCreated` (src/components/advent-calendar.tsx:194-198). */
  function AfterSessionCreated(v: View, dashboard: Outcome<DashboardResponse>): View {
    AfterLoadDashboard(v.(hasSession := true, showEmailEntry := false), dashboard)
  }

  /** The modal's `onClose` (src/components/advent-calendar.tsx:277-281). */
  function AfterClose(v: View): View {
    v.(selectedDayDetails := None, selectedDayNumber := None, answerResult := None)
  }

  // ---------------------------------------------------------------------
  // What each transition does

  /** The initial state waits on the mount effect, with the prop's total or 12. */
  lemma InitialState(propTotalDays: Option<int>, notifyParent: bool)
    ensures var v := InitialView(propTotalDays, notifyParent);
      && v.totalDays != 0
      && v.totalDays == (if TruthyNum(propTotalDays) then propTotalDays.value else 12)
      && !v.isClient && v.isLoading && !v.hasSession && !v.showEmailEntry
      && v.selectedDayNumber == None && v.selectedDayDetails == None && v.answerResult == None
      && ScreenOf(v) == Loading
  {
  }

  /** The fields no dashboard load touches. */
  predicate SameExceptDashboard(r: View, v: View) {
    r.notifyParent == v.notifyParent && r.isClient == v.isClient && r.isLoading == v.isLoading &&
    r.selectedDayNumber == v.selectedDayNumber && r.selectedDayDetails == v.selectedDayDetails &&
    r.answerResult == v.answerResult && r.loadingDayNumber == v.loadingDayNumber && r.notices == v.notices
  }

  /** A loaded dashboard replaces the days, the current day and the total
      (reported to the parent when it listens) and leaves the session alone;
      a failed one sends the user to the registration form. */
  lemma LoadDashboardEffect(v: View, o: Outcome<DashboardResponse>)
    ensures SameExceptDashboard(AfterLoadDashboard(v, o), v)
    ensures var r := AfterLoadDashboard(v, o);
      !LoadFailed(o) ==>
        && r.days == o.value.days && r.currentDay == o.value.currentDay
        && r.totalDays == DerivedTotalDays(o.value.totalDays, o.value.days)
        && r.reportedTotals == v.reportedTotals + (if v.notifyParent then [r.totalDays] else [])
        && r.hasSession == v.hasSession && r.showEmailEntry == v.showEmailEntry && r.isRegistration == v.isRegistration
    ensures var r := AfterLoadDashboard(v, o);
      LoadFailed(o) ==>
        && !r.hasSession && r.showEmailEntry && r.isRegistration
        && r.days == v.days && r.currentDay == v.currentDay && r.totalDays == v.totalDays
        && r.reportedTotals == v.reportedTotals
  {
  }

  /** Only a valid session sets `hasSession`; without one the identity form
      asks for the email only; the modal state is untouched either way. */
  lemma CheckSessionEffect(v: View, session: SessionResponse, dashboard: Outcome<DashboardResponse>)
    ensures var r := AfterCheckSession(v, session, dashboard);
      && !r.isLoading
      && (r.hasSession ==> SessionValid(session))
      && (!SessionValid(session) ==> !r.hasSession && r.showEmailEntry && !r.isRegistration)
      && r.selectedDayNumber == v.selectedDayNumber && r.selectedDayDetails == v.selectedDayDetails
      && r.answerResult == v.answerResult && r.loadingDayNumber == v.loadingDayNumber && r.notices == v.notices
  {
    LoadDashboardEffect(v.(isLoading := true, hasSession := true, showEmailEntry := false), dashboard);
  }

  /** A gated day only raises its toast; an open day is selected exactly when
      the server returns its details, and a thrown request raises an error
      toast; nothing else changes. */
  lemma DayClickEffect(v: View, day: Day, o: Outcome<DayDetailsResponse>)
    ensures var r := AfterDayClick(v, day, o);
      && (ClickGate(day) == LockedDay ==> r == v.(notices := v.notices + [LockedNotice]))
      && (ClickGate(day) == AnsweredDay ==> r == v.(notices := v.notices + [AnsweredNotice]))
      && (ClickGate(day) == OpenDay ==> r.loadingDayNumber == None)
    ensures var r := AfterDayClick(v, day, o);
      && (ClickGate(day) == OpenDay && o.Returned? && o.value.success && o.value.day.Some? ==>
            r.selectedDayNumber == Some(day.dayNumber) && r.selectedDayDetails == o.value.day)
      && (!(ClickGate(day) == OpenDay && o.Returned? && o.value.success && o.value.day.Some?) ==>
            r.selectedDayNumber == v.selectedDayNumber && r.selectedDayDetails == v.selectedDayDetails)
    ensures var r := AfterDayClick(v, day, o);
      && (ClickGate(day) == OpenDay && o.Returned? ==> r.notices == v.notices)
      && (ClickGate(day) == OpenDay && o.Thrown? ==>
            r.notices == v.notices + [Notice("Error", OrElse(o.message, "Failed to load day details"))])
    ensures var r := AfterDayClick(v, day, o);
      r.(selectedDayNumber := v.selectedDayNumber, selectedDayDetails := v.selectedDayDetails,
         loadingDayNumber := v.loadingDayNumber, notices := v.notices) == v
  {
  }

  /** The merged details record the submission and keep the question. */
  lemma MergeAnswerEffect(d: DayDetails, selected: string, response: AnswerResponse)
    ensures var m := MergeAnswer(d, selected, response);
      && m.alreadyAnswered && m.userAnswer == Some(selected) && m.isCorrect == Some(response.isCorrect)
      && m.correctAnswer == Some(response.correctAnswer) && m.correctAnswerText == Some(response.correctAnswerText)
      && AnswerGated(m)
    ensures var m := MergeAnswer(d, selected, response);
      m.(alreadyAnswered := d.alreadyAnswered, userAnswer := d.userAnswer, isCorrect := d.isCorrect,
         correctAnswer := d.correctAnswer, correctAnswerText := d.correctAnswerText) == d
  {
  }

  /** Submitting is a no-op without a selected day; otherwise it ends with
      `isLoading` cleared, never changes which day is open, never grants a
      session, and only a successful submission sets the result. */
  lemma AnswerSubmitEffect(v: View, selected: string, o: Outcome<AnswerResponse>, dashboard: Outcome<DashboardResponse>)
    ensures !AnswerSelectable(v) ==> AfterAnswerSubmit(v, selected, o, dashboard) == v
    ensures var r := AfterAnswerSubmit(v, selected, o, dashboard);
      && (AnswerSelectable(v) ==> !r.isLoading)
      && r.selectedDayNumber == v.selectedDayNumber
      && (r.selectedDayDetails.Some? <==> v.selectedDayDetails.Some?)
      && (r.hasSession ==> v.hasSession)
      && r.isClient == v.isClient && r.loadingDayNumber == v.loadingDayNumber
      && (r.answerResult != v.answerResult ==> AnswerSelectable(v) && o.Returned? && o.value.success)
  {
    if AnswerSelectable(v) {
      AnswerAppliedEffect(v.(isLoading := true), selected, o, dashboard);
    }
  }

  lemma AnswerAppliedEffect(w: View, selected: string, o: Outcome<AnswerResponse>, dashboard: Outcome<DashboardResponse>)
    requires w.selectedDayDetails.Some?
    ensures var r := AnswerApplied(w, selected, o, dashboard);
      && r.selectedDayNumber == w.selectedDayNumber && r.selectedDayDetails.Some?
      && (r.hasSession ==> w.hasSession)
      && r.isClient == w.isClient && r.loadingDayNumber == w.loadingDayNumber
      && (r.answerResult != w.answerResult ==> o.Returned? && o.value.success)
  {
    match o {
      case Returned(response) =>
        if response.success {
          AnswerRecordedEffect(w, selected, response, dashboard);
        }
      case Thrown(m) =>
    }
  }

  lemma AnswerRecordedEffect(w: View, selected: string, response: AnswerResponse, dashboard: Outcome<DashboardResponse>)
    requires w.selectedDayDetails.Some?
    ensures var r := AfterLoadDashboard(Answered(w, selected, response), dashboard);
      && r.selectedDayNumber == w.selectedDayNumber && r.selectedDayDetails.Some?
      && (r.hasSession ==> w.hasSession)
      && r.isClient == w.isClient && r.loadingDayNumber == w.loadingDayNumber
      && r.answerResult == Some(AnswerResult(response.isCorrect, response.correctAnswerText))
  {
    LoadDashboardEffect(Answered(w, selected, response), dashboard);
  }

  /** Without a choice the modal only raises a toast. */
  lemma ModalSubmitWithoutChoice(v: View, selected: Option<string>, o: Outcome<AnswerResponse>, dashboard: Outcome<DashboardResponse>)
    requires !Truthy(selected)
    ensures AfterModalSubmit(v, selected, o, dashboard) == v.(notices := v.notices + [SelectAnswerNotice])
    ensures ScreenOf(AfterModalSubmit(v, selected, o, dashboard)) == ScreenOf(v)
  {
  }

  /** A created session shows the grid once the dashboard loads, and the
      registration form when it does not. */
  lemma SessionCreatedEffect(v: View, dashboard: Outcome<DashboardResponse>)
    ensures var r := AfterSessionCreated(v, dashboard);
      && (LoadFailed(dashboard) ==> !r.hasSession && r.showEmailEntry && r.isRegistration)
      && (!LoadFailed(dashboard) ==> r.hasSession && !r.showEmailEntry)
  {
    LoadDashboardEffect(v.(hasSession := true, showEmailEntry := false), dashboard);
  }

  /** Closing clears the selection and the result and nothing else. */
  lemma CloseEffect(v: View)
    ensures var r := AfterClose(v);
      && r.selectedDayNumber == None && r.selectedDayDetails == None && r.answerResult == None
      && r.(selectedDayNumber := v.selectedDayNumber, selectedDayDetails := v.selectedDayDetails,
            answerResult := v.answerResult) == v
  {
  }

  // ---------------------------------------------------------------------
  // The controller as one transition function

  datatype Event =
    | Mounted(session: SessionResponse, dashboard: Outcome<DashboardResponse>)
    | DayClicked(day: Day, details: Outcome<DayDetailsResponse>)
    | AnswerSubmitted(selected: Option<string>, answer: Outcome<AnswerResponse>, dashboard: Outcome<DashboardResponse>)
    | SessionCreated(dashboard: Outcome<DashboardResponse>)
    | ModalClosed

  function Step(v: View, e: Event): View {
    match e
    case Mounted(session, dashboard) => AfterMount(v, session, dashboard)
    case DayClicked(day, details) => AfterDayClick(v, day, details)
    case AnswerSubmitted(selected, answer, dashboard) => AfterModalSubmit(v, selected, answer, dashboard)
    case SessionCreated(dashboard) => AfterSessionCreated(v, dashboard)
    case ModalClosed => AfterClose(v)
  }

  function Run(v: View, events: seq<Event>): View
    decreases |events|
  {
    if events == [] then v else Run(Step(v, events[0]), events[1..])
  }

  /** A day is selected exactly when its details are, a result only stands
      beside its details, and no day is left loading. */
  predicate SelectionConsistent(v: View) {
    (v.selectedDayNumber.Some? <==> v.selectedDayDetails.Some?) &&
    (v.answerResult.Some? ==> v.selectedDayDetails.Some?) &&
    v.loadingDayNumber.None?
  }

  /** The state between handlers once the component has mounted. */
  predicate Settled(v: View) {
    v.isClient && !v.isLoading && !(v.hasSession && v.showEmailEntry) && SelectionConsistent(v)
  }

  lemma MountSettles(v: View, session: SessionResponse, dashboard: Outcome<DashboardResponse>)
    requires SelectionConsistent(v)
    ensures Settled(Step(v, Mounted(session, dashboard)))
  {
    CheckSessionEffect(v.(isClient := true), session, dashboard);
    LoadDashboardEffect(v.(isClient := true, isLoading := true, hasSession := true, showEmailEntry := false), dashboard);
  }

  lemma DayClickKeepsSettled(v: View, day: Day, o: Outcome<DayDetailsResponse>)
    requires Settled(v)
    ensures Settled(AfterDayClick(v, day, o))
  {
    DayClickEffect(v, day, o);
  }

  lemma AnswerKeepsSettled(v: View, selected: string, o: Outcome<AnswerResponse>, dashboard: Outcome<DashboardResponse>)
    requires Settled(v)
    ensures Settled(AfterAnswerSubmit(v, selected, o, dashboard))
  {
    AnswerSubmitEffect(v, selected, o, dashboard);
    if AnswerSelectable(v) && o.Returned? && o.value.success {
      LoadDashboardEffect(Answered(v.(isLoading := true), selected, o.value), dashboard);
    }
  }

  lemma StepKeepsSettled(v: View, e: Event)
    requires Settled(v)
    ensures Settled(Step(v, e))
  {
    match e
    case Mounted(session, dashboard) => MountSettles(v, session, dashboard);
    case DayClicked(day, details) => DayClickKeepsSettled(v, day, details);
    case AnswerSubmitted(selected, answer, dashboard) =>
      if Truthy(selected) {
        AnswerKeepsSettled(v, selected.value, answer, dashboard);
      }
    case SessionCreated(dashboard) =>
      LoadDashboardEffect(v.(hasSession := true, showEmailEntry := false), dashboard);
    case ModalClosed =>
  }

  lemma {:induction false} RunKeepsSettled(v: View, events: seq<Event>)
    requires Settled(v)
    ensures Settled(Run(v, events))
    decreases |events|
  {
    if events != [] {
      StepKeepsSettled(v, events[0]);
      RunKeepsSettled(Step(v, events[0]), events[1..]);
    }
  }

  /** In a settled state the page is never stuck on "Loading...", the identity
      form shows exactly when `showEmailEntry` is set, and the modal only with
      a selected day. */
  lemma SettledScreens(v: View)
    requires Settled(v)
    ensures ScreenOf(v) != Loading
    ensures ScreenOf(v).IdentityForm? <==> v.showEmailEntry
    ensures ScreenOf(v) == QuestionOpen || ScreenOf(v) == ResultShown ==> v.selectedDayNumber.Some? && !v.showEmailEntry
  {
  }

  /** After the mount effect, whatever the user does next, the page never
      returns to the loading screen. */
  lemma NeverStuckLoading(propTotalDays: Option<int>, notifyParent: bool, session: SessionResponse,
                          dashboard: Outcome<DashboardResponse>, events: seq<Event>)
    ensures ScreenOf(Run(InitialView(propTotalDays, notifyParent), [Mounted(session, dashboard)] + events)) != Loading
  {
    var v := InitialView(propTotalDays, notifyParent);
    var all := [Mounted(session, dashboard)] + events;
    assert all[0] == Mounted(session, dashboard) && all[1..] == events;
    MountSettles(v, session, dashboard);
    RunKeepsSettled(Step(v, all[0]), events);
    SettledScreens(Run(v, all));
  }

  /** Where `checkSession` leads: the dashboard on a valid session and a
      loaded dashboard, the identity-only form without a valid session, the
      registration form when the dashboard then fails. */
  lemma CheckSessionRoutes(v: View, session: SessionResponse, dashboard: Outcome<DashboardResponse>)
    requires SelectionConsistent(v)
    ensures var r := AfterMount(v, session, dashboard);
      && (!SessionValid(session) ==> ScreenOf(r) == IdentityForm(false))
      && (SessionValid(session) && LoadFailed(dashboard) ==> ScreenOf(r) == IdentityForm(true))
      && (SessionValid(session) && !LoadFailed(dashboard) ==> r.hasSession && !ScreenOf(r).IdentityForm? && ScreenOf(r) != Loading)
  {
    MountSettles(v, session, dashboard);
    LoadDashboardEffect(v.(isClient := true, isLoading := true, hasSession := true, showEmailEntry := false), dashboard);
    SettledScreens(AfterMount(v, session, dashboard));
  }

  /** After `checkSession`, `hasSession` is only set while a usable token is
      stored. */
  lemma SessionBackedByToken(v: View, token: Option<string>, f: Fetched<SessionResponse>, dashboard: Outcome<DashboardResponse>)
    ensures AfterCheckSession(v, GetSessionResponse(token, f), dashboard).hasSession ==> Truthy(GetSessionToken(token, f))
  {
    CheckSessionEffect(v, GetSessionResponse(token, f), dashboard);
  }

  /** A dashboard that fails to load sends a settled page to the registration form. */
  lemma DashboardFailureAsksForRegistration(v: View, dashboard: Outcome<DashboardResponse>)
    requires Settled(v) && LoadFailed(dashboard)
    ensures ScreenOf(AfterLoadDashboard(v, dashboard)) == IdentityForm(true)
  {
    LoadDashboardEffect(v, dashboard);
  }

  /** A tile is clickable only if its day passes the lock gate, and a locked
      day's tile is always disabled. */
  lemma TileMatchesGate(day: Day, loadingDayNumber: Option<int>, dateMonth: string, dateDayOfMonth: int)
    ensures TileFor(day, loadingDayNumber, dateMonth, dateDayOfMonth).disabled <==>
      ClickGate(day) == LockedDay || loadingDayNumber == Some(day.dayNumber)
  {
  }

  /** After a successful submission the result view holds the server's
      verdict and correct-answer text, and the details record the chosen
      answer. On a settled page showing the modal, the result is on screen
      when the dashboard reload succeeds; a failed reload shows the
      registration form instead. */
  lemma AnswerShowsServerVerdict(v: View, selected: string, response: AnswerResponse, dashboard: Outcome<DashboardResponse>)
    requires AnswerSelectable(v) && response.success
    ensures var r := AfterAnswerSubmit(v, selected, Returned(response), dashboard);
      && r.selectedDayDetails.Some?
      && ResultDisplay(r.selectedDayDetails.value, r.answerResult) == ResultView(true, response.isCorrect, response.correctAnswerText)
      && r.selectedDayDetails.value.userAnswer == Some(selected)
      && r.selectedDayNumber == v.selectedDayNumber
      && (Settled(v) && !v.showEmailEntry ==>
            ScreenOf(r) == if LoadFailed(dashboard) then IdentityForm(true) else ResultShown)
  {
    LoadDashboardEffect(Answered(v.(isLoading := true), selected, response), dashboard);
  }

  /** A thrown authentication failure sends a settled page to the identity-only
      form, without a toast. */
  lemma AuthFailureRoutesToIdentityForm(v: View, selected: string, m: string, dashboard: Outcome<DashboardResponse>)
    requires Settled(v) && AnswerSelectable(v) && AuthFailure(m)
    ensures var r := AfterAnswerSubmit(v, selected, Thrown(m), dashboard);
      ScreenOf(r) == IdentityForm(false) && r.notices == v.notices
  {
  }

  /** A `success: false` response whose message mentions the session sends a
      settled page to the identity-only form, without a toast. */
  lemma SessionRejectionRoutesToIdentityForm(v: View, selected: string, response: AnswerResponse,
                                             dashboard: Outcome<DashboardResponse>)
    requires Settled(v) && AnswerSelectable(v) && !response.success && SessionRejected(response)
    ensures var r := AfterAnswerSubmit(v, selected, Returned(response), dashboard);
      ScreenOf(r) == IdentityForm(false) && r.notices == v.notices
  {
  }

  /** Any other failed submission leaves a settled page as it was, apart from
      an error toast when the request threw. */
  lemma OtherFailuresOnlyNotify(v: View, selected: string, o: Outcome<AnswerResponse>, dashboard: Outcome<DashboardResponse>)
    requires Settled(v)
    requires o.Thrown? ==> !AuthFailure(o.message)
    requires o.Returned? ==> !o.value.success && !SessionRejected(o.value)
    ensures var r := AfterAnswerSubmit(v, selected, o, dashboard);
      && (o.Returned? ==> r == v)
      && (o.Thrown? && AnswerSelectable(v) ==> r == v.(notices := v.notices + [Notice("Error", OrElse(o.message, "Failed to submit answer"))]))
  {
  }

  /** Clicking an open day from the grid opens its modal when the server
      returns the details: as the question, or as the result when the details
      say it was already answered. */
  lemma OpenDayShowsModal(v: View, day: Day, response: DayDetailsResponse)
    requires Settled(v) && ScreenOf(v) == Grid
    requires ClickGate(day) == OpenDay && response.success && response.day.Some?
    ensures var r := AfterDayClick(v, day, Returned(response));
      ScreenOf(r) == (if response.day.value.alreadyAnswered then ResultShown else QuestionOpen)
  {
  }

  /** A gated day never opens a modal. */
  lemma GatedDayStaysClosed(v: View, day: Day, o: Outcome<DayDetailsResponse>)
    requires ClickGate(day) != OpenDay
    ensures ScreenOf(AfterDayClick(v, day, o)) == ScreenOf(v)
  {
  }

  /** An HTTP 401 whose body says "Invalid session" sends the answering user
      back to the identity-only form. */
  lemma UnauthorizedAnswer(v: View, selected: string, statusText: string, dashboard: Outcome<DashboardResponse>)
    requires Settled(v) && AnswerSelectable(v)
    ensures ScreenOf(AfterAnswerSubmit(v, selected, Settle(NotOk(statusText, ErrorJson(Some("Invalid session")))), dashboard))
      == IdentityForm(false)
  {
    InvalidSessionMessage(statusText);
    AuthFailureRoutesToIdentityForm(v, selected, "Invalid session", dashboard);
  }

  /** Closing a settled modal returns to the grid. */
  lemma CloseReturnsToGrid(v: View)
    requires Settled(v) && !v.showEmailEntry
    ensures ScreenOf(AfterClose(v)) == Grid
  {
  }

  // ---------------------------------------------------------------------
  // The component

  /** The mounted component. `view` holds its hooks; each `setX(e)` of
      advent-calendar.tsx is the assignment `view := view.(x := e)`. */
  class Calendar {
    const api: Client
    var view: View

    constructor (api: Client, propTotalDays: Option<int>, notifyParent: bool)
      ensures this.api == api && view == InitialView(propTotalDays, notifyParent)
    {
      this.api := api;
      view := View(notifyParent, false, false, true, [], None,
                   if TruthyNum(propTotalDays) then propTotalDays.value else 12,
                   None, None, None, false, false, None, [], []);
    }

    method Mount(sessionFetched: Fetched<SessionResponse>, dashboardFetched: Fetched<DashboardResponse>)
      modifies this, api, api.store
      ensures view == AfterMount(old(view), GetSessionResponse(old(api.store.Token()), sessionFetched), Settle(dashboardFetched))
      ensures api.sent == old(api.sent)
        + (if Truthy(old(api.store.Token())) then [old(api.Authed(Get, SessionEndpoint, None))] else [])
        + (if SessionValid(GetSessionResponse(old(api.store.Token()), sessionFetched)) then [api.Authed(Get, DashboardEndpoint, None)] else [])
      ensures api.store.hasWindow ==> api.store.Token() == GetSessionToken(old(api.store.Token()), sessionFetched)
      ensures api.store.Others() == old(api.store.Others())
      ensures !api.store.hasWindow ==> api.store.storage == old(api.store.storage)
    {
      view := view.(isClient := true);
      CheckSession(sessionFetched, dashboardFetched);
    }

    method CheckSession(sessionFetched: Fetched<SessionResponse>, dashboardFetched: Fetched<DashboardResponse>)
      modifies this, api, api.store
      ensures view == AfterCheckSession(old(view), GetSessionResponse(old(api.store.Token()), sessionFetched), Settle(dashboardFetched))
      ensures api.sent == old(api.sent)
        + (if Truthy(old(api.store.Token())) then [old(api.Authed(Get, SessionEndpoint, None))] else [])
        + (if SessionValid(GetSessionResponse(old(api.store.Token()), sessionFetched)) then [api.Authed(Get, DashboardEndpoint, None)] else [])
      ensures api.store.hasWindow ==> api.store.Token() == GetSessionToken(old(api.store.Token()), sessionFetched)
      ensures api.store.Others() == old(api.store.Others())
      ensures !api.store.hasWindow ==> api.store.storage == old(api.store.storage)
    {
      view := view.(isLoading := true);
      var sessionResponse := api.GetSession(sessionFetched);
      ProceedFromSession(sessionResponse, dashboardFetched);
      view := view.(isLoading := false);
    }

    /** The branch of `checkSession` taken on `getSession`'s response. */
    method ProceedFromSession(sessionResponse: SessionResponse, dashboardFetched: Fetched<DashboardResponse>)
      modifies this, api
      ensures view == SessionChecked(old(view), sessionResponse, Settle(dashboardFetched))
      ensures api.sent == old(api.sent) + if SessionValid(sessionResponse) then [old(api.Authed(Get, DashboardEndpoint, None))] else []
    {
      if sessionResponse.success && sessionResponse.session.Some? {
        view := view.(hasSession := true);
        view := view.(showEmailEntry := false);
        LoadDashboard(dashboardFetched);
      } else {
        view := view.(hasSession := false);
        view := view.(showEmailEntry := true);
        view := view.(isRegistration := false);
      }
    }

    method LoadDashboard(dashboardFetched: Fetched<DashboardResponse>)
      modifies this, api
      ensures view == AfterLoadDashboard(old(view), Settle(dashboardFetched))
      ensures api.sent == old(api.sent) + [old(api.Authed(Get, DashboardEndpoint, None))]
    {
      var o := api.GetDashboard(dashboardFetched);
      match o {
        case Returned(dashboard) =>
          if dashboard.success {
            view := view.(days := dashboard.days);
            view := view.(currentDay := dashboard.currentDay);
            var calculated := DerivedTotalDays(dashboard.totalDays, dashboard.days);
            view := view.(totalDays := calculated);
            if view.notifyParent {
              view := view.(reportedTotals := view.reportedTotals + [calculated]);
            }
          } else {
            view := view.(hasSession := false);
            view := view.(showEmailEntry := true);
            view := view.(isRegistration := true);
          }
        case Thrown(_) =>
          view := view.(hasSession := false);
          view := view.(showEmailEntry := true);
          view := view.(isRegistration := true);
      }
    }

    method HandleDayClick(day: Day, detailsFetched: Fetched<DayDetailsResponse>)
      modifies this, api
      ensures view == AfterDayClick(old(view), day, Settle(detailsFetched))
      ensures api.sent == old(api.sent) + if ClickGate(day) == OpenDay then [old(api.Authed(Get, DayEndpoint(day.dayNumber), None))] else []
    {
      if day.isLocked || !day.isAvailable {
        view := view.(notices := view.notices + [LockedNotice]);
        return;
      }
      if day.isCompleted {
        view := view.(notices := view.notices + [AnsweredNotice]);
        return;
      }
      view := view.(loadingDayNumber := Some(day.dayNumber));
      var o := api.GetDayDetails(day.dayNumber, detailsFetched);
      match o {
        case Returned(response) =>
          if response.success && response.day.Some? {
            view := view.(selectedDayNumber := Some(day.dayNumber));
            view := view.(selectedDayDetails := response.day);
          }
        case Thrown(m) =>
          view := view.(notices := view.notices + [Notice("Error", OrElse(m, "Failed to load day details"))]);
      }
      view := view.(loadingDayNumber := None);
    }

    /** `handleAnswerSubmit`. It never touches the token store: the
        `removeToken` call at line 182 is the browser's storage object's. */
    method HandleAnswerSubmit(selected: string, answerFetched: Fetched<AnswerResponse>, dashboardFetched: Fetched<DashboardResponse>)
      modifies this, api
      ensures view == AfterAnswerSubmit(old(view), selected, Settle(answerFetched), Settle(dashboardFetched))
      ensures api.sent == old(api.sent) +
        (if !AnswerSelectable(old(view)) then [] else
           [old(api.Authed(Post, AnswerEndpoint, Some(AnswerBody(view.selectedDayNumber.value, selected))))] +
           (if Settle(answerFetched).Returned? && Settle(answerFetched).value.success
            then [old(api.Authed(Get, DashboardEndpoint, None))] else []))
    {
      if !TruthyNum(view.selectedDayNumber) || view.selectedDayDetails.None? {
        return;
      }
      view := view.(isLoading := true);
      var o := api.SubmitAnswer(view.selectedDayNumber.value, selected, answerFetched);
      ApplyAnswer(selected, o, dashboardFetched);
      view := view.(isLoading := false);
    }

    /** The `try`/`catch` of `handleAnswerSubmit` once the answer request settled. */
    method ApplyAnswer(selected: string, o: Outcome<AnswerResponse>, dashboardFetched: Fetched<DashboardResponse>)
      requires view.selectedDayDetails.Some?
      modifies this, api
      ensures view == AnswerApplied(old(view), selected, o, Settle(dashboardFetched))
      ensures api.sent == old(api.sent) + if o.Returned? && o.value.success then [old(api.Authed(Get, DashboardEndpoint, None))] else []
    {
      match o {
        case Returned(response) =>
          if response.success {
            RecordAnswer(selected, response, dashboardFetched);
          } else if SessionRejected(response) {
            view := view.(hasSession := false);
            view := view.(showEmailEntry := true);
            view := view.(isRegistration := false);
          }
        case Thrown(m) =>
          if AuthFailure(m) {
            view := view.(hasSession := false);
            view := view.(showEmailEntry := true);
            view := view.(isRegistration := false);
            // here the browser's `sessionStorage.removeToken` is not a function: the
            // TypeError it throws skips the toast below and escapes the handler
          } else {
            view := view.(notices := view.notices + [Notice("Error", OrElse(m, "Failed to submit answer"))]);
          }
      }
    }

    /** A successful submission: the result, the merged details, then the dashboard. */
    method RecordAnswer(selected: string, response: AnswerResponse, dashboardFetched: Fetched<DashboardResponse>)
      requires view.selectedDayDetails.Some?
      modifies this, api
      ensures view == AfterLoadDashboard(Answered(old(view), selected, response), Settle(dashboardFetched))
      ensures api.sent == old(api.sent) + [old(api.Authed(Get, DashboardEndpoint, None))]
    {
      view := view.(answerResult := Some(AnswerResult(response.isCorrect, response.correctAnswerText)));
      view := view.(selectedDayDetails := Some(MergeAnswer(view.selectedDayDetails.value, selected, response)));
      LoadDashboard(dashboardFetched);
    }

    /** `QuestionModal`'s `handleSubmit`, `selected` being the modal's radio choice. */
    method SubmitFromModal(selected: Option<string>, answerFetched: Fetched<AnswerResponse>, dashboardFetched: Fetched<DashboardResponse>)
      modifies this, api
      ensures view == AfterModalSubmit(old(view), selected, Settle(answerFetched), Settle(dashboardFetched))
      ensures !Truthy(selected) ==> api.sent == old(api.sent)
      ensures Truthy(selected) ==>
        (api.sent == old(api.sent) +
          (if !AnswerSelectable(old(view)) then [] else
             [old(api.Authed(Post, AnswerEndpoint, Some(AnswerBody(view.selectedDayNumber.value, selected.value))))] +
             (if Settle(answerFetched).Returned? && Settle(answerFetched).value.success
              then [old(api.Authed(Get, DashboardEndpoint, None))] else [])))
    {
      if !Truthy(selected) {
        view := view.(notices := view.notices + [SelectAnswerNotice]);
        return;
      }
      HandleAnswerSubmit(selected.value, answerFetched, dashboardFetched);
    }

    method HandleSessionCreated(dashboardFetched: Fetched<DashboardResponse>)
      modifies this, api
      ensures view == AfterSessionCreated(old(view), Settle(dashboardFetched))
      ensures api.sent == old(api.sent) + [old(api.Authed(Get, DashboardEndpoint, None))]
    {
      view := view.(hasSession := true);
      view := view.(showEmailEntry := false);
      LoadDashboard(dashboardFetched);
    }

    method CloseModal()
      modifies this
      ensures view == AfterClose(old(view))
    {
      view := view.(selectedDayDetails := None);
      view := view.(selectedDayNumber := None);
      view := view.(answerResult := None);
    }

    /** The identity form rendered by this component, its `onSessionCreated`
        bound to `handleSessionCreated` (src/components/advent-calendar.tsx:220-226). */
    method SubmitIdentity(entry: EmailEntry, registerFetched: Fetched<SessionResponse>,
                          createFetched: Fetched<SessionResponse>, dashboardFetched: Fetched<DashboardResponse>)
      requires entry.api == api && ScreenOf(view) == IdentityForm(entry.showRegistration)
      modifies this, entry, api, api.store
      ensures view == if old(entry.SubmitEffect(registerFetched, createFetched)).sessionCreated
                      then AfterSessionCreated(old(view), Settle(dashboardFetched)) else old(view)
      ensures api.store.hasWindow ==>
        api.store.Token() == if old(entry.SubmitEffect(registerFetched, createFetched)).sessionCreated
                             then Settle(createFetched).value.token else old(api.store.Token())
      ensures !old(entry.SubmitEffect(registerFetched, createFetched)).sessionCreated ==> api.store.storage == old(api.store.storage)
      ensures api.store.Others() == old(api.store.Others())
      ensures entry.Values() == old(entry.Values())
      ensures entry.notices == old(entry.notices) + [old(entry.SubmitEffect(registerFetched, createFetched)).notice]
      ensures entry.isLoading == if old(entry.SubmitEffect(registerFetched, createFetched)).registerCalled then false else old(entry.isLoading)
      ensures api.sent == old(api.sent)
        + (if old(entry.SubmitEffect(registerFetched, createFetched)).registerCalled
           then [old(api.Authed(Post, RegisterEndpoint, Some(RegisterRequestBody(entry.Values(), entry.showRegistration))))] else [])
        + (if old(entry.SubmitEffect(registerFetched, createFetched)).sessionRequested
           then [old(api.Authed(Post, SessionEndpoint, Some(SessionBody(entry.email))))] else [])
        + (if old(entry.SubmitEffect(registerFetched, createFetched)).sessionCreated
           then [api.Authed(Get, DashboardEndpoint, None)] else [])
    {
      var created := entry.HandleSubmit(registerFetched, createFetched);
      if created {
        HandleSessionCreated(dashboardFetched);
      }
    }
  }

  /** The first mount of a page with no stored token. */
  method VisitSignedOut() returns (calendar: Calendar)
    ensures fresh(calendar) && fresh(calendar.api) && fresh(calendar.api.store)
    ensures calendar.api.store.hasWindow && calendar.api.store.Token() == None
    ensures ScreenOf(calendar.view) == IdentityForm(false)
    ensures calendar.view.isClient && !calendar.view.isLoading && !calendar.view.isRegistration
    ensures calendar.view.selectedDayDetails == None && calendar.view.totalDays == 12
  {
    var store := new TokenStore(true, map[]);
    var client := new Client(store, None);
    calendar := new Calendar(client, Some(12), true);
    calendar.Mount(Rejected("not requested"), Rejected("not requested"));
    CheckSessionRoutes(InitialView(Some(12), true), NoSession(), Thrown("not requested"));
    CheckSessionEffect(InitialView(Some(12), true).(isClient := true), NoSession(), Thrown("not requested"));
  }

  /** The identity-only form, filled in with "a@b.com" and "Jane Doe". */
  method FillSignInForm(api: Client) returns (entry: EmailEntry)
    ensures fresh(entry) && entry.api == api && !entry.showRegistration
    ensures entry.Values() == Form("a@b.com", "Jane Doe", "", "", "")
  {
    entry := new EmailEntry(api, false);
    entry.Edit(EmailField, "a@b.com");
    entry.Edit(FullNameField, "Jane Doe");
  }

  /** Signing in from the identity-only form as "Jane Doe" with "a@b.com",
      given a created session with token "tok123" and a 12-day dashboard. */
  method SignIn(calendar: Calendar)
    requires ScreenOf(calendar.view) == IdentityForm(false) && calendar.view.isClient && !calendar.view.isLoading
    requires calendar.view.selectedDayDetails == None && calendar.api.store.hasWindow
    modifies calendar, calendar.api, calendar.api.store
    ensures calendar.api.store.Token() == Some("tok123")
    ensures ScreenOf(calendar.view) == Grid && calendar.view.totalDays == 12
  {
    ghost var signedOut := calendar.view;
    var entry := FillSignInForm(calendar.api);
    var registered := Delivered(SessionResponse(true, None, None, None));
    var created := Delivered(SessionResponse(true, Some("tok123"), Some(SessionInfo(1, "a@b.com", 1)), None));
    var days := [Day(1, None, "Prize", None, true, true, false, false, None)];
    var dashboard := Delivered(DashboardResponse(true, 1, Some(1), days, Some(12)));
    SignInExample();
    assert entry.SubmitEffect(registered, created).sessionCreated;
    calendar.SubmitIdentity(entry, registered, created, dashboard);
    assert calendar.view == AfterSessionCreated(signedOut, Returned(dashboard.value));
    LoadDashboardEffect(signedOut.(hasSession := true, showEmailEntry := false), Returned(dashboard.value));
    assert calendar.view.isClient && !calendar.view.isLoading && !calendar.view.showEmailEntry;
    assert calendar.view.selectedDayDetails == None && calendar.view.totalDays == DerivedTotalDays(Some(12), days);
  }

  /** A first visit with no stored token: the identity-only form, then the
      sign-in of `SignIn`, ends on the grid with "tok123" stored. */
  method FirstVisit() returns (token: Option<string>, before: Screen, after: Screen, totalDays: int)
    ensures token == Some("tok123")
    ensures before == IdentityForm(false) && after == Grid && totalDays == 12
  {
    var calendar := VisitSignedOut();
    before := ScreenOf(calendar.view);
    SignIn(calendar);
    token := calendar.api.store.GetToken();
    after := ScreenOf(calendar.view);
    totalDays := calendar.view.totalDays;
  }
}
