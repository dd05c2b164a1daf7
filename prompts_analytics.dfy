/** The prompts analytics hook: the event each tracker hands to the analytics
    service, with the buckets and derived figures it computes, and the two
    pieces of state it keeps between calls (the session start and the form
    start times). Clock readings are arguments. */
module PromptsAnalytics {
  import opened Wrappers
  import opened Text
  import opened Analytics

  /** A property value: JSON-like, with `undefined` for a missing one. */
  datatype Value =
    | Num(n: int)
    | Str(s: string)
    | Flag(b: bool)
    | Strs(items: seq<string>)
    | Undefined

  /** What the hook passes to `analytics.track`. */
  datatype Event = Event(name: string, props: map<string, Value>)

  datatype FormMode = Create | Edit

  function ModeName(m: FormMode): string {
    match m
    case Create => "create"
    case Edit => "edit"
  }

  function OptStr(o: Option<string>): Value {
    match o
    case Some(s) => Str(s)
    case None => Undefined
  }

  function OptNum(o: Option<int>): Value {
    match o
    case Some(n) => Num(n)
    case None => Undefined
  }

  /** How many of the two optional fields a new prompt has. */
  function FeatureComplexity(hasOpeningLine: bool, hasCustomPrompt: bool): (r: nat)
    ensures r <= 2
    ensures r == 0 <==> !hasOpeningLine && !hasCustomPrompt
    ensures r == 2 <==> hasOpeningLine && hasCustomPrompt
  {
    (if hasOpeningLine then 1 else 0) + (if hasCustomPrompt then 1 else 0)
  }

  /** The size bucket of a prompt list. A negative count falls in "small". */
  function ListSizeCategory(count: int): (r: string)
    ensures r == "empty" <==> count == 0
    ensures r == "small" <==> count != 0 && count <= 5
    ensures r == "medium" <==> 5 < count <= 20
    ensures r == "large" <==> 20 < count
  {
    if count == 0 then "empty"
    else if count <= 5 then "small"
    else if count <= 20 then "medium"
    else "large"
  }

  /** The order of the size buckets. */
  function SizeRank(category: string): nat {
    if category == "empty" then 0
    else if category == "small" then 1
    else if category == "medium" then 2
    else 3
  }

  /** A longer list never lands in a smaller bucket. */
  lemma ListSizeMonotone(a: nat, b: nat)
    requires a <= b
    ensures SizeRank(ListSizeCategory(a)) <= SizeRank(ListSizeCategory(b))
  {
  }

  /** The session length reported on close: the one supplied unless it is
      missing or zero, otherwise the time since the session start. */
  function SessionDuration(supplied: Option<int>, now: int, sessionStart: int): (r: int)
    ensures supplied.Some? && supplied.value != 0 ==> r == supplied.value
    ensures supplied == None || supplied == Some(0) ==> r == now - sessionStart
  {
    if supplied.Some? && supplied.value != 0 then supplied.value else now - sessionStart
  }

  function SessionCategory(duration: int): (r: string)
    ensures r == "quick" <==> duration < 30000
    ensures r == "normal" <==> 30000 <= duration < 120000
    ensures r == "extended" <==> 120000 <= duration
  {
    if duration < 30000 then "quick"
    else if duration < 120000 then "normal"
    else "extended"
  }

  function ErrorCategory(status: int): (r: string)
    ensures r == "server_error" <==> 500 <= status
    ensures r == "client_error" <==> 400 <= status < 500
    ensures r == "unknown" <==> status < 400
  {
    if status >= 500 then "server_error"
    else if status >= 400 then "client_error"
    else "unknown"
  }

  /** The kind of a network error, from case-sensitive substrings of its
      message: "timeout" wins over "offline", which wins over "fetch". */
  function NetworkErrorType(message: string): (r: string)
    ensures r == "timeout" <==> Contains(message, "timeout")
    ensures r == "offline" <==> !Contains(message, "timeout") && Contains(message, "offline")
    ensures r == "fetch_failed" <==>
      !Contains(message, "timeout") && !Contains(message, "offline") && Contains(message, "fetch")
    ensures r == "unknown" <==>
      !Contains(message, "timeout") && !Contains(message, "offline") && !Contains(message, "fetch")
  {
    if Contains(message, "timeout") then "timeout"
    else if Contains(message, "offline") then "offline"
    else if Contains(message, "fetch") then "fetch_failed"
    else "unknown"
  }

  /** The match is case-sensitive: "TIMEOUT" is of unknown kind, and a
      message naming both a timeout and a failed fetch is a timeout. */
  lemma NetworkErrorCases()
    ensures NetworkErrorType("TIMEOUT") == "unknown"
    ensures NetworkErrorType("fetch timeout") == "timeout"
  {
    NotContainsByChar("TIMEOUT", "timeout", 't');
    NotContainsByChar("TIMEOUT", "offline", 'f');
    NotContainsByChar("TIMEOUT", "fetch", 'f');
    assert "fetch timeout"[6..13] == "timeout";
    ContainsAt("fetch timeout", "timeout", 6);
  }

  function ApiPerformanceCategory(duration: int): (r: string)
    ensures r == "fast" <==> duration < 500
    ensures r == "normal" <==> 500 <= duration < 2000
    ensures r == "slow" <==> 2000 <= duration < 5000
    ensures r == "very_slow" <==> 5000 <= duration
  {
    if duration < 500 then "fast"
    else if duration < 2000 then "normal"
    else if duration < 5000 then "slow"
    else "very_slow"
  }

  function FormPerformanceCategory(loadTime: int): (r: string)
    ensures r == "fast" <==> loadTime < 100
    ensures r == "normal" <==> 100 <= loadTime < 500
    ensures r == "slow" <==> 500 <= loadTime
  {
    if loadTime < 100 then "fast"
    else if loadTime < 500 then "normal"
    else "slow"
  }

  /** An error as passed to `trackError`: a bare message or an error object. */
  datatype ErrorArg =
    | TextError(text: string)
    | ErrorObject(message: string, errorName: string, stack: Option<string>)

  /** `error_type`: "string" for a bare message, the object's name otherwise,
      "Error" when that name is empty. */
  function ErrorType(e: ErrorArg): (r: string)
    ensures e.TextError? ==> r == "string"
    ensures e.ErrorObject? && e.errorName != "" ==> r == e.errorName
    ensures e.ErrorObject? && e.errorName == "" ==> r == "Error"
  {
    match e
    case TextError(_) => "string"
    case ErrorObject(_, n, _) => if n != "" then n else "Error"
  }

  /** The key under which an opened form's start time is stored: the mode,
      an underscore, and the prompt id, or "new" when the id is missing or
      empty. */
  function FormKey(mode: FormMode, promptId: Option<string>): string {
    ModeName(mode) + "_" + (if Truthy(promptId) then promptId.value else "new")
  }

  /** The key a submission looks up: the mode, an underscore, and the clock
      reading at submission. */
  function SubmitKey(mode: FormMode, now: nat): string {
    ModeName(mode) + "_" + NatToString(now)
  }

  /** A submission never finds the start time of a form opened without an
      id, whatever the modes and the clock. */
  lemma NewFormKeyNeverFound(openMode: FormMode, submitMode: FormMode, now: nat)
    ensures SubmitKey(submitMode, now) != FormKey(openMode, None)
  {
    var a := SubmitKey(submitMode, now);
    var b := FormKey(openMode, None);
    if openMode == submitMode {
      var k := |ModeName(openMode)| + 1;
      assert b[k] == 'n';
      assert a[k] == NatToString(now)[0];
    } else {
      assert a[0] != b[0];
    }
  }

  /** A submission finds a stored start time only for a form of the same mode
      opened with the decimal clock reading of the submission as its id. */
  lemma SubmitKeyMatches(openMode: FormMode, promptId: string, submitMode: FormMode, now: nat)
    requires promptId != ""
    ensures SubmitKey(submitMode, now) == FormKey(openMode, Some(promptId)) <==>
      openMode == submitMode && promptId == NatToString(now)
  {
    var a := SubmitKey(submitMode, now);
    var b := FormKey(openMode, Some(promptId));
    if openMode != submitMode {
      assert a[0] != b[0];
    } else if a == b {
      var k := |ModeName(openMode)| + 1;
      assert a[k..] == NatToString(now);
      assert b[k..] == promptId;
    }
  }

  /** `startTime ? now - startTime : undefined`: a missing or zero start time
      gives no duration. */
  function FormDuration(starts: map<string, int>, key: string, now: int): (r: Option<int>)
    ensures r.Some? <==> key in starts && starts[key] != 0
    ensures r.Some? ==> r.value == now - starts[key]
  {
    if key in starts && starts[key] != 0 then Some(now - starts[key]) else None
  }

  /** Opening a form as new and submitting it reports no form duration. */
  lemma NewFormHasNoDuration(openMode: FormMode, submitMode: FormMode, start: int, keyedAt: nat, now: int)
    ensures FormDuration(map[FormKey(openMode, None) := start], SubmitKey(submitMode, keyedAt), now) == None
  {
    NewFormKeyNeverFound(openMode, submitMode, keyedAt);
  }

  function CreatedEvent(name: string, hasOpeningLine: bool, hasCustomPrompt: bool): Event {
    Event(PromptCreated, map[
      "prompt_name_length" := Num(|name|),
      "has_opening_line" := Flag(hasOpeningLine),
      "has_custom_prompt" := Flag(hasCustomPrompt),
      "feature_complexity" := Num(FeatureComplexity(hasOpeningLine, hasCustomPrompt))])
  }

  function UpdatedEvent(promptId: string, changes: seq<string>): Event {
    Event(PromptUpdated, map[
      "prompt_id" := Str(promptId),
      "fields_changed" := Strs(changes),
      "change_count" := Num(|changes|)])
  }

  function DeletedEvent(promptId: string): Event {
    Event(PromptDeleted, map["prompt_id" := Str(promptId)])
  }

  function ListViewedEvent(count: int): Event {
    Event(PromptListViewed, map[
      "prompt_count" := Num(count),
      "list_size_category" := Str(ListSizeCategory(count))])
  }

  function FormOpenedEvent(mode: FormMode, promptId: Option<string>): Event {
    Event(PromptFormOpened, map["form_mode" := Str(ModeName(mode)), "prompt_id" := OptStr(promptId)])
  }

  function FormSubmittedEvent(mode: FormMode, success: bool, error: Option<string>, duration: Option<int>): Event {
    Event(PromptFormSubmitted, map[
      "form_mode" := Str(ModeName(mode)),
      "success" := Flag(success),
      "error_message" := OptStr(error),
      "form_duration" := OptNum(duration),
      "submission_outcome" := Str(if success then "success" else "error")])
  }

  function FormCancelledEvent(mode: FormMode): Event {
    Event(PromptFormCancelled, map["form_mode" := Str(ModeName(mode))])
  }

  function ManagerClosedEvent(duration: int): Event {
    Event(PromptManagerClosed, map[
      "session_duration" := Num(duration),
      "session_category" := Str(SessionCategory(duration))])
  }

  function ErrorEvent(e: ErrorArg, context: Option<string>, severity: Option<string>): Event {
    Event(ErrorOccurred, map[
      "error_message" := Str(if e.TextError? then e.text else e.message),
      "error_stack" := (if e.ErrorObject? then OptStr(e.stack) else Undefined),
      "error_context" := OptStr(context),
      "error_severity" := Str(severity.GetOr("medium")),
      "error_type" := Str(ErrorType(e))])
  }

  function ApiErrorEvent(endpoint: string, status: int, error: string, duration: Option<int>): Event {
    Event(ApiRequestFailed, map[
      "endpoint" := Str(endpoint),
      "http_status" := Num(status),
      "error_message" := Str(error),
      "request_duration" := OptNum(duration),
      "error_category" := Str(ErrorCategory(status))])
  }

  function NetworkErrorEvent(error: string, attemptCount: Option<int>): Event {
    Event(NetworkError, map[
      "error_message" := Str(error),
      "attempt_count" := Num(attemptCount.GetOr(1)),
      "network_error_type" := Str(NetworkErrorType(error))])
  }

  function ApiPerformanceEvent(endpoint: string, duration: int, success: bool): Event {
    Event(ApiResponseTime, map[
      "endpoint" := Str(endpoint),
      "duration" := Num(duration),
      "success" := Flag(success),
      "performance_category" := Str(ApiPerformanceCategory(duration))])
  }

  function FormPerformanceEvent(formType: string, loadTime: int): Event {
    Event(PageLoadTime, map[
      "component_type" := Str("form"),
      "form_type" := Str(formType),
      "load_time" := Num(loadTime),
      "performance_category" := Str(FormPerformanceCategory(loadTime))])
  }

  function FeatureEvent(feature: string): Event {
    Event(FeatureUsed, map["feature_name" := Str(feature)])
  }

  /** The hook's state: the session start, the form start times by key, and
      the events handed to the analytics service so far. */
  class Session {
    var sessionStart: int
    var formStarts: map<string, int>
    var sent: seq<Event>

    constructor(now: int)
      ensures sessionStart == now && formStarts == map[] && sent == []
    {
      sessionStart := now;
      formStarts := map[];
      sent := [];
    }

    /** `resetSessionTimer` */
    method ResetSessionTimer(now: int)
      modifies this
      ensures sessionStart == now && formStarts == old(formStarts) && sent == old(sent)
    {
      sessionStart := now;
    }

    /** `getSessionStartTime`: the reading the session timer was last reset to. */
    function SessionStartTime(): (r: int)
      reads this
      ensures r == sessionStart
    {
      sessionStart
    }

    /** `trackPromptCreated` */
    method TrackPromptCreated(name: string, hasOpeningLine: bool, hasCustomPrompt: bool)
      modifies this
      ensures sent == old(sent) + [CreatedEvent(name, hasOpeningLine, hasCustomPrompt)]
      ensures sessionStart == old(sessionStart) && formStarts == old(formStarts)
    {
      sent := sent + [CreatedEvent(name, hasOpeningLine, hasCustomPrompt)];
    }

    /** `trackPromptUpdated`: `change_count` is the number of changed fields. */
    method TrackPromptUpdated(promptId: string, changes: seq<string>)
      modifies this
      ensures sent == old(sent) + [UpdatedEvent(promptId, changes)]
      ensures sent[|sent| - 1].props["change_count"] == Num(|changes|)
      ensures sessionStart == old(sessionStart) && formStarts == old(formStarts)
    {
      sent := sent + [UpdatedEvent(promptId, changes)];
    }

    /** `trackPromptDeleted` */
    method TrackPromptDeleted(promptId: string)
      modifies this
      ensures sent == old(sent) + [DeletedEvent(promptId)]
      ensures sessionStart == old(sessionStart) && formStarts == old(formStarts)
    {
      sent := sent + [DeletedEvent(promptId)];
    }

    /** `trackPromptsListViewed` */
    method TrackPromptsListViewed(count: int)
      modifies this
      ensures sent == old(sent) + [ListViewedEvent(count)]
      ensures sessionStart == old(sessionStart) && formStarts == old(formStarts)
    {
      sent := sent + [ListViewedEvent(count)];
    }

    /** `trackPromptFormOpened` at clock reading `now`: the start time is stored
        under the form's key, then the event is sent. */
    method TrackPromptFormOpened(mode: FormMode, promptId: Option<string>, now: int)
      modifies this
      ensures formStarts == old(formStarts)[FormKey(mode, promptId) := now]
      ensures sent == old(sent) + [FormOpenedEvent(mode, promptId)]
      ensures sessionStart == old(sessionStart)
    {
      formStarts := formStarts[FormKey(mode, promptId) := now];
      sent := sent + [FormOpenedEvent(mode, promptId)];
    }

    /** `trackPromptFormSubmitted`: the clock is read twice, at `keyedAt` for
        the submission key and at `now` for the duration; the start time is
        looked up under that key; nothing is removed. */
    method TrackPromptFormSubmitted(mode: FormMode, success: bool, error: Option<string>, keyedAt: nat, now: int)
      modifies this
      ensures sent == old(sent) +
        [FormSubmittedEvent(mode, success, error, FormDuration(old(formStarts), SubmitKey(mode, keyedAt), now))]
      ensures sessionStart == old(sessionStart) && formStarts == old(formStarts)
    {
      var duration := FormDuration(formStarts, SubmitKey(mode, keyedAt), now);
      sent := sent + [FormSubmittedEvent(mode, success, error, duration)];
    }

    /** `trackPromptFormCancelled` */
    method TrackPromptFormCancelled(mode: FormMode)
      modifies this
      ensures sent == old(sent) + [FormCancelledEvent(mode)]
      ensures sessionStart == old(sessionStart) && formStarts == old(formStarts)
    {
      sent := sent + [FormCancelledEvent(mode)];
    }

    /** `trackPromptsManagerOpened`: the session restarts now. */
    method TrackPromptsManagerOpened(now: int)
      modifies this
      ensures sessionStart == now && formStarts == old(formStarts)
      ensures sent == old(sent) + [Event(PromptManagerOpened, map[])]
    {
      ResetSessionTimer(now);
      sent := sent + [Event(PromptManagerOpened, map[])];
    }

    /** `trackPromptsManagerClosed` at clock reading `now`. */
    method TrackPromptsManagerClosed(supplied: Option<int>, now: int)
      modifies this
      ensures sent == old(sent) + [ManagerClosedEvent(SessionDuration(supplied, now, old(sessionStart)))]
      ensures sessionStart == old(sessionStart) && formStarts == old(formStarts)
    {
      sent := sent + [ManagerClosedEvent(SessionDuration(supplied, now, sessionStart))];
    }

    /** `trackError`: severity "medium" unless given. */
    method TrackError(e: ErrorArg, context: Option<string>, severity: Option<string>)
      modifies this
      ensures sent == old(sent) + [ErrorEvent(e, context, severity)]
      ensures sessionStart == old(sessionStart) && formStarts == old(formStarts)
    {
      sent := sent + [ErrorEvent(e, context, severity)];
    }

    /** `trackApiError` */
    method TrackApiError(endpoint: string, status: int, error: string, duration: Option<int>)
      modifies this
      ensures sent == old(sent) + [ApiErrorEvent(endpoint, status, error, duration)]
      ensures sessionStart == old(sessionStart) && formStarts == old(formStarts)
    {
      sent := sent + [ApiErrorEvent(endpoint, status, error, duration)];
    }

    /** `trackNetworkError`: one attempt unless given. */
    method TrackNetworkError(error: string, attemptCount: Option<int>)
      modifies this
      ensures sent == old(sent) + [NetworkErrorEvent(error, attemptCount)]
      ensures sessionStart == old(sessionStart) && formStarts == old(formStarts)
    {
      sent := sent + [NetworkErrorEvent(error, attemptCount)];
    }

    /** `trackApiPerformance` */
    method TrackApiPerformance(endpoint: string, duration: int, success: bool)
      modifies this
      ensures sent == old(sent) + [ApiPerformanceEvent(endpoint, duration, success)]
      ensures sessionStart == old(sessionStart) && formStarts == old(formStarts)
    {
      sent := sent + [ApiPerformanceEvent(endpoint, duration, success)];
    }

    /** `trackFormPerformance` */
    method TrackFormPerformance(formType: string, loadTime: int)
      modifies this
      ensures sent == old(sent) + [FormPerformanceEvent(formType, loadTime)]
      ensures sessionStart == old(sessionStart) && formStarts == old(formStarts)
    {
      sent := sent + [FormPerformanceEvent(formType, loadTime)];
    }

    /** `trackFeatureUsage`; the context object is not modelled. */
    method TrackFeatureUsage(feature: string)
      modifies this
      ensures sent == old(sent) + [FeatureEvent(feature)]
      ensures sessionStart == old(sessionStart) && formStarts == old(formStarts)
    {
      sent := sent + [FeatureEvent(feature)];
    }
  }

  /** One run of the wrapper component's effect reports the feature
      "<componentName>_mounted". The effect depends on the hook's result
      object, which is a new object on every render, so it runs after every
      render of the wrapper, not only after the first. */
  method TrackComponentMounted(session: Session, componentName: string)
    modifies session
    ensures session.sent == old(session.sent) + [FeatureEvent(componentName + "_mounted")]
    ensures session.sessionStart == old(session.sessionStart) && session.formStarts == old(session.formStarts)
  {
    session.TrackFeatureUsage(componentName + "_mounted");
  }

  /** Opening the manager and closing it without a supplied duration reports
      the time since the opening. */
  method OpenThenClose(session: Session, openedAt: int, closedAt: int)
    modifies session
    ensures session.sent == old(session.sent) +
      [Event(PromptManagerOpened, map[]), ManagerClosedEvent(closedAt - openedAt)]
  {
    session.TrackPromptsManagerOpened(openedAt);
    session.TrackPromptsManagerClosed(None, closedAt);
  }

  /** In a fresh session, a form opened as new and then submitted reports no
      form duration. */
  method NewFormThenSubmit(session: Session, mode: FormMode, openedAt: int, success: bool,
                           keyedAt: nat, now: int)
    requires session.formStarts == map[]
    modifies session
    ensures session.sent == old(session.sent) +
      [FormOpenedEvent(mode, None), FormSubmittedEvent(mode, success, None, None)]
  {
    session.TrackPromptFormOpened(mode, None, openedAt);
    session.TrackPromptFormSubmitted(mode, success, None, keyedAt, now);
    NewFormHasNoDuration(mode, mode, openedAt, keyedAt, now);
  }
}
