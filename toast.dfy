/** The toast queue: `addToast` completes a toast with an id, a duration and a
    dismissible flag, appends it and schedules its removal; `removeToast` and
    `clearToasts` shrink the queue. The clock reading that becomes the id is an
    argument, and the scheduled timer is returned instead of being started. */
module Toast {
  import opened Wrappers
  import opened Text

  datatype ToastType = Success | Error | Warning | Info | Loading

  datatype Severity = Low | Medium | High | Critical

  /** What a caller passes to `addToast`: everything but the id. Action
      buttons are counted, not modelled. */
  datatype ToastInput = ToastInput(
    kind: ToastType,
    severity: Option<Severity>,
    title: string,
    message: Option<string>,
    duration: Option<int>,
    dismissible: Option<bool>,
    actions: nat)

  /** A toast in the queue. */
  datatype QueuedToast = QueuedToast(
    id: string,
    kind: ToastType,
    severity: Option<Severity>,
    title: string,
    message: Option<string>,
    duration: int,
    dismissible: bool,
    actions: nat)

  /** The duration used when none is supplied, in milliseconds. */
  function DefaultDuration(kind: ToastType, severity: Option<Severity>): (r: nat)
    ensures kind == Error ==> r == match severity
      case Some(Critical) => 0
      case Some(High) => 12000
      case Some(Medium) => 8000
      case _ => 6000
    ensures kind == Warning ==> r == (if severity == Some(High) then 8000 else 6000)
    ensures kind == ToastType.Success ==> r == 4000
    ensures kind == Info || kind == Loading ==> r == 5000
    ensures r == 0 <==> kind == Error && severity == Some(Critical)
  {
    if kind == Error then
      match severity
      case Some(Critical) => 0
      case Some(High) => 12000
      case Some(Medium) => 8000
      case _ => 6000
    else if kind == Warning then
      if severity == Some(High) then 8000 else 6000
    else if kind == ToastType.Success then 4000
    else 5000
  }

  /** `{ ...toast, id, duration: toast.duration ?? defaultDuration,
      dismissible: toast.dismissible ?? true }`: a supplied duration wins, even
      0; a toast is dismissible unless told otherwise. */
  function Complete(input: ToastInput, id: string): (r: QueuedToast)
    ensures r.id == id && r.kind == input.kind && r.title == input.title && r.message == input.message
    ensures r.duration == input.duration.GetOr(DefaultDuration(input.kind, input.severity))
    ensures r.dismissible <==> input.dismissible != Some(false)
  {
    QueuedToast(id, input.kind, input.severity, input.title, input.message,
      input.duration.GetOr(DefaultDuration(input.kind, input.severity)),
      input.dismissible.GetOr(true), input.actions)
  }

  /** Whether `addToast` starts a removal timer for the toast. */
  predicate AutoRemoves(t: QueuedToast): (r: bool)
    ensures t.kind == Loading ==> !r
    ensures t.duration <= 0 ==> !r
    ensures t.kind != Loading && t.duration > 0 ==> r
  {
    t.kind != Loading && t.duration > 0
  }

  /** Whether the toast shows its close button. */
  predicate ShowsCloseButton(t: QueuedToast) {
    t.dismissible && t.kind != Loading
  }

  /** `prev.filter(toast => toast.id !== id)` */
  function WithoutId(toasts: seq<QueuedToast>, id: string): (r: seq<QueuedToast>)
    ensures |r| <= |toasts|
    ensures forall t :: t in r <==> t in toasts && t.id != id
  {
    if toasts == [] then []
    else if toasts[0].id == id then WithoutId(toasts[1..], id)
    else [toasts[0]] + WithoutId(toasts[1..], id)
  }

  /** A removal timer: which id to remove, after how long. */
  datatype Timer = Timer(id: string, delay: int)

  class ToastQueue {
    var toasts: seq<QueuedToast>

    constructor()
      ensures toasts == []
    {
      toasts := [];
    }

    /** `addToast(toast)` at clock reading `now`: exactly one toast is appended,
        with `now` as its id, and a timer is returned exactly when the toast
        removes itself. */
    method AddToast(input: ToastInput, now: nat) returns (timer: Option<Timer>)
      modifies this
      ensures toasts == old(toasts) + [Complete(input, NatToString(now))]
      ensures timer.Some? <==> AutoRemoves(Complete(input, NatToString(now)))
      ensures timer.Some? ==> timer.value == Timer(NatToString(now), toasts[|toasts| - 1].duration)
    {
      var t := Complete(input, NatToString(now));
      toasts := toasts + [t];
      timer := if AutoRemoves(t) then Some(Timer(t.id, t.duration)) else None;
    }

    /** `removeToast(id)`: every toast with that id goes, the rest keep their
        order. */
    method RemoveToast(id: string)
      modifies this
      ensures toasts == WithoutId(old(toasts), id)
    {
      toasts := WithoutId(toasts, id);
    }

    /** `clearToasts()` */
    method ClearToasts()
      modifies this
      ensures toasts == []
    {
      toasts := [];
    }
  }

  /** `showSuccess` */
  function SuccessInput(title: string, message: Option<string>): (r: ToastInput)
    ensures r.kind == ToastType.Success && r.severity.None? && r.title == title && r.message == message
    ensures r.duration.None? && r.dismissible.None? && r.actions == 0
  {
    ToastInput(ToastType.Success, None, title, message, None, None, 0)
  }

  /** `showError`: severity medium unless given. */
  function ErrorInput(title: string, message: Option<string>, severity: Option<Severity>): (r: ToastInput)
    ensures r.kind == Error && r.title == title && r.message == message
    ensures r.severity == Some(if severity.Some? then severity.value else Medium)
    ensures r.duration.None? && r.dismissible.None? && r.actions == 0
  {
    ToastInput(Error, Some(severity.GetOr(Medium)), title, message, None, None, 0)
  }

  /** `showWarning`: severity medium unless given. */
  function WarningInput(title: string, message: Option<string>, severity: Option<Severity>): (r: ToastInput)
    ensures r.kind == Warning && r.title == title && r.message == message
    ensures r.severity == Some(if severity.Some? then severity.value else Medium)
    ensures r.duration.None? && r.dismissible.None? && r.actions == 0
  {
    ToastInput(Warning, Some(severity.GetOr(Medium)), title, message, None, None, 0)
  }

  /** `showCriticalError`: not dismissible. */
  function CriticalErrorInput(title: string, message: Option<string>, actions: nat): (r: ToastInput)
    ensures r.kind == Error && r.severity == Some(Critical) && r.title == title && r.message == message
    ensures r.duration.None? && r.dismissible == Some(false) && r.actions == actions
  {
    ToastInput(Error, Some(Critical), title, message, None, Some(false), actions)
  }

  /** `showNetworkError`: a high-severity error, with a Retry action when a
      retry callback is given. */
  function NetworkErrorInput(canRetry: bool): (r: ToastInput)
    ensures r.kind == Error && r.severity == Some(High) && r.title == "Connection Error" && r.message.Some?
    ensures r.duration.None? && r.dismissible.None? && (r.actions == 1 <==> canRetry) && r.actions <= 1
  {
    ToastInput(Error, Some(High), "Connection Error",
      Some("Unable to connect to the server. Please check your internet connection."),
      None, None, if canRetry then 1 else 0)
  }

  /** `showInfo` */
  function InfoInput(title: string, message: Option<string>): (r: ToastInput)
    ensures r.kind == Info && r.severity.None? && r.title == title && r.message == message
    ensures r.duration.None? && r.dismissible.None? && r.actions == 0
  {
    ToastInput(Info, None, title, message, None, None, 0)
  }

  /** `showLoading`: no timer and no close button. */
  function LoadingInput(title: string, message: Option<string>): (r: ToastInput)
    ensures r.kind == Loading && r.severity.None? && r.title == title && r.message == message
    ensures r.duration == Some(0) && r.dismissible == Some(false) && r.actions == 0
  {
    ToastInput(Loading, None, title, message, Some(0), Some(false), 0)
  }

  /** Critical errors and loading toasts stay until removed, and show no close
      button; every other helper's toast removes itself and can be closed. */
  lemma HelperLifetimes(title: string, message: Option<string>, severity: Option<Severity>, id: string)
    ensures var t := Complete(CriticalErrorInput(title, message, 0), id);
      !AutoRemoves(t) && !ShowsCloseButton(t)
    ensures var t := Complete(LoadingInput(title, message), id);
      !AutoRemoves(t) && !ShowsCloseButton(t)
    ensures var t := Complete(ErrorInput(title, message, None), id);
      AutoRemoves(t) && ShowsCloseButton(t) && t.duration == 8000
    ensures severity != Some(Critical) ==>
      var t := Complete(ErrorInput(title, message, severity), id);
      AutoRemoves(t) && ShowsCloseButton(t)
    ensures var t := Complete(SuccessInput(title, message), id);
      AutoRemoves(t) && ShowsCloseButton(t) && t.duration == 4000
  {
  }

  /** Ids are clock readings, so two toasts added in the same millisecond are
      removed together. */
  method SameMillisecondRemovedTogether(queue: ToastQueue, a: ToastInput, b: ToastInput, now: nat)
    modifies queue
    ensures queue.toasts == WithoutId(old(queue.toasts), NatToString(now))
  {
    var _ := queue.AddToast(a, now);
    var _ := queue.AddToast(b, now);
    queue.RemoveToast(NatToString(now));
    WithoutIdAppend(old(queue.toasts), [Complete(a, NatToString(now)), Complete(b, NatToString(now))],
                    NatToString(now));
    assert old(queue.toasts) + [Complete(a, NatToString(now))] + [Complete(b, NatToString(now))]
      == old(queue.toasts) + [Complete(a, NatToString(now)), Complete(b, NatToString(now))];
  }

  /** Filtering distributes over concatenation. */
  lemma {:induction false} WithoutIdAppend(xs: seq<QueuedToast>, ys: seq<QueuedToast>, id: string)
    ensures WithoutId(xs + ys, id) == WithoutId(xs, id) + WithoutId(ys, id)
  {
    if xs != [] {
      assert (xs + ys)[1..] == xs[1..] + ys;
      WithoutIdAppend(xs[1..], ys, id);
    } else {
      assert xs + ys == ys;
    }
  }
}
