/** The front-end error log of ErrorBoundary.tsx: an append-only list kept by `ErrorProvider`, the
    global handlers that feed it, and the `useError` guard. */
module ErrorBoundary {
  import opened Wrappers

  datatype ErrorSource = FrontendSource | BackendSource
  datatype ErrorLevel = ErrorLevel | WarnLevel | InfoLevel

  /** One logged error (`ErrorInfo`); `timestamp` is milliseconds since the epoch. */
  datatype ErrorInfo = ErrorInfo(id: string, timestamp: int, message: string, stack: Option<string>,
                                 source: ErrorSource, level: ErrorLevel)

  /** What a caller of `addError` supplies: an `ErrorInfo` without id and timestamp. */
  datatype ErrorReport = ErrorReport(message: string, stack: Option<string>, source: ErrorSource, level: ErrorLevel)

  /** What `sendErrorReport` hands to the `send_error_report` command. */
  datatype ReportPayload = ReportPayload(email: string, errors: seq<ErrorInfo>)

  /** The entry `addError` builds: the caller's fields, a fresh id and the current time. */
  function Stamp(e: ErrorReport, freshId: string, now: int): (info: ErrorInfo)
    ensures info.message == e.message && info.stack == e.stack
    ensures info.source == e.source && info.level == e.level
    ensures info.id == freshId && info.timestamp == now
  {
    ErrorInfo(freshId, now, e.message, e.stack, e.source, e.level)
  }

  /** The `error` handler: the event's message and its error's stack, as a front-end error. */
  function FromErrorEvent(message: string, errorStack: Option<string>): (r: ErrorReport)
    ensures r.source == FrontendSource && r.level == ErrorLevel
    ensures r.message == message && r.stack == errorStack
  {
    ErrorReport(message, errorStack, FrontendSource, ErrorLevel)
  }

  const UnhandledRejection := "Unhandled Promise Rejection"

  /** The `unhandledrejection` handler: the reason's message, or a fixed text when the reason has no
      message or an empty one (`||`). */
  function FromRejection(reasonMessage: Option<string>, reasonStack: Option<string>): (r: ErrorReport)
    ensures r.source == FrontendSource && r.level == ErrorLevel && r.stack == reasonStack
    ensures r.message != ""
    ensures reasonMessage.Some? && reasonMessage.value != "" ==> r.message == reasonMessage.value
    ensures reasonMessage.None? || reasonMessage.value == "" ==> r.message == UnhandledRejection
  {
    var message := if reasonMessage.Some? && reasonMessage.value != "" then reasonMessage.value else UnhandledRejection;
    ErrorReport(message, reasonStack, FrontendSource, ErrorLevel)
  }

  /** `useError`: the context, or an error when there is no enclosing provider. */
  function UseError<C>(context: Option<C>): (r: Result<C>)
    ensures r.Ok? <==> context.Some?
    ensures r.Ok? ==> r.value == context.value
    ensures r.Err? ==> r.error == "useError must be used within ErrorProvider"
  {
    if context.None? then Err("useError must be used within ErrorProvider") else Ok(context.value)
  }

  /** `ErrorProvider`: the `errors` state and the callbacks it shares through the context. */
  class ErrorProvider {
    var errors: seq<ErrorInfo>

    constructor ()
      ensures errors == []
    {
      errors := [];
    }

    /** `addError`: one stamped entry appended at the end; earlier entries stay as they were. */
    method AddError(e: ErrorReport, freshId: string, now: int)
      modifies this
      ensures errors == old(errors) + [Stamp(e, freshId, now)]
      ensures |errors| == |old(errors)| + 1 && errors[..|old(errors)|] == old(errors)
    {
      errors := errors + [ErrorInfo(freshId, now, e.message, e.stack, e.source, e.level)];
    }

    /** `clearErrors`. */
    method ClearErrors()
      modifies this
      ensures errors == []
    {
      errors := [];
    }

    /** `sendErrorReport`: sends the address and the current log; `delivery` is the command's outcome,
        which is passed on unchanged (a failure is rethrown). The log is not touched. */
    method SendErrorReport(email: string, delivery: Result<()>) returns (payload: ReportPayload, r: Result<()>)
      ensures payload.email == email && payload.errors == errors
      ensures r == delivery
    {
      payload := ReportPayload(email, errors);
      r := delivery;
    }

    /** The global `error` listener. */
    method HandleError(message: string, errorStack: Option<string>, freshId: string, now: int)
      modifies this
      ensures errors == old(errors) + [Stamp(FromErrorEvent(message, errorStack), freshId, now)]
      ensures errors[|errors| - 1].source == FrontendSource && errors[|errors| - 1].level == ErrorLevel
    {
      AddError(FromErrorEvent(message, errorStack), freshId, now);
    }

    /** The global `unhandledrejection` listener. */
    method HandlePromiseRejection(reasonMessage: Option<string>, reasonStack: Option<string>, freshId: string, now: int)
      modifies this
      ensures errors == old(errors) + [Stamp(FromRejection(reasonMessage, reasonStack), freshId, now)]
      ensures errors[|errors| - 1].source == FrontendSource && errors[|errors| - 1].message != ""
    {
      AddError(FromRejection(reasonMessage, reasonStack), freshId, now);
    }
  }

  /** The log after a series of `addError` calls: the entries in call order after the old ones. */
  function AddAll(log: seq<ErrorInfo>, reports: seq<ErrorReport>, ids: seq<string>, times: seq<int>): (r: seq<ErrorInfo>)
    requires |ids| == |reports| && |times| == |reports|
    ensures |r| == |log| + |reports|
    ensures r[..|log|] == log
    ensures forall i :: 0 <= i < |reports| ==> r[|log| + i] == Stamp(reports[i], ids[i], times[i])
    decreases |reports|
  {
    if reports == [] then log
    else AddAll(log + [Stamp(reports[0], ids[0], times[0])], reports[1..], ids[1..], times[1..])
  }
}
