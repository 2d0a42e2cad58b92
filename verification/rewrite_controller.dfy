/** The rewrite side of `MainController`: the blank-input guard and the choice
    of style in `handleRewriteRequest`, the success, error and finally
    callbacks it hands to the service, and `handleCancelRequest`.

    Swing's `invokeLater` queue is not modelled: each handler is a function
    from the panel state before to the panel state after, together with the
    one observable thing it does (a dialog, a service call, a result shown). */
module RewriteController {
  import opened Options
  import opened JavaText
  import opened Strategies
  import opened Panel

  datatype Level = WarningMessage | ErrorMessage

  /** A `JOptionPane` message dialog. */
  datatype Dialog = Dialog(title: string, message: string, level: Level)

  const InputErrorDialog: Dialog :=
    Dialog("Input Error", "Please enter some text before rewriting.", WarningMessage)

  const RateLimitDialog: Dialog :=
    Dialog("Rate Limit", "You're sending requests too quickly. Please wait a few seconds.", WarningMessage)

  const ApiErrorDialog: Dialog :=
    Dialog("API Error", "Error: Unable to contact API. Please check your internet connection or API key.", ErrorMessage)

  /** The items of the mode drop-down, one per style. */
  function ModeName(s: Strategy): string {
    match s
    case Creative => "Creative"
    case Academic => "Academic"
    case Professional => "Professional"
  }

  /** The `switch (mode)` of `handleRewriteRequest`: an exact, case-sensitive
      match on the three mode names, with every other string falling back to
      the creative style. */
  function SelectStrategy(mode: string): (s: Strategy)
    ensures s == Academic <==> mode == ModeName(Academic)
    ensures s == Professional <==> mode == ModeName(Professional)
    ensures s == Creative <==> mode != ModeName(Academic) && mode != ModeName(Professional)
  {
    if mode == "Creative" then Creative
    else if mode == "Academic" then Academic
    else if mode == "Professional" then Professional
    else Creative
  }

  /** Every item of the drop-down selects its own style. */
  lemma SelectModeName(s: Strategy)
    ensures SelectStrategy(ModeName(s)) == s
  {
  }

  /** What a request handler does besides changing the panel. */
  datatype RequestEffect =
    | ShowDialog(dialog: Dialog)
      /** `switch` on a null mode string throws `NullPointerException`. */
    | NullModeThrown
      /** `apiService.rewriteTextAsync(text, strategy, ...)`. */
    | RewriteAsync(text: string, strategy: Strategy)
      /** `apiService.cancel()`. */
    | CancelService

  /** `handleRewriteRequest(text, mode)`. A null or blank text is refused with
      the input-error dialog, and nothing else happens. Otherwise the mode
      picks the style, the panel goes busy, and the service is called with the
      original text, untrimmed. A null mode passes the guard and then throws,
      before the panel is touched. */
  function HandleRewriteRequest(p: PanelState, text: Option<string>, mode: Option<string>): (r: (PanelState, RequestEffect))
    ensures r.1 == ShowDialog(InputErrorDialog) <==> text.None? || AllTrimmable(text.value)
    ensures r.1 == NullModeThrown <==> !IsBlank(text) && mode.None?
    ensures r.1.RewriteAsync? <==> !IsBlank(text) && mode.Some?
    ensures r.1.RewriteAsync? ==> Some(r.1.text) == text && r.1.strategy == SelectStrategy(mode.value)
    ensures r.1.RewriteAsync? ==> r.0 == Busy
    ensures !r.1.RewriteAsync? ==> r.0 == p
  {
    if IsBlank(text) then (p, ShowDialog(InputErrorDialog))
    else if mode.None? then (p, NullModeThrown)
    else
      var strategy := SelectStrategy(mode.value);
      var q := SetRewriteEnabled(ShowLoadingState(p, true), false);
      (q, RewriteAsync(text.value, strategy))
  }

  /** The failures the service reports through the error callback. Only
      `RateLimitException` is told apart by the controller. */
  datatype ApiError =
    | RateLimitError(message: string)
    | UpstreamError(message: string)
    | TimeoutError(message: string)
    | TransportError(message: string)
    | Interrupted

  /** How an asynchronous rewrite ends. */
  datatype Completion = Succeeded(rewrittenText: string) | Failed(error: ApiError)

  /** The error callback: the rate-limit warning for a rate-limit error and
      the generic API error for every other kind, cancellation included; the
      error's own message is never shown. */
  function ErrorDialog(e: ApiError): (d: Dialog)
    ensures d == RateLimitDialog <==> e.RateLimitError?
    ensures d == ApiErrorDialog <==> !e.RateLimitError?
    ensures d.level == WarningMessage <==> e.RateLimitError?
  {
    if e.RateLimitError? then RateLimitDialog else ApiErrorDialog
  }

  /** Two errors of a kind other than rate limiting look the same to the user,
      whatever their messages. */
  lemma NonRateLimitErrorsIndistinguishable(e1: ApiError, e2: ApiError)
    requires !e1.RateLimitError? && !e2.RateLimitError?
    ensures ErrorDialog(e1) == ErrorDialog(e2)
  {
  }

  /** What the success or error callback shows. */
  datatype CompletionEffect = DisplayResult(text: string) | ShowError(dialog: Dialog)

  /** The success or error callback followed by the finally callback. Exactly
      one of the two is chosen by the outcome; the rewritten text is shown
      unchanged; and the panel ends idle whatever the outcome. */
  function OnComplete(p: PanelState, c: Completion): (r: (PanelState, CompletionEffect))
    ensures r.1.DisplayResult? <==> c.Succeeded?
    ensures c.Succeeded? ==> r.1.text == c.rewrittenText
    ensures c.Failed? ==> r.1.dialog == ErrorDialog(c.error)
    ensures r.0 == Initial
  {
    var effect := match c
      case Succeeded(t) => DisplayResult(t)
      case Failed(e) => ShowError(ErrorDialog(e));
    (SetRewriteEnabled(ShowLoadingState(p, false), true), effect)
  }

  /** `handleCancelRequest`: asks the service to cancel, whether or not a
      request is in flight, and returns the panel to idle. */
  function HandleCancelRequest(p: PanelState): (r: (PanelState, RequestEffect))
    ensures r.1 == CancelService
    ensures r.0 == Initial
    ensures !r.0.Loading() && r.0.rewriteEnabled
  {
    (SetRewriteEnabled(ShowLoadingState(p, false), true), CancelService)
  }

  /** One thing that can happen to the panel. */
  datatype Event =
    | Request(text: Option<string>, mode: Option<string>)
    | Complete(completion: Completion)
    | Cancel

  function Step(p: PanelState, e: Event): (q: PanelState)
    ensures p.Consistent() ==> q.Consistent()
    ensures e.Complete? || e.Cancel? ==> q == Initial
  {
    match e
    case Request(text, mode) => HandleRewriteRequest(p, text, mode).0
    case Complete(c) => OnComplete(p, c).0
    case Cancel => HandleCancelRequest(p).0
  }

  /** The panel after a sequence of events, oldest first. */
  function Run(p: PanelState, events: seq<Event>): PanelState
    decreases |events|
  {
    if |events| == 0 then p
    else Run(Step(p, events[0]), events[1..])
  }

  /** Whatever happens, the spinner and the Cancel button stay together and
      the Rewrite button is enabled exactly when they are hidden. */
  lemma {:induction false} RunKeepsConsistent(p: PanelState, events: seq<Event>)
    requires p.Consistent()
    ensures Run(p, events).Consistent()
    decreases |events|
  {
    if |events| > 0 {
      RunKeepsConsistent(Step(p, events[0]), events[1..]);
    }
  }

  /** A run whose last event is a completion or a cancel leaves the panel
      idle, whatever came before. The controller keeps no count of requests
      in flight, so this holds even when an earlier request's completion
      arrives after a later request was accepted. */
  lemma {:induction false} RunEndsIdleAfterCompletion(p: PanelState, events: seq<Event>, last: Event)
    requires last.Complete? || last.Cancel?
    ensures Run(p, events + [last]) == Initial
    decreases |events|
  {
    if |events| == 0 {
      assert (events + [last])[1..] == [];
    } else {
      assert (events + [last])[1..] == events[1..] + [last];
      RunEndsIdleAfterCompletion(Step(p, events[0]), events[1..], last);
    }
  }
}
