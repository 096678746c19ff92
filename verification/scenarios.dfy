/** Clients of the shell and the preview pane, wired as App.tsx wires them:
    the pane's reports go to the shell's `onError` handler. Each scenario
    states what a caller can conclude from the contracts alone. */
module Scenarios {
  import opened Wrappers
  import opened JsText
  import opened PreviewPane
  import opened AppShell
  import GeminiService

  /** Hands a report of the pane to the shell (`onError={(err) =>
      setSyntaxError(err)}`): no call leaves the shell as it is. */
  method Deliver(app: App, report: Report)
    modifies app
    ensures report.Silent? ==> app.State() == old(app.State())
    ensures report.OnError? ==> app.State() == old(app.State()).(syntaxError := report.error)
  {
    if report.OnError? {
      app.ReportError(report.error);
    }
  }

  /** Two settled texts in a row: the first attempt completes after the
      second effect run and is dropped, so only the newest render reaches the
      screen. */
  method StaleRenderIsDropped(first: string, second: string, firstSvg: string, secondSvg: string)
    returns (staleReport: Report, shown: string)
    requires !IsBlank(first) && !IsBlank(second)
    ensures staleReport == Silent
    ensures shown == secondSvg
  {
    var pane := new Preview();
    var firstAttempt, _ := pane.BeginRender(first);
    var secondAttempt, _ := pane.BeginRender(second);
    staleReport := pane.FinishRender(firstAttempt.value, Rendered(firstSvg));
    var _ := pane.FinishRender(secondAttempt.value, Rendered(secondSvg));
    shown := pane.svgContent;
  }

  /** A text that renders, then a malformed one: the earlier graphic stays on
      screen and the shell records a one-line error that starts the engine's
      message. */
  method MalformedInputKeepsGraphic(good: string, bad: string, svg: string, message: string)
    returns (shown: string, error: Option<string>)
    requires !IsBlank(good) && !IsBlank(bad)
    ensures shown == svg
    ensures error.Some? && '\n' !in error.value && error.value <= message
  {
    var app := new App();
    var pane := new Preview();
    var attempt, report := pane.BeginRender(good);
    Deliver(app, report);
    report := pane.FinishRender(attempt.value, Rendered(svg));
    Deliver(app, report);
    attempt, report := pane.BeginRender(bad);
    Deliver(app, report);
    report := pane.FinishRender(attempt.value, Threw(ErrorInstance(message)));
    Deliver(app, report);
    shown := pane.svgContent;
    error := app.syntaxError;
  }

  /** Typing clears the recorded error, but the shell's `onError` is a new
      function on every render of the shell, so the pane's effect runs again
      for the same settled text; if that text still fails, the error is back
      before the new text has settled. */
  method ErrorReturnsAfterEdit(settled: string, message: string, typed: string)
    returns (cleared: Option<string>, after: Option<string>)
    requires !IsBlank(settled)
    ensures cleared == None
    ensures after == Some(FirstLine(message))
  {
    var app := new App();
    var pane := new Preview();
    var attempt, report := pane.BeginRender(settled);
    report := pane.FinishRender(attempt.value, Threw(ErrorInstance(message)));
    Deliver(app, report);
    app.HandleCodeChange(typed);
    cleared := app.syntaxError;
    attempt, report := pane.BeginRender(pane.debouncedCode);
    report := pane.FinishRender(attempt.value, Threw(ErrorInstance(message)));
    Deliver(app, report);
    after := app.syntaxError;
  }

  /** A repair whose reply wraps the corrected text in a mermaid fence: the
      fence is gone from the new text, the success notification shows and the
      flag is down. */
  method RepairStripsFences(broken: string, body: string)
    returns (code: string, toast: Option<Toast>, isFixing: bool)
    requires !IsBlank(broken)
    requires IsTrimmed(body) && !GeminiService.StartsWithFence(body)
    ensures code == body
    ensures toast == Some(Toast(RepairedMessage, Success))
    ensures !isFixing
  {
    var app := new App();
    app.LoadOnMount(Some(broken));
    var reply := GeminiService.Fence + "mermaid\n" + body + "\n" + GeminiService.Fence;
    GeminiService.FencedBodyRoundTrip(body);
    app.HandleAiFix((request: GeminiService.Request) => GeminiService.Generated(Some(reply)));
    code, toast, isFixing := app.code, app.toast, app.isFixing;
  }

  /** A reply without text is a successful repair to the empty text, not a
      failure. */
  method EmptyReplyEmptiesText(broken: string) returns (code: string, toast: Option<Toast>)
    requires !IsBlank(broken)
    ensures code == ""
    ensures toast == Some(Toast(RepairedMessage, Success))
  {
    var app := new App();
    app.LoadOnMount(Some(broken));
    app.HandleAiFix((request: GeminiService.Request) => GeminiService.Generated(None));
    code, toast := app.code, app.toast;
  }

  /** A failed call leaves the text and the recorded error as they were. */
  method FailedRepairKeepsText(broken: string, error: string)
    returns (code: string, syntaxError: Option<string>, toast: Option<Toast>)
    requires !IsBlank(broken)
    ensures code == broken && syntaxError == Some(error)
    ensures toast == Some(Toast(RepairFailedMessage, Failure))
  {
    var app := new App();
    app.LoadOnMount(Some(broken));
    app.ReportError(Some(error));
    app.HandleAiFix((request: GeminiService.Request) => GeminiService.Failed);
    code, syntaxError, toast := app.code, app.syntaxError, app.toast;
  }

  /** Export with nothing rendered: no file, and the failure notification. */
  method DownloadWithoutDiagram(now: nat) returns (file: Option<SvgFile>, toast: Option<Toast>)
    ensures file == None
    ensures toast == Some(Toast(NoDiagramMessage, Failure))
  {
    var app := new App();
    file := app.HandleDownloadSvg(None, now);
    toast := app.toast;
  }

  /** Two notifications within three seconds: the first one's timer clears
      the second notification early, while the second timer is still
      pending. */
  method OlderTimerClearsNewerToast(now: nat) returns (toast: Option<Toast>, pending: nat)
    ensures toast == None
    ensures pending == 1
  {
    var app := new App();
    var _ := app.HandleDownloadSvg(None, now);
    app.ShowToast(RepairFailedMessage, Failure);
    app.DismissToast();
    toast, pending := app.toast, app.pendingDismissals;
  }
}
