/** The application shell of App.tsx: the canonical state (the diagram text,
    the repair-in-flight flag, the last syntax error and the notification) and
    the handlers that change it.

    React's state cells are the fields of `App`. The asynchronous repair is
    split at its one await into `BeginFix` and `CompleteFix`; other handlers
    may run in between. The notification's three-second timer is the explicit
    event `DismissToast`; `pendingDismissals` counts the timers not yet fired. */
module AppShell {
  import opened Wrappers
  import opened JsText
  import GeminiService

  /** The built-in example used when nothing usable is stored. */
  const DefaultCode: string :=
    "graph TD\n    A[Idea] --> B{Feasible?}\n    B -- Yes --> C[Prototype]\n    B -- No --> D[Research]\n    D --> B\n    C --> E[Launch]"

  /** The error description sent when no syntax error is recorded. */
  const GenericSyntaxError: string := "General syntax error"

  const RepairedMessage: string := "Code repaired by AI!"
  const RepairFailedMessage: string := "Failed to fix code with AI."
  const NoDiagramMessage: string := "No diagram to download"

  const DownloadPrefix: string := "diagram-"
  const DownloadSuffix: string := ".svg"
  const SvgMimeType: string := "image/svg+xml;charset=utf-8"

  datatype ToastKind = Success | Failure

  /** A transient notification. */
  datatype Toast = Toast(message: string, kind: ToastKind)

  /** What the repair sends to the service: the text and the error to fix. */
  datatype FixRequest = FixRequest(code: string, error: string)

  /** The file a download hands to the browser. */
  datatype SvgFile = SvgFile(name: string, mimeType: string, content: string)

  /** A snapshot of every state cell of the shell. */
  datatype AppState = AppState(code: string, isFixing: bool, syntaxError: Option<string>,
                               toast: Option<Toast>, pendingDismissals: nat)

  /** `saved || DEFAULT_CODE`: the stored text unless it is absent or empty.
      The text the editor starts with is never empty. */
  function InitialCode(saved: Option<string>): (code: string)
    ensures code != ""
    ensures saved.Some? && saved.value != "" ==> code == saved.value
    ensures saved.None? || saved == Some("") ==> code == DefaultCode
  {
    match saved
    case Some(s) => if s != "" then s else DefaultCode
    case None => DefaultCode
  }

  /** `syntaxError || "General syntax error"`: the recorded error, or the
      generic description when none is recorded or it is empty. What the
      service is sent is never empty. */
  function RepairErrorArgument(syntaxError: Option<string>): (error: string)
    ensures error != ""
    ensures syntaxError.Some? && syntaxError.value != "" ==> error == syntaxError.value
    ensures syntaxError.None? || syntaxError == Some("") ==> error == GenericSyntaxError
  {
    match syntaxError
    case Some(e) => if e != "" then e else GenericSyntaxError
    case None => GenericSyntaxError
  }

  /** `diagram-${Date.now()}.svg`: the name reads back as the prefix, the
      decimal digits of the timestamp and the extension. */
  function DownloadName(now: nat): (name: string)
    ensures |name| > |DownloadPrefix| + |DownloadSuffix|
    ensures name[..|DownloadPrefix|] == DownloadPrefix
    ensures name[|name| - |DownloadSuffix|..] == DownloadSuffix
    ensures IsDigits(name[|DownloadPrefix|..|name| - |DownloadSuffix|])
    ensures DecimalValue(name[|DownloadPrefix|..|name| - |DownloadSuffix|]) == now
  {
    var digits := DecimalString(now);
    var name := DownloadPrefix + digits + DownloadSuffix;
    assert name[|DownloadPrefix|..|name| - |DownloadSuffix|] == digits;
    DecimalRoundTrip(now);
    name
  }

  /** Downloads started at different milliseconds get different names. */
  lemma DownloadNamesDistinct(a: nat, b: nat)
    requires a != b
    ensures DownloadName(a) != DownloadName(b)
  {
  }

  class App {
    var code: string
    var isFixing: bool
    var syntaxError: Option<string>
    var toast: Option<Toast>
    var pendingDismissals: nat

    function State(): AppState
      reads this
    {
      AppState(code, isFixing, syntaxError, toast, pendingDismissals)
    }

    /** The state of the first render, before any effect has run. */
    constructor ()
      ensures State() == AppState("", false, None, None, 0)
    {
      code := "";
      isFixing := false;
      syntaxError := None;
      toast := None;
      pendingDismissals := 0;
    }

    /** The mount effect: `saved` is what the storage adapter returned. Only
        the text changes. */
    method LoadOnMount(saved: Option<string>)
      modifies this
      ensures State() == old(State()).(code := InitialCode(saved))
    {
      code := InitialCode(saved);
    }

    /** `handleCodeChange`: the new text replaces the old one and the recorded
        error is cleared; the flag and the notification stay. The editor is
        disabled while a repair is in flight. */
    method HandleCodeChange(newCode: string)
      requires !isFixing
      modifies this
      ensures State() == old(State()).(code := newCode, syntaxError := None)
    {
      code := newCode;
      syntaxError := None;
    }

    /** The `onError` callback the shell gives the preview pane. */
    method ReportError(error: Option<string>)
      modifies this
      ensures State() == old(State()).(syntaxError := error)
    {
      syntaxError := error;
    }

    /** `showToast`: the notification is replaced and one more dismiss timer
        is pending. */
    method ShowToast(message: string, kind: ToastKind)
      modifies this
      ensures State() == old(State()).(toast := Some(Toast(message, kind)),
                                       pendingDismissals := old(pendingDismissals) + 1)
    {
      toast := Some(Toast(message, kind));
      pendingDismissals := pendingDismissals + 1;
    }

    /** One dismiss timer fires. It clears whatever notification is showing,
        even one shown after the timer was set. */
    method DismissToast()
      requires pendingDismissals > 0
      modifies this
      ensures State() == old(State()).(toast := None, pendingDismissals := old(pendingDismissals) - 1)
    {
      toast := None;
      pendingDismissals := pendingDismissals - 1;
    }

    /** `handleAiFix` up to its await. Blank text changes nothing and sends
        nothing. Otherwise the flag goes up and the text is sent with the
        recorded error or the generic description. The button is disabled
        while a repair is in flight. */
    method BeginFix() returns (request: Option<FixRequest>)
      requires !isFixing
      modifies this
      ensures IsBlank(old(code)) ==> request == None && State() == old(State())
      ensures !IsBlank(old(code)) ==>
        && request == Some(FixRequest(old(code), RepairErrorArgument(old(syntaxError))))
        && State() == old(State()).(isFixing := true)
    {
      if Trim(code) == "" {
        request := None;
        return;
      }
      isFixing := true;
      request := Some(FixRequest(code, RepairErrorArgument(syntaxError)));
    }

    /** `handleAiFix` after its await, with what the repair service returned.
        On success the returned text replaces the text, the error is cleared
        and the success notification shows; on failure the text and the error
        stay and the failure notification shows. Either way the flag goes
        down. */
    method CompleteFix(outcome: Result<string, string>)
      requires isFixing
      modifies this
      ensures outcome.Ok? ==> State() == old(State()).(
        code := outcome.value, isFixing := false, syntaxError := None,
        toast := Some(Toast(RepairedMessage, Success)),
        pendingDismissals := old(pendingDismissals) + 1)
      ensures outcome.Err? ==> State() == old(State()).(
        isFixing := false,
        toast := Some(Toast(RepairFailedMessage, Failure)),
        pendingDismissals := old(pendingDismissals) + 1)
    {
      match outcome {
        case Ok(fixedCode) =>
          code := fixedCode;
          ShowToast(RepairedMessage, Success);
          syntaxError := None;
        case Err(_) =>
          ShowToast(RepairFailedMessage, Failure);
      }
      isFixing := false;
    }

    /** The whole repair when nothing else happens during the await: the
        service is asked through `generate`, and afterwards the flag is down
        whatever the outcome. */
    method HandleAiFix(generate: GeminiService.Request -> GeminiService.Reply)
      requires !isFixing
      modifies this
      ensures !isFixing
      ensures IsBlank(old(code)) ==> State() == old(State())
      ensures !IsBlank(old(code)) ==>
        var result := GeminiService.FixMermaidCode(old(code), RepairErrorArgument(old(syntaxError)), generate);
        && (result.Ok? ==> code == result.value && syntaxError == None
                           && toast == Some(Toast(RepairedMessage, Success)))
        && (result.Err? ==> code == old(code) && syntaxError == old(syntaxError)
                            && toast == Some(Toast(RepairFailedMessage, Failure)))
        && pendingDismissals == old(pendingDismissals) + 1
    {
      var request := BeginFix();
      if request.Some? {
        var result := GeminiService.FixMermaidCode(request.value.code, request.value.error, generate);
        CompleteFix(result);
      }
    }

    /** `handleDownloadSvg`. `svgElement` is the serialized graphic found in
        the preview container, if there is one, and `now` the clock in
        milliseconds. With a graphic the file is produced and no state
        changes; without one no file is produced and the failure notification
        shows. */
    method HandleDownloadSvg(svgElement: Option<string>, now: nat) returns (file: Option<SvgFile>)
      modifies this
      ensures svgElement.Some? ==>
        file == Some(SvgFile(DownloadName(now), SvgMimeType, svgElement.value)) && State() == old(State())
      ensures svgElement.None? ==>
        && file == None
        && State() == old(State()).(toast := Some(Toast(NoDiagramMessage, Failure)),
                                    pendingDismissals := old(pendingDismissals) + 1)
    {
      if svgElement.Some? {
        file := Some(SvgFile(DownloadName(now), SvgMimeType, svgElement.value));
      } else {
        file := None;
        ShowToast(NoDiagramMessage, Failure);
      }
    }
  }
}
