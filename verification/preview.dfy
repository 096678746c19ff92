/** The preview pane of components/Preview.tsx: it renders the settled
    diagram text through the mermaid engine, reports the outcome to the shell
    through `onError`, and keeps its own zoom factor.

    The engine (`mermaid.parse` then `mermaid.render`) is an oracle: each
    completion of a render attempt is handed its `RenderOutcome`. The
    `isMounted` flag of each effect run is modelled by a generation counter:
    every effect run (and the unmount) starts a new generation, and an attempt
    is live exactly while its generation is the current one. */
module PreviewPane {
  import opened Wrappers
  import opened JsText

  /** The value a `catch` clause receives: an `Error` object, a thrown string,
      or anything else. */
  datatype Thrown = ErrorInstance(message: string) | StringValue(text: string) | OtherValue

  /** The outcome of parsing and then rendering one text: the markup, or the
      value thrown by either step. */
  datatype RenderOutcome = Rendered(svg: string) | Threw(thrown: Thrown)

  /** What one step of the pane passes to `onError`: no call at all, or a call
      with `null` (`None`) or with a message. */
  datatype Report = Silent | OnError(error: Option<string>)

  /** A render attempt waiting for the engine: the generation of the effect
      run that started it and the text it renders. */
  datatype Attempt = Attempt(generation: nat, text: string)

  /** Which of the two placeholder texts are on screen. */
  datatype Placeholders = Placeholders(sketching: bool, startHint: bool)

  /** The zoom buttons. */
  datatype ZoomAction = ZoomIn | ZoomOut | ResetZoom

  /** The message reported for a thrown value that is neither an `Error` nor
      a string. */
  const FallbackMessage: string := "Syntax Error"

  /** The zoom factor in tenths: 0.5, 3 and 1. */
  const MinScale: int := 5
  const MaxScale: int := 30
  const DefaultScale: int := 10

  /** `message.split('\n')[0]`: everything before the first newline, or the
      whole message when it has none. */
  function FirstLine(message: string): (line: string)
    ensures '\n' !in line
    ensures line <= message
    ensures '\n' !in message ==> line == message
    ensures |line| < |message| ==> message[|line|] == '\n'
  {
    if message == [] || message[0] == '\n' then []
    else [message[0]] + FirstLine(message[1..])
  }

  /** The message of the `catch` clause: the `Error`'s message, the thrown
      string itself, or the fallback. */
  function MessageOf(thrown: Thrown): (message: string)
    ensures thrown.ErrorInstance? ==> message == thrown.message
    ensures thrown.StringValue? ==> message == thrown.text
    ensures thrown.OtherValue? ==> message == FallbackMessage
  {
    match thrown
    case ErrorInstance(m) => m
    case StringValue(s) => s
    case OtherValue => FallbackMessage
  }

  /** The text a failed attempt passes to `onError`: a single line that starts
      the thrown message, the whole message when it has no newline, and
      "Syntax Error" for a thrown value of any other kind. */
  function ErrorLine(thrown: Thrown): (line: string)
    ensures '\n' !in line
    ensures line <= MessageOf(thrown)
    ensures '\n' !in MessageOf(thrown) ==> line == MessageOf(thrown)
    ensures thrown.OtherValue? ==> line == FallbackMessage
  {
    FirstLine(MessageOf(thrown))
  }

  /** The placeholders under the graphic: "Sketching..." while there is no
      graphic and the settled text is not the empty string, the start-typing
      hint while the settled text is the empty string. They never show
      together, and without a graphic one of them always shows. */
  function PlaceholdersFor(svgContent: string, settled: string): (p: Placeholders)
    ensures p.sketching <==> svgContent == "" && settled != ""
    ensures p.startHint <==> settled == ""
    ensures !(p.sketching && p.startHint)
    ensures svgContent == "" ==> p.sketching || p.startHint
  {
    Placeholders(svgContent == "" && settled != "", settled == "")
  }

  /** One press of a zoom button: in by a tenth up to 3, out by a tenth down
      to 0.5, or back to 1. */
  function Zoomed(scale: int, action: ZoomAction): (r: int)
    ensures MinScale <= scale <= MaxScale ==> MinScale <= r <= MaxScale
    ensures action == ZoomIn ==> r <= MaxScale && (scale < MaxScale ==> r == scale + 1)
    ensures action == ZoomIn && scale >= MaxScale ==> r == MaxScale
    ensures action == ZoomOut ==> r >= MinScale && (scale > MinScale ==> r == scale - 1)
    ensures action == ZoomOut && scale <= MinScale ==> r == MinScale
    ensures action == ResetZoom ==> r == DefaultScale
  {
    match action
    case ZoomIn => if scale + 1 < MaxScale then scale + 1 else MaxScale
    case ZoomOut => if scale - 1 > MinScale then scale - 1 else MinScale
    case ResetZoom => DefaultScale
  }

  /** The zoom factor after a sequence of presses. */
  function ZoomedAll(scale: int, actions: seq<ZoomAction>): int
    decreases |actions|
  {
    if actions == [] then scale else ZoomedAll(Zoomed(scale, actions[0]), actions[1..])
  }

  /** Starting anywhere in [0.5, 3], in particular from the initial 1, any
      sequence of presses keeps the zoom factor in [0.5, 3]. */
  lemma {:induction false} ZoomStaysInBounds(scale: int, actions: seq<ZoomAction>)
    requires MinScale <= scale <= MaxScale
    ensures MinScale <= ZoomedAll(scale, actions) <= MaxScale
    decreases |actions|
  {
    if actions != [] {
      ZoomStaysInBounds(Zoomed(scale, actions[0]), actions[1..]);
    }
  }

  class Preview {
    /** The markup on screen ("" when there is none). */
    var svgContent: string
    /** The zoom factor, in tenths. */
    var scale: int
    /** The settled text the latest effect run rendered. */
    var debouncedCode: string
    /** The number of effect runs and unmounts so far. */
    var generation: nat

    ghost predicate Valid()
      reads this
    {
      MinScale <= scale <= MaxScale
    }

    /** The pane before its first effect run. */
    constructor ()
      ensures Valid()
      ensures svgContent == "" && scale == DefaultScale && debouncedCode == "" && generation == 0
    {
      svgContent := "";
      scale := DefaultScale;
      debouncedCode := "";
      generation := 0;
    }

    /** The placeholders currently on screen. */
    function Overlay(): (p: Placeholders)
      reads this
      ensures svgContent == "" ==> p.sketching || p.startHint
    {
      PlaceholdersFor(svgContent, debouncedCode)
    }

    /** One run of the render effect for the settled text `text`: the cleanup
        of the previous run makes every earlier attempt stale; blank text
        clears the graphic and reports `null` at once, before any await, so it
        always commits; any other text leaves an attempt waiting for the
        engine. Whitespace-only text that is not empty leaves "Sketching..." on
        screen. */
    method BeginRender(text: string) returns (pending: Option<Attempt>, report: Report)
      requires Valid()
      modifies this`svgContent, this`debouncedCode, this`generation
      ensures Valid()
      ensures generation == old(generation) + 1 && debouncedCode == text
      ensures IsBlank(text) ==> svgContent == "" && report == OnError(None) && pending == None
      ensures !IsBlank(text) ==>
        svgContent == old(svgContent) && report == Silent && pending == Some(Attempt(generation, text))
      ensures IsBlank(text) && text != "" ==> Overlay().sketching
    {
      generation := generation + 1;
      debouncedCode := text;
      if Trim(text) == "" {
        svgContent := "";
        report := OnError(None);
        pending := None;
      } else {
        report := Silent;
        pending := Some(Attempt(generation, text));
      }
    }

    /** The completion of a waiting attempt. A stale attempt commits nothing
        and reports nothing. A live one that rendered replaces the graphic and
        reports `null`; a live one that failed leaves the graphic as it was and
        reports the first line of the message. A live attempt renders the
        current settled text, as every attempt `BeginRender` returns does, so
        a committed graphic always belongs to the text on record. */
    method FinishRender(attempt: Attempt, outcome: RenderOutcome) returns (report: Report)
      requires Valid()
      requires !IsBlank(attempt.text)
      requires attempt.generation == generation ==> attempt.text == debouncedCode
      modifies this`svgContent
      ensures Valid()
      ensures attempt.generation != generation ==> svgContent == old(svgContent) && report == Silent
      ensures attempt.generation == generation && outcome.Rendered? ==>
        svgContent == outcome.svg && report == OnError(None)
      ensures attempt.generation == generation && outcome.Threw? ==>
        svgContent == old(svgContent) && report == OnError(Some(ErrorLine(outcome.thrown)))
    {
      var isMounted := attempt.generation == generation;
      if !isMounted {
        report := Silent;
      } else {
        match outcome
        case Rendered(svg) =>
          svgContent := svg;
          report := OnError(None);
        case Threw(thrown) =>
          report := OnError(Some(ErrorLine(thrown)));
      }
    }

    /** Unmounting runs the cleanup of the last effect run: its attempt, if
        any, becomes stale. */
    method Unmount()
      requires Valid()
      modifies this`generation
      ensures Valid() && generation == old(generation) + 1
    {
      generation := generation + 1;
    }

    /** `handleZoomIn`. */
    method HandleZoomIn()
      requires Valid()
      modifies this`scale
      ensures Valid() && scale == Zoomed(old(scale), ZoomIn)
    {
      scale := Zoomed(scale, ZoomIn);
    }

    /** `handleZoomOut`. */
    method HandleZoomOut()
      requires Valid()
      modifies this`scale
      ensures Valid() && scale == Zoomed(old(scale), ZoomOut)
    {
      scale := Zoomed(scale, ZoomOut);
    }

    /** `handleReset`. */
    method HandleReset()
      requires Valid()
      modifies this`scale
      ensures Valid() && scale == Zoomed(old(scale), ResetZoom)
    {
      scale := Zoomed(scale, ResetZoom);
    }
  }
}
