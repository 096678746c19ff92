/** The AI repair client of services/geminiService.ts: it sends the broken
    diagram text and the last error to the generation service and cleans the
    reply of the Markdown code fences the service may add. The network call
    is a function parameter (`generate`), so the model is pure. */
module GeminiService {
  import opened Wrappers
  import opened JsText

  /** The model identifier sent with every request. */
  const ModelName: string := "gemini-2.5-flash"

  /** The message of the single error every failed call is turned into. */
  const FixFailedMessage: string := "Failed to fix code via AI"

  /** A Markdown code fence. */
  const Fence: string := "```"

  /** What `fixMermaidCode` hands to `ai.models.generateContent`: the model
      identifier and the two values spliced into the fixed instruction prompt. */
  datatype Request = Request(model: string, brokenCode: string, errorMessage: string)

  /** The outcome of `ai.models.generateContent`: a response whose `text` may
      be missing, or a thrown error of any kind. */
  datatype Reply = Generated(text: Option<string>) | Failed

  /** The case folding of a regular expression with the `i` flag and without
      the `u` flag, restricted to what it does to ASCII letters: a character
      outside ASCII never folds onto an ASCII one. */
  function AsciiLower(c: char): char {
    if 'A' <= c <= 'Z' then (c as int + 32) as char else c
  }

  /** `a` is the word "mermaid" in any mix of letter case. */
  predicate IsMermaidWord(a: string) {
    && |a| == 7
    && AsciiLower(a[0]) == 'm' && AsciiLower(a[1]) == 'e' && AsciiLower(a[2]) == 'r'
    && AsciiLower(a[3]) == 'm' && AsciiLower(a[4]) == 'a' && AsciiLower(a[5]) == 'i'
    && AsciiLower(a[6]) == 'd'
  }

  /** `s` begins with three backticks. */
  predicate StartsWithFence(s: string) {
    |s| >= 3 && s[0] == '`' && s[1] == '`' && s[2] == '`'
  }

  /** `s` begins with three backticks and the word "mermaid" in any case. */
  predicate StartsWithMermaidFence(s: string) {
    StartsWithFence(s) && |s| >= 10 && IsMermaidWord(s[3..10])
  }

  /** `s` ends with three backticks. */
  predicate EndsWithFence(s: string) {
    |s| >= 3 && s[|s| - 3] == '`' && s[|s| - 2] == '`' && s[|s| - 1] == '`'
  }

  // `replace(/^```mermaid\s*/i, '')`: the opening fence with its tag and all
  // whitespace after it.
  function StripMermaidOpener(s: string): string {
    if StartsWithMermaidFence(s) then TrimStart(s[10..]) else s
  }

  // `replace(/^```\s*/i, '')`: a bare opening fence and the whitespace after
  // it.
  function StripBareOpener(s: string): string {
    if StartsWithFence(s) then TrimStart(s[3..]) else s
  }

  /** `replace(/```$/, '')`: without the `m` flag `$` is the end of the whole
      string, so only a fence that is the very last three characters goes. */
  function StripCloser(s: string): (r: string)
    ensures EndsWithFence(s) ==> r + Fence == s
    ensures !EndsWithFence(s) ==> r == s
  {
    if EndsWithFence(s) then s[..|s| - 3] else s
  }

  /** The clean-up chain applied to the reply text, ending with `trim()`. */
  function CleanText(s: string): (r: string)
    ensures IsTrimmed(r)
  {
    Trim(StripCloser(StripBareOpener(StripMermaidOpener(s))))
  }

  /** `response.text || ''` followed by the clean-up. The result never begins
      or ends with whitespace, and a missing or empty reply gives "". */
  function CleanResponse(text: Option<string>): (r: string)
    ensures IsTrimmed(r)
    ensures text.None? || text == Some("") ==> r == ""
  {
    match text
    case None => CleanText("")
    case Some(t) => CleanText(t)
  }

  /** `fixMermaidCode`: every failure of the call becomes one error with a
      fixed message; a reply, even an empty one, is a success. */
  function FixMermaidCode(brokenCode: string, errorMessage: string,
                          generate: Request -> Reply): (r: Result<string, string>)
    ensures r.Err? <==> generate(Request(ModelName, brokenCode, errorMessage)).Failed?
    ensures r.Err? ==> r.error == FixFailedMessage
    ensures r.Ok? ==> (IsTrimmed(r.value)
      && r.value == CleanResponse(generate(Request(ModelName, brokenCode, errorMessage)).text))
  {
    match generate(Request(ModelName, brokenCode, errorMessage))
    case Failed => Err(FixFailedMessage)
    case Generated(text) => Ok(CleanResponse(text))
  }

  /** The tag of the opener written in lower case is the word itself. */
  lemma MermaidIsMermaidWord()
    ensures IsMermaidWord("mermaid")
  {
    var m := "mermaid";
    assert m[0] == 'm' && m[1] == 'e' && m[2] == 'r' && m[3] == 'm';
    assert m[4] == 'a' && m[5] == 'i' && m[6] == 'd';
  }

  /** The mermaid-tagged opener goes with all the whitespace after it. */
  lemma StripMermaidOpenerOf(tag: string, rest: string)
    requires IsMermaidWord(tag)
    ensures StripMermaidOpener(Fence + tag + rest) == TrimStart(rest)
  {
    var s := Fence + tag + rest;
    assert s[..3] == Fence;
    assert s[3..10] == tag;
    assert s[10..] == rest;
  }

  /** A bare opener goes with all the whitespace after it. */
  lemma StripBareOpenerOf(rest: string)
    ensures StripBareOpener(Fence + rest) == TrimStart(rest)
  {
    var s := Fence + rest;
    assert s[..3] == Fence;
    assert s[3..] == rest;
  }

  /** Text that does not begin with a backtick passes both opener steps
      untouched. */
  lemma OpenersKeep(s: string)
    requires s != [] && s[0] != '`'
    ensures StripBareOpener(StripMermaidOpener(s)) == s
  {
    assert !StartsWithFence(s) by { if |s| >= 3 { assert s[..3][0] == s[0]; } }
    assert !StartsWithMermaidFence(s) by { if |s| >= 10 { assert s[..3][0] == s[0]; } }
  }

  /** A leading "```mermaid" in any letter case and the whitespace after it
      are removed, and then a bare "```" with its whitespace as well: both
      openers fire in one call. */
  lemma MermaidThenBareOpenerRemoved(tag: string, w1: string, w2: string, body: string)
    requires IsMermaidWord(tag)
    requires IsBlank(w1) && IsBlank(w2)
    requires !EndsWithFence(body)
    ensures CleanText(Fence + tag + w1 + Fence + w2 + body) == Trim(body)
  {
    var s := Fence + tag + w1 + Fence + w2 + body;
    var inner := Fence + (w2 + body);
    var s2 := TrimStart(body);
    assert StripMermaidOpener(s) == inner by {
      assert s == Fence + tag + (w1 + inner);
      StripMermaidOpenerOf(tag, w1 + inner);
      TrimStartSkipsBlank(w1, inner);
      assert inner[0] == '`';
    }
    assert StripBareOpener(inner) == s2 by {
      StripBareOpenerOf(w2 + body);
      TrimStartSkipsBlank(w2, body);
    }
    assert StripCloser(s2) == s2 by {
      FenceSurvivesTrimStart(body);
    }
    assert TrimStart(s2) == s2 by {
      TrimStartSpec(body);
    }
  }

  /** `TrimStart` cannot create a closing fence. */
  lemma FenceSurvivesTrimStart(x: string)
    ensures EndsWithFence(TrimStart(x)) ==> EndsWithFence(x)
  {
    var t := TrimStart(x);
    TrimStartSpec(x);
    assert x == x[..|x| - |t|] + t;
    if EndsWithFence(t) {
      assert x[|x| - 3..] == t[|t| - 3..];
    }
  }

  /** Round trip: a trimmed body that does not itself open with a fence comes
      back exactly from "```mermaid", a newline, the body, a newline and
      "```". */
  lemma FencedBodyRoundTrip(body: string)
    requires IsTrimmed(body) && !StartsWithFence(body)
    ensures CleanText(Fence + "mermaid\n" + body + "\n" + Fence) == body
  {
    FencedOpenerStripped(body);
    if body == [] {
      EmptyFencedBody();
    } else {
      FencedBodyAfterOpener(body);
    }
  }

  /** The tagged opener and its newline go, then the whitespace before the
      body. */
  lemma FencedOpenerStripped(body: string)
    ensures StripMermaidOpener(Fence + "mermaid\n" + body + "\n" + Fence) == TrimStart(body + "\n" + Fence)
  {
    var s := Fence + "mermaid\n" + body + "\n" + Fence;
    var tail := body + "\n" + Fence;
    assert s == Fence + "mermaid" + ("\n" + tail);
    MermaidIsMermaidWord();
    StripMermaidOpenerOf("mermaid", "\n" + tail);
    TrimStartSkipsBlank("\n", tail);
  }

  /** With an empty body what is left after the tagged opener is a bare
      fence, which the second opener step removes. */
  lemma EmptyFencedBody()
    ensures Trim(StripCloser(StripBareOpener(TrimStart([] + "\n" + Fence)))) == []
  {
    assert [] + "\n" + Fence == "\n" + Fence;
    TrimStartSkipsBlank("\n", Fence);
    assert Fence == Fence + [];
    StripBareOpenerOf([]);
  }

  /** With a non-empty body the remaining steps drop the closing fence and
      the newline before it. */
  lemma FencedBodyAfterOpener(body: string)
    requires body != [] && IsTrimmed(body) && !StartsWithFence(body)
    ensures Trim(StripCloser(StripBareOpener(TrimStart(body + "\n" + Fence)))) == body
  {
    var tail := body + "\n" + Fence;
    assert TrimStart(tail) == tail by {
      assert tail[0] == body[0];
    }
    assert StripBareOpener(tail) == tail by {
      if |body| >= 3 {
        assert tail[..3] == body[..3];
      } else {
        assert tail[|body|] == '\n';
      }
    }
    assert StripCloser(tail) == body + "\n" by {
      assert tail[|tail| - 3..] == Fence;
      assert tail[..|tail| - 3] == body + "\n";
    }
    assert Trim(body + "\n") == body by {
      assert (body + "\n")[0] == body[0];
      TrimEndDropsBlank(body, "\n");
    }
  }

  /** The reply the clean-up exists for, with the final newline a reply
      commonly ends in: "```mermaid", a newline, the body, a newline, "```"
      and a newline. Because `$` is the end of the whole reply, the closing
      fence is not removed and survives trimming after the body and its
      newline. (With an empty body the bare-opener step takes the closing
      fence instead, and the result is "".) */
  lemma FencedBodyWithFinalNewline(body: string)
    requires body != [] && IsTrimmed(body) && !StartsWithFence(body)
    ensures CleanText(Fence + "mermaid\n" + body + "\n" + Fence + "\n") == body + "\n" + Fence
  {
    FinalNewlineOpenerStripped(body);
    FinalNewlineTailOnlyTrimmed(body);
    FinalNewlineTailTrimmed(body);
  }

  /** The tagged opener of that reply goes with its newline, and the body's
      first character stops the whitespace run. */
  lemma FinalNewlineOpenerStripped(body: string)
    requires body != [] && !IsWhitespace(body[0])
    ensures StripMermaidOpener(Fence + "mermaid\n" + body + "\n" + Fence + "\n") == body + "\n" + Fence + "\n"
  {
    var s := Fence + "mermaid\n" + body + "\n" + Fence + "\n";
    var tail := body + "\n" + Fence + "\n";
    assert s == Fence + "mermaid" + ("\n" + tail);
    MermaidIsMermaidWord();
    StripMermaidOpenerOf("mermaid", "\n" + tail);
    TrimStartSkipsBlank("\n", tail);
    assert tail[0] == body[0];
  }

  /** Trimming what is left drops only the final newline. */
  lemma FinalNewlineTailTrimmed(body: string)
    requires body != [] && IsTrimmed(body)
    ensures Trim(body + "\n" + Fence + "\n") == body + "\n" + Fence
  {
    var u := body + "\n" + Fence;
    var tail := u + "\n";
    assert tail[0] == body[0];
    assert u[|u| - 1] == '`';
    TrimEndDropsBlank(u, "\n");
  }

  /** What is left of that reply after the tagged opener has no fence at its
      very start or end, so the remaining steps only trim it. */
  lemma FinalNewlineTailOnlyTrimmed(body: string)
    requires body != [] && IsTrimmed(body) && !StartsWithFence(body)
    ensures StripMermaidOpener(body + "\n" + Fence + "\n") == body + "\n" + Fence + "\n"
    ensures CleanText(body + "\n" + Fence + "\n") == Trim(body + "\n" + Fence + "\n")
  {
    var tail := body + "\n" + Fence + "\n";
    assert !StartsWithFence(tail) by {
      if |body| >= 3 {
        assert tail[0] == body[0] && tail[1] == body[1] && tail[2] == body[2];
      } else {
        assert tail[|body|] == '\n';
      }
    }
    assert tail[|tail| - 1] == '\n';
    UnfencedTextOnlyTrimmed(tail);
    if |tail| >= 10 {
      assert tail[..10][..3] == tail[..3];
    }
  }

  /** A fence that closes the reply is removed when it is the last three
      characters. */
  lemma ClosingFenceAtEndRemoved(s: string)
    requires s != [] && s[0] != '`'
    ensures CleanText(s + Fence) == Trim(s)
  {
    var t := s + Fence;
    assert t[0] == s[0];
    OpenersKeep(t);
    assert t[|t| - 3..] == Fence && t[..|t| - 3] == s;
  }

  /** The quirk of the missing `m` flag: a closing fence followed by any
      whitespace, such as a final newline, is not removed; only the whitespace
      around the text goes. */
  lemma FenceBeforeTrailingBlankSurvives(s: string, w: string)
    requires s != [] && s[0] != '`'
    requires w != [] && IsBlank(w)
    ensures CleanText(s + Fence + w) == TrimStart(s) + Fence
  {
    TrailingBlankReplyOnlyTrimmed(s, w);
    TrimAroundFence(s, w);
  }

  /** Such a reply has no fence at its very start or end, so the clean-up
      only trims it. */
  lemma TrailingBlankReplyOnlyTrimmed(s: string, w: string)
    requires s != [] && s[0] != '`'
    requires w != [] && IsBlank(w)
    ensures CleanText(s + Fence + w) == Trim(s + Fence + w)
  {
    var t := s + Fence + w;
    assert t[0] == s[0];
    assert t[|t| - 1] == w[|w| - 1];
    UnfencedTextOnlyTrimmed(t);
  }

  /** Hence the cleaned text of such a reply still ends with "```". */
  lemma FenceBeforeTrailingBlankKeepsFence(s: string, w: string)
    requires s != [] && s[0] != '`'
    requires w != [] && IsBlank(w)
    ensures EndsWithFence(CleanText(s + Fence + w))
  {
    FenceBeforeTrailingBlankSurvives(s, w);
    var u := TrimStart(s) + Fence;
    assert u[|u| - 3] == '`' && u[|u| - 2] == '`' && u[|u| - 1] == '`';
  }

  lemma TrimAroundFence(s: string, w: string)
    requires w != [] && IsBlank(w)
    ensures TrimEnd(TrimStart(s + Fence + w)) == TrimStart(s) + Fence
  {
    var u := TrimStart(s) + Fence;
    assert TrimStart(s + Fence + w) == u + w by {
      assert s + Fence + w == s + (Fence + w);
      TrimStartStopsBefore(s, Fence + w);
    }
    assert u[|u| - 1] == '`';
    TrimEndDropsBlank(u, w);
  }

  /** Text with no fence at its start or its end comes back merely trimmed. */
  lemma UnfencedTextOnlyTrimmed(s: string)
    requires !StartsWithFence(s) && !EndsWithFence(s)
    ensures CleanText(s) == Trim(s)
  {
    if |s| >= 10 {
      assert s[..10][..3] == s[..3];
    }
  }
}
