/**
 * The post-processing in Agent/feedback_agent.py's `generate_feedback`: the
 * oracle's text is trimmed, de-fenced, parsed, and a `feedback` string that
 * itself holds a JSON object with `feedback` is unwrapped one level. Nothing
 * after the oracle call raises: every failure ends in a one-key fallback.
 */
module FeedbackAgent {
  import opened Wrappers
  import opened PyText
  import opened PyDict
  import opened JsonValue

  const CodeFence: string := "```"
  const Backtick: set<char> := {'`'}
  const NoFeedback: string := "Unable to generate feedback."

  /** The text handed to the parser: trimmed, and when it opens with a fence,
      stripped of backticks at both ends and of the first "json" anywhere. */
  function Clean(content: string): (r: string)
    ensures r != [] ==> r[0] !in Whitespace && r[|r| - 1] !in Whitespace
    ensures !StartsWith(Strip(content), CodeFence) ==> r == Strip(content)
  {
    var t := Strip(content);
    if StartsWith(t, CodeFence) then Defence(t) else t
  }

  /** The de-fencing step on already trimmed text. */
  function Defence(t: string): (r: string)
    ensures r != [] ==> r[0] !in Whitespace && r[|r| - 1] !in Whitespace
  {
    Strip(ReplaceFirst(StripChars(t, Backtick), "json", ""))
  }

  /** The inner `feedback` value when the outer `feedback` is a string that
      parses to a dict holding `feedback`. */
  function InnerFeedback(fields: Dict<Json>, parse: Parser): Option<Json> {
    var outer := Get(fields, "feedback");
    if outer.Some? && outer.value.JStr? then
      var inner := parse(outer.value.s);
      if inner.Some? && inner.value.JObj? then Get(inner.value.fields, "feedback") else None
    else None
  }

  /** The fallback object `{"feedback": cleaned or "Unable to generate feedback."}`. */
  function Fallback(cleaned: string): (r: Json)
    ensures r.JObj? && Keys(r.fields) == ["feedback"]
    ensures Get(r.fields, "feedback") == Some(JStr(if cleaned == [] then NoFeedback else cleaned))
  {
    JObj([("feedback", JStr(if cleaned == [] then NoFeedback else cleaned))])
  }

  /** What `generate_feedback` returns once the oracle text is cleaned: the
      parsed dict with its `feedback` unwrapped one level, or the fallback. */
  function Interpret(cleaned: string, parse: Parser): (r: Json)
    ensures r.JObj?
    ensures var p := parse(cleaned);
            p.Some? && p.value.JObj? ==>
              && Keys(r.fields) == Keys(p.value.fields)
              && (forall k :: k != "feedback" ==> Get(r.fields, k) == Get(p.value.fields, k))
              && Get(r.fields, "feedback") ==
                   (if InnerFeedback(p.value.fields, parse).Some? then InnerFeedback(p.value.fields, parse)
                    else Get(p.value.fields, "feedback"))
    ensures var p := parse(cleaned);
            !(p.Some? && p.value.JObj?) ==> r == Fallback(cleaned)
  {
    var parsed := parse(cleaned);
    if parsed.Some? && parsed.value.JObj? then
      var fields := parsed.value.fields;
      match InnerFeedback(fields, parse)
      case Some(v) =>
        assert HasKey(fields, "feedback");
        JObj(Put(fields, "feedback", v))
      case None => JObj(fields)
    else Fallback(cleaned)
  }

  /** `generate_feedback` after the oracle call: the cleaning steps, then
      the parse and unwrap. */
  method GenerateFeedback(content: string, parse: Parser) returns (result: Json)
    ensures result == Interpret(Clean(content), parse)
  {
    var rawOutput := Strip(content);
    if StartsWith(rawOutput, CodeFence) {
      rawOutput := StripChars(rawOutput, Backtick);
      rawOutput := ReplaceFirst(rawOutput, "json", "");
      rawOutput := Strip(rawOutput);
    }
    result := InterpretOutput(rawOutput, parse);
  }

  /** The `try` block of `generate_feedback`: parse, unwrap a nested
      `feedback` in place, or fall back. */
  method InterpretOutput(rawOutput: string, parse: Parser) returns (result: Json)
    ensures result == Interpret(rawOutput, parse)
  {
    var parsed := parse(rawOutput);
    if parsed.None? || !parsed.value.JObj? {
      // json.loads raised, or `.get` on a non-dict raised AttributeError
      return JObj([("feedback", JStr(if rawOutput == [] then NoFeedback else rawOutput))]);
    }
    var fields := parsed.value.fields;
    var fb := Get(fields, "feedback");
    if fb.Some? && fb.value.JStr? {
      var inner := parse(fb.value.s);
      if inner.Some? && inner.value.JObj? && HasKey(inner.value.fields, "feedback") {
        fields := Put(fields, "feedback", Get(inner.value.fields, "feedback").value);
      }
    }
    result := JObj(fields);
  }

  /** The unwrapping goes one level only: a doubly nested feedback string
      stays a string. */
  lemma UnwrapsOneLevel(cleaned: string, parse: Parser, s1: string, s2: string, s3: string)
    requires parse(cleaned) == Some(JObj([("feedback", JStr(s1))]))
    requires parse(s1) == Some(JObj([("feedback", JStr(s2))]))
    requires parse(s2) == Some(JObj([("feedback", JStr(s3))]))
    ensures Interpret(cleaned, parse) == JObj([("feedback", JStr(s2))])
  {
  }

  /** For a fenced answer the cleaning is: every backtick at either end
      removed, then the first "json" wherever it occurs, then the whitespace
      this exposes. */
  lemma CleanFencedSteps(content: string)
    requires StartsWith(Strip(content), CodeFence)
    ensures var u := StripChars(Strip(content), Backtick);
            && (Find(u, "json").None? ==> Clean(content) == Strip(u))
            && (Find(u, "json").Some? ==>
                  var i := Find(u, "json").value;
                  Clean(content) == Strip(u[..i] + u[i + 4..]))
  {
    DefenceSteps(Strip(content));
  }

  lemma DefenceSteps(t: string)
    ensures var u := StripChars(t, Backtick);
            && (Find(u, "json").None? ==> Defence(t) == Strip(u))
            && (Find(u, "json").Some? ==>
                  var i := Find(u, "json").value;
                  Defence(t) == Strip(u[..i] + u[i + 4..]))
  {
    var u := StripChars(t, Backtick);
    if Find(u, "json").Some? {
      var i := Find(u, "json").value;
      assert ReplaceFirst(u, "json", "") == u[..i] + u[i + 4..];
    }
  }

  /** The "json" removed is the first one anywhere, not only a tag: an
      untagged fenced object such as `{"feedback": "Use json here"}` loses the
      word from its text (here `pre` is `{"feedback": "Use `). */
  lemma UntaggedFenceLosesJson(pre: string, post: string)
    requires pre != [] && pre[0] == '{' && post != [] && post[|post| - 1] == '}'
    requires forall k :: 0 <= k < |pre| ==> pre[k] != 'j'
    ensures Clean(CodeFence + "\n" + pre + "json" + post + "\n" + CodeFence) == pre + post
  {
    UntaggedFenceIsTrimmed(pre, post);
    UntaggedFenceDefenced(pre, post);
  }

  lemma UntaggedFenceIsTrimmed(pre: string, post: string)
    ensures Clean(CodeFence + "\n" + pre + "json" + post + "\n" + CodeFence)
         == Defence(CodeFence + "\n" + pre + "json" + post + "\n" + CodeFence)
  {
    FencedIsTrimmed(CodeFence + "\n" + pre + "json" + post + "\n" + CodeFence);
  }

  lemma UntaggedFenceDefenced(pre: string, post: string)
    requires pre != [] && pre[0] == '{' && post != [] && post[|post| - 1] == '}'
    requires forall k :: 0 <= k < |pre| ==> pre[k] != 'j'
    ensures Defence(CodeFence + "\n" + pre + "json" + post + "\n" + CodeFence) == pre + post
  {
    UntaggedBackticksOff(pre, post);
    DefenceOfUntagged(CodeFence + "\n" + pre + "json" + post + "\n" + CodeFence, pre, post);
  }

  lemma UntaggedBackticksOff(pre: string, post: string)
    ensures StripChars(CodeFence + "\n" + pre + "json" + post + "\n" + CodeFence, Backtick)
         == "\n" + pre + "json" + post + "\n"
  {
    var inner := "\n" + pre + "json" + post + "\n";
    assert inner[0] == '\n' && inner[|inner| - 1] == '\n';
    StripCharsAround(CodeFence, inner, CodeFence, Backtick);
    UntaggedFenceAround(pre, post);
  }

  lemma UntaggedFenceAround(pre: string, post: string)
    ensures CodeFence + "\n" + pre + "json" + post + "\n" + CodeFence
         == CodeFence + ("\n" + pre + "json" + post + "\n") + CodeFence
  {
  }

  /** A text whose backtick-stripped form is a newline, `pre`, "json",
      `post` and a newline de-fences to `pre + post`. */
  lemma DefenceOfUntagged(t: string, pre: string, post: string)
    requires pre != [] && pre[0] == '{' && post != [] && post[|post| - 1] == '}'
    requires forall k :: 0 <= k < |pre| ==> pre[k] != 'j'
    requires StripChars(t, Backtick) == "\n" + pre + "json" + post + "\n"
    ensures Defence(t) == pre + post
  {
    UntaggedJsonDropped(pre, post, StripChars(t, Backtick));
    NewlinesAroundBody(pre + post, "\n");
  }

  lemma UntaggedJsonDropped(pre: string, post: string, inner: string)
    requires inner == "\n" + pre + "json" + post + "\n"
    requires forall k :: 0 <= k < |pre| ==> pre[k] != 'j'
    ensures ReplaceFirst(inner, "json", "") == "\n" + (pre + post) + "\n"
  {
    FirstJsonAfter(inner, pre, post);
    var i := 1 + |pre|;
    assert inner[..i] == "\n" + pre;
    assert inner[i + 4..] == post + "\n";
  }

  /** In `"\n" + pre + "json" + post`, with no 'j' in `pre`, the first
      "json" is the one after `pre`. */
  lemma FirstJsonAfter(inner: string, pre: string, post: string)
    requires inner == "\n" + pre + "json" + post + "\n"
    requires forall k :: 0 <= k < |pre| ==> pre[k] != 'j'
    ensures Find(inner, "json") == Some(1 + |pre|)
  {
    var i := 1 + |pre|;
    assert inner[i..i + 4] == "json";
    assert OccursAt(inner, "json", i);
    forall k | 0 <= k < i
      ensures !OccursAt(inner, "json", k)
    {
      assert inner[k] != 'j';
    }
  }

  /** A fenced answer with a `json` tag cleans to its body, whether or not the
      closing fence is there. */
  lemma CleanTaggedFence(body: string)
    requires |body| >= 1 && body[0] == '{' && body[|body| - 1] == '}'
    ensures Clean(CodeFence + "json\n" + body) == body
    ensures Clean(CodeFence + "json\n" + body + "\n" + CodeFence) == body
  {
    CleanOpenFence(body);
    CleanClosedFence(body);
  }

  lemma CleanOpenFence(body: string)
    requires |body| >= 1 && body[0] == '{' && body[|body| - 1] == '}'
    ensures Clean(CodeFence + "json\n" + body) == body
  {
    OpenFenceIsTrimmed(body);
    OpenFenceDefenced(body);
  }

  lemma OpenFenceIsTrimmed(body: string)
    requires |body| >= 1 && body[|body| - 1] == '}'
    ensures Clean(CodeFence + "json\n" + body) == Defence(CodeFence + "json\n" + body)
  {
    FencedIsTrimmed(CodeFence + "json\n" + body);
  }

  lemma OpenFenceDefenced(body: string)
    requires |body| >= 1 && body[0] == '{' && body[|body| - 1] == '}'
    ensures Defence(CodeFence + "json\n" + body) == body
  {
    OpenFenceBackticks(body);
    assert "json\n" + body == "json\n" + body + [];
    DefenceOfTagged(CodeFence + "json\n" + body, body, []);
  }

  lemma OpenFenceBackticks(body: string)
    requires |body| >= 1 && body[|body| - 1] == '}'
    ensures StripChars(CodeFence + "json\n" + body, Backtick) == "json\n" + body
  {
    var inner := "json\n" + body;
    BackticksOff(CodeFence, inner, []);
    assert CodeFence + inner + [] == CodeFence + "json\n" + body;
  }

  lemma CleanClosedFence(body: string)
    requires |body| >= 1 && body[0] == '{' && body[|body| - 1] == '}'
    ensures Clean(CodeFence + "json\n" + body + "\n" + CodeFence) == body
  {
    ClosedFenceIsTrimmed(body);
    ClosedFenceDefenced(body);
  }

  lemma ClosedFenceIsTrimmed(body: string)
    ensures Clean(CodeFence + "json\n" + body + "\n" + CodeFence)
         == Defence(CodeFence + "json\n" + body + "\n" + CodeFence)
  {
    FencedIsTrimmed(CodeFence + "json\n" + body + "\n" + CodeFence);
  }

  lemma ClosedFenceDefenced(body: string)
    requires |body| >= 1 && body[0] == '{' && body[|body| - 1] == '}'
    ensures Defence(CodeFence + "json\n" + body + "\n" + CodeFence) == body
  {
    ClosedFenceBackticks(body);
    DefenceOfTagged(CodeFence + "json\n" + body + "\n" + CodeFence, body, "\n");
  }

  lemma ClosedFenceBackticks(body: string)
    requires |body| >= 1 && body[|body| - 1] == '}'
    ensures StripChars(CodeFence + "json\n" + body + "\n" + CodeFence, Backtick) == "json\n" + body + "\n"
  {
    var inner := "json\n" + body + "\n";
    ClosedInner(body, inner);
    BackticksOff(CodeFence, inner, CodeFence);
    FenceAround(CodeFence + "json\n" + body + "\n" + CodeFence, inner);
  }

  lemma ClosedInner(body: string, inner: string)
    requires inner == "json\n" + body + "\n"
    ensures |inner| >= 1 && inner[0] == 'j' && inner[|inner| - 1] == '\n'
  {
  }

  lemma FenceAround(t: string, inner: string)
    requires exists body :: inner == "json\n" + body + "\n" && t == CodeFence + "json\n" + body + "\n" + CodeFence
    ensures t == CodeFence + inner + CodeFence
  {
  }

  /** A text that opens with a fence and ends in '}' or '`' is cleaned by
      de-fencing it. */
  lemma FencedIsTrimmed(t: string)
    requires |t| >= 3 && t[..3] == CodeFence
    requires t[|t| - 1] == '}' || t[|t| - 1] == '`'
    ensures Clean(t) == Defence(t)
  {
    assert '`' !in Whitespace && '}' !in Whitespace;
    StripOfTrimmed(t);
  }

  lemma BackticksOff(a: string, inner: string, b: string)
    requires a == CodeFence && (b == [] || b == CodeFence)
    requires |inner| >= 1 && inner[0] == 'j' && (inner[|inner| - 1] == '}' || inner[|inner| - 1] == '\n')
    ensures StripChars(a + inner + b, Backtick) == inner
  {
    StripCharsAround(a, inner, b, Backtick);
  }

  /** A text whose backtick-stripped form is the tag, a newline, the body and
      `after` de-fences to the body. */
  lemma DefenceOfTagged(t: string, body: string, after: string)
    requires |body| >= 1 && body[0] == '{' && body[|body| - 1] == '}'
    requires after == [] || after == "\n"
    requires StripChars(t, Backtick) == "json\n" + body + after
    ensures Defence(t) == body
  {
    TagDropped(body, after);
    NewlinesAroundBody(body, after);
  }

  lemma TagDropped(body: string, after: string)
    ensures ReplaceFirst("json\n" + body + after, "json", "") == "\n" + body + after
  {
    assert "json\n" + body + after == "json" + ("\n" + body + after);
    DropTag("\n" + body + after);
  }

  /** The first "json" of a text that opens with it is that opening tag. */
  lemma DropTag(rest: string)
    ensures ReplaceFirst("json" + rest, "json", "") == rest
  {
    var t := "json" + rest;
    assert OccursAt(t, "json", 0) by { assert t[..4] == "json"; }
    assert t[4..] == rest;
  }

  lemma NewlinesAroundBody(body: string, after: string)
    requires |body| >= 1 && body[0] == '{' && body[|body| - 1] == '}'
    requires after == [] || after == "\n"
    ensures Strip("\n" + body + after) == body
  {
    assert '\n' in Whitespace && '{' !in Whitespace && '}' !in Whitespace;
    StripCharsAround("\n", body, after, Whitespace);
  }
}
