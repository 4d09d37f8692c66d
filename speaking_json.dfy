/**
 * `_extract_json` of the speaking agent (Agent/speaking_agent.py): the
 * repair applied to every oracle answer before it is used. It trims the
 * text, removes a code fence only when one both opens and closes the text,
 * tries a direct parse, and otherwise parses the greedy span from the first
 * `{` to the last `}`. It never raises; None means "nothing usable".
 */
module SpeakingJson {
  import opened Wrappers
  import opened PyText
  import opened JsonValue

  const Fence: string := "```"

  /** The text `_extract_json` hands to the parser: stripped, and when it both
      starts and ends with a fence, stripped of every backtick at either end
      and then of the whitespace that exposes. A language tag such as `json`
      right after the opening fence stays in place. */
  function Unfence(text: string): (t: string)
    ensures IsSlice(t, text)
    ensures !(StartsWith(Strip(text), Fence) && EndsWith(Strip(text), Fence)) ==> t == Strip(text)
  {
    var s := Strip(text);
    if StartsWith(s, Fence) && EndsWith(s, Fence) then
      var t := Strip(StripChars(s, {'`'}));
      SliceOfSlice(StripChars(s, {'`'}), s, text);
      SliceOfSlice(t, StripChars(s, {'`'}), text);
      t
    else s
  }

  /** `re.search(r"(\{.*\})", t, re.S)`: the leftmost match starts at the first
      `{` and, `.*` being greedy, ends at the last `}`; there is a match exactly
      when some `}` follows some `{`. */
  function BraceSpan(t: string): (r: Option<string>)
    ensures r.Some? <==> exists i, j :: 0 <= i < j < |t| && t[i] == '{' && t[j] == '}'
    ensures r.Some? ==>
      exists i, j :: && 0 <= i < j < |t| && r.value == t[i..j + 1]
                     && t[i] == '{' && t[j] == '}'
                     && (forall k :: 0 <= k < i ==> t[k] != '{')
                     && (forall k :: j < k < |t| ==> t[k] != '}')
  {
    match (FirstIndexOfChar(t, '{'), LastIndexOfChar(t, '}'))
    case (Some(i), Some(j)) => if i < j then Some(t[i..j + 1]) else None
    case _ => None
  }

  /** `_extract_json(text)`. Whatever it returns is the parse of some piece of
      the oracle's text: the repair removes noise, it never makes up content. */
  function ExtractJson(text: string, parse: Parser): (r: Option<Json>)
    ensures text == [] ==> r == None
    ensures r.Some? ==> exists u :: IsSlice(u, text) && parse(u) == r
  {
    if text == [] then None
    else
      var t := Unfence(text);
      if parse(t).Some? then parse(t)
      else match BraceSpan(t)
        case None => None
        case Some(span) =>
          assert IsSlice(span, t);
          SliceOfSlice(span, t, text);
          parse(span)
  }

  /** The repair order: a direct parse of the unfenced text wins; only when it
      fails is the brace span tried, and when there is no span the result is
      None. */
  lemma ExtractJsonOrder(text: string, parse: Parser)
    requires text != []
    ensures parse(Unfence(text)).Some? ==> ExtractJson(text, parse) == parse(Unfence(text))
    ensures parse(Unfence(text)).None? && BraceSpan(Unfence(text)).None? ==> ExtractJson(text, parse) == None
    ensures parse(Unfence(text)).None? && BraceSpan(Unfence(text)).Some? ==>
      ExtractJson(text, parse) == parse(BraceSpan(Unfence(text)).value)
  {
  }

  /** Already clean input (no surrounding whitespace, no fence) that parses is
      returned exactly as parsed. */
  lemma ExtractJsonCleanInput(text: string, parse: Parser)
    requires text != [] && text[0] !in Whitespace && text[|text| - 1] !in Whitespace
    requires !StartsWith(text, Fence)
    requires parse(text).Some?
    ensures ExtractJson(text, parse) == parse(text)
  {
    StripOfTrimmed(text);
  }

  /** A fenced answer with a `json` language tag: the tag survives the fence
      removal, so the direct parse fails on it and the brace span recovers the
      object. */
  lemma ExtractJsonFencedWithTag(body: string, parse: Parser)
    requires |body| >= 2 && body[0] == '{' && body[|body| - 1] == '}'
    requires parse("json\n" + body).None?
    ensures ExtractJson(Fence + "json\n" + body + "\n" + Fence, parse) == parse(body)
  {
    UnfenceKeepsTag(body);
    TaggedBraceSpan(body);
  }

  /** The general fenced case: surrounding whitespace, then a run of at least
      three backticks at each end around a body that neither starts nor ends
      with a backtick. Every backtick at both ends goes, then the whitespace
      this exposes; whatever follows the opening backticks, a language tag
      included, stays. */
  lemma UnfenceFenced(ws1: string, pre: string, inner: string, post: string, ws2: string)
    requires forall k :: 0 <= k < |ws1| ==> ws1[k] in Whitespace
    requires forall k :: 0 <= k < |ws2| ==> ws2[k] in Whitespace
    requires |pre| >= 3 && forall k :: 0 <= k < |pre| ==> pre[k] == '`'
    requires |post| >= 3 && forall k :: 0 <= k < |post| ==> post[k] == '`'
    requires inner != [] && inner[0] != '`' && inner[|inner| - 1] != '`'
    ensures Unfence(ws1 + pre + inner + post + ws2) == Strip(inner)
  {
    var core := pre + inner + post;
    assert ws1 + pre + inner + post + ws2 == ws1 + core + ws2;
    FencedCoreTrimmed(ws1, pre, inner, post, ws2);
    FencedCore(pre, inner, post);
  }

  lemma FencedCoreTrimmed(ws1: string, pre: string, inner: string, post: string, ws2: string)
    requires forall k :: 0 <= k < |ws1| ==> ws1[k] in Whitespace
    requires forall k :: 0 <= k < |ws2| ==> ws2[k] in Whitespace
    requires pre != [] && pre[0] == '`' && post != [] && post[|post| - 1] == '`'
    ensures Strip(ws1 + (pre + inner + post) + ws2) == pre + inner + post
  {
    var core := pre + inner + post;
    assert core[0] == '`' && core[|core| - 1] == '`';
    assert '`' !in Whitespace;
    StripCharsAround(ws1, core, ws2, Whitespace);
  }

  /** Backticks at both ends, at least three each: the text opens and closes
      with a fence, and stripping backticks leaves the body. */
  lemma FencedCore(pre: string, inner: string, post: string)
    requires |pre| >= 3 && forall k :: 0 <= k < |pre| ==> pre[k] == '`'
    requires |post| >= 3 && forall k :: 0 <= k < |post| ==> post[k] == '`'
    requires inner != [] && inner[0] != '`' && inner[|inner| - 1] != '`'
    ensures var core := pre + inner + post;
            && StartsWith(core, Fence) && EndsWith(core, Fence)
            && StripChars(core, {'`'}) == inner
  {
    var core := pre + inner + post;
    assert core[..3] == pre[..3];
    assert pre[..3] == Fence;
    assert core[|core| - 3..] == post[|post| - 3..];
    assert post[|post| - 3..] == Fence;
    StripCharsAround(pre, inner, post, {'`'});
  }

  lemma UnfenceKeepsTag(body: string)
    requires |body| >= 2 && body[0] == '{' && body[|body| - 1] == '}'
    ensures Unfence(Fence + "json\n" + body + "\n" + Fence) == "json\n" + body
  {
    var text := Fence + "json\n" + body + "\n" + Fence;
    assert text[0] == '`' && text[|text| - 1] == '`';
    StripOfTrimmed(text);
    assert StartsWith(text, Fence) && EndsWith(text, Fence);
    BackticksOffFence(body);
    TagLineStripped(body);
  }

  lemma BackticksOffFence(body: string)
    requires |body| >= 2 && body[0] == '{' && body[|body| - 1] == '}'
    ensures StripChars(Fence + "json\n" + body + "\n" + Fence, {'`'}) == "json\n" + body + "\n"
  {
    var text := Fence + "json\n" + body + "\n" + Fence;
    var inner := "json\n" + body + "\n";
    assert text == Fence + (inner + Fence);
    TrimStartExact(text, 3, {'`'});
    assert text[3..] == inner + Fence;
    TrimEndExact(inner + Fence, 3, {'`'});
    assert (inner + Fence)[..|inner|] == inner;
  }

  lemma TagLineStripped(body: string)
    requires |body| >= 2 && body[0] == '{' && body[|body| - 1] == '}'
    ensures Strip("json\n" + body + "\n") == "json\n" + body
  {
    var inner := "json\n" + body + "\n";
    assert 'j' !in Whitespace && '}' !in Whitespace && '\n' in Whitespace;
    assert inner[0] == 'j';
    TrimStartExact(inner, 0, Whitespace);
    assert inner[0..] == inner;
    assert inner[|inner| - 2] == '}' && inner[|inner| - 1] == '\n';
    TrimEndExact(inner, 1, Whitespace);
    assert inner[..|inner| - 1] == "json\n" + body;
    assert Strip(inner) == TrimEnd(TrimStart(inner, Whitespace), Whitespace);
  }

  lemma TaggedBraceSpan(body: string)
    requires |body| >= 2 && body[0] == '{' && body[|body| - 1] == '}'
    ensures BraceSpan("json\n" + body) == Some(body)
  {
    var tagged := "json\n" + body;
    assert forall k :: 0 <= k < 5 ==> tagged[k] != '{';
    assert tagged[5] == '{';
    assert tagged[5..|tagged|] == body;
  }
}
