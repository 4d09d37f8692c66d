/**
 * The parse-or-fallback at the end of Agent/improvement_agent.py's
 * `generate_improvements`. The oracle's text is parsed as it is, with no
 * trimming of fences; a text the parser rejects becomes a one-element list.
 */
module ImprovementAgent {
  import opened Wrappers
  import opened PyText
  import opened PyDict
  import opened JsonValue

  const NoImprovements: string := "No improvements generated"

  /** What `generate_improvements` returns for the oracle text `content`. */
  function Improvements(content: string, parse: Parser): (r: Json)
    ensures parse(content).Some? ==> r == parse(content).value
    ensures parse(content).None? ==>
      && r.JObj? && Keys(r.fields) == ["improvements"]
      && var list := Get(r.fields, "improvements").value;
         && list.JArr? && |list.items| == 1
         && list.items[0] == JStr(if Strip(content) == [] then NoImprovements else Strip(content))
  {
    match parse(content)
    case Some(v) => v
    case None =>
      var t := Strip(content);
      JObj([("improvements", JArr([JStr(if t == [] then NoImprovements else t)]))])
  }

  /** The fallback's single entry is never empty and, unless it is the
      default message, is a piece of the oracle's text. */
  lemma FallbackEntry(content: string, parse: Parser)
    requires parse(content).None?
    ensures var e := Get(Improvements(content, parse).fields, "improvements").value.items[0].s;
            e != [] && (e == NoImprovements || IsSlice(e, content))
  {
  }

  /** With a parser that rejects any text whose first visible character is a
      backtick, as every JSON parser does, a fenced answer always takes the
      fallback and keeps its fence. */
  lemma FencedTakesFallback(content: string, parse: Parser)
    requires forall s :: StartsWith(Strip(s), "`") ==> parse(s).None?
    requires StartsWith(Strip(content), "```")
    ensures Improvements(content, parse) == JObj([("improvements", JArr([JStr(Strip(content))]))])
    ensures StartsWith(Improvements(content, parse).fields[0].1.items[0].s, "```")
  {
    FenceStartsWithBacktick(Strip(content));
    FallbackOfNonEmpty(content, parse);
  }

  lemma FenceStartsWithBacktick(t: string)
    requires StartsWith(t, "```")
    ensures StartsWith(t, "`") && t != []
  {
    assert t[..1] == t[..3][..1];
  }

  lemma FallbackOfNonEmpty(content: string, parse: Parser)
    requires parse(content).None? && Strip(content) != []
    ensures Improvements(content, parse) == JObj([("improvements", JArr([JStr(Strip(content))]))])
  {
  }
}
