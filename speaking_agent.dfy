/**
 * The speaking pipeline of Agent/speaking_agent.py: `_safe_transcribe`, the
 * two graph nodes `transcribe_node` and `evaluate_node` that fill the
 * per-request `SpeakingState`, and `format_output`, which turns the final
 * state into the report returned to the client.
 *
 * The transcriber, the downloader and the language model are parameters.
 * The joint prompt is a function of the transcripts and each per-part prompt
 * a function of one transcript, so the oracles take those as arguments.
 */
module SpeakingAgent {
  import opened Wrappers
  import opened PyText
  import opened PyDict
  import opened JsonValue
  import opened SpeakingJson
  import opened SpeakingScores

  // ---- _safe_transcribe ----

  /** A file-system step taken while transcribing one source. */
  datatype Effect =
    | Downloaded(url: string, tmp: string)  // `_download_to_temp` created the file `tmp`
    | Transcribed(path: string)             // `transcribe_audio(path)` was called
    | Removed(tmp: string)                  // `os.remove(tmp)` was attempted

  datatype Transcription = Transcription(text: string, effects: seq<Effect>)

  /** `_download_to_temp`: the temporary file's path, or the message of what it raised. */
  type Fetcher = string -> Result<string, string>

  /** `transcribe_audio`: the transcript, or the message of what it raised. */
  type Transcriber = string -> Result<string, string>

  const UnsupportedSource: string := "Unsupported audio source type for transcription"

  /** `f"ERROR: {str(e)}"`, the transcript that stands for a failure. */
  function ErrorText(message: string): (r: string)
    ensures StartsWith(r, "ERROR: ")
  {
    var r := "ERROR: " + message;
    assert r[..7] == "ERROR: ";
    r
  }

  function TextOf(r: Result<string, string>): string {
    match r
    case Ok(t) => t
    case Err(m) => ErrorText(m)
  }

  predicate IsRemote(s: string) {
    StartsWith(s, "http://") || StartsWith(s, "https://")
  }

  /** The source after its one unwrapping step: a dict whose `audio_url` is
      truthy stands for that value. */
  function Resolve(src: Json): (s: Json)
    ensures !src.JObj? ==> s == src
    ensures s == src || (src.JObj? && Get(src.fields, "audio_url") == Some(s) && Truthy(s))
  {
    if src.JObj? && Get(src.fields, "audio_url").Some? && Truthy(Get(src.fields, "audio_url").value)
    then Get(src.fields, "audio_url").value
    else src
  }

  /** The temporary files left without a removal attempt after `effects`,
      starting from `live`. A `Removed` step counts as a removal even though a
      failing `os.remove` is swallowed. */
  function Leftover(live: set<string>, effects: seq<Effect>): set<string>
    decreases |effects|
  {
    if effects == [] then live
    else
      var next := match effects[0]
                  case Downloaded(_, t) => live + {t}
                  case Removed(t) => live - {t}
                  case Transcribed(_) => live;
      Leftover(next, effects[1..])
  }

  lemma {:induction false} LeftoverAppend(live: set<string>, a: seq<Effect>, b: seq<Effect>)
    ensures Leftover(live, a + b) == Leftover(Leftover(live, a), b)
    decreases |a|
  {
    if a != [] {
      assert (a + b)[1..] == a[1..] + b;
      var next := match a[0]
                  case Downloaded(_, t) => live + {t}
                  case Removed(t) => live - {t}
                  case Transcribed(_) => live;
      LeftoverAppend(next, a[1..], b);
    } else {
      assert a + b == b;
    }
  }

  /** `_safe_transcribe(src)`. It never raises: every failure becomes an
      "ERROR: " transcript, the transcriber is only ever handed a path, and a
      downloaded temporary file has its removal attempted whether or not
      transcription succeeds. */
  function SafeTranscribe(src: Json, download: Fetcher, transcribe: Transcriber): (r: Transcription)
    ensures forall live :: Leftover(live, r.effects) <= live
    ensures r.effects == [] ==> StartsWith(r.text, "ERROR: ")
  {
    var s := Resolve(src);
    if s.JStr? && IsRemote(s.s) then
      match download(s.s)
      case Err(m) => Transcription(ErrorText(m), [])
      case Ok(tmp) =>
        var effects := [Downloaded(s.s, tmp), Transcribed(tmp), Removed(tmp)];
        assert forall live :: Leftover(live, effects) <= live by {
          forall live ensures Leftover(live, effects) <= live {
            DownloadThenRemove(live, s.s, tmp);
          }
        }
        Transcription(TextOf(transcribe(tmp)), effects)
    else if s.JStr? then
      Transcription(TextOf(transcribe(s.s)), [Transcribed(s.s)])
    else
      Transcription(ErrorText(UnsupportedSource), [])
  }

  lemma DownloadThenRemove(live: set<string>, url: string, tmp: string)
    ensures Leftover(live, [Downloaded(url, tmp), Transcribed(tmp), Removed(tmp)]) == live - {tmp}
  {
    var e := [Downloaded(url, tmp), Transcribed(tmp), Removed(tmp)];
    assert e[1..] == [Transcribed(tmp), Removed(tmp)];
    assert e[1..][1..] == [Removed(tmp)];
    assert e[1..][1..][1..] == [];
    calc {
      Leftover(live, e);
      Leftover(live + {tmp}, e[1..]);
      Leftover(live + {tmp}, e[1..][1..]);
      Leftover((live + {tmp}) - {tmp}, e[1..][1..][1..]);
    }
  }

  /** The dispatch of `_safe_transcribe`, case by case. */
  lemma SafeTranscribeCases(src: Json, download: Fetcher, transcribe: Transcriber)
    ensures var s := Resolve(src);
            var r := SafeTranscribe(src, download, transcribe);
            && (!s.JStr? ==> r == Transcription(ErrorText(UnsupportedSource), []))
            && (s.JStr? && !IsRemote(s.s) ==> r == Transcription(TextOf(transcribe(s.s)), [Transcribed(s.s)]))
            && (s.JStr? && IsRemote(s.s) && download(s.s).Err? ==>
                  r == Transcription(ErrorText(download(s.s).error), []))
            && (s.JStr? && IsRemote(s.s) && download(s.s).Ok? ==>
                  var tmp := download(s.s).value;
                  r.text == TextOf(transcribe(tmp)) && r.effects[|r.effects| - 1] == Removed(tmp)
                  && Transcribed(tmp) in r.effects && Leftover({}, r.effects) == {})
  {
  }

  /** The `audio_url` unwrapping happens once: a dict that holds another dict
      under `audio_url` is an unsupported source. */
  lemma AudioUrlUnwrappedOnce(fields: Dict<Json>, inner: Dict<Json>, download: Fetcher, transcribe: Transcriber)
    requires Get(fields, "audio_url") == Some(JObj(inner)) && inner != []
    ensures SafeTranscribe(JObj(fields), download, transcribe).text == ErrorText(UnsupportedSource)
  {
  }

  /** `transcribe_node`'s result: one transcript per response, same keys, same order. */
  function Transcripts(responses: Dict<Json>, download: Fetcher, transcribe: Transcriber): (ts: Dict<string>)
    ensures Keys(ts) == Keys(responses)
    ensures forall i :: 0 <= i < |ts| ==> ts[i].1 == SafeTranscribe(responses[i].1, download, transcribe).text
  {
    seq(|responses|, i requires 0 <= i < |responses| =>
      (responses[i].0, SafeTranscribe(responses[i].1, download, transcribe).text))
  }

  // ---- evaluate_node ----

  const NoTranscripts: string := "No transcripts available for evaluation."

  /** `parsed and "per_part" in parsed and "aggregated" in parsed`; the `in`
      test raises on a truthy number or boolean. */
  function JointCheck(parsed: Option<Json>): (r: Result<bool, PyError>)
    ensures r == Ok(true) ==> parsed.Some? && Truthy(parsed.value)
    ensures parsed.Some? && parsed.value.JObj? ==>
      r == Ok(parsed.value.fields != [] && HasKey(parsed.value.fields, "per_part")
              && HasKey(parsed.value.fields, "aggregated"))
    ensures r.Err? <==> parsed.Some? && Truthy(parsed.value) && (parsed.value.JNum? || parsed.value.JBool?)
    ensures r.Err? ==> r.error == TypeError
  {
    if parsed.None? || !Truthy(parsed.value) then Ok(false)
    else match In("per_part", parsed.value)
      case Err(e) => Err(e)
      case Ok(false) => Ok(false)
      case Ok(true) => In("aggregated", parsed.value)
  }

  /** `all(k in parsed for k in cats)` on a dict, list or string. */
  predicate HasAllCategories(j: Json) {
    forall i :: 0 <= i < 5 ==> In(Categories[i], j) == Ok(true)
  }

  /** `x or {}` for the repaired per-part answer. */
  function OrEmpty(o: Option<Json>): (r: Json)
    ensures Truthy(r) || r == JObj([])
    ensures o.Some? && Truthy(o.value) ==> r == o.value
    ensures !(o.Some? && Truthy(o.value)) ==> r == JObj([])
  {
    if o.Some? && Truthy(o.value) then o.value else JObj([])
  }

  /** One transcript's record: the repaired answer of the per-part oracle, or `{}`. */
  function PartRecord(txt: string, partLlm: string -> string, parse: Parser): Json {
    OrEmpty(ExtractJson(partLlm(txt), parse))
  }

  /** The fallback `per_part`: one record per transcript, in transcript order,
      `{}` where the oracle's answer could not be repaired. */
  function PerPartRecords(ts: Dict<string>, partLlm: string -> string, parse: Parser): (d: Dict<Json>)
    ensures Keys(d) == Keys(ts)
    ensures forall i :: 0 <= i < |ts| ==> d[i].1 == PartRecord(ts[i].1, partLlm, parse)
    ensures forall i :: 0 <= i < |ts| && ExtractJson(partLlm(ts[i].1), parse).None? ==> d[i].1 == JObj([])
  {
    seq(|ts|, i requires 0 <= i < |ts| => (ts[i].0, PartRecord(ts[i].1, partLlm, parse)))
  }

  datatype Evaluation = Evaluation(perPart: Json, aggregated: Json)

  /** "Ensure aggregated is present": an empty aggregate is recomputed from a
      non-empty `per_part`, which must then be a dict. */
  function EnsureAggregated(pp: Json, agg: Json, parseFloat: FloatParser): (r: Result<Evaluation, PyError>)
    ensures r.Ok? ==> r.value.perPart == pp
    ensures r.Ok? && Truthy(pp) ==> Truthy(r.value.aggregated)
    ensures r.Err? <==> !Truthy(agg) && Truthy(pp) && !pp.JObj?
    ensures Truthy(agg) || !Truthy(pp) ==> r == Ok(Evaluation(pp, agg))
    ensures !Truthy(agg) && Truthy(pp) && pp.JObj? ==> r == Ok(Evaluation(pp, Aggregate(pp.fields, parseFloat)))
  {
    if !Truthy(agg) && Truthy(pp) then
      if pp.JObj? then Ok(Evaluation(pp, Aggregate(pp.fields, parseFloat)))
      else Err(AttributeError)
    else Ok(Evaluation(pp, agg))
  }

  /** What `evaluate_node` writes into the state, or what it raises. */
  function Evaluate(ts: Dict<string>, jointLlm: Dict<string> -> string, partLlm: string -> string,
                    parse: Parser, parseFloat: FloatParser): (r: Result<Evaluation, PyError>)
    ensures ts == [] <==> r == Err(ValueError(NoTranscripts))
    ensures r.Err? && ts != [] ==> r.error == TypeError || r.error == AttributeError
  {
    if ts == [] then Err(ValueError(NoTranscripts))
    else
      var parsed := ExtractJson(jointLlm(ts), parse);
      match JointCheck(parsed)
      case Err(e) => Err(e)
      case Ok(true) =>
        (match Subscript(parsed.value, "per_part")
         case Err(e) => Err(e)
         case Ok(pp) =>
           match Subscript(parsed.value, "aggregated")
           case Err(e) => Err(e)
           case Ok(agg) => EnsureAggregated(pp, agg, parseFloat))
      case Ok(false) =>
        var records := PerPartRecords(ts, partLlm, parse);
        var agg := if parsed.Some? && Truthy(parsed.value) && HasAllCategories(parsed.value)
                   then parsed.value else JObj([]);
        var agg' := if Truthy(agg) then agg else Aggregate(records, parseFloat);
        EnsureAggregated(JObj(records), agg', parseFloat)
  }

  /** Without transcripts `evaluate_node` raises ValueError. */
  lemma EvaluateNeedsTranscripts(jointLlm: Dict<string> -> string, partLlm: string -> string,
                                 parse: Parser, parseFloat: FloatParser)
    ensures Evaluate([], jointLlm, partLlm, parse, parseFloat) == Err(ValueError(NoTranscripts))
  {
  }

  /** A joint answer that repairs to a dict with both `per_part` and
      `aggregated` is taken as it is, bar the recomputation of an empty
      aggregate. */
  lemma EvaluateJointAccepted(ts: Dict<string>, jointLlm: Dict<string> -> string, partLlm: string -> string,
                              parse: Parser, parseFloat: FloatParser, fields: Dict<Json>)
    requires ts != [] && ExtractJson(jointLlm(ts), parse) == Some(JObj(fields))
    requires HasKey(fields, "per_part") && HasKey(fields, "aggregated")
    ensures var pp := Get(fields, "per_part").value;
            var agg := Get(fields, "aggregated").value;
            Evaluate(ts, jointLlm, partLlm, parse, parseFloat) == EnsureAggregated(pp, agg, parseFloat)
  {
  }

  /** Otherwise, when the joint answer is absent, falsy, or a dict, list or
      string without both `per_part` and `aggregated`, every transcript gets
      its own oracle call: `per_part` has exactly the transcript keys, in
      order, and the aggregate is the joint answer when it carries all five
      categories, else the local aggregation of the per-part records. This
      path never raises. */
  lemma EvaluateFallback(ts: Dict<string>, jointLlm: Dict<string> -> string, partLlm: string -> string,
                         parse: Parser, parseFloat: FloatParser)
    requires ts != []
    requires JointCheck(ExtractJson(jointLlm(ts), parse)) == Ok(false)
    ensures var parsed := ExtractJson(jointLlm(ts), parse);
            var records := PerPartRecords(ts, partLlm, parse);
            var ev := Evaluate(ts, jointLlm, partLlm, parse, parseFloat);
            && ev.Ok?
            && ev.value.perPart == JObj(records)
            && Keys(records) == Keys(ts)
            && ev.value.aggregated ==
                 (if parsed.Some? && Truthy(parsed.value) && HasAllCategories(parsed.value)
                  then parsed.value else Aggregate(records, parseFloat))
  {
    var parsed := ExtractJson(jointLlm(ts), parse);
    var records := PerPartRecords(ts, partLlm, parse);
    assert records != [] by { assert |Keys(records)| == |Keys(ts)|; }
    assert Truthy(Aggregate(records, parseFloat)) by {
      assert |Keys(Aggregate(records, parseFloat).fields)| == 6;
    }
  }

  /** A joint answer that repairs to a truthy number or boolean makes the
      `"per_part" in parsed` test raise TypeError. */
  lemma JointNumberRaises(ts: Dict<string>, jointLlm: Dict<string> -> string, partLlm: string -> string,
                          parse: Parser, parseFloat: FloatParser)
    requires ts != []
    requires var parsed := ExtractJson(jointLlm(ts), parse);
             parsed.Some? && Truthy(parsed.value) && (parsed.value.JNum? || parsed.value.JBool?)
    ensures Evaluate(ts, jointLlm, partLlm, parse, parseFloat) == Err(TypeError)
  {
  }

  /** A truthy list or string joint answer holding both "per_part" and
      "aggregated" passes the `in` tests, and then `parsed["per_part"]`
      raises TypeError. */
  lemma JointSequenceRaises(ts: Dict<string>, jointLlm: Dict<string> -> string, partLlm: string -> string,
                            parse: Parser, parseFloat: FloatParser)
    requires ts != []
    requires var parsed := ExtractJson(jointLlm(ts), parse);
             && parsed.Some? && Truthy(parsed.value) && (parsed.value.JArr? || parsed.value.JStr?)
             && In("per_part", parsed.value) == Ok(true) && In("aggregated", parsed.value) == Ok(true)
    ensures Evaluate(ts, jointLlm, partLlm, parse, parseFloat) == Err(TypeError)
  {
  }

  /** Whenever `evaluate_node` succeeds with a non-empty `per_part`, the
      aggregate it stores is non-empty. */
  lemma EvaluateNeverLeavesEmptyAggregate(ts: Dict<string>, jointLlm: Dict<string> -> string,
                                          partLlm: string -> string, parse: Parser, parseFloat: FloatParser)
    requires Evaluate(ts, jointLlm, partLlm, parse, parseFloat).Ok?
    ensures var ev := Evaluate(ts, jointLlm, partLlm, parse, parseFloat).value;
            Truthy(ev.perPart) ==> Truthy(ev.aggregated)
  {
  }

  // ---- format_output ----

  /** What part record `obj` says about category `c`: `fb.get(c, "")` when its
      feedback is a dict, otherwise the feedback value itself. */
  function CategoryText(obj: Json, c: string): Json
    requires obj.JObj?
  {
    var fb := GetOr(obj.fields, "feedback", JObj([]));
    if fb.JObj? then GetOr(fb.fields, c, JStr("")) else fb
  }

  predicate AllDicts(parts: Dict<Json>) {
    forall i :: 0 <= i < |parts| ==> parts[i].1.JObj?
  }

  /** `parts_texts` for category `c`: `"part: text"` for every part with
      non-empty feedback on `c`, in `per_part` order. */
  function Entries(parts: Dict<Json>, c: string, show: Json -> string): seq<string>
    requires AllDicts(parts)
  {
    if parts == [] then []
    else
      var front := Entries(parts[..|parts| - 1], c, show);
      var (p, obj) := parts[|parts| - 1];
      var t := CategoryText(obj, c);
      if Truthy(t) then front + [p + ": " + Display(t, show)] else front
  }

  /** The five feedback entries: each category's `parts_texts` joined by spaces. */
  function CategoryFeedback(parts: Dict<Json>, show: Json -> string): (fb: Dict<string>)
    requires AllDicts(parts)
    ensures Keys(fb) == Categories
    ensures forall i :: 0 <= i < 5 ==> fb[i].1 == Join(Entries(parts, Categories[i], show), " ")
  {
    seq(5, i requires 0 <= i < 5 => (Categories[i], Join(Entries(parts, Categories[i], show), " ")))
  }

  const ScoreKeys: seq<string> :=
    ["band", "fluency", "coherence", "lexical_resource", "grammar", "pronunciation"]

  /** `score_obj`: each score key copied from the aggregate, None when missing. */
  function ScoreOf(aggregated: Dict<Json>): (score: Dict<Json>)
    ensures Keys(score) == ScoreKeys
    ensures forall i :: 0 <= i < 6 ==> score[i].1 == GetOr(aggregated, ScoreKeys[i], JNull)
  {
    seq(6, i requires 0 <= i < 6 => (ScoreKeys[i], GetOr(aggregated, ScoreKeys[i], JNull)))
  }

  datatype SpeakingReport = SpeakingReport(
    testId: string, userId: string, transcripts: Dict<string>,
    score: Dict<Json>, feedback: Dict<string>, perPart: Json, aggregated: Json)

  /** `format_output(state)`, or the AttributeError it raises when `per_part`,
      one of its records, or `aggregated` is not a dict. */
  function Report(testId: string, userId: string, transcripts: Dict<string>,
                  perPart: Json, aggregated: Json, show: Json -> string): (r: Result<SpeakingReport, PyError>)
    ensures r.Ok? <==> perPart.JObj? && AllDicts(perPart.fields) && aggregated.JObj?
    ensures r.Err? ==> r.error == AttributeError
    ensures r.Ok? ==> Keys(r.value.feedback) == Categories && Keys(r.value.score) == ScoreKeys
    ensures r.Ok? ==>
              && r.value.feedback == CategoryFeedback(perPart.fields, show)
              && r.value.score == ScoreOf(aggregated.fields)
              && r.value.testId == testId && r.value.userId == userId && r.value.transcripts == transcripts
              && r.value.perPart == perPart && r.value.aggregated == aggregated
  {
    if perPart.JObj? && AllDicts(perPart.fields) && aggregated.JObj? then
      Ok(SpeakingReport(testId, userId, transcripts, ScoreOf(aggregated.fields),
                        CategoryFeedback(perPart.fields, show), perPart, aggregated))
    else Err(AttributeError)
  }

  /** A category gets an empty string exactly when no part has feedback on it,
      and every entry names the part it comes from. */
  lemma {:induction false} EntriesShape(parts: Dict<Json>, c: string, show: Json -> string)
    requires AllDicts(parts)
    ensures Entries(parts, c, show) == [] <==>
      forall i :: 0 <= i < |parts| ==> !Truthy(CategoryText(parts[i].1, c))
    ensures forall e :: e in Entries(parts, c, show) ==>
      exists i :: 0 <= i < |parts| && Truthy(CategoryText(parts[i].1, c))
                  && e == parts[i].0 + ": " + Display(CategoryText(parts[i].1, c), show)
  {
    if parts != [] {
      var front := parts[..|parts| - 1];
      EntriesShape(front, c, show);
      forall i | 0 <= i < |front| ensures front[i] == parts[i] { }
    }
  }

  /** A part whose feedback is a plain string (not a per-category dict) gives
      that same string to every category. */
  lemma {:induction false} SharedFeedbackReused(parts: Dict<Json>, c1: string, c2: string, show: Json -> string)
    requires AllDicts(parts)
    requires forall i :: 0 <= i < |parts| ==> !GetOr(parts[i].1.fields, "feedback", JObj([])).JObj?
    ensures Entries(parts, c1, show) == Entries(parts, c2, show)
  {
    if parts != [] {
      SharedFeedbackReused(parts[..|parts| - 1], c1, c2, show);
    }
  }

  // ---- The loops of evaluate_node and format_output ----

  /** The fallback loop of `evaluate_node`: one oracle call per transcript. */
  method CollectPerPart(ts: Dict<string>, partLlm: string -> string, parse: Parser) returns (records: Dict<Json>)
    requires UniqueKeys(ts)
    ensures records == PerPartRecords(ts, partLlm, parse)
  {
    records := [];
    var i := 0;
    while i < |ts|
      invariant 0 <= i <= |ts|
      invariant records == PerPartRecords(ts[..i], partLlm, parse)
    {
      var (p, txt) := ts[i];
      assert !HasKey(records, p) by {
        assert Keys(records) == Keys(ts[..i]);
      }
      records := Put(records, p, PartRecord(txt, partLlm, parse));
      PerPartRecordsSnoc(ts, i, partLlm, parse);
      i := i + 1;
    }
    assert ts[..i] == ts;
  }

  lemma PerPartRecordsSnoc(ts: Dict<string>, i: nat, partLlm: string -> string, parse: Parser)
    requires i < |ts|
    ensures PerPartRecords(ts[..i + 1], partLlm, parse)
         == PerPartRecords(ts[..i], partLlm, parse) + [(ts[i].0, PartRecord(ts[i].1, partLlm, parse))]
  {
    var a := PerPartRecords(ts[..i + 1], partLlm, parse);
    var front := PerPartRecords(ts[..i], partLlm, parse);
    var b := front + [(ts[i].0, PartRecord(ts[i].1, partLlm, parse))];
    assert |Keys(a)| == i + 1 && |Keys(front)| == i;
    forall k | 0 <= k < i + 1 ensures a[k] == b[k] {
      assert a[k].0 == Keys(a)[k] == ts[k].0;
      assert a[k].1 == PartRecord(ts[k].1, partLlm, parse);
      if k < i {
        assert front[k].0 == Keys(front)[k] == ts[k].0;
        assert front[k].1 == PartRecord(ts[k].1, partLlm, parse);
      }
    }
  }

  /** The body of `evaluate_node` up to the state update. */
  method EvaluateTranscripts(ts: Dict<string>, jointLlm: Dict<string> -> string, partLlm: string -> string,
                             parse: Parser, parseFloat: FloatParser) returns (r: Result<Evaluation, PyError>)
    requires UniqueKeys(ts)
    ensures r == Evaluate(ts, jointLlm, partLlm, parse, parseFloat)
  {
    if ts == [] {
      return Err(ValueError(NoTranscripts));
    }
    var parsed := ExtractJson(jointLlm(ts), parse);
    var perPartEval: Json := JObj([]);
    var agg: Json := JObj([]);
    var joint := JointCheck(parsed);
    if joint.Err? {
      return Err(joint.error);
    }
    if joint.value {
      var pp := Subscript(parsed.value, "per_part");
      if pp.Err? {
        return Err(pp.error);
      }
      // `"aggregated" in parsed` held and `parsed` is a dict, so this cannot raise.
      var ag := Subscript(parsed.value, "aggregated");
      perPartEval, agg := pp.value, ag.value;
    } else {
      if parsed.Some? && Truthy(parsed.value) && HasAllCategories(parsed.value) {
        agg := parsed.value;
      }
      var records := CollectPerPart(ts, partLlm, parse);
      perPartEval := JObj(records);
      if !Truthy(agg) {
        agg := AggregateScores(records, parseFloat);
      }
    }
    if !Truthy(agg) && Truthy(perPartEval) {
      if !perPartEval.JObj? {
        return Err(AttributeError);
      }
      agg := AggregateScores(perPartEval.fields, parseFloat);
    }
    r := Ok(Evaluation(perPartEval, agg));
  }

  /** The inner loop of `format_output` for category `c`; None is the
      AttributeError raised on a part record that is not a dict. */
  method CollectEntries(parts: Dict<Json>, c: string, show: Json -> string) returns (r: Option<seq<string>>)
    ensures r.Some? <==> AllDicts(parts)
    ensures r.Some? ==> r.value == Entries(parts, c, show)
  {
    var partsTexts: seq<string> := [];
    var i := 0;
    while i < |parts|
      invariant 0 <= i <= |parts|
      invariant AllDicts(parts[..i])
      invariant partsTexts == Entries(parts[..i], c, show)
    {
      var (p, obj) := parts[i];
      if !obj.JObj? {
        return None;
      }
      var fb := GetOr(obj.fields, "feedback", JObj([]));
      var t := if fb.JObj? then GetOr(fb.fields, c, JStr("")) else fb;
      assert parts[..i + 1][..i] == parts[..i];
      if Truthy(t) {
        partsTexts := partsTexts + [p + ": " + Display(t, show)];
      }
      i := i + 1;
    }
    assert parts[..i] == parts;
    r := Some(partsTexts);
  }

  // ---- The state the graph threads through its nodes ----

  class SpeakingState {
    var testId: string
    var userId: string
    var responses: Dict<Json>
    var transcripts: Dict<string>
    var perPart: Json
    var aggregated: Json
    /** Every file-system step taken so far. */
    ghost var fileEffects: seq<Effect>

    ghost predicate Valid()
      reads this
    {
      && UniqueKeys(responses)
      && UniqueKeys(transcripts)
      && Leftover({}, fileEffects) == {}
    }

    /** The state built by the speaking endpoint: ids and responses only. */
    constructor (testId: string, userId: string, responses: Dict<Json>)
      requires UniqueKeys(responses)
      ensures Valid()
      ensures this.testId == testId && this.userId == userId && this.responses == responses
      ensures transcripts == [] && perPart == JObj([]) && aggregated == JObj([]) && fileEffects == []
    {
      this.testId := testId;
      this.userId := userId;
      this.responses := responses;
      transcripts := [];
      perPart := JObj([]);
      aggregated := JObj([]);
      fileEffects := [];
    }

    /** `transcribe_node`: transcribes every response in order. Every
        temporary file has its removal attempted before the node ends. */
    method TranscribeNode(download: Fetcher, transcribe: Transcriber)
      requires Valid()
      modifies this
      ensures Valid()
      ensures transcripts == Transcripts(responses, download, transcribe)
      ensures testId == old(testId) && userId == old(userId) && responses == old(responses)
      ensures perPart == old(perPart) && aggregated == old(aggregated)
    {
      var out: Dict<string> := [];
      var i := 0;
      while i < |responses|
        invariant 0 <= i <= |responses|
        invariant out == Transcripts(responses[..i], download, transcribe)
        invariant Leftover({}, fileEffects) == {}
        invariant testId == old(testId) && userId == old(userId) && responses == old(responses)
        invariant transcripts == old(transcripts) && perPart == old(perPart) && aggregated == old(aggregated)
      {
        var (part, src) := responses[i];
        var t := SafeTranscribe(src, download, transcribe);
        assert !HasKey(out, part) by {
          assert Keys(out) == Keys(responses[..i]);
        }
        out := Put(out, part, t.text);
        LeftoverAppend({}, fileEffects, t.effects);
        fileEffects := fileEffects + t.effects;
        assert responses[..i + 1] == responses[..i] + [responses[i]];
        i := i + 1;
      }
      assert responses[..i] == responses;
      assert Keys(out) == Keys(responses);
      transcripts := out;
    }

    /** `evaluate_node`: the joint oracle call, and when its answer lacks the
        per-part breakdown, one oracle call per transcript and local
        aggregation. On a raise the state is left as it was. */
    method EvaluateNode(jointLlm: Dict<string> -> string, partLlm: string -> string,
                        parse: Parser, parseFloat: FloatParser) returns (err: Option<PyError>)
      requires Valid()
      modifies this
      ensures Valid()
      ensures testId == old(testId) && userId == old(userId) && responses == old(responses)
      ensures transcripts == old(transcripts) && fileEffects == old(fileEffects)
      ensures var ev := Evaluate(old(transcripts), jointLlm, partLlm, parse, parseFloat);
              && (ev.Ok? ==> err == None && perPart == ev.value.perPart && aggregated == ev.value.aggregated)
              && (ev.Err? ==> err == Some(ev.error) && perPart == old(perPart) && aggregated == old(aggregated))
    {
      assert UniqueKeys(transcripts);
      var ev := EvaluateTranscripts(transcripts, jointLlm, partLlm, parse, parseFloat);
      if ev.Err? {
        return Some(ev.error);
      }
      var evaluation := ev.value;
      perPart := evaluation.perPart;
      aggregated := evaluation.aggregated;
      err := None;
    }

    /** `format_output(state)`: the category feedback merged across parts and
        the scores copied from the aggregate. */
    method FormatOutput(show: Json -> string) returns (r: Result<SpeakingReport, PyError>)
      ensures r == Report(testId, userId, transcripts, perPart, aggregated, show)
    {
      if !perPart.JObj? {
        return Err(AttributeError);
      }
      var parts := perPart.fields;
      var feedbackOut: Dict<string> := [];
      var j := 0;
      while j < 5
        invariant 0 <= j <= 5
        invariant j > 0 ==> AllDicts(parts)
        invariant AllDicts(parts) ==> feedbackOut == CategoryFeedback(parts, show)[..j]
      {
        var c := Categories[j];
        var texts := CollectEntries(parts, c, show);
        if texts.None? {
          return Err(AttributeError);
        }
        assert !HasKey(feedbackOut, c) by {
          assert Keys(feedbackOut) == Keys(CategoryFeedback(parts, show))[..j];
        }
        feedbackOut := Put(feedbackOut, c, Join(texts.value, " "));
        j := j + 1;
      }
      assert feedbackOut == CategoryFeedback(parts, show);
      if !aggregated.JObj? {
        return Err(AttributeError);
      }
      r := Ok(SpeakingReport(testId, userId, transcripts, ScoreOf(aggregated.fields),
                             feedbackOut, perPart, aggregated));
    }
  }
}
