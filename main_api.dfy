/**
 * The request handling of main.py that decides what reaches the agents: the
 * validation chain of `writing_submission` in front of `evaluate_task`, and
 * the part collection of the speaking endpoint in front of the speaking
 * graph (transcription, evaluation, then `format_output`).
 */
module MainApi {
  import opened Wrappers
  import opened PyText
  import opened PyDict
  import opened JsonValue
  import WritingAgent
  import SpeakingAgent

  const BadRequest: nat := 400
  const ServerError: nat := 500

  const BadTestType: string := "test_type must be 'academic' or 'general training'"
  const AcademicTask1: string := "Task 1 requires question,answer and image for academic test"
  const GeneralTask1: string := "Task 1 requires question and answer for general training test"
  const Task2Required: string :=
    "Task 2 always requires question and answer for both academic and general training test"

  /** What the validation chain decides: go on to `evaluate_task`, or raise
      an HTTPException with a status and a detail message. */
  datatype Verdict = Accept | Reject(status: nat, detail: string)

  /** The checks of `writing_submission`, in the order they run. */
  function Validate(req: WritingAgent.Submission): (r: Verdict)
    ensures r.Reject? ==> r.status == BadRequest
    ensures r.Reject? ==> r.detail in [BadTestType, AcademicTask1, GeneralTask1, Task2Required]
  {
    if req.testType != "academic" && req.testType != "general training" then
      Reject(BadRequest, BadTestType)
    else if Lower(req.testType) == "academic" then
      if req.task1Question == [] || !Given(req.task1Answer) || !Given(req.task1Image) then
        Reject(BadRequest, AcademicTask1)
      else Task2Check(req)
    else if req.task1Question == [] || !Given(req.task1Answer) then
      Reject(BadRequest, GeneralTask1)
    else Task2Check(req)
  }

  function Task2Check(req: WritingAgent.Submission): (r: Verdict)
    ensures r == Accept || r == Reject(BadRequest, Task2Required)
  {
    if req.task2Question == [] || req.task2Answer == [] then Reject(BadRequest, Task2Required) else Accept
  }

  /** A complete submission, stated field by field: a known test type, both
      Task 1 texts, an image for academic requests, and both Task 2 texts. */
  predicate Complete(req: WritingAgent.Submission) {
    && (req.testType == "academic" || req.testType == "general training")
    && req.task1Question != [] && Given(req.task1Answer)
    && (req.testType == "academic" ==> Given(req.task1Image))
    && req.task2Question != [] && req.task2Answer != []
  }

  /** The case-folding test in the Task 1 check only ever sees the two
      accepted spellings, and it tells them apart as they are. */
  lemma {:induction false} LowerOfTestTypes()
    ensures Lower("academic") == "academic"
    ensures Lower("general training") != "academic"
  {
    var a := Lower("academic");
    assert forall i :: 0 <= i < |a| ==> a[i] == "academic"[i];
  }

  /** A submission is accepted exactly when it is complete. */
  lemma {:induction false} AcceptedIffComplete(req: WritingAgent.Submission)
    ensures Validate(req) == Accept <==> Complete(req)
  {
    LowerOfTestTypes();
  }

  /** Every rejection is a 400, and the first failing check decides the
      message: the test type, then Task 1, then Task 2. */
  lemma {:induction false} RejectionOrder(req: WritingAgent.Submission)
    ensures Validate(req).Reject? ==> Validate(req).status == BadRequest
    ensures req.testType != "academic" && req.testType != "general training" ==>
              Validate(req) == Reject(BadRequest, BadTestType)
    ensures req.testType == "academic" && (req.task1Question == [] || !Given(req.task1Answer) || !Given(req.task1Image)) ==>
              Validate(req) == Reject(BadRequest, AcademicTask1)
    ensures req.testType == "general training" && (req.task1Question == [] || !Given(req.task1Answer)) ==>
              Validate(req) == Reject(BadRequest, GeneralTask1)
    ensures Validate(req) == Reject(BadRequest, Task2Required) <==>
              && (req.testType == "academic" || req.testType == "general training")
              && req.task1Question != [] && Given(req.task1Answer)
              && (req.testType == "academic" ==> Given(req.task1Image))
              && (req.task2Question == [] || req.task2Answer == [])
  {
    LowerOfTestTypes();
  }

  /** An accepted submission has both tasks scored by `evaluate_task`, and
      both sections in the text shown to the advice oracles. */
  lemma AcceptedScoresBothTasks(req: WritingAgent.Submission)
    requires Validate(req) == Accept
    ensures WritingAgent.ScoresTask1(req) && WritingAgent.ScoresTask2(req)
    ensures StartsWith(WritingAgent.CombinedQuestion(req), "Task 1 Question: ")
  {
    AcceptedIffComplete(req);
    WritingAgent.CombinedTextHasTask1(req);
  }

  /** How a writing submission ends: an HTTPException with a status and a
      detail, the dict `evaluate_task` returned, or an exception that escapes
      the endpoint. */
  datatype WritingReply = HttpError(status: nat, detail: string) | Answered(body: Json) | Escaped(error: PyError)

  const Unexpected: string := "Unexpected server error. Please try again later."

  /** The fields of the request model `TaskSubmission`. */
  const SubmissionFields: seq<string> :=
    ["test_type", "task1_question", "task1_answer", "task2_question", "task2_answer", "task1_image"]

  /** `request.<name>` on a `TaskSubmission`: an AttributeError unless
      `name` is one of its fields. */
  function RequestAttribute(name: string): Result<(), PyError> {
    if name in SubmissionFields then Ok(()) else Err(AttributeError)
  }

  /** The `except` chain around `evaluate_task` as written. To match the
      first clause Python evaluates `request.Timeout`; when that lookup
      raises, its AttributeError replaces `e` and no later clause is tried.
      Network timeouts and connection errors are not errors of this model, so
      past those two clauses only the catch-all remains. */
  function HandleAsWritten(e: PyError): (r: WritingReply)
    ensures r == Escaped(AttributeError)
  {
    match RequestAttribute("Timeout")
    case Err(raised) => Escaped(raised)
    case Ok(_) =>
      match RequestAttribute("ConnectionError")
      case Err(raised) => Escaped(raised)
      case Ok(_) => HttpError(ServerError, Unexpected)
  }

  /** The chain as intended, for the errors of this model: the catch-all
      clause turns every exception into a 500 with a fixed detail. */
  function Handle(e: PyError): WritingReply {
    HttpError(ServerError, Unexpected)
  }

  /** `writing_submission` with the exception handler `handle`: validation,
      then `evaluate_task`. */
  function WritingOutcome(req: WritingAgent.Submission, o: WritingAgent.Oracles,
                          handle: PyError -> WritingReply): WritingReply
  {
    match Validate(req)
    case Reject(status, detail) => HttpError(status, detail)
    case Accept =>
      var out := WritingAgent.Evaluate(req, o, WritingAgent.Agents(o));
      if out.result.Ok? then Answered(out.result.value) else handle(out.result.error)
  }

  /** `writing_submission`: validation, then `evaluate_task`, whose
      exceptions go through the corrected handler. */
  method WritingSubmission(req: WritingAgent.Submission, o: WritingAgent.Oracles)
    returns (reply: WritingReply, calls: seq<WritingAgent.OracleCall>)
    ensures reply == WritingOutcome(req, o, Handle)
    ensures calls == if Validate(req).Reject? then [] else WritingAgent.Evaluate(req, o, WritingAgent.Agents(o)).calls
  {
    var verdict := Validate(req);
    if verdict.Reject? {
      return HttpError(verdict.status, verdict.detail), [];
    }
    var r;
    r, calls := WritingAgent.EvaluateTask(req, o);
    reply := if r.Ok? then Answered(r.value) else Handle(r.error);
  }

  /** With the corrected handler nothing escapes: a submission is answered
      with the evaluation, refused with a 400 by validation, or answered
      with a 500 exactly when the evaluation raised. */
  lemma NothingEscapes(req: WritingAgent.Submission, o: WritingAgent.Oracles)
    ensures var reply := WritingOutcome(req, o, Handle);
            var out := WritingAgent.Evaluate(req, o, WritingAgent.Agents(o));
            && !reply.Escaped?
            && (reply.HttpError? && reply.status == BadRequest <==> Validate(req).Reject?)
            && (reply == HttpError(ServerError, Unexpected) <==> Validate(req) == Accept && out.result.Err?)
  {
    RejectionOrder(req);
  }

  /** As written, every exception `evaluate_task` raises escapes as an
      AttributeError from the first `except` clause: the intended 500 with
      its detail is never sent, and the original error is lost. */
  lemma ErrorsEscapeAsWritten(req: WritingAgent.Submission, o: WritingAgent.Oracles)
    requires Validate(req) == Accept
    requires WritingAgent.Evaluate(req, o, WritingAgent.Agents(o)).result.Err?
    ensures WritingOutcome(req, o, HandleAsWritten) == Escaped(AttributeError)
    ensures WritingOutcome(req, o, HandleAsWritten) != WritingOutcome(req, o, Handle)
  {
    assert RequestAttribute("Timeout") == Err(AttributeError);
  }

  // ---- speaking endpoint ----

  const PartKeys: seq<string> := ["part_1", "part_2", "part_3"]
  const NoAudio: string := "No audio files uploaded (part_1/part_2/part_3)."

  /** The entry an upload contributes: its saved path, if it was uploaded. */
  function Uploaded(part: Option<string>): Option<Json> {
    if part.Some? then Some(JStr(part.value)) else None
  }

  /** The `responses` dict: each uploaded part under its key, in part order.
      An upload is given as the path it was saved to. */
  function CollectResponses(part1: Option<string>, part2: Option<string>, part3: Option<string>): (r: Dict<Json>)
    ensures UniqueKeys(r)
    ensures Get(r, "part_1") == Uploaded(part1)
    ensures Get(r, "part_2") == Uploaded(part2)
    ensures Get(r, "part_3") == Uploaded(part3)
    ensures forall k :: HasKey(r, k) ==> k in PartKeys
    ensures r == [] <==> part1.None? && part2.None? && part3.None?
  {
    assert "part_1"[5] == '1' && "part_2"[5] == '2' && "part_3"[5] == '3';
    var r1 := Record([], "part_1", part1);
    var r2 := Record(r1, "part_2", part2);
    Record(r2, "part_3", part3)
  }

  /** `responses[part_key] = path` for a part that was uploaded. */
  function Record(responses: Dict<Json>, key: string, part: Option<string>): (r: Dict<Json>)
    requires UniqueKeys(responses) && !HasKey(responses, key)
    ensures UniqueKeys(r)
    ensures Get(r, key) == Uploaded(part)
    ensures forall k :: k != key ==> Get(r, k) == Get(responses, k)
    ensures r == responses + Entry(key, part)
  {
    var r := responses + Entry(key, part);
    assert forall k :: Get(r, k) == if HasKey(responses, k) then Get(responses, k) else Get(Entry(key, part), k) by {
      forall k {
        GetAppend(responses, Entry(key, part), k);
      }
    }
    r
  }

  /** The keys whose part is present, in key order. */
  function PresentKeys(keys: seq<string>, parts: seq<Option<string>>): (r: seq<string>)
    requires |keys| == |parts|
    ensures forall k :: k in r ==> k in keys
  {
    if keys == [] then []
    else (if parts[0].Some? then [keys[0]] else []) + PresentKeys(keys[1..], parts[1..])
  }

  /** `responses` lists the uploaded parts in the order part_1, part_2, part_3. */
  lemma {:induction false} ResponsesInPartOrder(part1: Option<string>, part2: Option<string>, part3: Option<string>)
    ensures Keys(CollectResponses(part1, part2, part3)) == PresentKeys(PartKeys, [part1, part2, part3])
  {
    var d1, d2, d3 := Entry("part_1", part1), Entry("part_2", part2), Entry("part_3", part3);
    CollectResponsesShape(part1, part2, part3);
    KeysAppend(d1, d2);
    KeysAppend(d1 + d2, d3);
    PresentKeysOfParts(part1, part2, part3);
  }

  /** The one-entry list an upload contributes. */
  function Entry(key: string, part: Option<string>): (d: Dict<Json>)
    ensures Keys(d) == if part.Some? then [key] else []
  {
    if part.Some? then [(key, JStr(part.value))] else []
  }

  lemma CollectResponsesShape(part1: Option<string>, part2: Option<string>, part3: Option<string>)
    ensures CollectResponses(part1, part2, part3) == Entry("part_1", part1) + Entry("part_2", part2) + Entry("part_3", part3)
  {
    assert [] + Entry("part_1", part1) == Entry("part_1", part1);
  }

  lemma {:induction false} PresentKeysOfParts(part1: Option<string>, part2: Option<string>, part3: Option<string>)
    ensures PresentKeys(PartKeys, [part1, part2, part3])
         == (if part1.Some? then ["part_1"] else []) + (if part2.Some? then ["part_2"] else [])
            + (if part3.Some? then ["part_3"] else [])
  {
    var parts := [part1, part2, part3];
    assert PartKeys[1..] == ["part_2", "part_3"] && parts[1..] == [part2, part3];
    assert ["part_2", "part_3"][1..] == ["part_3"] && [part2, part3][1..] == [part3];
    assert PresentKeys(["part_3"], [part3]) == (if part3.Some? then ["part_3"] else []) + PresentKeys([], []);
  }

  /** How the speaking endpoint answers. */
  datatype SpeakingReply =
    | NoParts(status: nat, message: string)
    | Assessed(report: SpeakingAgent.SpeakingReport)
    | Failed(status: nat, error: PyError)

  /** The speaking graph as a function: transcription, evaluation and
      `format_output` over the collected responses. */
  function SpeakingGraph(testId: string, userId: string, responses: Dict<Json>,
                         download: SpeakingAgent.Fetcher, transcribe: SpeakingAgent.Transcriber,
                         jointLlm: Dict<string> -> string, partLlm: string -> string,
                         parse: Parser, parseFloat: FloatParser, show: Json -> string): Result<SpeakingAgent.SpeakingReport, PyError>
  {
    var ts := SpeakingAgent.Transcripts(responses, download, transcribe);
    match SpeakingAgent.Evaluate(ts, jointLlm, partLlm, parse, parseFloat)
    case Err(e) => Err(e)
    case Ok(ev) => SpeakingAgent.Report(testId, userId, ts, ev.perPart, ev.aggregated, show)
  }

  /** `agent_speaking_endpoint`: collect the parts, reject an empty upload,
      run the graph and format its state; any exception becomes a 500. */
  method SpeakingEndpoint(testId: string, userId: string,
                          part1: Option<string>, part2: Option<string>, part3: Option<string>,
                          download: SpeakingAgent.Fetcher, transcribe: SpeakingAgent.Transcriber,
                          jointLlm: Dict<string> -> string, partLlm: string -> string,
                          parse: Parser, parseFloat: FloatParser, show: Json -> string)
    returns (reply: SpeakingReply)
    ensures reply.NoParts? <==> part1.None? && part2.None? && part3.None?
    ensures reply.NoParts? ==> reply == NoParts(BadRequest, NoAudio)
    ensures !reply.NoParts? ==>
              match SpeakingGraph(testId, userId, CollectResponses(part1, part2, part3),
                                  download, transcribe, jointLlm, partLlm, parse, parseFloat, show)
              case Ok(report) => reply == Assessed(report)
              case Err(e) => reply == Failed(ServerError, e)
  {
    var responses := CollectResponses(part1, part2, part3);
    if responses == [] {
      return NoParts(BadRequest, NoAudio);
    }
    var state := new SpeakingAgent.SpeakingState(testId, userId, responses);
    state.TranscribeNode(download, transcribe);
    var err := state.EvaluateNode(jointLlm, partLlm, parse, parseFloat);
    if err.Some? {
      return Failed(ServerError, err.value);
    }
    var output := state.FormatOutput(show);
    reply := if output.Ok? then Assessed(output.value) else Failed(ServerError, output.error);
  }

  /** When at least one part was uploaded, the evaluation never fails for
      want of transcripts: every uploaded part has a transcript. */
  lemma UploadedPartsAreTranscribed(part1: Option<string>, part2: Option<string>, part3: Option<string>,
                                    download: SpeakingAgent.Fetcher, transcribe: SpeakingAgent.Transcriber)
    requires part1.Some? || part2.Some? || part3.Some?
    ensures var responses := CollectResponses(part1, part2, part3);
            var ts := SpeakingAgent.Transcripts(responses, download, transcribe);
            ts != [] && Keys(ts) == Keys(responses)
  {
  }
}
