/**
 * `evaluate_task` of Agent/writing_agent.py: which writing tasks are sent to
 * the scoring oracle, when the two scores are combined, the question and
 * answer text shown to the feedback and improvement oracles, and the shape of
 * the result.
 *
 * `score_task` and `combine_results` are oracles whose result is the
 * `json.loads` of the model's reply; None stands for the JSONDecodeError they
 * raise. The feedback and improvement oracles return raw text, which goes
 * through the post-processing of FeedbackAgent and ImprovementAgent.
 */
module WritingAgent {
  import opened Wrappers
  import opened PyText
  import opened PyDict
  import opened JsonValue
  import FeedbackAgent
  import ImprovementAgent

  /** The submitted request; `task1_answer` and `task1_image` may be None. */
  datatype Submission = Submission(
    testType: string,
    task1Question: string,
    task1Answer: Option<string>,
    task2Question: string,
    task2Answer: string,
    task1Image: Option<string>)


  /** One call into an oracle, with the arguments it received. */
  datatype OracleCall =
    | Score(task: string, testType: string, question: string, answer: Option<string>, image: Option<string>)
    | Combine(task1: Json, task2: Json)
    | FeedbackCall(question: string, answers: string, band: Json)
    | ImproveCall(question: string, answers: string, feedback: Json)

  datatype Oracles = Oracles(
    scoreTask: (string, string, string, Option<string>, Option<string>) -> Option<Json>,
    combine: (Json, Json) -> Option<Json>,
    feedbackLlm: (string, string, Json) -> string,
    improveLlm: (string, string, Json) -> string,
    parse: Parser)

  const NoValidTasks: string := "No valid tasks submitted"

  /** Task 1 is scored for an academic request with an answer and an image,
      or a general-training request with an answer. */
  predicate ScoresTask1(req: Submission) {
    || (req.testType == "academic" && Given(req.task1Answer) && Given(req.task1Image))
    || (req.testType == "general training" && Given(req.task1Answer))
  }

  predicate ScoresTask2(req: Submission) {
    req.task2Answer != [] && req.task2Question != []
  }

  /** The Task 1 scoring call: the image goes along only for academic requests. */
  function Task1Call(req: Submission): OracleCall {
    Score("task1", req.testType, req.task1Question, req.task1Answer,
          if req.testType == "academic" then req.task1Image else None)
  }

  function Task2Call(req: Submission): OracleCall {
    Score("task2", req.testType, req.task2Question, Some(req.task2Answer), None)
  }

  /** How one scoring step ended. */
  datatype Scoring = Skipped | Raised | Scored(result: Json)

  function Scoring1(req: Submission, o: Oracles): Scoring {
    if !ScoresTask1(req) then Skipped
    else
      var c := Task1Call(req);
      match o.scoreTask(c.task, c.testType, c.question, c.answer, c.image)
      case None => Raised
      case Some(j) => Scored(j)
  }

  function Scoring2(req: Submission, o: Oracles): Scoring {
    if !ScoresTask2(req) then Skipped
    else
      var c := Task2Call(req);
      match o.scoreTask(c.task, c.testType, c.question, c.answer, c.image)
      case None => Raised
      case Some(j) => Scored(j)
  }

  /** A scoring step that produced a truthy result. */
  predicate Present(s: Scoring) {
    s.Scored? && Truthy(s.result)
  }

  /** `combined_question`: a Task 1 section when its question and answer are
      given, then a Task 2 section when its question and answer are given. */
  function CombinedQuestion(req: Submission): string {
    (if req.task1Question != [] && Given(req.task1Answer) then "Task 1 Question: " + req.task1Question + "\n" else "")
    + (if ScoresTask2(req) then "Task 2 Question: " + req.task2Question + "\n" else "")
  }

  function CombinedAnswer(req: Submission): string {
    (if req.task1Question != [] && Given(req.task1Answer) then "Task 1 Answer: " + req.task1Answer.value + "\n\n" else "")
    + (if ScoresTask2(req) then "Task 2 Answer: " + req.task2Answer + "\n" else "")
  }

  /** The error dict returned when no task gave a truthy score. */
  const NoValidTasksResult: Json := JObj([("error", JStr(NoValidTasks))])

  /** What `evaluate_task` returns or raises, and the oracle calls it made, in order. */
  datatype Outcome = Outcome(result: Result<Json, PyError>, calls: seq<OracleCall>)

  /** The scoring calls: Task 1 when it qualifies, then Task 2 when it
      qualifies and Task 1 did not raise. */
  function ScoringCalls(req: Submission, o: Oracles): seq<OracleCall> {
    (if ScoresTask1(req) then [Task1Call(req)] else [])
    + (if !Scoring1(req, o).Raised? && ScoresTask2(req) then [Task2Call(req)] else [])
  }

  /** `evaluate_task`, as a function of the request and the oracles. */
  function Evaluate(req: Submission, o: Oracles, adv: Advisers): (r: Outcome)
    ensures ScoringCalls(req, o) <= r.calls
    ensures Scoring1(req, o).Raised? ==> r == Outcome(Err(DecodeError), ScoringCalls(req, o))
    ensures r.result.Ok? ==> r.result.value.JObj?
  {
    var s1 := Scoring1(req, o);
    var s2 := if s1.Raised? then Skipped else Scoring2(req, o);
    var scored := ScoringCalls(req, o);
    if s1.Raised? || s2.Raised? then Outcome(Err(DecodeError), scored)
    else if !Present(s1) && !Present(s2) then Outcome(Ok(NoValidTasksResult), scored)
    else if Present(s1) && Present(s2) then
      var calls := scored + [Combine(s1.result, s2.result)];
      match o.combine(s1.result, s2.result)
      case None => Outcome(Err(DecodeError), calls)
      case Some(combined) => Conclusion(req, adv, combined, calls)
    else Conclusion(req, adv, if Present(s2) then s2.result else s1.result, scored)
  }

  /** `generate_feedback` and `generate_improvements` as seen by
      `evaluate_task`: each takes the combined question, the combined answer
      and the band (or the feedback) and returns a JSON value. */
  datatype Advisers = Advisers(
    feedback: (string, string, Json) -> Json,
    improvements: (string, string, Json) -> Json)

  /** The two agents of this system: the oracle's text post-processed by
      FeedbackAgent and ImprovementAgent. `generate_feedback` always returns
      a dict, so the `.get` on it never raises. */
  function Agents(o: Oracles): (adv: Advisers)
    ensures forall q, a, band :: adv.feedback(q, a, band).JObj?
  {
    assert forall q, a, band :: FeedbackAgent.Interpret(FeedbackAgent.Clean(o.feedbackLlm(q, a, band)), o.parse).JObj?;
    Advisers(
      (q, a, band) => FeedbackAgent.Interpret(FeedbackAgent.Clean(o.feedbackLlm(q, a, band)), o.parse),
      (q, a, feedback) => ImprovementAgent.Improvements(o.improveLlm(q, a, feedback), o.parse))
  }

  /** Everything after the final result is chosen: its band, the feedback,
      the improvements and the returned dict. */
  function Conclusion(req: Submission, adv: Advisers, finalResult: Json, prior: seq<OracleCall>): (r: Outcome)
    ensures prior <= r.calls
    ensures r.result.Ok? ==> r.result.value.JObj? && Keys(r.result.value.fields) == ["band", "feedback", "improvements"]
  {
    match Subscript(finalResult, "band")
    case Err(e) => Outcome(Err(e), prior)
    case Ok(band) =>
      var q := CombinedQuestion(req);
      var a := CombinedAnswer(req);
      match GetAttr(adv.feedback(q, a, band), "feedback", JStr(""))
      case Err(e) => Outcome(Err(e), prior + [FeedbackCall(q, a, band)])
      case Ok(feedback) =>
        var calls := prior + [FeedbackCall(q, a, band), ImproveCall(q, a, feedback)];
        match GetAttr(adv.improvements(q, a, feedback), "improvements", JArr([]))
        case Err(e) => Outcome(Err(e), calls)
        case Ok(improvements) =>
          Outcome(Ok(JObj([("band", band), ("feedback", feedback), ("improvements", improvements)])), calls)
  }

  /** `evaluate_task(request)`, with the oracle calls it makes, in order. */
  method EvaluateTask(req: Submission, o: Oracles) returns (r: Result<Json, PyError>, calls: seq<OracleCall>)
    ensures Outcome(r, calls) == Evaluate(req, o, Agents(o))
  {
    var task1, task2;
    task1, task2, calls := ScoreTasks(req, o);
    if task1.Raised? || task2.Raised? {
      return Err(DecodeError), calls;
    }
    var task1Result := if task1.Scored? then Some(task1.result) else None;
    var task2Result := if task2.Scored? then Some(task2.result) else None;

    var has1 := task1Result.Some? && Truthy(task1Result.value);
    var has2 := task2Result.Some? && Truthy(task2Result.value);
    if !has1 && !has2 {
      return Ok(JObj([("error", JStr(NoValidTasks))])), calls;
    }

    var finalResult: Json;
    if has1 && has2 {
      calls := calls + [Combine(task1Result.value, task2Result.value)];
      var combined := o.combine(task1Result.value, task2Result.value);
      if combined.None? {
        return Err(DecodeError), calls;
      }
      finalResult := combined.value;
    } else if has2 {
      finalResult := task2Result.value;
    } else {
      finalResult := task1Result.value;
    }
    r, calls := Conclude(req, o, finalResult, calls);
  }

  /** The scoring step of `evaluate_task`: at most one call per task, Task 1
      first; a call that raises ends the step. */
  method ScoreTasks(req: Submission, o: Oracles) returns (task1: Scoring, task2: Scoring, calls: seq<OracleCall>)
    ensures task1 == Scoring1(req, o)
    ensures task2 == if task1.Raised? then Skipped else Scoring2(req, o)
    ensures calls == ScoringCalls(req, o)
  {
    calls := [];
    task1, task2 := Skipped, Skipped;

    // --- Task 1 ---
    var task1Result: Option<Json>;
    if req.testType == "academic" && Given(req.task1Answer) && Given(req.task1Image) {
      calls := calls + [Score("task1", req.testType, req.task1Question, req.task1Answer, req.task1Image)];
      task1Result := o.scoreTask("task1", req.testType, req.task1Question, req.task1Answer, req.task1Image);
      if task1Result.None? {
        return Raised, Skipped, calls;
      }
      task1 := Scored(task1Result.value);
    } else if req.testType == "general training" && Given(req.task1Answer) {
      calls := calls + [Score("task1", req.testType, req.task1Question, req.task1Answer, None)];
      task1Result := o.scoreTask("task1", req.testType, req.task1Question, req.task1Answer, None);
      if task1Result.None? {
        return Raised, Skipped, calls;
      }
      task1 := Scored(task1Result.value);
    }

    // --- Task 2 ---
    if req.task2Answer != [] && req.task2Question != [] {
      calls := calls + [Score("task2", req.testType, req.task2Question, Some(req.task2Answer), None)];
      var task2Result := o.scoreTask("task2", req.testType, req.task2Question, Some(req.task2Answer), None);
      if task2Result.None? {
        return task1, Raised, calls;
      }
      task2 := Scored(task2Result.value);
    }
  }

  /** The second half of `evaluate_task`: the band, the combined text, the
      feedback and improvement oracles and the returned dict. */
  method Conclude(req: Submission, o: Oracles, finalResult: Json, prior: seq<OracleCall>)
    returns (r: Result<Json, PyError>, calls: seq<OracleCall>)
    ensures Outcome(r, calls) == Conclusion(req, Agents(o), finalResult, prior)
  {
    calls := prior;
    var bandLookup := Subscript(finalResult, "band");
    if bandLookup.Err? {
      return Err(bandLookup.error), calls;
    }
    var finalBand := bandLookup.value;

    var combinedQuestion, combinedAnswer, feedback, improvementObj := Advise(req, o, finalBand);
    calls := calls + [FeedbackCall(combinedQuestion, combinedAnswer, finalBand),
                      ImproveCall(combinedQuestion, combinedAnswer, feedback)];
    var improvements := GetAttr(improvementObj, "improvements", JArr([]));
    if improvements.Err? {
      return Err(improvements.error), calls;
    }
    r := Ok(JObj([("band", finalBand), ("feedback", feedback), ("improvements", improvements.value)]));
  }

  /** The two advice oracles: feedback on the combined text and the band,
      then improvements from that feedback. */
  method Advise(req: Submission, o: Oracles, finalBand: Json)
    returns (combinedQuestion: string, combinedAnswer: string, feedback: Json, improvementObj: Json)
    ensures combinedQuestion == CombinedQuestion(req) && combinedAnswer == CombinedAnswer(req)
    ensures GetAttr(Agents(o).feedback(combinedQuestion, combinedAnswer, finalBand), "feedback", JStr("")) == Ok(feedback)
    ensures improvementObj == Agents(o).improvements(combinedQuestion, combinedAnswer, feedback)
  {
    combinedQuestion, combinedAnswer := CombineText(req);

    // --- Feedback ---
    var feedbackObj := FeedbackAgent.GenerateFeedback(o.feedbackLlm(combinedQuestion, combinedAnswer, finalBand), o.parse);
    feedback := GetOr(feedbackObj.fields, "feedback", JStr(""));

    // --- Improvements ---
    improvementObj := ImprovementAgent.Improvements(o.improveLlm(combinedQuestion, combinedAnswer, feedback), o.parse);
  }

  /** The text accumulation for the feedback and improvement prompts. */
  method CombineText(req: Submission) returns (combinedQuestion: string, combinedAnswer: string)
    ensures combinedQuestion == CombinedQuestion(req) && combinedAnswer == CombinedAnswer(req)
  {
    combinedQuestion := "";
    combinedAnswer := "";
    if req.task1Question != [] && Given(req.task1Answer) {
      combinedQuestion := combinedQuestion + "Task 1 Question: " + req.task1Question + "\n";
      combinedAnswer := combinedAnswer + "Task 1 Answer: " + req.task1Answer.value + "\n\n";
    }
    if req.task2Question != [] && req.task2Answer != [] {
      combinedQuestion := combinedQuestion + "Task 2 Question: " + req.task2Question + "\n";
      combinedAnswer := combinedAnswer + "Task 2 Answer: " + req.task2Answer + "\n";
    }
  }

  /** Task 1 is sent first exactly when it qualifies, with the image only
      for academic requests. */
  lemma Task1SentFirst(req: Submission, o: Oracles, adv: Advisers)
    ensures var calls := Evaluate(req, o, adv).calls;
            ScoresTask1(req) <==> |calls| > 0 && calls[0] == Task1Call(req)
  {
  }

  /** A Task 1 scoring call that raises ends the evaluation. */
  lemma Task1RaiseStops(req: Submission, o: Oracles, adv: Advisers)
    requires Scoring1(req, o).Raised?
    ensures Evaluate(req, o, adv) == Outcome(Err(DecodeError), [Task1Call(req)])
  {
  }

  /** Task 2 is sent exactly when it qualifies and Task 1 did not raise. */
  lemma Task2Sent(req: Submission, o: Oracles, adv: Advisers)
    ensures Task2Call(req) in Evaluate(req, o, adv).calls <==> ScoresTask2(req) && !Scoring1(req, o).Raised?
  {
  }

  /** The "No valid tasks submitted" dict comes back exactly when no scoring
      raised and neither task gave a truthy result; then no oracle beyond
      scoring is called. */
  lemma NoValidTasksCase(req: Submission, o: Oracles, adv: Advisers)
    ensures var out := Evaluate(req, o, adv);
            (out.result == Ok(NoValidTasksResult))
              <==> (!Scoring1(req, o).Raised? && !Scoring2(req, o).Raised?
                    && !Present(Scoring1(req, o)) && !Present(Scoring2(req, o)))
    ensures var out := Evaluate(req, o, adv);
            out.result == Ok(NoValidTasksResult) ==> forall c :: c in out.calls ==> c.Score?
  {
  }

  /** The two results are combined exactly when both are truthy, and the
      combining oracle gets them in task order. */
  lemma CombinedWhenBoth(req: Submission, o: Oracles, adv: Advisers)
    ensures (exists c :: c in Evaluate(req, o, adv).calls && c.Combine?)
              <==> Present(Scoring1(req, o)) && Present(Scoring2(req, o))
    ensures Present(Scoring1(req, o)) && Present(Scoring2(req, o)) ==>
              Combine(Scoring1(req, o).result, Scoring2(req, o).result) in Evaluate(req, o, adv).calls
  {
    var out := Evaluate(req, o, adv);
    var s1, s2 := Scoring1(req, o), Scoring2(req, o);
    var scored := ScoringCalls(req, o);
    ScoringCallsAreScores(req, o);
    if s1.Raised? || s2.Raised? || (!Present(s1) && !Present(s2)) {
      assert out.calls == scored;
    } else if Present(s1) && Present(s2) {
      var prior := scored + [Combine(s1.result, s2.result)];
      assert prior[|prior| - 1] == Combine(s1.result, s2.result);
      if o.combine(s1.result, s2.result).None? {
        assert out.calls == prior;
      } else {
        var combined := o.combine(s1.result, s2.result).value;
        assert out == Conclusion(req, adv, combined, prior);
        ConclusionCalls(req, adv, combined, prior);
        assert out.calls[|prior| - 1] == Combine(s1.result, s2.result);
      }
    } else {
      var single := if Present(s2) then s2.result else s1.result;
      assert out == Conclusion(req, adv, single, scored);
      ConclusionCalls(req, adv, single, scored);
      forall c | c in out.calls
        ensures !c.Combine?
      {
      }
    }
  }

  lemma ScoringCallsAreScores(req: Submission, o: Oracles)
    ensures forall c :: c in ScoringCalls(req, o) ==> c.Score?
  {
  }

  /** `Conclusion` extends the calls made so far with feedback and
      improvement calls only. */
  lemma ConclusionCalls(req: Submission, adv: Advisers, finalResult: Json, prior: seq<OracleCall>)
    ensures var calls := Conclusion(req, adv, finalResult, prior).calls;
            prior <= calls && forall c :: c in calls ==> c in prior || c.FeedbackCall? || c.ImproveCall?
  {
  }

  /** With a single truthy result, that result's band is the final band. */
  lemma SingleResultPassedThrough(req: Submission, o: Oracles, adv: Advisers)
    requires !Scoring1(req, o).Raised? && !Scoring2(req, o).Raised?
    requires Present(Scoring1(req, o)) != Present(Scoring2(req, o))
    ensures var single := if Present(Scoring2(req, o)) then Scoring2(req, o).result else Scoring1(req, o).result;
            var out := Evaluate(req, o, adv);
            match Subscript(single, "band")
            case Err(e) => out.result == Err(e)
            case Ok(band) => out.result.Ok? ==> out.result.value.JObj? && out.result.value.fields[0] == ("band", band)
  {
  }

  /** A completed evaluation returns exactly the keys band, feedback and
      improvements; the feedback adviser sees the combined text and the final
      band, the improvement adviser the extracted feedback, and those two
      calls come last. */
  lemma ReportShape(req: Submission, o: Oracles, adv: Advisers)
    requires Evaluate(req, o, adv).result.Ok? && Evaluate(req, o, adv).result.value != NoValidTasksResult
    ensures var out := Evaluate(req, o, adv);
            && out.result.value.JObj? && Keys(out.result.value.fields) == ["band", "feedback", "improvements"]
            && var band := out.result.value.fields[0].1;
               var feedback := out.result.value.fields[1].1;
               var q := CombinedQuestion(req);
               var a := CombinedAnswer(req);
               var feedbackObj := adv.feedback(q, a, band);
               var improvementObj := adv.improvements(q, a, feedback);
               && |out.calls| >= 2
               && out.calls[|out.calls| - 2..] == [FeedbackCall(q, a, band), ImproveCall(q, a, feedback)]
               && feedbackObj.JObj? && feedback == GetOr(feedbackObj.fields, "feedback", JStr(""))
               && improvementObj.JObj?
               && out.result.value.fields[2].1 == GetOr(improvementObj.fields, "improvements", JArr([]))
  {
  }

  /** With this system's agents, `evaluate_task` raises AttributeError only
      when the improvement answer parses to something other than a dict. */
  lemma AttributeErrorFromImprovements(req: Submission, o: Oracles)
    requires Evaluate(req, o, Agents(o)).result == Err(AttributeError)
    ensures var calls := Evaluate(req, o, Agents(o)).calls;
            && |calls| >= 2 && calls[|calls| - 1].ImproveCall?
            && var c := calls[|calls| - 1];
               !ImprovementAgent.Improvements(o.improveLlm(c.question, c.answers, c.feedback), o.parse).JObj?
  {
    var adv := Agents(o);
    var s1 := Scoring1(req, o);
    var s2 := if s1.Raised? then Skipped else Scoring2(req, o);
    var scored := ScoringCalls(req, o);
    if Present(s1) && Present(s2) {
      var calls := scored + [Combine(s1.result, s2.result)];
      var combined := o.combine(s1.result, s2.result).value;
      ConclusionAttributeError(req, adv, combined, calls);
    } else {
      ConclusionAttributeError(req, adv, if Present(s2) then s2.result else s1.result, scored);
    }
  }

  /** After a feedback agent that always returns a dict, the conclusion
      raises AttributeError only at the `.get` on the improvements object. */
  lemma ConclusionAttributeError(req: Submission, adv: Advisers, finalResult: Json, prior: seq<OracleCall>)
    requires forall q, a, band :: adv.feedback(q, a, band).JObj?
    requires Conclusion(req, adv, finalResult, prior).result == Err(AttributeError)
    ensures var calls := Conclusion(req, adv, finalResult, prior).calls;
            && |calls| >= 2 && calls[|calls| - 1].ImproveCall?
            && var c := calls[|calls| - 1];
               !adv.improvements(c.question, c.answers, c.feedback).JObj?
  {
  }

  /** The Task 1 section, when present, comes before the Task 2 section. */
  lemma CombinedTextOrder(req: Submission)
    requires req.task1Question != [] && Given(req.task1Answer) && ScoresTask2(req)
    ensures CombinedQuestion(req) ==
      "Task 1 Question: " + req.task1Question + "\n" + "Task 2 Question: " + req.task2Question + "\n"
    ensures CombinedAnswer(req) ==
      "Task 1 Answer: " + req.task1Answer.value + "\n\n" + "Task 2 Answer: " + req.task2Answer + "\n"
  {
  }

  /** The combined text has a Task 1 section exactly when the Task 1
      question and answer are given, whether or not Task 1 was scored. */
  lemma {:induction false} CombinedTextHasTask1(req: Submission)
    ensures StartsWith(CombinedQuestion(req), "Task 1 Question: ")
        <==> req.task1Question != [] && Given(req.task1Answer)
  {
    var q := CombinedQuestion(req);
    var head := "Task 1 Question: ";
    if req.task1Question != [] && Given(req.task1Answer) {
      assert q == head + (req.task1Question + "\n" + (if ScoresTask2(req) then "Task 2 Question: " + req.task2Question + "\n" else ""));
      assert q[..|head|] == head;
    } else if ScoresTask2(req) {
      assert q == "Task 2 Question: " + req.task2Question + "\n";
      assert q[5] != head[5];
    }
  }

  /** An academic Task 1 without an image is not scored, yet its question
      and answer still reach the advice oracles. */
  lemma UnscoredTask1StillShown(req: Submission)
    requires req.testType == "academic" && req.task1Question != [] && Given(req.task1Answer)
    requires !Given(req.task1Image)
    ensures !ScoresTask1(req)
    ensures StartsWith(CombinedQuestion(req), "Task 1 Question: ")
  {
    CombinedTextHasTask1(req);
  }
}
