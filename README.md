# IELTS assessment pipeline, modelled in Dafny

This project models the assessment core of an IELTS practice service. The
service hands the judgment to a language model and turns the model's
free-form answers into scores, feedback and improvement advice.

- **Writing** (`main.py` `writing_submission` and `Agent/writing_agent.py` `evaluate_task`).
  - A submission is validated.
  - Each qualifying task is sent to the scoring oracle.
  - Two truthy scores are combined; a single one is passed through.
  - The band, together with the combined question and answer text, goes to the feedback agent and then to the improvement agent.
  - The feedback agent (`Agent/feedback_agent.py`) trims, de-fences, parses and unwraps the answer.
  - The improvement agent (`Agent/improvement_agent.py`) parses its answer or falls back to a one-element list.
- **Rubric lookup** (`Services/evaluation_service.py` `get_rubric`).
  - Task 1 sections are chosen by a normalised test type.
  - Task 2 has one section.
- **Speaking** (`main.py` `agent_speaking_endpoint` and `Agent/speaking_agent.py`).
  - Uploaded parts are collected in part order.
  - Each part is transcribed, and the removal of a download's temporary file is always attempted.
  - A joint oracle answer is repaired by `_extract_json`. When it lacks the per-part breakdown, every transcript gets its own oracle call and the aggregate is computed locally.
  - The aggregate is the five category means rounded to one decimal, and a band rounded to the nearest half.
  - `format_output` merges per-part feedback per category and copies the scores.

Modules, in dependency order:

| file | module | what it holds |
|---|---|---|
| `wrappers.dfy` | `Wrappers` | `Option`, `Result` |
| `pytext.dfy` | `PyText` | the Python `str` operations the code uses (`strip`, `startswith`, `replace`, `lower`, `join`, ...) |
| `pydict.dfy` | `PyDict` | insertion-ordered dicts as association lists |
| `jsonvalue.dfy` | `JsonValue` | JSON values; truthiness; `in`, `[]` and `.get` with the exceptions they raise |
| `speaking_json.dfy` | `SpeakingJson` | `_extract_json` |
| `speaking_scores.dfy` | `SpeakingScores` | `_round_half`, `round(x, 1)`, `_aggregate_scores` |
| `speaking_agent.dfy` | `SpeakingAgent` | `_safe_transcribe`, the two graph nodes over a `SpeakingState` class, `format_output` |
| `feedback_agent.dfy` | `FeedbackAgent` | `generate_feedback` after the oracle call |
| `improvement_agent.dfy` | `ImprovementAgent` | `generate_improvements` after the oracle call |
| `writing_agent.dfy` | `WritingAgent` | `evaluate_task`, with the trace of oracle calls it makes |
| `evaluation_service.dfy` | `EvaluationService` | `get_rubric` |
| `main_api.dfy` | `MainApi` | the validation of `writing_submission`, and the speaking endpoint |

Several collaborators are parameters rather than code.

- The language model: each oracle is a function from its prompt's inputs to its reply.
- `json.loads` is `parse`; `float(str)` is `parseFloat`; `str()` of a non-string is `show`.
- The downloader and the speech-to-text service.
- The rubric document.

Python exceptions are values of `PyError` inside a `Result`. Scores are exact reals. Python's `round` is modelled as round-half-to-even on those reals.

Four behaviours of the code that the model keeps as they are:

- `_round_half` rounds ties to even (6.25 becomes 6.0), not half-up.
- `_extract_json` keeps a language tag after a fence. The brace-span fallback is what recovers the object.
- No band is clamped to [0, 9]. Instead, the range is proved to be kept when the part scores are in range.
- Missing categories contribute zero and still count in the divisor, as the code does.

## Model

| member | source | states |
|---|---|---|
| SpeakingJson.Unfence | Agent/speaking_agent.py:100-103 | the text handed to the parser is a slice of the oracle's text; without a fence at both ends it is just the stripped text; with one, the fenced case is stated by `UnfenceFenced` |
| SpeakingJson.UnfenceFenced | Agent/speaking_agent.py:100-103 | text made of whitespace, a run of at least three backticks, a body not starting or ending with a backtick, another such run and whitespace becomes the stripped body; a tag after the opening fence stays |
| SpeakingJson.BraceSpan | Agent/speaking_agent.py:107-109 | the regex finds a match iff some `}` follows some `{`; the match runs from the first `{` to the last `}` |
| SpeakingJson.ExtractJson | Agent/speaking_agent.py:97-113 | empty text gives None; any result is the parse of a slice of the oracle's text (the repair never invents content) |
| SpeakingJson.ExtractJsonOrder | Agent/speaking_agent.py:104-113 | the direct parse wins; only when it fails is the brace span parsed; no span gives None |
| SpeakingJson.ExtractJsonCleanInput | Agent/speaking_agent.py:100-105 | trimmed, unfenced text that parses is returned exactly as parsed |
| SpeakingJson.ExtractJsonFencedWithTag | Agent/speaking_agent.py:102-111 | a fenced answer tagged `json` fails the direct parse and is recovered from its brace span |
| SpeakingScores.RoundHalfEven | Agent/speaking_agent.py:116-117 | Python `round`: the nearest integer, within 0.5, a tie going to the even one |
| SpeakingScores.RoundHalf | Agent/speaking_agent.py:116-117 | `_round_half` gives the multiple of 0.5 nearest to its input, within 0.25; a tie goes to the whole number |
| SpeakingScores.RoundHalfTiesToEven | Agent/speaking_agent.py:116-117 | 6.25 rounds to 6.0 and 6.75 to 7.0 |
| SpeakingScores.RoundHalfInBandRange | Agent/speaking_agent.py:116-117 | rounding keeps a value in [0, 9] |
| SpeakingScores.Round1 | Agent/speaking_agent.py:254 | `round(x, 1)` gives the multiple of 0.1 nearest to x, within 0.05; a tie goes to the even tenth |
| SpeakingScores.Round1TiesToEven | Agent/speaking_agent.py:254 | 7.25 rounds to 7.2 and 7.75 to 7.8 |
| SpeakingScores.Round1InBandRange | Agent/speaking_agent.py:254 | rounding to one decimal keeps a value in [0, 9] |
| SpeakingScores.Aggregate | Agent/speaking_agent.py:241-256 | the aggregate is `{}` iff there are no parts; otherwise its keys are the five categories then `band`, each category is the rounded mean of its sums, and the band is on the half grid, nearest to the mean of the averages |
| SpeakingScores.AggregateScores | Agent/speaking_agent.py:241-256 | the accumulation loop computes exactly `Aggregate` |
| SpeakingScores.CategorySumPermutation | Agent/speaking_agent.py:245-251 | a category sum depends only on the multiset of part records |
| SpeakingScores.AggregateOrderIndependent | Agent/speaking_agent.py:241-256 | reordering or renaming the parts leaves the aggregate unchanged |
| SpeakingScores.Contribution | Agent/speaking_agent.py:248-251 | a part adds `float()` of its category's value (a number, a bool or a numeric string); a missing key, a non-dict part or a value `float()` rejects adds 0 |
| SpeakingScores.EmptyPartCountsAsZero | Agent/speaking_agent.py:248-254 | an empty record adds 0 to the sum but 1 to the divisor |
| SpeakingScores.AggregateInBandRange | Agent/speaking_agent.py:252-256 | with part scores in [0, 9], every average and the band are in [0, 9] |
| SpeakingScores.BandOfAggregate | Agent/speaking_agent.py:255-256 | the band is `_round_half` of the mean of the five rounded averages |
| SpeakingScores.AggregateSixAndEight | Agent/speaking_agent.py:241-256 | two parts scored 6 and 8 everywhere give 7.0 in every category and band 7.0 |
| SpeakingAgent.ErrorText | Agent/speaking_agent.py:71-73 | a failure transcript starts with "ERROR: " |
| SpeakingAgent.SafeTranscribe | Agent/speaking_agent.py:52-73 | never raises; every downloaded temporary file has its removal attempted before the call returns; when nothing was transcribed the text is an ERROR text |
| SpeakingAgent.SafeTranscribeCases | Agent/speaking_agent.py:56-73 | dispatch: non-string sources are unsupported; local paths go straight to the transcriber; a failed download is an ERROR text; a download is transcribed and the removal of its temp file is attempted last |
| SpeakingAgent.Resolve | Agent/speaking_agent.py:57-58 | a non-dict source is kept; a dict is replaced only by its truthy `audio_url` |
| SpeakingAgent.AudioUrlUnwrappedOnce | Agent/speaking_agent.py:57-58 | an `audio_url` holding a dict is not unwrapped again: unsupported source |
| SpeakingAgent.Transcripts | Agent/speaking_agent.py:183-190 | one transcript per response, same keys in the same order, each the `_safe_transcribe` text |
| SpeakingAgent.JointCheck | Agent/speaking_agent.py:211 | accepting the joint answer requires a truthy answer; on a dict it is "non-empty and has per_part and aggregated"; the `in` test raises TypeError exactly on a truthy number or boolean |
| SpeakingAgent.OrEmpty | Agent/speaking_agent.py:226 | a truthy repaired answer is kept as it is; otherwise (no parse, or a falsy value) the record is `{}` |
| SpeakingAgent.PerPartRecords | Agent/speaking_agent.py:219-227 | the fallback `per_part` has the transcript keys in order, each the repaired answer for that transcript, `{}` where the answer could not be repaired |
| SpeakingAgent.EnsureAggregated | Agent/speaking_agent.py:232-234 | `per_part` is kept; a truthy aggregate, or any aggregate beside a falsy `per_part`, is kept as it is; an empty aggregate beside a non-empty dict `per_part` is replaced by `Aggregate` of it; raises iff that `per_part` is not a dict |
| SpeakingAgent.Evaluate | Agent/speaking_agent.py:194-234 | fails with the no-transcripts ValueError iff there are no transcripts; any other failure is a TypeError or AttributeError |
| SpeakingAgent.EvaluateNeedsTranscripts | Agent/speaking_agent.py:196-198 | no transcripts raises ValueError with the fixed message |
| SpeakingAgent.EvaluateJointAccepted | Agent/speaking_agent.py:211-213 | a joint dict with both keys is taken as it is, bar the recomputation of an empty aggregate |
| SpeakingAgent.EvaluateFallback | Agent/speaking_agent.py:214-230 | whenever the joint check returns False (an absent or falsy answer, or a dict, list or string without both keys) the fallback never raises, `per_part` has exactly the transcript keys, and the aggregate is the joint answer when it has all five categories, else the local aggregate |
| SpeakingAgent.JointNumberRaises | Agent/speaking_agent.py:211 | a truthy number or boolean as joint answer makes the evaluation raise TypeError |
| SpeakingAgent.JointSequenceRaises | Agent/speaking_agent.py:211-213 | a truthy list or string joint answer holding both keys passes the `in` tests, then `parsed["per_part"]` raises TypeError |
| SpeakingAgent.EvaluateNeverLeavesEmptyAggregate | Agent/speaking_agent.py:229-234 | a successful evaluation with a non-empty `per_part` stores a non-empty aggregate |
| SpeakingAgent.CategoryFeedback | Agent/speaking_agent.py:276-287 | exactly the five categories, each the space-joined part entries |
| SpeakingAgent.ScoreOf | Agent/speaking_agent.py:289-296 | `score` has band and the five categories, each copied from the aggregate or None |
| SpeakingAgent.Report | Agent/speaking_agent.py:270-306 | formatting succeeds iff `per_part` is a dict of dicts and the aggregate is a dict, otherwise AttributeError; on success the report holds the ids, the transcripts, `per_part`, the aggregate, `CategoryFeedback` and `ScoreOf` |
| SpeakingAgent.EntriesShape | Agent/speaking_agent.py:278-287 | a category's text is empty iff no part has feedback on it; every entry is "part: text" of some part |
| SpeakingAgent.SharedFeedbackReused | Agent/speaking_agent.py:280-286 | a part whose feedback is not a dict gives the same text to every category |
| SpeakingAgent.CollectPerPart | Agent/speaking_agent.py:219-227 | the per-part loop builds exactly `PerPartRecords` |
| SpeakingAgent.EvaluateTranscripts | Agent/speaking_agent.py:194-234 | the node body computes exactly `Evaluate` |
| SpeakingAgent.CollectEntries | Agent/speaking_agent.py:278-286 | the inner loop raises iff some record is not a dict, else builds `Entries` |
| SpeakingAgent.SpeakingState.constructor | main.py:257 | the initial state holds ids and responses only |
| SpeakingAgent.SpeakingState.TranscribeNode | Agent/speaking_agent.py:183-190 | the node stores `Transcripts` of the responses, attempts the removal of every temporary file, and changes nothing else |
| SpeakingAgent.SpeakingState.EvaluateNode | Agent/speaking_agent.py:194-238 | on success stores the evaluation's `per_part` and aggregate; on a raise leaves the state unchanged; ids, responses, transcripts and the file-system record never change |
| SpeakingAgent.SpeakingState.FormatOutput | Agent/speaking_agent.py:270-306 | the output is `Report` of the state |
| FeedbackAgent.Clean | Agent/feedback_agent.py:47-52 | the cleaned text has no surrounding whitespace; unfenced text is only stripped; fenced text is de-fenced as `CleanFencedSteps` states |
| FeedbackAgent.Fallback | Agent/feedback_agent.py:67-68 | the fallback has the single key `feedback`, holding the cleaned text or the default message |
| FeedbackAgent.Interpret | Agent/feedback_agent.py:54-68 | always a dict; a parsed dict keeps its keys and values, except that `feedback` is replaced by a nested JSON string's inner feedback; anything else is the fallback |
| FeedbackAgent.GenerateFeedback | Agent/feedback_agent.py:47-68 | the cleaning steps then the parse compute `Interpret(Clean(content))` |
| FeedbackAgent.InterpretOutput | Agent/feedback_agent.py:54-68 | the try block computes `Interpret` |
| FeedbackAgent.UnwrapsOneLevel | Agent/feedback_agent.py:57-64 | a doubly nested feedback string is unwrapped once only |
| FeedbackAgent.CleanFencedSteps | Agent/feedback_agent.py:50-52 | a fenced answer loses its backticks at both ends, then the first "json" anywhere (if any), then the whitespace around |
| FeedbackAgent.UntaggedFenceLosesJson | Agent/feedback_agent.py:50-52 | an untagged fenced object whose text contains "json" loses that word from its text |
| FeedbackAgent.CleanTaggedFence | Agent/feedback_agent.py:47-52 | a fenced answer tagged `json` cleans to its body, with or without the closing fence |
| ImprovementAgent.Improvements | Agent/improvement_agent.py:51-54 | a parse is returned as it is; otherwise a one-element list holding the stripped text or the default message |
| ImprovementAgent.FallbackEntry | Agent/improvement_agent.py:53-54 | the fallback entry is never empty and is a slice of the reply or the default message |
| ImprovementAgent.FencedTakesFallback | Agent/improvement_agent.py:51-54 | a fenced reply is not de-fenced: it takes the fallback and keeps its fence |
| WritingAgent.Evaluate | Agent/writing_agent.py:97-154 | the scoring calls come first; a raising Task 1 call ends it with that call only; a result is always a dict |
| WritingAgent.Conclusion | Agent/writing_agent.py:121-154 | the earlier calls are kept as a prefix; a result has the keys band, feedback and improvements |
| WritingAgent.EvaluateTask | Agent/writing_agent.py:97-154 | the result and the oracle calls, in order, are those of `Evaluate` |
| WritingAgent.ScoreTasks | Agent/writing_agent.py:101-109 | at most one scoring call per task, Task 1 first; a raise ends the step |
| WritingAgent.Conclude | Agent/writing_agent.py:121-154 | band lookup, feedback and improvements as in `Conclusion` |
| WritingAgent.Advise | Agent/writing_agent.py:128-147 | the combined text; the feedback is `.get("feedback", "")` of the feedback agent's dict; the improvements object comes from that feedback |
| WritingAgent.CombineText | Agent/writing_agent.py:128-138 | the `+=` accumulation gives `CombinedQuestion` and `CombinedAnswer` |
| WritingAgent.Agents | Agent/writing_agent.py:141-142 | the feedback agent always returns a dict, so `.get` on it never raises |
| WritingAgent.Task1SentFirst | Agent/writing_agent.py:101-105 | Task 1 is the first call iff it qualifies, with the image only for academic |
| WritingAgent.Task1RaiseStops | Agent/writing_agent.py:101-105 | a raising Task 1 call ends the evaluation after that one call |
| WritingAgent.Task2Sent | Agent/writing_agent.py:107-109 | Task 2 is sent iff it qualifies and Task 1 did not raise |
| WritingAgent.NoValidTasksCase | Agent/writing_agent.py:111-112 | the error dict comes back iff nothing raised and no result is truthy; then only scoring calls were made |
| WritingAgent.CombinedWhenBoth | Agent/writing_agent.py:115-120 | the combiner is called iff both results are truthy, with them in task order |
| WritingAgent.SingleResultPassedThrough | Agent/writing_agent.py:117-121 | a single truthy result's band is the final band, or its KeyError is raised |
| WritingAgent.ReportShape | Agent/writing_agent.py:140-154 | keys are band, feedback and improvements; the last two calls are feedback then improvements on the combined text; the values come from the two agents |
| WritingAgent.AttributeErrorFromImprovements | Agent/writing_agent.py:146-147 | AttributeError is raised only when the improvement reply parses to a non-dict |
| WritingAgent.ConclusionAttributeError | Agent/writing_agent.py:140-147 | after a feedback agent that always returns a dict, the only AttributeError is the `.get` on a non-dict improvements object, after the improvement call |
| WritingAgent.CombinedTextOrder | Agent/writing_agent.py:128-138 | the Task 1 section precedes the Task 2 section |
| WritingAgent.CombinedTextHasTask1 | Agent/writing_agent.py:132-134 | a Task 1 section is present iff its question and answer are given |
| WritingAgent.UnscoredTask1StillShown | Agent/writing_agent.py:102-134 | an academic Task 1 without an image is not scored, yet it is still shown to the advice oracles |
| EvaluationService.TestTypeKey | Services/evaluation_service.py:27 | same length; spaces become `_`, letters are lowered; the key has no space and no upper-case letter |
| EvaluationService.GetRubric | Services/evaluation_service.py:18-32 | ValueError for an unknown task type or a Task 1 lookup without a test type; Task 2 is `.get("task2", {})`; Task 1 is the normalised key in the `task1` section, or `{}` |
| EvaluationService.KnownTestTypeKeys | Services/evaluation_service.py:27 | "general training" maps to "general_training" and "academic" to itself |
| EvaluationService.TestTypeKeyIgnoresCase | Services/evaluation_service.py:27 | capitalised test types find the same section |
| EvaluationService.TestTypeKeyIdempotent | Services/evaluation_service.py:27 | normalising twice changes nothing |
| EvaluationService.Task2IgnoresTestType | Services/evaluation_service.py:29-30 | the Task 2 section does not depend on the test type; `{}` when absent |
| EvaluationService.MissingVariantIsEmpty | Services/evaluation_service.py:28 | a Task 1 variant the document lacks gives `{}` |
| EvaluationService.UnloadedDocument | Services/evaluation_service.py:7-30 | with the document not loaded, Task 1 raises KeyError("task1") and Task 2 gives `{}` |
| EvaluationService.LookupSucceeds | Services/evaluation_service.py:18-32 | exactly when a lookup succeeds |
| MainApi.LowerOfTestTypes | main.py:139 | the lower-cased academic test only separates the two accepted spellings |
| MainApi.Validate | main.py:134-151 | every rejection is a 400 carrying one of the four fixed messages |
| MainApi.AcceptedIffComplete | main.py:135-151 | a submission passes validation iff it is complete, field by field |
| MainApi.RejectionOrder | main.py:135-151 | every rejection is a 400; the first failing check (test type, then Task 1, then Task 2) picks the message |
| MainApi.AcceptedScoresBothTasks | main.py:139-153 | an accepted submission has both tasks scored and a Task 1 section in the text |
| MainApi.HandleAsWritten | main.py:152-168 | whatever was raised, the `except request.Timeout` lookup raises AttributeError, which escapes |
| MainApi.WritingSubmission | main.py:132-168 | validation, then `evaluate_task` with the corrected exception handler; no oracle call on a rejection |
| MainApi.NothingEscapes | main.py:152-168 | with the corrected handler nothing escapes: 400 iff validation rejects, the 500 detail iff the evaluation raised |
| MainApi.ErrorsEscapeAsWritten | main.py:152-168 | as written, every evaluation error escapes as an AttributeError instead of the 500 reply |
| MainApi.CollectResponses | main.py:243-251 | one entry per uploaded part under its key, no other keys, unique keys; empty iff nothing was uploaded |
| MainApi.Record | main.py:251 | records the part under its key and leaves the other keys alone |
| MainApi.ResponsesInPartOrder | main.py:245-251 | the keys are the uploaded parts in the order part_1, part_2, part_3 |
| MainApi.SpeakingEndpoint | main.py:234-264 | a 400 with the fixed message iff no part was uploaded; otherwise the graph's report, or a 500 carrying the error |
| MainApi.UploadedPartsAreTranscribed | main.py:243-258 | with any upload, every part gets a transcript, so evaluation never fails for want of transcripts |

## Left out

- The prompts, the language-model client, and `_extract_text_from_genai_response` are left out. Each oracle is a function parameter from the prompt's inputs to the reply text.
- `score_task` and `combine_results` (Agent/scoring_agent.py) are oracles returning the parse of the model's reply. Their failure is a single `DecodeError`. That one error also stands for the `KeyError("task1")` that `get_rubric` (Services/evaluation_service.py:28) raises inside `score_task` (Agent/scoring_agent.py:13) when the rubric document did not load; `EvaluationService.UnloadedDocument` states when that happens.
- The JSON grammar is left out: `json.loads` is the parameter `parse`.
  - Duplicate keys are not modelled.
  - Floating point is modelled as exact reals: there is no binary rounding error, no NaN and no infinity.
- Speech-to-text and text-to-speech services are left out (Services/asr_service.py, Services/tts_service.py).
  - The download is a parameter returning a temporary path or an error message.
  - A temporary file leaked inside `_download_to_temp` itself, when it fails after creating the file, is not modelled.
- `lower()` is modelled on ASCII letters only.
- Saving uploads is left out: the file names, the clock, and the disk. An upload is given as the path it was saved to.
- Loading the rubric file is left out: the document is a parameter, and a load failure is `{}`.
- Logging and `print` calls are left out.
- The other FastAPI endpoints are left out, as is response-model validation.
- The LangGraph wiring is modelled as the composition transcribe, then evaluate, then `format_output`, over a `SpeakingState` object.
- `str()` of a non-string value inside an f-string is the parameter `show`.
- SpeakingAgent.SafeTranscribe: a failing `os.remove` is swallowed (Agent/speaking_agent.py:64-67), so a temporary file can stay on disk; the model records the attempt and counts it as a removal.
- The `Timeout` and `ConnectionError` clauses of `writing_submission` are left out: network errors are not errors of this model.
- The speaking, feedback and improvement model calls (Agent/speaking_agent.py:203 and 224, Agent/feedback_agent.py:46, Agent/improvement_agent.py:49) are assumed to answer: their errors and exceptions are not modelled.
- MainApi.WritingSubmission: uses the corrected exception handler, not the one as written (see Findings).

## Findings

| source | as written | input that shows it | evidently intended | confidence | as-written member | corrected member |
|---|---|---|---|---|---|---|
| main.py:154-168 | `except request.Timeout:` looks up `Timeout` on the `TaskSubmission` request model, which has no such attribute. The lookup raises AttributeError, which replaces the exception being handled. | A valid submission whose scoring reply is not JSON, so `evaluate_task` raises | The catch-all clause answers 500 "Unexpected server error. Please try again later." | not executed; high | MainApi.ErrorsEscapeAsWritten | MainApi.NothingEscapes |
