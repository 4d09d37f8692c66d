/**
 * `get_rubric` of Services/evaluation_service.py: the rubric section for a
 * writing task, looked up in the band-descriptor document. The document is a
 * parameter; loading it from disk is not part of this model, and a document
 * that failed to load is the empty dict.
 */
module EvaluationService {
  import opened Wrappers
  import opened PyText
  import opened PyDict
  import opened JsonValue

  const MissingTestType: string := "test_type is required for task1 rubric lookup"
  const InvalidTaskType: string := "Invalid task_type: "

  /** `test_type.lower().replace(" ", "_")`. */
  function TestTypeKey(testType: string): (r: string)
    ensures |r| == |testType|
    ensures forall i :: 0 <= i < |r| ==> r[i] == (if testType[i] == ' ' then '_' else LowerChar(testType[i]))
    ensures forall i :: 0 <= i < |r| ==> r[i] != ' ' && !('A' <= r[i] <= 'Z')
  {
    ReplaceChar(Lower(testType), ' ', '_')
  }

  /** `get_rubric(task_type, test_type)`; None is a test_type that was not passed. */
  function GetRubric(rubrics: Json, taskType: string, testType: Option<string>): (r: Result<Json, PyError>)
    ensures taskType != "task1" && taskType != "task2" ==> r == Err(ValueError(InvalidTaskType + taskType))
    ensures taskType == "task1" && !Given(testType) ==> r == Err(ValueError(MissingTestType))
    ensures taskType == "task2" && rubrics.JObj? ==> r == Ok(GetOr(rubrics.fields, "task2", JObj([])))
    ensures taskType == "task1" && Given(testType) && rubrics.JObj? && HasKey(rubrics.fields, "task1") ==>
              var section := Get(rubrics.fields, "task1").value;
              r == (if section.JObj? then Ok(GetOr(section.fields, TestTypeKey(testType.value), JObj([])))
                    else Err(AttributeError))
  {
    if taskType == "task1" then
      if !Given(testType) then Err(ValueError(MissingTestType))
      else
        var key := TestTypeKey(testType.value);
        match Subscript(rubrics, "task1")
        case Err(e) => Err(e)
        case Ok(section) => GetAttr(section, key, JObj([]))
    else if taskType == "task2" then
      GetAttr(rubrics, "task2", JObj([]))
    else
      Err(ValueError(InvalidTaskType + taskType))
  }


  /** The two test types the API accepts map to the keys of the document. */
  lemma {:induction false} KnownTestTypeKeys()
    ensures TestTypeKey("general training") == "general_training"
    ensures TestTypeKey("academic") == "academic"
  {
    var g := TestTypeKey("general training");
    assert forall i :: 0 <= i < |g| ==> g[i] == "general_training"[i];
    var a := TestTypeKey("academic");
    assert forall i :: 0 <= i < |a| ==> a[i] == "academic"[i];
  }

  /** The lookup ignores case: a capitalised test type finds the same section. */
  lemma {:induction false} TestTypeKeyIgnoresCase()
    ensures TestTypeKey("General Training") == TestTypeKey("general training")
    ensures TestTypeKey("Academic") == TestTypeKey("academic")
  {
    var g1, g2 := TestTypeKey("General Training"), TestTypeKey("general training");
    assert forall i :: 0 <= i < |g1| ==> g1[i] == g2[i];
    var a1, a2 := TestTypeKey("Academic"), TestTypeKey("academic");
    assert forall i :: 0 <= i < |a1| ==> a1[i] == a2[i];
  }

  /** Normalising a key again changes nothing. */
  lemma {:induction false} TestTypeKeyIdempotent(testType: string)
    ensures TestTypeKey(TestTypeKey(testType)) == TestTypeKey(testType)
  {
    var k := TestTypeKey(testType);
    var kk := TestTypeKey(k);
    forall i | 0 <= i < |k|
      ensures kk[i] == k[i]
    {
      assert k[i] != ' ' && !('A' <= k[i] <= 'Z');
    }
  }

  /** The Task 2 section does not depend on the test type. */
  lemma Task2IgnoresTestType(rubrics: Json, t1: Option<string>, t2: Option<string>)
    ensures GetRubric(rubrics, "task2", t1) == GetRubric(rubrics, "task2", t2)
    ensures rubrics.JObj? && !HasKey(rubrics.fields, "task2") ==> GetRubric(rubrics, "task2", t1) == Ok(JObj([]))
  {
  }

  /** A Task 1 variant the document lacks is the empty dict. */
  lemma MissingVariantIsEmpty(rubrics: Json, testType: string)
    requires testType != []
    requires rubrics.JObj? && HasKey(rubrics.fields, "task1")
    requires var section := Get(rubrics.fields, "task1").value;
             section.JObj? && !HasKey(section.fields, TestTypeKey(testType))
    ensures GetRubric(rubrics, "task1", Some(testType)) == Ok(JObj([]))
  {
  }

  /** When the document failed to load, every Task 1 lookup with a test type
      raises KeyError on "task1", while Task 2 still gets the empty dict. */
  lemma UnloadedDocument(testType: Option<string>)
    ensures Given(testType) ==> GetRubric(JObj([]), "task1", testType) == Err(KeyError("task1"))
    ensures GetRubric(JObj([]), "task2", testType) == Ok(JObj([]))
  {
  }

  /** A lookup succeeds exactly for Task 2 on a dict, or for Task 1 with a
      test type on a dict whose "task1" section is a dict. */
  lemma LookupSucceeds(rubrics: Json, taskType: string, testType: Option<string>)
    ensures GetRubric(rubrics, taskType, testType).Ok? <==>
              || (taskType == "task2" && rubrics.JObj?)
              || (taskType == "task1" && Given(testType) && rubrics.JObj? && HasKey(rubrics.fields, "task1")
                  && Get(rubrics.fields, "task1").value.JObj?)
  {
  }
}
