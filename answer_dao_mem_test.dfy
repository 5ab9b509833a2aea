/** The scenarios of the store's test suite, each as a client of the store
    whose postcondition is what the test asserts. The mocked question store
    becomes a lookup function: an id it was not told to reject succeeds (an
    unstubbed mock returns null instead of throwing), a rejected id raises
    the error the test configured. An Answer whose id the test never sets
    carries id 0. */
module AnswerDaoMemTest {
  import opened Errors
  import opened Answers
  import opened AnswerDao

  /** A question store that knows every question. */
  function AllQuestionsExist(): QuestionLookup {
    q => Pass
  }

  /** A question store that rejects one id with the given message. */
  function RejectingQuestion(rejected: int, message: string): QuestionLookup {
    q => if q == rejected then Fail(NotFound(QuestionKind, rejected, message)) else Pass
  }

  /** A fresh answer store over the given question store, emptied as before
      each test. */
  method Init(questions: QuestionLookup) returns (dao: AnswerDaoMem)
    ensures fresh(dao) && dao.questions == questions && dao.answers == []
  {
    dao := new AnswerDaoMem(questions);
    dao.SetAnswers([]);
  }

  /** Four answers with ids 0..3, all to question q, as the test loops add them. */
  method AddFourAnswers(dao: AnswerDaoMem, q: int)
    requires dao.answers == [] && dao.questions(q) == Pass
    modifies dao
    ensures dao.answers == seq(4, j => Answer(j, q, "test", "test"))
  {
    for i := 0 to 4
      invariant dao.answers == seq(i, j => Answer(j, q, "test", "test"))
    {
      var answer := Answer(i, q, "test", "test");
      var o := dao.Add(answer);
      assert dao.answers == seq(i + 1, j => Answer(j, q, "test", "test"));
    }
  }

  method AddAnswerWithExistingQuestionId() returns (found: Result<Answer>, expected: Answer)
    ensures found == Success(expected)
  {
    var dao := Init(AllQuestionsExist());
    expected := Answer(0, 0, "Test", "test");
    var o := dao.Add(expected);
    LookupAfterAdd([], expected);
    found := dao.Find(0);
  }

  method AddAnswerWithNonExistingQuestionId() returns (o: Outcome)
    ensures o.Fail? && o.error.message == "Question id not found (2)"
  {
    var dao := Init(RejectingQuestion(2, "Question id not found (2)"));
    var answer := Answer(0, 2, "test", "test");
    o := dao.Add(answer);
  }

  method FindAnswerWithExistingId() returns (found: Result<Answer>, answer: Answer)
    ensures found == Success(answer)
  {
    var dao := Init(AllQuestionsExist());
    answer := Answer(2, 0, "test", "test");
    var o := dao.Add(answer);
    LookupAfterAdd([], answer);
    found := dao.Find(2);
  }

  method FindAnswerWithNonExistingId() returns (r: Result<Answer>)
    ensures r.Failure? && r.error.message == "Answer id not found(100)"
  {
    var dao := Init(AllQuestionsExist());
    r := dao.Find(100);
    assert NatDigits(100) == "100";
  }

  method RemoveAnswerWithExistingId() returns (r: Result<seq<Answer>>)
    ensures r.Success? && |r.value| == 3
  {
    var dao := Init(AllQuestionsExist());
    AddFourAnswers(dao, 0);
    ghost var s := dao.answers;
    assert s[0].id == 0;
    var o := dao.Remove(0);
    assert dao.answers == s[1..];
    r := dao.GetAnswersByQuestionId(0);
    WithQuestionAll(s[1..], 0);
  }

  method RemoveAnswerWithNonExistingId() returns (o: Outcome)
    ensures o.Fail? && o.error.message == "Answer id not found(200)"
  {
    var dao := Init(AllQuestionsExist());
    o := dao.Remove(200);
    assert NatDigits(200) == "200";
  }

  method UpdateAnswerWithExistingId() returns (found: Result<Answer>, updated: Answer)
    ensures found == Success(updated)
  {
    var dao := Init(AllQuestionsExist());
    var answer := Answer(0, 0, "test", "test");
    var o := dao.Add(answer);
    updated := Answer(0, 0, "updated", "updated");
    o := dao.Update(0, updated);
    LookupAfterUpdate([answer], 0, updated);
    found := dao.Find(0);
  }

  method UpdateAnswerWithNonExistingId() returns (o: Outcome)
    ensures o.Fail? && o.error.message == "Answer id not found(3000)"
  {
    var dao := Init(AllQuestionsExist());
    var updated := Answer(0, 0, "updated", "updated");
    o := dao.Update(3000, updated);
    assert NatDigits(3000) == "3000";
  }

  method GetAnswerByQuestionIdWithExistingQuestionId() returns (r: Result<seq<Answer>>)
    ensures r.Success? && |r.value| == 4
  {
    var dao := Init(AllQuestionsExist());
    AddFourAnswers(dao, 0);
    r := dao.GetAnswersByQuestionId(0);
    WithQuestionAll(dao.answers, 0);
  }

  method GetAnswerByQuestionIdWithNonExistingQuestionId() returns (r: Result<seq<Answer>>)
    ensures r.Failure? && r.error.message == "Question id not found(3000)"
  {
    var dao := Init(RejectingQuestion(3000, "Question id not found(3000)"));
    r := dao.GetAnswersByQuestionId(3000);
  }

  method RemoveAnswersByQuestionIdWithExistingQuestionId() returns (r: Result<seq<Answer>>)
    ensures r.Success? && |r.value| == 0
  {
    var dao := Init(AllQuestionsExist());
    AddFourAnswers(dao, 0);
    ghost var s := dao.answers;
    dao.RemoveAnswersByQuestionId(0);
    r := dao.GetAnswersByQuestionId(0);
    NoAnswersAfterRemoveByQuestion(s, 0);
  }
}
