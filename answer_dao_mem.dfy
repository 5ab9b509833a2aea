/** The in-memory answer store: a mutable list of answers that checks the
    referenced question against an injected question store. */
module AnswerDao {
  import opened Errors
  import opened Answers

  /** The question store's `find`, as the answer store sees it: the lookup
      either succeeds (the question itself is not needed) or raises an error,
      whose message is the question store's own. */
  type QuestionLookup = int -> Outcome

  class AnswerDaoMem {
    /** The stored answers, in insertion order. */
    var answers: seq<Answer>
    /** The question store this answer store was built with. */
    const questions: QuestionLookup

    constructor (questions: QuestionLookup)
      ensures this.questions == questions
      ensures answers == []
    {
      this.questions := questions;
      answers := [];
    }

    /** Replaces the whole collection (the test suite empties it before each
        test). */
    method SetAnswers(s: seq<Answer>)
      modifies this
      ensures answers == s
    {
      answers := s;
    }

    /** Looks the answer's question up first; on failure the question store's
        error is returned unchanged and nothing is stored, otherwise the answer
        is appended. */
    method Add(a: Answer) returns (o: Outcome)
      modifies this
      ensures o == questions(a.questionId)
      ensures answers == if o.Pass? then old(answers) + [a] else old(answers)
    {
      o := questions(a.questionId);
      if o.Pass? {
        answers := answers + [a];
      }
    }

    /** Scans the collection for the first answer with the given id. */
    method Locate(id: int) returns (k: Option<nat>)
      ensures k == Position(answers, id)
    {
      var i := 0;
      while i < |answers|
        invariant 0 <= i <= |answers|
        invariant forall j :: 0 <= j < i ==> answers[j].id != id
      {
        if answers[i].id == id {
          return Some(i);
        }
        i := i + 1;
      }
      return None;
    }

    /** The first stored answer with the given id, or "Answer id not found(<id>)". */
    method Find(id: int) returns (r: Result<Answer>)
      ensures r == Lookup(answers, id)
      ensures r.Failure? ==> r.error.message == Render(AnswerKind, id)
    {
      var k := Locate(id);
      match k
      case Some(i) => r := Success(answers[i]);
      case None => r := Failure(AnswerNotFound(id));
    }

    /** Replaces the stored answer with the given id by `a`, keeping the id;
        the new question id is not checked against the question store. */
    method Update(id: int, a: Answer) returns (o: Outcome)
      modifies this
      ensures o == if Position(old(answers), id).Some? then Pass else Fail(AnswerNotFound(id))
      ensures answers == Updated(old(answers), id, a)
    {
      var k := Locate(id);
      match k
      case Some(i) =>
        answers := answers[i := a.(id := id)];
        o := Pass;
      case None =>
        o := Fail(AnswerNotFound(id));
    }

    /** Deletes the stored answer with the given id. */
    method Remove(id: int) returns (o: Outcome)
      modifies this
      ensures o == if Position(old(answers), id).Some? then Pass else Fail(AnswerNotFound(id))
      ensures answers == Removed(old(answers), id)
    {
      var k := Locate(id);
      match k
      case Some(i) =>
        answers := answers[..i] + answers[i + 1..];
        o := Pass;
      case None =>
        o := Fail(AnswerNotFound(id));
    }

    /** Looks the question up first, passing its error on unchanged; then
        collects, in stored order, every answer to that question. */
    method GetAnswersByQuestionId(q: int) returns (r: Result<seq<Answer>>)
      ensures questions(q).Fail? ==> r == Failure(questions(q).error)
      ensures questions(q).Pass? ==> r == Success(WithQuestion(answers, q))
    {
      var o := questions(q);
      if o.Fail? {
        return Failure(o.error);
      }
      var found := [];
      var i := 0;
      while i < |answers|
        invariant 0 <= i <= |answers|
        invariant found == WithQuestion(answers[..i], q)
      {
        assert answers[..i + 1] == answers[..i] + [answers[i]];
        WithQuestionSnoc(answers[..i], answers[i], q);
        if answers[i].questionId == q {
          found := found + [answers[i]];
        }
        i := i + 1;
      }
      assert answers[..i] == answers;
      return Success(found);
    }

    /** Deletes every answer to question q and keeps the others in order; the
        question store is not consulted. */
    method RemoveAnswersByQuestionId(q: int)
      modifies this
      ensures answers == WithoutQuestion(old(answers), q)
    {
      var s := answers;
      var kept := [];
      var i := 0;
      while i < |s|
        invariant 0 <= i <= |s|
        invariant kept == WithoutQuestion(s[..i], q)
      {
        assert s[..i + 1] == s[..i] + [s[i]];
        WithoutQuestionSnoc(s[..i], s[i], q);
        if s[i].questionId != q {
          kept := kept + [s[i]];
        }
        i := i + 1;
      }
      assert s[..i] == s;
      answers := kept;
    }
  }
}
