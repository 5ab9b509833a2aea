/** The Answer entity and the meaning of each store operation as a function
    on the stored sequence of answers, with the properties the store's
    behaviour rests on. */
module Answers {
  import opened Errors

  /** An answer to a question; `questionId` refers to a question in the
      question store. */
  datatype Answer = Answer(id: int, questionId: int, title: string, body: string)

  datatype Option<T> = None | Some(value: T)

  /** The index of the first stored answer with the given id, if any. */
  function Position(s: seq<Answer>, id: int): (r: Option<nat>)
    ensures r.Some? ==> r.value < |s| && s[r.value].id == id
    ensures r.Some? ==> forall j :: 0 <= j < r.value ==> s[j].id != id
    ensures r.None? <==> forall j :: 0 <= j < |s| ==> s[j].id != id
  {
    if s == [] then None
    else if s[0].id == id then Some(0)
    else match Position(s[1..], id)
      case None => None
      case Some(k) => Some(k + 1)
  }

  /** What `find(id)` returns: the first answer with that id, or the
      "Answer id not found(<id>)" error. */
  function Lookup(s: seq<Answer>, id: int): (r: Result<Answer>)
    ensures r.Success? <==> exists j :: 0 <= j < |s| && s[j].id == id
    ensures r.Success? ==> r.value in s && r.value.id == id
    ensures r.Failure? ==> r.error == AnswerNotFound(id)
  {
    match Position(s, id)
    case Some(k) => Success(s[k])
    case None => Failure(AnswerNotFound(id))
  }

  /** The collection after `update(id, a)`: the first answer with that id is
      replaced by `a` carrying the old id; nothing changes when the id is
      absent. */
  function Updated(s: seq<Answer>, id: int, a: Answer): (r: seq<Answer>)
    ensures |r| == |s|
    ensures Position(s, id).Some? ==>
      var k := Position(s, id).value;
      r[k] == a.(id := id) && forall j :: 0 <= j < |s| && j != k ==> r[j] == s[j]
    ensures Position(s, id).None? ==> r == s
  {
    match Position(s, id)
    case Some(k) => s[k := a.(id := id)]
    case None => s
  }

  /** The collection after `remove(id)`: the first answer with that id is
      deleted, the others keep their order; nothing changes when the id is
      absent. */
  function Removed(s: seq<Answer>, id: int): (r: seq<Answer>)
    ensures Position(s, id).Some? ==>
      var k := Position(s, id).value;
      |r| == |s| - 1 && r[..k] == s[..k] && r[k..] == s[k + 1..]
    ensures Position(s, id).None? ==> r == s
  {
    match Position(s, id)
    case Some(k) => s[..k] + s[k + 1..]
    case None => s
  }

  /** The answers to question q, in stored order. */
  function WithQuestion(s: seq<Answer>, q: int): seq<Answer> {
    if s == [] then []
    else (if s[0].questionId == q then [s[0]] else []) + WithQuestion(s[1..], q)
  }

  /** The answers to questions other than q, in stored order. */
  function WithoutQuestion(s: seq<Answer>, q: int): seq<Answer> {
    if s == [] then []
    else (if s[0].questionId == q then [] else [s[0]]) + WithoutQuestion(s[1..], q)
  }

  /** No two stored answers share an id. */
  ghost predicate UniqueIds(s: seq<Answer>) {
    forall i, j :: 0 <= i < j < |s| ==> s[i].id != s[j].id
  }

  // ---------------------------------------------------------------------
  // Filtering distributes over concatenation.

  lemma {:induction false} WithQuestionAppend(s: seq<Answer>, t: seq<Answer>, q: int)
    ensures WithQuestion(s + t, q) == WithQuestion(s, q) + WithQuestion(t, q)
  {
    if s == [] {
      assert s + t == t;
    } else {
      var u := s + t;
      assert u[0] == s[0] && u[1..] == s[1..] + t;
      WithQuestionAppend(s[1..], t, q);
      var head := if s[0].questionId == q then [s[0]] else [];
      calc {
        WithQuestion(u, q);
        head + WithQuestion(s[1..] + t, q);
        head + (WithQuestion(s[1..], q) + WithQuestion(t, q));
        (head + WithQuestion(s[1..], q)) + WithQuestion(t, q);
      }
    }
  }

  lemma {:induction false} WithoutQuestionAppend(s: seq<Answer>, t: seq<Answer>, q: int)
    ensures WithoutQuestion(s + t, q) == WithoutQuestion(s, q) + WithoutQuestion(t, q)
  {
    if s == [] {
      assert s + t == t;
    } else {
      var u := s + t;
      assert u[0] == s[0] && u[1..] == s[1..] + t;
      WithoutQuestionAppend(s[1..], t, q);
      var head := if s[0].questionId == q then [] else [s[0]];
      calc {
        WithoutQuestion(u, q);
        head + WithoutQuestion(s[1..] + t, q);
        head + (WithoutQuestion(s[1..], q) + WithoutQuestion(t, q));
        (head + WithoutQuestion(s[1..], q)) + WithoutQuestion(t, q);
      }
    }
  }

  /** The query for q returns every stored answer to q, as often as it is
      stored, and nothing else. */
  lemma {:induction false} WithQuestionCounts(s: seq<Answer>, q: int)
    ensures forall x :: multiset(WithQuestion(s, q))[x] == (if x.questionId == q then multiset(s)[x] else 0)
  {
    if s != [] {
      assert s == [s[0]] + s[1..];
      WithQuestionCounts(s[1..], q);
    }
  }

  /** Removing the answers to q keeps every other stored answer, as often as
      it is stored, and nothing else. */
  lemma {:induction false} WithoutQuestionCounts(s: seq<Answer>, q: int)
    ensures forall x :: multiset(WithoutQuestion(s, q))[x] == (if x.questionId == q then 0 else multiset(s)[x])
  {
    if s != [] {
      assert s == [s[0]] + s[1..];
      WithoutQuestionCounts(s[1..], q);
    }
  }

  /** One more answer at the end of the list: the shape of a scan step. */
  lemma WithQuestionSnoc(s: seq<Answer>, x: Answer, q: int)
    ensures WithQuestion(s + [x], q) == WithQuestion(s, q) + if x.questionId == q then [x] else []
  {
    WithQuestionAppend(s, [x], q);
    assert [x][1..] == [];
  }

  lemma WithoutQuestionSnoc(s: seq<Answer>, x: Answer, q: int)
    ensures WithoutQuestion(s + [x], q) == WithoutQuestion(s, q) + if x.questionId == q then [] else [x]
  {
    WithoutQuestionAppend(s, [x], q);
    assert [x][1..] == [];
  }

  // ---------------------------------------------------------------------
  // Properties of the operations.

  /** After adding an answer whose id is not yet stored, looking that id up
      gives back exactly the answer added. */
  lemma {:induction false} LookupAfterAdd(s: seq<Answer>, a: Answer)
    requires Position(s, a.id).None?
    ensures Lookup(s + [a], a.id) == Success(a)
  {
    assert (s + [a])[|s|] == a;
    assert forall j :: 0 <= j < |s| ==> (s + [a])[j] == s[j];
  }

  /** Adding an answer leaves the lookup of every other id as it was. */
  lemma LookupOtherAfterAdd(s: seq<Answer>, a: Answer, id: int)
    requires id != a.id
    ensures Lookup(s + [a], id) == Lookup(s, id)
  {
    assert forall j :: 0 <= j < |s| ==> (s + [a])[j] == s[j];
    match Position(s, id)
    case Some(k) =>
      assert Position(s + [a], id) == Some(k);
    case None =>
      assert Position(s + [a], id) == None;
  }

  /** After `update(id, a)` on a stored id, looking the id up gives `a` with
      the id preserved. */
  lemma LookupAfterUpdate(s: seq<Answer>, id: int, a: Answer)
    requires Position(s, id).Some?
    ensures Lookup(Updated(s, id, a), id) == Success(a.(id := id))
  {
  }

  /** Removing a stored id takes exactly one answer away from its question's
      answers and leaves every other question's answers as they were. */
  lemma RemoveDropsOne(s: seq<Answer>, id: int, q: int)
    requires Position(s, id).Some?
    ensures var victim := s[Position(s, id).value];
      |WithQuestion(Removed(s, id), q)| ==
        if victim.questionId == q then |WithQuestion(s, q)| - 1 else |WithQuestion(s, q)|
  {
    var k := Position(s, id).value;
    assert s == s[..k] + [s[k]] + s[k + 1..];
    WithQuestionAppend(s[..k] + [s[k]], s[k + 1..], q);
    WithQuestionAppend(s[..k], [s[k]], q);
    WithQuestionAppend(s[..k], s[k + 1..], q);
    assert [s[k]][1..] == [];
  }

  /** With unique ids, a removed id can no longer be found. */
  lemma LookupAfterRemove(s: seq<Answer>, id: int)
    requires UniqueIds(s)
    ensures Lookup(Removed(s, id), id) == Failure(AnswerNotFound(id))
  {
  }

  /** After `removeAnswersByQuestionId(q)` the question has no answers left. */
  lemma {:induction false} NoAnswersAfterRemoveByQuestion(s: seq<Answer>, q: int)
    ensures WithQuestion(WithoutQuestion(s, q), q) == []
  {
    if s != [] {
      var rest := WithoutQuestion(s[1..], q);
      NoAnswersAfterRemoveByQuestion(s[1..], q);
      if s[0].questionId == q {
        assert WithoutQuestion(s, q) == rest;
      } else {
        assert WithoutQuestion(s, q) == [s[0]] + rest;
        WithQuestionAppend([s[0]], rest, q);
        assert [s[0]][1..] == [];
      }
    }
  }

  /** `removeAnswersByQuestionId(q)` leaves the answers of every other question
      untouched, in their order. */
  lemma {:induction false} OthersKeptByRemoveByQuestion(s: seq<Answer>, q: int, other: int)
    requires other != q
    ensures WithQuestion(WithoutQuestion(s, q), other) == WithQuestion(s, other)
  {
    if s != [] {
      var rest := WithoutQuestion(s[1..], q);
      OthersKeptByRemoveByQuestion(s[1..], q, other);
      if s[0].questionId == q {
        assert WithoutQuestion(s, q) == rest;
        assert WithQuestion(s, other) == WithQuestion(s[1..], other);
      } else {
        assert WithoutQuestion(s, q) == [s[0]] + rest;
        WithQuestionAppend([s[0]], rest, other);
        assert [s[0]][1..] == [];
      }
    }
  }

  /** When every stored answer belongs to q, the query for q returns them all. */
  lemma {:induction false} WithQuestionAll(s: seq<Answer>, q: int)
    requires forall j :: 0 <= j < |s| ==> s[j].questionId == q
    ensures WithQuestion(s, q) == s
  {
    if s != [] {
      WithQuestionAll(s[1..], q);
    }
  }

  // ---------------------------------------------------------------------
  // Unique ids are kept by every operation (by add when the id is fresh).

  lemma AddKeepsUniqueIds(s: seq<Answer>, a: Answer)
    requires UniqueIds(s) && Position(s, a.id).None?
    ensures UniqueIds(s + [a])
  {
  }

  lemma UpdateKeepsUniqueIds(s: seq<Answer>, id: int, a: Answer)
    requires UniqueIds(s)
    ensures UniqueIds(Updated(s, id, a))
  {
  }

  lemma RemoveKeepsUniqueIds(s: seq<Answer>, id: int)
    requires UniqueIds(s)
    ensures UniqueIds(Removed(s, id))
  {
  }

  lemma {:induction false} RemoveByQuestionKeepsUniqueIds(s: seq<Answer>, q: int)
    requires UniqueIds(s)
    ensures UniqueIds(WithoutQuestion(s, q))
  {
    if s != [] {
      var t := WithoutQuestion(s[1..], q);
      RemoveByQuestionKeepsUniqueIds(s[1..], q);
      if s[0].questionId != q {
        WithoutQuestionCounts(s[1..], q);
        forall j | 0 <= j < |t| ensures t[j].id != s[0].id {
          assert multiset(t)[t[j]] > 0;
          assert t[j] in s[1..];
        }
      }
    }
  }
}
