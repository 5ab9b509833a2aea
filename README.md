# In-memory Answer store of the Question/Answer back end

This project models `AnswerDaoMem`, the in-memory data-access object for
answers in a small Question/Answer web application. An answer has an `id`, a
`questionId`, a `title` and a `body`. The store keeps a mutable list of
answers and offers these operations:

- `add`, `find`, `update` and `remove`, by answer id;
- `getAnswersByQuestionId`, a query by question id;
- `removeAnswersByQuestionId`, a bulk delete by question id;
- `setAnswers`, which replaces the list and is used to empty it before each
  test.

`add` and `getAnswersByQuestionId` first look the question up in the question
store (`QuestionDao.find`). When that lookup raises an error, the store passes
it on without change. When an answer id is missing, the store raises its own
error, with the message `Answer id not found(<id>)`.

The implementation of `AnswerDaoMem` is not part of this model's sources. Its
behaviour is fixed by the test suite `AnswerDaoMemTest.java`, and the model
follows that suite.

Files:

- `errors.dfy` (module `Errors`) holds:
  - the "not found" error, which carries the entity kind, the id and the message;
  - `Outcome` and `Result`, which stand for returning normally or throwing;
  - the decimal rendering of ids, with a reference parser;
  - the proof that a rendered message gives back its id.
- `answers.dfy` (module `Answers`) holds:
  - the `Answer` record;
  - the meaning of each operation as a function on the stored sequence:
    `Position`, `Lookup`, `Updated`, `Removed`, `WithQuestion`, `WithoutQuestion`;
  - the lemmas relating these functions.
- `answer_dao_mem.dfy` (module `AnswerDao`) holds the class `AnswerDaoMem`:
  - a `seq<Answer>` field;
  - the question store, injected through the constructor as a lookup function;
  - one method per operation, each proved against the functions above.
- `answer_dao_mem_test.dfy` (module `AnswerDaoMemTest`) restates each
  scenario of the test suite as a client method. Each method's postcondition
  is the test's assertion.

Design choices where the tests leave the behaviour open:

- `add` appends and never checks for a duplicate id.
- `find`, `update` and `remove` act on the first answer with the id.
- `update` keeps the id it was given. It stores the new title, body and
  question id, and does not check the new question id.
- `removeAnswersByQuestionId` does not consult the question store.
- A failing operation leaves the list unchanged. No test asserts this.
- The question store's error keeps its own message. For this reason the error
  carries a message and does not compute one from its kind. The two messages
  configured in the tests differ in spacing: `Question id not found (2)` and
  `Question id not found(3000)`. Both pass through unchanged. `Render` writes
  question messages with the space, as the question store's format has it.

## Model

| member | source | states |
|---|---|---|
| `Errors.ParseNatDigits` | src/test/java/hu/joel/laczkovszki/qa/daoTests/AnswerDaoMemTest.java:69 | reading back the decimal digits of a natural number gives the number |
| `Errors.ParseIntDecimal` | src/test/java/hu/joel/laczkovszki/qa/daoTests/AnswerDaoMemTest.java:69 | reading back Java's decimal rendering of an id, sign included, gives the id |
| `Errors.RenderCarriesId` | src/test/java/hu/joel/laczkovszki/qa/daoTests/AnswerDaoMemTest.java:64-70 | the id can be read back out of a "not found" message, so the message carries the id it was built for |
| `Errors.RenderInjective` | src/test/java/hu/joel/laczkovszki/qa/daoTests/AnswerDaoMemTest.java:87-92 | two equal "not found" messages name the same entity kind and the same id |
| `Answers.Position` | src/test/java/hu/joel/laczkovszki/qa/daoTests/AnswerDaoMemTest.java:64-70 | the index found holds the id and no earlier answer has it; there is no index exactly when no stored answer has the id |
| `Answers.Lookup` | src/test/java/hu/joel/laczkovszki/qa/daoTests/AnswerDaoMemTest.java:54-70 | find succeeds exactly when some stored answer has the id, and then returns a stored answer with that id; otherwise it fails with the answer-not-found error for that id |
| `Answers.Updated` | src/test/java/hu/joel/laczkovszki/qa/daoTests/AnswerDaoMemTest.java:94-112 | update keeps the length; the matched slot now holds the new answer under the old id; every other slot is unchanged; an absent id changes nothing |
| `Answers.Removed` | src/test/java/hu/joel/laczkovszki/qa/daoTests/AnswerDaoMemTest.java:73-92 | remove of a present id shortens the list by one and keeps the answers before and after the matched slot in order; an absent id changes nothing |
| `Answers.WithQuestionCounts` | src/test/java/hu/joel/laczkovszki/qa/daoTests/AnswerDaoMemTest.java:114-124 | the query by question returns every stored answer to that question, as many times as it is stored, and no answer to another question |
| `Answers.WithoutQuestionCounts` | src/test/java/hu/joel/laczkovszki/qa/daoTests/AnswerDaoMemTest.java:134-145 | the bulk delete keeps every answer to another question, as many times as it is stored, and no answer to the deleted question |
| `Answers.WithQuestionAppend` | src/test/java/hu/joel/laczkovszki/qa/daoTests/AnswerDaoMemTest.java:114-124 | the query by question distributes over concatenation of answer lists |
| `Answers.WithoutQuestionAppend` | src/test/java/hu/joel/laczkovszki/qa/daoTests/AnswerDaoMemTest.java:134-145 | the bulk delete by question distributes over concatenation of answer lists |
| `Answers.LookupAfterAdd` | src/test/java/hu/joel/laczkovszki/qa/daoTests/AnswerDaoMemTest.java:33-42 | after appending an answer whose id is not yet stored, find of that id returns exactly that answer |
| `Answers.LookupOtherAfterAdd` | src/test/java/hu/joel/laczkovszki/qa/daoTests/AnswerDaoMemTest.java:54-62 | appending an answer leaves find of every other id as it was |
| `Answers.LookupAfterUpdate` | src/test/java/hu/joel/laczkovszki/qa/daoTests/AnswerDaoMemTest.java:94-104 | after update of a stored id, find of that id returns the new answer carrying that id |
| `Answers.RemoveDropsOne` | src/test/java/hu/joel/laczkovszki/qa/daoTests/AnswerDaoMemTest.java:73-85 | removing a stored id lowers the number of answers to its question by exactly one and leaves every other question's count unchanged |
| `Answers.LookupAfterRemove` | src/test/java/hu/joel/laczkovszki/qa/daoTests/AnswerDaoMemTest.java:73-92 | when ids are unique, find of a removed id fails with the answer-not-found error |
| `Answers.NoAnswersAfterRemoveByQuestion` | src/test/java/hu/joel/laczkovszki/qa/daoTests/AnswerDaoMemTest.java:134-145 | after the bulk delete of a question, the query for that question is empty |
| `Answers.OthersKeptByRemoveByQuestion` | src/test/java/hu/joel/laczkovszki/qa/daoTests/AnswerDaoMemTest.java:134-145 | the bulk delete of one question leaves the answers of every other question exactly as they were, in order |
| `Answers.WithQuestionAll` | src/test/java/hu/joel/laczkovszki/qa/daoTests/AnswerDaoMemTest.java:114-124 | when every stored answer belongs to the question, the query returns the whole list |
| `Answers.AddKeepsUniqueIds` | src/test/java/hu/joel/laczkovszki/qa/daoTests/AnswerDaoMemTest.java:73-80 | appending an answer whose id is not stored keeps all ids distinct |
| `Answers.UpdateKeepsUniqueIds` | src/test/java/hu/joel/laczkovszki/qa/daoTests/AnswerDaoMemTest.java:94-104 | update keeps all ids distinct |
| `Answers.RemoveKeepsUniqueIds` | src/test/java/hu/joel/laczkovszki/qa/daoTests/AnswerDaoMemTest.java:73-85 | remove keeps all ids distinct |
| `Answers.RemoveByQuestionKeepsUniqueIds` | src/test/java/hu/joel/laczkovszki/qa/daoTests/AnswerDaoMemTest.java:134-145 | the bulk delete keeps all ids distinct |
| `AnswerDao.AnswerDaoMem.constructor` | src/test/java/hu/joel/laczkovszki/qa/daoTests/AnswerDaoMemTest.java:28-29 | a new store holds the given question store and no answers |
| `AnswerDao.AnswerDaoMem.SetAnswers` | src/test/java/hu/joel/laczkovszki/qa/daoTests/AnswerDaoMemTest.java:30 | the collection becomes exactly the given list |
| `AnswerDao.AnswerDaoMem.Add` | src/test/java/hu/joel/laczkovszki/qa/daoTests/AnswerDaoMemTest.java:33-62 | the outcome is the question lookup's own outcome, its error unchanged; on success the answer is appended, on failure nothing changes |
| `AnswerDao.AnswerDaoMem.Locate` | src/test/java/hu/joel/laczkovszki/qa/daoTests/AnswerDaoMemTest.java:64-70 | the scan returns the first index holding the id, or none when no answer has it |
| `AnswerDao.AnswerDaoMem.Find` | src/test/java/hu/joel/laczkovszki/qa/daoTests/AnswerDaoMemTest.java:54-70 | returns what `Answers.Lookup` gives for the stored list; a failure's message is the rendered "Answer id not found(<id>)" |
| `AnswerDao.AnswerDaoMem.Update` | src/test/java/hu/joel/laczkovszki/qa/daoTests/AnswerDaoMemTest.java:94-112 | succeeds exactly when the id is stored, and fails otherwise with the answer-not-found error; the new list is `Answers.Updated` of the old |
| `AnswerDao.AnswerDaoMem.Remove` | src/test/java/hu/joel/laczkovszki/qa/daoTests/AnswerDaoMemTest.java:73-92 | succeeds exactly when the id is stored, and fails otherwise with the answer-not-found error; the new list is `Answers.Removed` of the old |
| `AnswerDao.AnswerDaoMem.GetAnswersByQuestionId` | src/test/java/hu/joel/laczkovszki/qa/daoTests/AnswerDaoMemTest.java:114-132 | fails with the question lookup's own error when that lookup fails; otherwise returns the stored answers to the question, in order |
| `AnswerDao.AnswerDaoMem.RemoveAnswersByQuestionId` | src/test/java/hu/joel/laczkovszki/qa/daoTests/AnswerDaoMemTest.java:134-145 | the new list is the old one without the answers to the question, others in order |
| `AnswerDaoMemTest.Init` | src/test/java/hu/joel/laczkovszki/qa/daoTests/AnswerDaoMemTest.java:26-31 | before each test: a fresh store over the mocked question store, emptied |
| `AnswerDaoMemTest.AddFourAnswers` | src/test/java/hu/joel/laczkovszki/qa/daoTests/AnswerDaoMemTest.java:76-80 | the test loop leaves the answers with ids 0 to 3 for the question, in that order |
| `AnswerDaoMemTest.AddAnswerWithExistingQuestionId` | src/test/java/hu/joel/laczkovszki/qa/daoTests/AnswerDaoMemTest.java:33-42 | find after add returns the answer that was added |
| `AnswerDaoMemTest.AddAnswerWithNonExistingQuestionId` | src/test/java/hu/joel/laczkovszki/qa/daoTests/AnswerDaoMemTest.java:44-52 | add fails with the question store's message "Question id not found (2)", unwrapped |
| `AnswerDaoMemTest.FindAnswerWithExistingId` | src/test/java/hu/joel/laczkovszki/qa/daoTests/AnswerDaoMemTest.java:54-62 | find of id 2 after adding it returns that answer |
| `AnswerDaoMemTest.FindAnswerWithNonExistingId` | src/test/java/hu/joel/laczkovszki/qa/daoTests/AnswerDaoMemTest.java:64-70 | find of id 100 in an empty store fails with "Answer id not found(100)" |
| `AnswerDaoMemTest.RemoveAnswerWithExistingId` | src/test/java/hu/joel/laczkovszki/qa/daoTests/AnswerDaoMemTest.java:73-85 | after four adds and remove of id 0, the query for question 0 returns 3 answers |
| `AnswerDaoMemTest.RemoveAnswerWithNonExistingId` | src/test/java/hu/joel/laczkovszki/qa/daoTests/AnswerDaoMemTest.java:87-92 | remove of id 200 fails with "Answer id not found(200)" |
| `AnswerDaoMemTest.UpdateAnswerWithExistingId` | src/test/java/hu/joel/laczkovszki/qa/daoTests/AnswerDaoMemTest.java:94-104 | find after update returns the updated answer |
| `AnswerDaoMemTest.UpdateAnswerWithNonExistingId` | src/test/java/hu/joel/laczkovszki/qa/daoTests/AnswerDaoMemTest.java:106-112 | update of id 3000 fails with "Answer id not found(3000)" |
| `AnswerDaoMemTest.GetAnswerByQuestionIdWithExistingQuestionId` | src/test/java/hu/joel/laczkovszki/qa/daoTests/AnswerDaoMemTest.java:114-124 | after four adds for question 0, the query for question 0 returns 4 answers |
| `AnswerDaoMemTest.GetAnswerByQuestionIdWithNonExistingQuestionId` | src/test/java/hu/joel/laczkovszki/qa/daoTests/AnswerDaoMemTest.java:126-132 | the query fails with the question store's message "Question id not found(3000)", unwrapped |
| `AnswerDaoMemTest.RemoveAnswersByQuestionIdWithExistingQuestionId` | src/test/java/hu/joel/laczkovszki/qa/daoTests/AnswerDaoMemTest.java:134-145 | after four adds for question 0 and their bulk delete, the query for question 0 is empty |

## Left out

- The Spring Boot test context and the JUnit assertion machinery are test infrastructure. Each assertion is a postcondition instead.
- Mockito is left out. The mocked question store becomes a total lookup function from question id to `Outcome`. Ids the test did not stub succeed, because an unstubbed mock returns `null` and does not throw. The lookup is fixed when the store is built, whereas the tests stub the mock after building it. No store call comes between the two, so the result is the same.
- The Question entity and the real question store (`QuestionDaoMem`) are not part of this model. Only the outcome of the lookup matters, and the question it returns is dropped.
- The `ApiRequestException` class hierarchy is not modelled. Any thrown exception becomes a returned "not found" error value.
- The Java list is static and shared by all store instances. Here it is a field of each instance. The constructor starts it empty, and `SetAnswers` replaces it.
- Aliasing is not modelled. The Java store keeps the very list passed to `setAnswers` and the very `Answer` objects passed to `add`, so later changes by the caller reach the store. Answers and lists here are values.
- Duplicate ids on `add` are not rejected, because the tests leave this open. `Answers.LookupAfterAdd` and `Answers.AddKeepsUniqueIds` therefore assume the added id is not already stored.
- Answers.LookupAfterRemove: it assumes unique ids. With duplicates, a second answer with the removed id stays findable, because `remove` deletes only the first match.
- Answer and question ids are unbounded integers. The Java code uses 32-bit `int`, but does no arithmetic on ids, so there is no wrap-around to model.
- Thread safety is not modelled. The Java store has none either.
