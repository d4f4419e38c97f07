/**
 * The question store and answer ledger (`ObjectRepository`). The document
 * store is held as maps: `users/{uid}`, `users/{uid}/answered/{key}`,
 * `objects/{id}` and `objects/{id}/questions/{qid}`.
 */
module Quiz {
  import opened Common
  import opened Text

  /** A `users/{uid}` document as far as this core reads or writes it. */
  datatype UserDoc = UserDoc(username: Option<string>, email: Option<string>, points: int)

  /** An `objects/{id}` document; each field may be absent. */
  datatype ObjectDoc = ObjectDoc(
    ownerUid: Option<string>,
    ownerName: Option<string>,
    name: Option<string>,
    details: Option<string>,
    objectType: Option<string>,
    imageUrl: Option<string>,
    lat: Option<real>,
    lng: Option<real>,
    createdAt: Option<int>)

  /** An `objects/{id}/questions/{qid}` document; `averageRating` is an exact real here. */
  datatype QuestionDoc = QuestionDoc(
    text: Option<string>,
    option1: Option<string>,
    option2: Option<string>,
    option3: Option<string>,
    correctIndex: Option<int>,
    correctAnswer: Option<string>,
    creatorUid: Option<string>,
    ratings: map<string, int>,
    averageRating: real,
    numRatings: int)

  /** `ObjectRepository.TouristObject`, what the objects listener yields. */
  datatype TouristObject = TouristObject(
    id: string,
    ownerUid: string,
    ownerName: Option<string>,
    name: string,
    details: string,
    objectType: Option<string>,
    imageUrl: Option<string>,
    latLng: LatLng,
    createdAt: Option<int>)

  /** `ObjectRepository.Question`, what `loadQuestions` yields. */
  datatype Question = Question(
    id: string,
    text: string,
    options: seq<string>,
    correctAnswer: Option<string>,
    correctIndex: Option<int>,
    creatorUid: Option<string>,
    ratings: map<string, int>,
    averageRating: real,
    numRatings: int)

  /** `ObjectRepository.CreateQuestion`, the form's question as handed to the store. */
  datatype CreateQuestion = CreateQuestion(text: string, options: seq<string>, correctIndex: int)

  datatype AnswerResult = AlreadyAnswered | Correct | Incorrect

  const CreatePoints: int := 20
  const AnswerPoints: int := 5
  const RaterPoints: int := 1
  /** Question documents deleted per batch, below the store's limit of 500 writes. */
  const DeleteChunkSize: nat := 400

  // ---------------------------------------------------------------------------
  // Reading documents

  /** `listenObjects`: a document without owner, name or coordinates is dropped; details default to "". */
  function ParseObject(id: string, d: ObjectDoc): (r: Option<TouristObject>)
    ensures r.Some? <==> d.ownerUid.Some? && d.name.Some? && d.lat.Some? && d.lng.Some?
    ensures r.Some? ==> (r.value.id == id && r.value.ownerUid == d.ownerUid.value
                         && r.value.name == d.name.value && r.value.details == d.details.GetOr("")
                         && r.value.ownerName == d.ownerName && r.value.objectType == d.objectType
                         && r.value.imageUrl == d.imageUrl && r.value.latLng == LatLng(d.lat.value, d.lng.value)
                         && r.value.createdAt == d.createdAt)
  {
    if d.ownerUid.None? || d.name.None? || d.lat.None? || d.lng.None? then None
    else Some(TouristObject(id, d.ownerUid.value, d.ownerName, d.name.value, d.details.GetOr(""),
                            d.objectType, d.imageUrl, LatLng(d.lat.value, d.lng.value), d.createdAt))
  }

  /** The three stored options when all are present (`listOf(opt1, opt2, opt3)`), else none. */
  function StoredOptions(d: QuestionDoc): (r: seq<string>)
    ensures |r| == 3 || r == []
    ensures |r| == 3 <==> d.option1.Some? && d.option2.Some? && d.option3.Some?
  {
    if d.option1.Some? && d.option2.Some? && d.option3.Some?
    then [d.option1.value, d.option2.value, d.option3.value]
    else []
  }

  /** `loadQuestions`, one document: dropped without text; options are all three or none. */
  function LoadQuestion(id: string, d: QuestionDoc): (r: Option<Question>)
    ensures r.Some? <==> d.text.Some?
    ensures r.Some? ==> (r.value.id == id && r.value.text == d.text.value && r.value.options == StoredOptions(d)
                         && r.value.correctAnswer == d.correctAnswer && r.value.correctIndex == d.correctIndex
                         && r.value.creatorUid == d.creatorUid && r.value.ratings == d.ratings
                         && r.value.averageRating == d.averageRating && r.value.numRatings == d.numRatings)
  {
    if d.text.None? then None
    else Some(Question(id, d.text.value, StoredOptions(d), d.correctAnswer, d.correctIndex,
                       d.creatorUid, d.ratings, d.averageRating, d.numRatings))
  }

  // ---------------------------------------------------------------------------
  // Writing questions

  /** `safeOptions`: the first three options supplied, or three empty strings when fewer. */
  function SafeOptions(options: seq<string>): (r: seq<string>)
    ensures |r| == 3
    ensures |options| >= 3 ==> r == options[..3]
    ensures |options| < 3 ==> forall i :: 0 <= i < 3 ==> r[i] == ""
  {
    if |options| >= 3 then options[..3] else ["", "", ""]
  }

  /** The question document `createObject` and `addQuestionToObject` write. */
  function NewQuestionDoc(q: CreateQuestion, creatorUid: string): QuestionDoc {
    var safe := SafeOptions(q.options);
    QuestionDoc(Some(q.text), Some(safe[0]), Some(safe[1]), Some(safe[2]),
                Some(q.correctIndex),
                if 0 <= q.correctIndex < 3 then Some(Trim(safe[q.correctIndex])) else None,
                Some(creatorUid), map[], 0.0, 0)
  }

  /**
   * Writing a question and loading it back gives exactly three options (the
   * first three supplied, or blanks), the stored index, the trimmed correct
   * option as `correctAnswer` (none when the index is outside 0..2), the
   * creator, and no ratings.
   */
  lemma NewQuestionLoadsBack(id: string, q: CreateQuestion, creatorUid: string)
    ensures LoadQuestion(id, NewQuestionDoc(q, creatorUid)) == Some(Question(
      id, q.text, SafeOptions(q.options),
      if 0 <= q.correctIndex < 3 then Some(Trim(SafeOptions(q.options)[q.correctIndex])) else None,
      Some(q.correctIndex), Some(creatorUid), map[], 0.0, 0))
  {
    var safe := SafeOptions(q.options);
    assert StoredOptions(NewQuestionDoc(q, creatorUid)) == [safe[0], safe[1], safe[2]] == safe;
  }

  /** A question written by the store resolves to the index it was written with. */
  lemma NewQuestionResolves(q: CreateQuestion, creatorUid: string)
    ensures ResolveCorrectIndex(Some(NewQuestionDoc(q, creatorUid))) == Some(q.correctIndex)
    ensures RatingsConsistent(NewQuestionDoc(q, creatorUid))
  {
    assert SumRatings(map[]) == 0;
  }

  /** The writes of one `createObject` batch: question id `ids[i]` gets the document for `qs[i]`. */
  function QuestionBatch(qs: seq<CreateQuestion>, ids: seq<string>, creatorUid: string): map<string, QuestionDoc>
    requires |qs| == |ids|
  {
    if qs == [] then map[]
    else
      var n := |qs| - 1;
      QuestionBatch(qs[..n], ids[..n], creatorUid)[ids[n] := NewQuestionDoc(qs[n], creatorUid)]
  }

  /** Adding the next question of the list to the batch. */
  lemma QuestionBatchStep(qs: seq<CreateQuestion>, ids: seq<string>, creatorUid: string, i: int)
    requires |qs| == |ids| && 0 <= i < |qs|
    ensures QuestionBatch(qs[..i + 1], ids[..i + 1], creatorUid)
            == QuestionBatch(qs[..i], ids[..i], creatorUid)[ids[i] := NewQuestionDoc(qs[i], creatorUid)]
  {
    assert qs[..i + 1][..i] == qs[..i] && ids[..i + 1][..i] == ids[..i];
  }

  /** The batch writes under exactly the given ids. */
  lemma {:induction false} QuestionBatchKeys(qs: seq<CreateQuestion>, ids: seq<string>, creatorUid: string)
    requires |qs| == |ids|
    ensures forall k :: k in QuestionBatch(qs, ids, creatorUid) <==> k in ids
  {
    if qs != [] {
      var n := |qs| - 1;
      QuestionBatchKeys(qs[..n], ids[..n], creatorUid);
      assert ids == ids[..n] + [ids[n]];
    }
  }

  /** With distinct ids, the document under `ids[i]` is the one for `qs[i]`. */
  lemma {:induction false} QuestionBatchValues(qs: seq<CreateQuestion>, ids: seq<string>, creatorUid: string)
    requires |qs| == |ids| && Distinct(ids)
    ensures forall i :: 0 <= i < |ids| ==> ids[i] in QuestionBatch(qs, ids, creatorUid)
                                           && QuestionBatch(qs, ids, creatorUid)[ids[i]] == NewQuestionDoc(qs[i], creatorUid)
  {
    if qs != [] {
      var n := |qs| - 1;
      DistinctSnoc(ids);
      QuestionBatchValues(qs[..n], ids[..n], creatorUid);
      var prev := QuestionBatch(qs[..n], ids[..n], creatorUid);
      var b := QuestionBatch(qs, ids, creatorUid);
      assert b == prev[ids[n] := NewQuestionDoc(qs[n], creatorUid)];
      forall i | 0 <= i < |ids|
        ensures ids[i] in b && b[ids[i]] == NewQuestionDoc(qs[i], creatorUid)
      {
        if i < n {
          assert ids[..n][i] == ids[i] && qs[..n][i] == qs[i];
          assert ids[i] in prev && prev[ids[i]] == NewQuestionDoc(qs[i], creatorUid);
          assert ids[i] != ids[n];
        }
      }
    }
  }

  /** Splitting the last id off a distinct list: the rest is distinct, does not hold it, and together they are the list. */
  lemma DistinctSnoc<T>(ids: seq<T>)
    requires ids != [] && Distinct(ids)
    ensures Distinct(ids[..|ids| - 1])
    ensures forall i :: 0 <= i < |ids| - 1 ==> ids[i] != ids[|ids| - 1]
    ensures forall k :: k in ids <==> k in ids[..|ids| - 1] || k == ids[|ids| - 1]
  {
    assert ids == ids[..|ids| - 1] + [ids[|ids| - 1]];
  }

  // ---------------------------------------------------------------------------
  // Resolving the correct index

  /** The legacy comparison: both sides trimmed, case ignored. */
  predicate AnswerMatches(option: string, answer: string) {
    EqualsIgnoreCase(Trim(option), Trim(answer))
  }

  /** `indexOfFirst`: the position of the first element satisfying `p`, or -1. */
  function IndexOfFirst<T>(s: seq<T>, p: T -> bool): (r: int)
    ensures -1 <= r < |s|
    ensures r >= 0 ==> p(s[r]) && forall j :: 0 <= j < r ==> !p(s[j])
    ensures r == -1 ==> forall j :: 0 <= j < |s| ==> !p(s[j])
    decreases |s|
  {
    if s == [] then -1
    else if p(s[0]) then 0
    else
      var k := IndexOfFirst(s[1..], p);
      assert forall j :: 1 <= j < |s| ==> s[j] == s[1..][j - 1];
      if k == -1 then -1 else k + 1
  }

  /** The first option that matches `answer`, or -1. */
  function IndexOfFirstMatch(options: seq<string>, answer: string): int {
    IndexOfFirst(options, o => AnswerMatches(o, answer))
  }

  /**
   * The correct index `submitAnswerByIndex` settles on: the stored
   * `correctIndex` when present; otherwise, for a legacy document with a
   * `correctAnswer` and all three options, the first matching option; else none.
   */
  function ResolveCorrectIndex(doc: Option<QuestionDoc>): (r: Option<int>)
    ensures doc.Some? && doc.value.correctIndex.Some? ==> r == doc.value.correctIndex
    ensures doc.None? ==> r.None?
    ensures doc.Some? && doc.value.correctIndex.None? && r.Some? ==>
              var d := doc.value;
              (d.correctAnswer.Some? && |StoredOptions(d)| == 3 && 0 <= r.value < 3
               && AnswerMatches(StoredOptions(d)[r.value], d.correctAnswer.value)
               && forall j :: 0 <= j < r.value ==> !AnswerMatches(StoredOptions(d)[j], d.correctAnswer.value))
    ensures doc.Some? && r.None? ==>
              var d := doc.value;
              (d.correctIndex.None?
               && (d.correctAnswer.None? || |StoredOptions(d)| != 3
                   || forall j :: 0 <= j < 3 ==> !AnswerMatches(StoredOptions(d)[j], d.correctAnswer.value)))
  {
    if doc.None? then None
    else if doc.value.correctIndex.Some? then doc.value.correctIndex
    else if doc.value.correctAnswer.Some? && |StoredOptions(doc.value)| == 3 then
      var idx := IndexOfFirstMatch(StoredOptions(doc.value), doc.value.correctAnswer.value);
      if 0 <= idx <= 2 then Some(idx) else None
    else None
  }

  // ---------------------------------------------------------------------------
  // Answered records

  /** The id of the answered record for a question: `objectId + "_" + questionId`. */
  function AnsweredKey(objectId: string, questionId: string): string {
    objectId + "_" + questionId
  }

  /** `getAnsweredQuestionIds`, on the user's answered keys: those for `objectId`, prefix removed. */
  function AnsweredIdsIn(keys: set<string>, objectId: string): set<string> {
    set k | k in keys && StartsWith(k, objectId + "_") :: RemovePrefix(k, objectId + "_")
  }

  /** A question id is reported for an object exactly when its answered record exists. */
  lemma AnsweredIdsExact(keys: set<string>, objectId: string, questionId: string)
    ensures questionId in AnsweredIdsIn(keys, objectId) <==> AnsweredKey(objectId, questionId) in keys
  {
    var p := objectId + "_";
    var key := AnsweredKey(objectId, questionId);
    assert key == p + questionId;
    if key in keys {
      assert key[..|p|] == p;
      assert RemovePrefix(key, p) == questionId;
    }
    if questionId in AnsweredIdsIn(keys, objectId) {
      var k :| k in keys && StartsWith(k, p) && RemovePrefix(k, p) == questionId;
      assert k == p + questionId;
    }
  }

  /** The position of the first `c` in `s`, or -1. */
  function FirstIndexOf(s: string, c: char): (r: int)
    ensures -1 <= r < |s|
    ensures r >= 0 ==> s[r] == c && c !in s[..r]
    ensures r == -1 <==> c !in s
    decreases |s|
  {
    if s == [] then -1
    else if s[0] == c then 0
    else
      var k := FirstIndexOf(s[1..], c);
      if k == -1 then -1 else k + 1
  }

  /** In a key whose object id has no `_`, the first `_` is the separator. */
  lemma {:induction false} SeparatorPosition(objectId: string, questionId: string)
    requires '_' !in objectId
    ensures FirstIndexOf(AnsweredKey(objectId, questionId), '_') == |objectId|
    decreases |objectId|
  {
    var key := AnsweredKey(objectId, questionId);
    if objectId != [] {
      assert key[0] == objectId[0];
      assert key[1..] == AnsweredKey(objectId[1..], questionId);
      SeparatorPosition(objectId[1..], questionId);
    }
  }

  /** Object ids without `_` (the store's generated ids) make the key determine object and question. */
  lemma AnsweredKeyInjective(o1: string, q1: string, o2: string, q2: string)
    requires '_' !in o1 && '_' !in o2
    requires AnsweredKey(o1, q1) == AnsweredKey(o2, q2)
    ensures o1 == o2 && q1 == q2
  {
    var k := AnsweredKey(o1, q1);
    SeparatorPosition(o1, q1);
    SeparatorPosition(o2, q2);
    assert o1 == k[..|o1|] == o2;
    assert q1 == k[|o1| + 1..] == q2;
  }

  // ---------------------------------------------------------------------------
  // Ratings

  /** The sum of the rating values. */
  ghost function SumRatings(m: map<string, int>): int
    decreases |m|
  {
    if m == map[] then 0
    else
      var k :| k in m;
      m[k] + SumRatings(m - {k})
  }

  /** `ratings.values.average()`, and 0 when there are none. */
  ghost function Mean(m: map<string, int>): real {
    if |m| == 0 then 0.0 else SumRatings(m) as real / |m| as real
  }

  /** The stored count and average agree with the stored ratings. */
  ghost predicate RatingsConsistent(d: QuestionDoc) {
    d.numRatings == |d.ratings| && d.averageRating == Mean(d.ratings)
  }

  /** The sum does not depend on which key is taken out first. */
  lemma {:induction false} SumRatingsRemove(m: map<string, int>, k: string)
    requires k in m
    ensures SumRatings(m) == m[k] + SumRatings(m - {k})
    decreases |m|
  {
    var j :| j in m && SumRatings(m) == m[j] + SumRatings(m - {j});
    if j != k {
      assert |m - {j}| == |m| - 1;
      SumRatingsRemove(m - {j}, k);
      SumRatingsRemove(m - {k}, j);
      assert (m - {j}) - {k} == (m - {k}) - {j};
    }
  }

  /** A re-rating keeps the count and replaces the old value in the sum; a new rater adds one. */
  lemma RatingUpsert(m: map<string, int>, rater: string, rating: int)
    ensures rater in m ==> (|m[rater := rating]| == |m|
                            && SumRatings(m[rater := rating]) == SumRatings(m) - m[rater] + rating)
    ensures rater !in m ==> (|m[rater := rating]| == |m| + 1
                             && SumRatings(m[rater := rating]) == SumRatings(m) + rating)
  {
    var m' := m[rater := rating];
    SumRatingsRemove(m', rater);
    assert m' - {rater} == m - {rater};
    if rater in m {
      SumRatingsRemove(m, rater);
    } else {
      assert m - {rater} == m;
    }
  }

  /** Example: ratings {A: 4, B: 2} average 3.0 over two raters. */
  lemma TwoRatingsAverage()
    ensures Mean(map["A" := 4, "B" := 2]) == 3.0
  {
    var m := map["A" := 4, "B" := 2];
    SumRatingsRemove(m, "A");
    assert m - {"A"} == map["B" := 2];
    SumRatingsRemove(map["B" := 2], "B");
    assert map["B" := 2] - {"B"} == map[];
    assert |m| == 2;
  }

  /** The iteration inside `average()`: adds up the rating values. */
  method SumOfRatings(m: map<string, int>) returns (s: int)
    ensures s == SumRatings(m)
  {
    s := 0;
    var rest := m;
    while rest != map[]
      invariant s + SumRatings(rest) == SumRatings(m)
      decreases |rest|
    {
      var k :| k in rest;
      SumRatingsRemove(rest, k);
      s := s + rest[k];
      rest := rest - {k};
    }
  }

  // ---------------------------------------------------------------------------
  // Points

  /** `update("points", FieldValue.increment(n))`: an update of a missing user document fails and changes nothing. */
  function Credit(users: map<string, UserDoc>, uid: string, n: int): (r: map<string, UserDoc>)
    ensures r.Keys == users.Keys
    ensures forall u :: u in users && u != uid ==> r[u] == users[u]
    ensures uid in users ==> r[uid] == users[uid].(points := users[uid].points + n)
  {
    if uid in users then users[uid := users[uid].(points := users[uid].points + n)] else users
  }

  /** `resolveOwnerName`: the username, else the e-mail, else the uid itself. */
  function OwnerName(users: map<string, UserDoc>, uid: string): string {
    if uid in users && users[uid].username.Some? then users[uid].username.value
    else if uid in users && users[uid].email.Some? then users[uid].email.value
    else uid
  }

  /** Elements of the first chunks, flattened. */
  function Flatten<T>(chunks: seq<seq<T>>): (r: seq<T>)
  {
    if chunks == [] then [] else chunks[0] + Flatten(chunks[1..])
  }

  lemma {:induction false} FlattenSnoc<T>(chunks: seq<seq<T>>, c: seq<T>)
    ensures Flatten(chunks + [c]) == Flatten(chunks) + c
  {
    if chunks != [] {
      assert (chunks + [c])[1..] == chunks[1..] + [c];
      FlattenSnoc(chunks[1..], c);
    }
  }

  /** `chunked(n)`: consecutive pieces of at most `n` elements, none empty, that concatenate to `s`. */
  function Chunked<T>(s: seq<T>, n: nat): (r: seq<seq<T>>)
    requires n > 0
    ensures Flatten(r) == s
    ensures forall i :: 0 <= i < |r| ==> 1 <= |r[i]| <= n
    decreases |s|
  {
    if s == [] then []
    else if |s| <= n then [s]
    else
      var rest := Chunked(s[n..], n);
      assert ([s[..n]] + rest)[1..] == rest;
      [s[..n]] + rest
  }

  // ---------------------------------------------------------------------------
  // The store

  class QuizStore {
    /** `users/{uid}`. */
    var users: map<string, UserDoc>
    /** `users/{uid}/answered`: the ids of the answered records of each user. */
    var answered: map<string, set<string>>
    /** `objects/{id}`. */
    var objects: map<string, ObjectDoc>
    /** `objects/{id}/questions/{qid}`. */
    var questions: map<string, map<string, QuestionDoc>>

    constructor ()
      ensures users == map[] && answered == map[] && objects == map[] && questions == map[]
    {
      users, answered, objects, questions := map[], map[], map[], map[];
    }

    function AnsweredBy(uid: string): set<string>
      reads this
    {
      if uid in answered then answered[uid] else {}
    }

    function QuestionsOf(objectId: string): map<string, QuestionDoc>
      reads this
    {
      if objectId in questions then questions[objectId] else map[]
    }

    function QuestionDocOf(objectId: string, questionId: string): Option<QuestionDoc>
      reads this
    {
      if questionId in QuestionsOf(objectId) then Some(QuestionsOf(objectId)[questionId]) else None
    }

    /** `loadQuestions`: every question document with a text, parsed. */
    function LoadQuestions(objectId: string): (r: map<string, Question>)
      reads this
      ensures forall id :: id in r <==> id in QuestionsOf(objectId) && QuestionsOf(objectId)[id].text.Some?
      ensures forall id :: id in r ==> Some(r[id]) == LoadQuestion(id, QuestionsOf(objectId)[id])
    {
      var qs := QuestionsOf(objectId);
      map id | id in qs && qs[id].text.Some? :: LoadQuestion(id, qs[id]).value
    }

    /** `getAnsweredQuestionIds`. */
    function AnsweredQuestionIds(userUid: string, objectId: string): set<string>
      reads this
    {
      AnsweredIdsIn(AnsweredBy(userUid), objectId)
    }

    /**
     * `createObject`: writes the object document, then (when there are
     * questions) one batch with a document per question, then credits the
     * owner with 20 points. `newId`, `questionIds` and `serverNow` stand for
     * the store's generated ids and clock; `imageUrl` for the upload's result.
     */
    method CreateObject(newId: string, ownerUid: string, name: string, details: string,
                        imageUrl: Option<string>, latLng: LatLng, qs: seq<CreateQuestion>,
                        questionIds: seq<string>, objectType: string, serverNow: int)
      returns (id: string)
      requires newId !in objects && newId !in questions
      requires |questionIds| == |qs| && Distinct(questionIds)
      modifies this
      ensures id == newId
      ensures objects == old(objects)[newId := ObjectDoc(
        Some(ownerUid), Some(OwnerName(old(users), ownerUid)), Some(name), Some(details),
        Some(objectType), imageUrl, Some(latLng.latitude), Some(latLng.longitude), Some(serverNow))]
      ensures questions == if qs == [] then old(questions)
                           else old(questions)[newId := QuestionBatch(qs, questionIds, ownerUid)]
      ensures users == Credit(old(users), ownerUid, CreatePoints)
      ensures answered == old(answered)
    {
      var ownerName := OwnerName(users, ownerUid);
      objects := objects[newId := ObjectDoc(Some(ownerUid), Some(ownerName), Some(name), Some(details),
                                            Some(objectType), imageUrl, Some(latLng.latitude),
                                            Some(latLng.longitude), Some(serverNow))];
      if qs != [] {
        var batch := BuildBatch(qs, questionIds, ownerUid);
        questions := questions[newId := batch];
      }
      users := Credit(users, ownerUid, CreatePoints);
      id := newId;
    }

    /** The `forEach` filling `createObject`'s batch: one document per question, under its id. */
    static method BuildBatch(qs: seq<CreateQuestion>, ids: seq<string>, creatorUid: string)
      returns (batch: map<string, QuestionDoc>)
      requires |qs| == |ids|
      ensures batch == QuestionBatch(qs, ids, creatorUid)
    {
      batch := map[];
      for i := 0 to |qs|
        invariant batch == QuestionBatch(qs[..i], ids[..i], creatorUid)
      {
        QuestionBatchStep(qs, ids, creatorUid, i);
        batch := batch[ids[i] := NewQuestionDoc(qs[i], creatorUid)];
      }
      assert qs[..|qs|] == qs && ids[..|qs|] == ids;
    }

    /** `addQuestionToObject`: one new question document under the object, `newQuestionId` being the generated id. */
    method AddQuestionToObject(objectId: string, q: CreateQuestion, creatorUid: string, newQuestionId: string)
      requires newQuestionId !in QuestionsOf(objectId)
      modifies this
      ensures questions == old(questions)[objectId := old(QuestionsOf(objectId))[newQuestionId := NewQuestionDoc(q, creatorUid)]]
      ensures users == old(users) && answered == old(answered) && objects == old(objects)
    {
      questions := questions[objectId := QuestionsOf(objectId)[newQuestionId := NewQuestionDoc(q, creatorUid)]];
    }

    /**
     * The index resolution inside `submitAnswerByIndex`: start from the stored
     * `correctIndex` and, when it is absent, fall back to matching the legacy
     * `correctAnswer` against the three options.
     */
    static method ResolveIndex(qDoc: Option<QuestionDoc>) returns (correctIndex: Option<int>)
      ensures correctIndex == ResolveCorrectIndex(qDoc)
    {
      correctIndex := if qDoc.Some? then qDoc.value.correctIndex else None;
      if correctIndex.None? {
        var ans := if qDoc.Some? then qDoc.value.correctAnswer else None;
        var options := if qDoc.Some? then StoredOptions(qDoc.value) else [];
        if ans.Some? && |options| == 3 {
          var idx := IndexOfFirstMatch(options, ans.value);
          if 0 <= idx <= 2 {
            correctIndex := Some(idx);
          }
        }
      }
    }

    /**
     * `submitAnswerByIndex`. An existing answered record ends the call with
     * `AlreadyAnswered`. Otherwise the correct index is resolved and compared
     * with `selectedIndex`; on a match one batch writes the answered record and
     * adds 5 points. `None` is the exception the call raises when that batch is
     * rejected because `users/{userUid}` does not exist (nothing is written).
     */
    method SubmitAnswerByIndex(objectId: string, questionId: string, userUid: string, selectedIndex: int)
      returns (r: Option<AnswerResult>)
      modifies this
      ensures objects == old(objects) && questions == old(questions)
      ensures var key := AnsweredKey(objectId, questionId);
        if key in old(AnsweredBy(userUid)) then
          r == Some(AlreadyAnswered) && users == old(users) && answered == old(answered)
        else if ResolveCorrectIndex(old(QuestionDocOf(objectId, questionId))) != Some(selectedIndex) then
          r == Some(Incorrect) && users == old(users) && answered == old(answered)
        else if userUid !in old(users) then
          r == None && users == old(users) && answered == old(answered)
        else
          r == Some(Correct)
          && answered == old(answered)[userUid := old(AnsweredBy(userUid)) + {key}]
          && users == Credit(old(users), userUid, AnswerPoints)
    {
      var key := AnsweredKey(objectId, questionId);
      if key in AnsweredBy(userUid) {
        return Some(AlreadyAnswered);
      }
      var qDoc := QuestionDocOf(objectId, questionId);
      var correctIndex := ResolveIndex(qDoc);
      var isCorrect := correctIndex.Some? && correctIndex.value == selectedIndex;
      if isCorrect {
        if userUid !in users {
          return None;
        }
        answered := answered[userUid := AnsweredBy(userUid) + {key}];
        users := Credit(users, userUid, AnswerPoints);
        return Some(Correct);
      }
      return Some(Incorrect);
    }

    /**
     * `rateQuestion`: a missing question reports false. Otherwise the rater's
     * entry is set, count and average are recomputed from the whole map and
     * stored, then the creator (when recorded) gains `rating` points and the
     * rater 1, each update skipped when that user document is missing.
     */
    method RateQuestion(objectId: string, questionId: string, raterUid: string, rating: int)
      returns (ok: bool)
      modifies this
      ensures objects == old(objects) && answered == old(answered)
      ensures ok <==> old(QuestionDocOf(objectId, questionId)).Some?
      ensures !ok ==> questions == old(questions) && users == old(users)
      ensures ok ==>
        var d := old(QuestionDocOf(objectId, questionId)).value;
        var m := d.ratings[raterUid := rating];
        questions == old(questions)[objectId := old(QuestionsOf(objectId))[questionId :=
          d.(ratings := m, averageRating := Mean(m), numRatings := |m|)]]
        && users == Credit(if d.creatorUid.Some? then Credit(old(users), d.creatorUid.value, rating) else old(users),
                           raterUid, RaterPoints)
    {
      var doc := QuestionDocOf(objectId, questionId);
      if doc.None? {
        return false;
      }
      var ratings := doc.value.ratings;
      ratings := ratings[raterUid := rating];
      var sum := SumOfRatings(ratings);
      var avg := if |ratings| > 0 then sum as real / |ratings| as real else 0.0;
      var num := |ratings|;
      questions := questions[objectId := QuestionsOf(objectId)[questionId :=
        doc.value.(ratings := ratings, averageRating := avg, numRatings := num)]];
      var creatorUid := doc.value.creatorUid;
      if creatorUid.Some? {
        users := Credit(users, creatorUid.value, rating);
      }
      users := Credit(users, raterUid, RaterPoints);
      ok := true;
    }

    /** The documents of `objects/{objectId}/questions`, in the order the store lists them. */
    method QuestionSnapshot(objectId: string) returns (ids: seq<string>)
      ensures Distinct(ids) && Elements(ids) == QuestionsOf(objectId).Keys
    {
      var rest := QuestionsOf(objectId).Keys;
      ids := [];
      while rest != {}
        invariant Distinct(ids)
        invariant Elements(ids) + rest == QuestionsOf(objectId).Keys
        invariant Elements(ids) !! rest
        decreases |rest|
      {
        var k :| k in rest;
        ids := ids + [k];
        rest := rest - {k};
      }
    }

    /** One delete batch: every question document named in `chunk` goes. */
    method DeleteBatch(objectId: string, chunk: seq<string>)
      requires objectId in questions
      modifies this
      ensures questions == old(questions)[objectId := old(questions)[objectId] - Elements(chunk)]
      ensures users == old(users) && answered == old(answered) && objects == old(objects)
    {
      ghost var q0 := questions;
      assert chunk[..0] == [] && Elements(chunk[..0]) == {};
      assert q0[objectId] - {} == q0[objectId];
      assert q0[objectId := q0[objectId]] == q0;
      for j := 0 to |chunk|
        invariant questions == q0[objectId := q0[objectId] - Elements(chunk[..j])]
        invariant users == old(users) && answered == old(answered) && objects == old(objects)
      {
        var gone := Elements(chunk[..j]);
        assert Elements(chunk[..j + 1]) == gone + {chunk[j]} by {
          assert chunk[..j + 1] == chunk[..j] + [chunk[j]];
        }
        assert (q0[objectId] - gone) - {chunk[j]} == q0[objectId] - (gone + {chunk[j]});
        questions := questions[objectId := questions[objectId] - {chunk[j]}];
      }
      assert chunk[..|chunk|] == chunk;
    }

    /** The `forEach` over the chunks: one delete batch per chunk, in order. */
    method DeleteBatches(objectId: string, batches: seq<seq<string>>)
      requires objectId in questions
      modifies this
      ensures questions == old(questions)[objectId := old(questions)[objectId] - Elements(Flatten(batches))]
      ensures users == old(users) && answered == old(answered) && objects == old(objects)
    {
      ghost var q0 := questions;
      var c := 0;
      assert batches[..0] == [] && Elements(Flatten(batches[..0])) == {};
      assert q0[objectId] - {} == q0[objectId];
      assert q0[objectId := q0[objectId]] == q0;
      while c < |batches|
        invariant 0 <= c <= |batches|
        invariant questions == q0[objectId := q0[objectId] - Elements(Flatten(batches[..c]))]
        invariant users == old(users) && answered == old(answered) && objects == old(objects)
      {
        var gone := Elements(Flatten(batches[..c]));
        FlattenSnoc(batches[..c], batches[c]);
        assert batches[..c + 1] == batches[..c] + [batches[c]];
        assert Elements(Flatten(batches[..c + 1])) == gone + Elements(batches[c]);
        assert (q0[objectId] - gone) - Elements(batches[c]) == q0[objectId] - (gone + Elements(batches[c]));
        DeleteBatch(objectId, batches[c]);
        c := c + 1;
      }
      assert batches[..|batches|] == batches;
    }

    /**
     * `deleteObject`: only the owner recorded in the object document may
     * delete. The question documents go in batches of at most 400 (`batches`
     * lists them), each exactly once, and then the object document.
     */
    method DeleteObject(objectId: string, requesterUid: string) returns (ok: bool, batches: seq<seq<string>>)
      modifies this
      ensures users == old(users) && answered == old(answered)
      ensures ok <==> objectId in old(objects) && old(objects)[objectId].ownerUid == Some(requesterUid)
      ensures !ok ==> batches == [] && objects == old(objects) && questions == old(questions)
      ensures ok ==> objects == old(objects) - {objectId}
      ensures ok ==> questions == if objectId in old(questions) then old(questions)[objectId := map[]]
                                  else old(questions)
      ensures ok ==> forall i :: 0 <= i < |batches| ==> 1 <= |batches[i]| <= DeleteChunkSize
      ensures ok ==> Distinct(Flatten(batches)) && Elements(Flatten(batches)) == old(QuestionsOf(objectId)).Keys
    {
      if objectId !in objects {
        return false, [];
      }
      var ownerUid := objects[objectId].ownerUid;
      if ownerUid.None? || ownerUid.value != requesterUid {
        return false, [];
      }
      var qDocs := QuestionSnapshot(objectId);
      batches := Chunked(qDocs, DeleteChunkSize);
      if objectId in questions {
        ghost var q0 := questions;
        DeleteBatches(objectId, batches);
        assert q0[objectId] - Elements(qDocs) == map[];
      }
      objects := objects - {objectId};
      ok := true;
    }
  }

  /**
   * The end-to-end flow on a fresh store holding two users with no points:
   * the owner creates an object with one question and gains 20 points; the
   * player answers it correctly (Correct, 5 points) and sees it among the
   * answered ids; answering again gives AlreadyAnswered and no more points.
   */
  method CreateAnswerTwiceScenario(owner: string, player: string, objectId: string, questionId: string, q: CreateQuestion)
    returns (first: Option<AnswerResult>, second: Option<AnswerResult>, ownerPoints: int, playerPoints: int, recovered: bool)
    requires owner != player
    ensures first == Some(Correct) && second == Some(AlreadyAnswered)
    ensures ownerPoints == CreatePoints && playerPoints == AnswerPoints && recovered
  {
    var store := new QuizStore();
    store.users := map[owner := UserDoc(None, None, 0), player := UserDoc(None, None, 0)];
    var id := store.CreateObject(objectId, owner, "name", "details", None, LatLng(0.0, 0.0),
                                 [q], [questionId], "attraction", 0);
    ownerPoints := store.users[owner].points;
    NewQuestionResolves(q, owner);
    assert store.QuestionDocOf(objectId, questionId) == Some(NewQuestionDoc(q, owner));
    first := store.SubmitAnswerByIndex(objectId, questionId, player, q.correctIndex);
    AnsweredIdsExact(store.AnsweredBy(player), objectId, questionId);
    recovered := questionId in store.AnsweredQuestionIds(player, objectId);
    second := store.SubmitAnswerByIndex(objectId, questionId, player, q.correctIndex);
    playerPoints := store.users[player].points;
  }
}
