/**
 * The rules of the object details dialog (`ObjectDetailsDialog`): who may
 * answer or rate a question, what the dialog shows about an answered
 * question, the type label, the owner's actions, the per-question answer and
 * rating state, and the "add question" sub-dialog.
 */
module ObjectDetails {
  import opened Common
  import opened Text
  import Quiz
  import MapScreen

  // ---------------------------------------------------------------------------
  // Eligibility

  /** Whom the dialog treats as a question's creator: `q.creatorUid ?: ownerUid`. */
  function CreatorOf(q: Quiz.Question, ownerUid: Option<string>): Option<string> {
    if q.creatorUid.Some? then q.creatorUid else ownerUid
  }

  /** `isCreator`: a signed-in user equal to the creator. */
  predicate IsCreator(currentUid: Option<string>, q: Quiz.Question, ownerUid: Option<string>) {
    currentUid.Some? && CreatorOf(q, ownerUid) == currentUid
  }

  /** `locked`: answered before, or answered in this dialog. */
  predicate Locked(q: Quiz.Question, answeredIds: set<string>, status: map<string, Quiz.AnswerResult>) {
    q.id in answeredIds || q.id in status
  }

  /** `canAnswer`: the answer controls are shown. */
  predicate CanAnswer(currentUid: Option<string>, q: Quiz.Question, ownerUid: Option<string>,
                      answeredIds: set<string>, status: map<string, Quiz.AnswerResult>) {
    !IsCreator(currentUid, q, ownerUid) && !Locked(q, answeredIds, status) && |q.options| == 3 && currentUid.Some?
  }

  /** The rating controls are shown: signed in, not the creator (`creatorBlockUid`), not rated yet. */
  predicate CanRate(currentUid: Option<string>, q: Quiz.Question, ownerUid: Option<string>) {
    var creatorBlockUid := CreatorOf(q, ownerUid);
    currentUid.Some? && (creatorBlockUid.None? || currentUid.value != creatorBlockUid.value)
    && currentUid.value !in q.ratings
  }

  /** The owner's buttons ("add question", "delete object") are shown. */
  predicate CanManage(currentUid: Option<string>, ownerUid: Option<string>) {
    currentUid.Some? && ownerUid.Some? && currentUid.value == ownerUid.value
  }

  /** The creator of a question can neither answer nor rate it. */
  lemma CreatorCannotAnswerOrRate(currentUid: Option<string>, q: Quiz.Question, ownerUid: Option<string>,
                                  answeredIds: set<string>, status: map<string, Quiz.AnswerResult>)
    requires IsCreator(currentUid, q, ownerUid)
    ensures !CanAnswer(currentUid, q, ownerUid, answeredIds, status)
    ensures !CanRate(currentUid, q, ownerUid)
  {
  }

  /**
   * For a question written by `createObject` or `addQuestionToObject` and
   * loaded back, the answer controls appear exactly for a signed-in user
   * other than its author who has not answered it yet: the author never gets
   * them, whoever owns the object, and the stored question always has its
   * three options.
   */
  lemma StoredQuestionAnswerable(id: string, cq: Quiz.CreateQuestion, author: string, currentUid: Option<string>,
                                 ownerUid: Option<string>, answeredIds: set<string>,
                                 status: map<string, Quiz.AnswerResult>)
    ensures Quiz.LoadQuestion(id, Quiz.NewQuestionDoc(cq, author)).Some?
    ensures CanAnswer(currentUid, Quiz.LoadQuestion(id, Quiz.NewQuestionDoc(cq, author)).value,
                      ownerUid, answeredIds, status)
            <==> currentUid.Some? && currentUid.value != author && id !in answeredIds && id !in status
  {
    Quiz.NewQuestionLoadsBack(id, cq, author);
  }

  /**
   * The rating check and the creator check agree: rating is offered exactly
   * to a signed-in user who is not the creator and has no rating yet.
   */
  lemma CanRateMeans(currentUid: Option<string>, q: Quiz.Question, ownerUid: Option<string>)
    ensures CanRate(currentUid, q, ownerUid) <==>
              currentUid.Some? && !IsCreator(currentUid, q, ownerUid) && currentUid.value !in q.ratings
  {
  }

  /**
   * For an object read from its document, the owner's buttons appear exactly
   * for the signed-in user named as the document's owner, which is the
   * condition under which `QuizStore.DeleteObject` deletes it.
   */
  lemma CanManageIsStoredOwner(id: string, d: Quiz.ObjectDoc, currentUid: Option<string>)
    requires Quiz.ParseObject(id, d).Some?
    ensures CanManage(currentUid, Some(Quiz.ParseObject(id, d).value.ownerUid))
            <==> currentUid.Some? && d.ownerUid == currentUid
  {
  }

  // ---------------------------------------------------------------------------
  // What the dialog shows about one question

  /** The part of a question's panel below its text. */
  datatype Feedback =
    | AnswerForm             // the three radio buttons and "Submit"
    | ShowCorrect(text: string)
    | ShowIncorrect(correctText: string)
    | OwnQuestion            // "you made this question"
    | NoFeedback

  /**
   * The correct-answer text after an `Incorrect` result: the option at
   * `correctIndex` when there are three options, else a non-blank
   * `correctAnswer`, else "(N/A)". `None` is the list lookup throwing for a
   * stored index outside 0..2.
   */
  function CorrectTextAfterIncorrect(q: Quiz.Question): (r: Option<string>)
    ensures q.correctIndex.Some? && |q.options| == 3 ==>
              (r.Some? <==> 0 <= q.correctIndex.value < 3)
              && (r.Some? ==> r.value == q.options[q.correctIndex.value])
    ensures !(q.correctIndex.Some? && |q.options| == 3) ==>
              r == Some(if q.correctAnswer.Some? && !IsBlank(q.correctAnswer.value) then q.correctAnswer.value else "(N/A)")
  {
    if q.correctIndex.Some? && |q.options| == 3 then
      if 0 <= q.correctIndex.value < 3 then Some(q.options[q.correctIndex.value]) else None
    else if q.correctAnswer.Some? && !IsBlank(q.correctAnswer.value) then Some(q.correctAnswer.value)
    else Some("(N/A)")
  }

  /** The panel of one question (`None`: an option lookup throws). */
  function PanelFeedback(currentUid: Option<string>, q: Quiz.Question, ownerUid: Option<string>,
                         answeredIds: set<string>, status: map<string, Quiz.AnswerResult>): (r: Option<Feedback>)
    ensures r == Some(AnswerForm) <==> CanAnswer(currentUid, q, ownerUid, answeredIds, status)
  {
    if CanAnswer(currentUid, q, ownerUid, answeredIds, status) then Some(AnswerForm)
    else
      var st := if q.id in status then Some(status[q.id]) else None;
      var alreadyAnswered := q.id in answeredIds;
      var isCorrectOrAlready := st == Some(Quiz.Correct) || st == Some(Quiz.AlreadyAnswered) || alreadyAnswered;
      if isCorrectOrAlready && q.correctIndex.Some? && |q.options| == 3 then
        if 0 <= q.correctIndex.value < 3 then Some(ShowCorrect(q.options[q.correctIndex.value])) else None
      else if st == Some(Quiz.Incorrect) then
        var t := CorrectTextAfterIncorrect(q);
        if t.Some? then Some(ShowIncorrect(t.value)) else None
      else if IsCreator(currentUid, q, ownerUid) then Some(OwnQuestion)
      else Some(NoFeedback)
  }

  /** The creator is never shown the answer form. */
  lemma CreatorNeverSeesAnswerForm(currentUid: Option<string>, q: Quiz.Question, ownerUid: Option<string>,
                                   answeredIds: set<string>, status: map<string, Quiz.AnswerResult>)
    requires IsCreator(currentUid, q, ownerUid)
    ensures PanelFeedback(currentUid, q, ownerUid, answeredIds, status) != Some(AnswerForm)
  {
  }

  /**
   * After a `Correct` or `AlreadyAnswered` result in the dialog, a question
   * with three options and a stored index in range shows the option at that
   * index as the correct one.
   */
  lemma AnsweredShowsCorrectOption(currentUid: Option<string>, q: Quiz.Question, ownerUid: Option<string>,
                                   answeredIds: set<string>, status: map<string, Quiz.AnswerResult>)
    requires q.id in status && (status[q.id] == Quiz.Correct || status[q.id] == Quiz.AlreadyAnswered)
    requires |q.options| == 3 && q.correctIndex.Some? && 0 <= q.correctIndex.value < 3
    ensures PanelFeedback(currentUid, q, ownerUid, answeredIds, status) == Some(ShowCorrect(q.options[q.correctIndex.value]))
  {
  }

  /**
   * A question written by the store with an index in 0..2 and loaded back
   * never makes the "incorrect" text throw: it shows the option at its index.
   */
  lemma StoredQuestionCorrectText(id: string, cq: Quiz.CreateQuestion, creatorUid: string)
    requires 0 <= cq.correctIndex < 3
    ensures var q := Quiz.LoadQuestion(id, Quiz.NewQuestionDoc(cq, creatorUid));
            q.Some? && CorrectTextAfterIncorrect(q.value) == Some(Quiz.SafeOptions(cq.options)[cq.correctIndex])
  {
    Quiz.NewQuestionLoadsBack(id, cq, creatorUid);
  }

  // ---------------------------------------------------------------------------
  // The type label

  const AttractionLabel: string := "Turistička atrakcija"
  const CulturalLabel: string := "Kulturni objekat"
  const HistoricalLabel: string := "Istorijska lokacija"

  predicate IsAttractionSpelling(n: string) {
    n == MapScreen.AttractionKey || n == "turistička atrakcija" || n == "turisticka atrakcija" || n == "tourist attraction"
  }

  predicate IsCulturalSpelling(n: string) {
    n == MapScreen.CulturalKey || n == "kulturni objekat" || n == "cultural object"
  }

  predicate IsHistoricalSpelling(n: string) {
    n == MapScreen.HistoricalKey || n == "istorijska lokacija" || n == "historical location"
  }

  /** The "Tip:" label: a known spelling gets its label, anything else its first character upper-cased. */
  function TypeLabel(objectType: string): (r: string)
    ensures var n := ToLower(Trim(objectType));
            (IsAttractionSpelling(n) ==> r == AttractionLabel)
            && (IsCulturalSpelling(n) && !IsAttractionSpelling(n) ==> r == CulturalLabel)
            && (IsHistoricalSpelling(n) && !IsAttractionSpelling(n) && !IsCulturalSpelling(n) ==> r == HistoricalLabel)
    ensures var n := ToLower(Trim(objectType));
            !IsAttractionSpelling(n) && !IsCulturalSpelling(n) && !IsHistoricalSpelling(n) ==> r == CapitalizeFirst(objectType)
  {
    var n := ToLower(Trim(objectType));
    if IsAttractionSpelling(n) then AttractionLabel
    else if IsCulturalSpelling(n) then CulturalLabel
    else if IsHistoricalSpelling(n) then HistoricalLabel
    else CapitalizeFirst(objectType)
  }

  /** The label the map screen offers for each canonical key. */
  function LabelOf(key: string): string {
    if key == MapScreen.CulturalKey then CulturalLabel
    else if key == MapScreen.HistoricalKey then HistoricalLabel
    else AttractionLabel
  }

  /** Each canonical key is labelled with the label the create form offered for it. */
  lemma KeyLabel(k: string)
    requires MapScreen.IsTypeKey(k)
    ensures TypeLabel(k) == LabelOf(k)
  {
    MapScreen.KeyIsTrimmedLower(k);
    KeyIsOwnSpelling(k);
  }

  lemma KeyIsOwnSpelling(k: string)
    requires MapScreen.IsTypeKey(k)
    ensures k == MapScreen.AttractionKey ==> IsAttractionSpelling(k)
    ensures k == MapScreen.CulturalKey ==> !IsAttractionSpelling(k) && IsCulturalSpelling(k)
    ensures k == MapScreen.HistoricalKey ==> !IsAttractionSpelling(k) && !IsCulturalSpelling(k) && IsHistoricalSpelling(k)
  {
  }

  /** The label of the key stored for a selected type is the label of that key. */
  lemma StoredTypeLabel(selectedType: string)
    ensures TypeLabel(MapScreen.TypeKey(selectedType)) == LabelOf(MapScreen.TypeKey(selectedType))
  {
    KeyLabel(MapScreen.TypeKey(selectedType));
  }

  // ---------------------------------------------------------------------------
  // The dialog's state

  /** Rating buttons go from 1 to 5. */
  predicate IsRating(r: int) {
    1 <= r <= 5
  }

  class DetailsDialog {
    /** `selectedIdxMap`: the chosen option per question id. */
    var selectedIdx: map<string, int>
    /** `answerStatus`: the result received per question id. */
    var answerStatus: map<string, Quiz.AnswerResult>
    /** The `rating` state per question id; an absent id is 0, nothing picked. */
    var ratingPick: map<string, int>

    /** Every recorded pick is a button's rating. */
    predicate Valid()
      reads this
    {
      forall id :: id in ratingPick ==> IsRating(ratingPick[id])
    }

    constructor ()
      ensures Valid() && selectedIdx == map[] && answerStatus == map[] && ratingPick == map[]
    {
      selectedIdx := map[];
      answerStatus := map[];
      ratingPick := map[];
    }

    /** A radio button's `onClick`. */
    method Select(questionId: string, i: int)
      modifies this
      ensures selectedIdx == old(selectedIdx)[questionId := i]
      ensures answerStatus == old(answerStatus) && ratingPick == old(ratingPick)
    {
      selectedIdx := selectedIdx[questionId := i];
    }

    /** "Submit": forwards the selection only when there is one in 0..2. */
    method Submit(questionId: string) returns (forwarded: Option<int>)
      ensures forwarded.Some? <==> questionId in selectedIdx && 0 <= selectedIdx[questionId] <= 2
      ensures forwarded.Some? ==> forwarded.value == selectedIdx[questionId]
    {
      if questionId in selectedIdx && 0 <= selectedIdx[questionId] <= 2 {
        forwarded := Some(selectedIdx[questionId]);
      } else {
        forwarded := None;
      }
    }

    /**
     * The result callback: records the status; on `Correct` or
     * `AlreadyAnswered` the selection moves to the stored correct index.
     */
    method OnResult(q: Quiz.Question, res: Quiz.AnswerResult)
      requires Valid()
      modifies this
      ensures Valid()
      ensures answerStatus == old(answerStatus)[q.id := res]
      ensures selectedIdx == if (res == Quiz.Correct || res == Quiz.AlreadyAnswered) && q.correctIndex.Some?
                             then old(selectedIdx)[q.id := q.correctIndex.value] else old(selectedIdx)
      ensures ratingPick == old(ratingPick)
    {
      answerStatus := answerStatus[q.id := res];
      if res == Quiz.Correct || res == Quiz.AlreadyAnswered {
        if q.correctIndex.Some? {
          selectedIdx := selectedIdx[q.id := q.correctIndex.value];
        }
      }
    }

    /**
     * A rating button: enabled only while nothing is picked for the question,
     * so only the first pick is sent (`sent`).
     */
    method PickRating(questionId: string, r: int) returns (sent: bool)
      requires Valid() && IsRating(r)
      modifies this
      ensures Valid()
      ensures sent <==> questionId !in old(ratingPick)
      ensures ratingPick == if sent then old(ratingPick)[questionId := r] else old(ratingPick)
      ensures selectedIdx == old(selectedIdx) && answerStatus == old(answerStatus)
    {
      if questionId !in ratingPick {
        ratingPick := ratingPick[questionId := r];
        sent := true;
      } else {
        sent := false;
      }
    }
  }

  /** Once a result is recorded, the question's answer form is gone for good. */
  lemma ResultLocksQuestion(currentUid: Option<string>, q: Quiz.Question, ownerUid: Option<string>,
                            answeredIds: set<string>, status: map<string, Quiz.AnswerResult>, res: Quiz.AnswerResult)
    ensures !CanAnswer(currentUid, q, ownerUid, answeredIds, status[q.id := res])
  {
  }

  /** In one dialog, two picks on the same question send one rating. */
  method TwoPicksSendOne(questionId: string, first: int, second: int) returns (sentFirst: bool, sentSecond: bool)
    requires IsRating(first) && IsRating(second)
    ensures sentFirst && !sentSecond
  {
    var dialog := new DetailsDialog();
    sentFirst := dialog.PickRating(questionId, first);
    sentSecond := dialog.PickRating(questionId, second);
  }

  // ---------------------------------------------------------------------------
  // The "add question" sub-dialog

  /** "Dodaj": forwards the question as typed when its text and all three options are non-blank. */
  function AddQuestionRequest(text: string, options: seq<string>, correct: int): (r: Option<Quiz.CreateQuestion>)
    ensures r.Some? <==> !IsBlank(text) && forall i :: 0 <= i < |options| ==> !IsBlank(options[i])
    ensures r.Some? ==> r.value == Quiz.CreateQuestion(text, options, correct)
  {
    if !IsBlank(text) && forall i :: 0 <= i < |options| ==> !IsBlank(options[i]) then
      Some(Quiz.CreateQuestion(text, options, correct))
    else None
  }

  /**
   * A question added from the dialog, whose option list always has three
   * entries, is stored with those options as typed (not trimmed) and, for an
   * index in 0..2, the trimmed option as its correct answer.
   */
  lemma AddedQuestionStored(text: string, o1: string, o2: string, o3: string, correct: int, creatorUid: string)
    requires AddQuestionRequest(text, [o1, o2, o3], correct).Some?
    ensures var d := Quiz.NewQuestionDoc(AddQuestionRequest(text, [o1, o2, o3], correct).value, creatorUid);
            d.text == Some(text) && d.option1 == Some(o1) && d.option2 == Some(o2) && d.option3 == Some(o3)
            && (0 <= correct < 3 ==> d.correctAnswer == Some(Trim([o1, o2, o3][correct])))
  {
    assert [o1, o2, o3][..3] == [o1, o2, o3];
  }
}
