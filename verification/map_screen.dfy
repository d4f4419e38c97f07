/**
 * The rules embedded in the map screen (`MapScreen`): the canonical object
 * type keys, the filter deciding which objects are drawn, the validation of
 * the "add object" form, and the form's list of questions.
 */
module MapScreen {
  import opened Common
  import opened Text
  import Quiz

  /** A question as the form edits it (`QItem`); `id` is a random UUID in the application. */
  datatype QItem = QItem(text: string, options: seq<string>, correctIndex: int, id: string)

  // ---------------------------------------------------------------------------
  // Object types

  const AttractionKey: string := "attraction"
  const CulturalKey: string := "cultural"
  const HistoricalKey: string := "historical"

  predicate IsTypeKey(k: string) {
    k == AttractionKey || k == CulturalKey || k == HistoricalKey
  }

  /** Spellings, after trimming and lower-casing, that `normalizeType` reads as an attraction. */
  predicate IsAttractionName(n: string) {
    || n == "turistička atrakcija" || n == "turisticka atrakcija" || n == "turistička lokacija"
    || n == "turisticka lokacija" || n == "tourist attraction" || n == AttractionKey
  }

  /** Spellings read as a cultural object. */
  predicate IsCulturalName(n: string) {
    n == "kulturni objekat" || n == CulturalKey || n == "culture" || n == "kulturno" || n == "kulturna lokacija"
  }

  /** Spellings read as a historical site. */
  predicate IsHistoricalName(n: string) {
    n == "istorijska lokacija" || n == HistoricalKey || n == "history" || n == "istorijski objekat"
  }

  /**
   * `normalizeType`: the canonical key of a stored type. A missing type, and
   * any spelling no list holds, counts as an attraction.
   */
  function NormalizeType(raw: Option<string>): (r: string)
    ensures IsTypeKey(r)
    ensures raw.None? ==> r == AttractionKey
  {
    if raw.None? then AttractionKey
    else
      var r := ToLower(Trim(raw.value));
      if IsAttractionName(r) then AttractionKey
      else if IsCulturalName(r) then CulturalKey
      else if IsHistoricalName(r) then HistoricalKey
      else AttractionKey
  }

  /** No spelling is listed under two keys. */
  lemma NameListsDisjoint(n: string)
    ensures IsCulturalName(n) ==> !IsAttractionName(n)
    ensures IsHistoricalName(n) ==> !IsAttractionName(n) && !IsCulturalName(n)
  {
  }

  /**
   * A stored type is cultural exactly when its trimmed, lower-cased spelling
   * is one of the cultural spellings, historical likewise, and an attraction
   * otherwise.
   */
  lemma NormalizeTypeClassifies(raw: string)
    ensures NormalizeType(Some(raw)) == CulturalKey <==> IsCulturalName(ToLower(Trim(raw)))
    ensures NormalizeType(Some(raw)) == HistoricalKey <==> IsHistoricalName(ToLower(Trim(raw)))
    ensures NormalizeType(Some(raw)) == AttractionKey
            <==> !IsCulturalName(ToLower(Trim(raw))) && !IsHistoricalName(ToLower(Trim(raw)))
  {
    NameListsDisjoint(ToLower(Trim(raw)));
  }

  /** A lower-case ASCII letter is its own lower case. */
  lemma LowerLetterFixed(c: char)
    requires 'a' <= c <= 'z'
    ensures LowerChar(c) == c && !IsWhitespace(c)
  {
  }

  /** A word of lower-case ASCII letters is its own trimmed, lower-cased form. */
  lemma LowerWordFixed(s: string)
    requires s != [] && forall i :: 0 <= i < |s| ==> 'a' <= s[i] <= 'z'
    ensures ToLower(Trim(s)) == s
  {
    LowerLetterFixed(s[0]);
    LowerLetterFixed(s[|s| - 1]);
    TrimOfTrimmed(s);
    forall i | 0 <= i < |s|
      ensures ToLower(s)[i] == s[i]
    {
      LowerLetterFixed(s[i]);
    }
  }

  /** Each canonical key normalises to itself. */
  lemma KeyNormalizesToItself(k: string)
    requires IsTypeKey(k)
    ensures NormalizeType(Some(k)) == k
  {
    KeyIsTrimmedLower(k);
    KeyIsItsOwnSpelling(k);
  }

  lemma KeyIsTrimmedLower(k: string)
    requires IsTypeKey(k)
    ensures ToLower(Trim(k)) == k
  {
    KeyIsLowerWord(k);
    LowerWordFixed(k);
  }

  lemma KeyIsItsOwnSpelling(k: string)
    requires IsTypeKey(k) && ToLower(Trim(k)) == k
    ensures NormalizeType(Some(k)) == k
  {
    KeyIsOnlyItsOwnName(k);
    SpellingNormalizes(k);
  }

  lemma KeyIsLowerWord(k: string)
    requires IsTypeKey(k)
    ensures k != [] && forall i :: 0 <= i < |k| ==> 'a' <= k[i] <= 'z'
  {
  }

  /** A spelling already trimmed and lower-cased normalises to the key whose list holds it. */
  lemma SpellingNormalizes(n: string)
    requires ToLower(Trim(n)) == n
    ensures IsAttractionName(n) ==> NormalizeType(Some(n)) == AttractionKey
    ensures IsCulturalName(n) ==> NormalizeType(Some(n)) == CulturalKey
    ensures IsHistoricalName(n) ==> NormalizeType(Some(n)) == HistoricalKey
  {
    NameListsDisjoint(n);
  }

  /** A canonical key is a spelling of its own key and of no other. */
  lemma KeyIsOnlyItsOwnName(k: string)
    requires IsTypeKey(k)
    ensures k == AttractionKey ==> IsAttractionName(k)
    ensures k == CulturalKey ==> !IsAttractionName(k) && IsCulturalName(k)
    ensures k == HistoricalKey ==> !IsAttractionName(k) && !IsCulturalName(k) && IsHistoricalName(k)
  {
  }

  /** `normalizeType` is idempotent. */
  lemma NormalizeTypeIdempotent(raw: Option<string>)
    ensures NormalizeType(Some(NormalizeType(raw))) == NormalizeType(raw)
  {
    KeyNormalizesToItself(NormalizeType(raw));
  }

  /** The key the create form stores for the selected type label (`when (selectedType.trim().lowercase())`). */
  function TypeKey(selectedType: string): (r: string)
    ensures IsTypeKey(r)
  {
    var s := ToLower(Trim(selectedType));
    if s == "turistička atrakcija" || s == "tourist attraction" then AttractionKey
    else if s == "kulturni objekat" || s == CulturalKey then CulturalKey
    else if s == "istorijska lokacija" || s == HistoricalKey then HistoricalKey
    else AttractionKey
  }

  /** A stored type key is read back by `normalizeType` as the same key. */
  lemma TypeKeyReadsBack(selectedType: string)
    ensures NormalizeType(Some(TypeKey(selectedType))) == TypeKey(selectedType)
  {
    KeyNormalizesToItself(TypeKey(selectedType));
  }

  /** Every label `typeKey` recognises, `normalizeType` reads as the same key. */
  lemma TypeKeyAgreesWithNormalizeType(selectedType: string)
    ensures TypeKey(selectedType) != AttractionKey ==> NormalizeType(Some(selectedType)) == TypeKey(selectedType)
  {
    NormalizeTypeClassifies(selectedType);
  }

  // ---------------------------------------------------------------------------
  // The object filter

  /** The filter dialog's state. */
  datatype Filters = Filters(
    onlyMine: bool,
    typeEnabled: map<string, bool>,
    creatorFilter: string,
    limitByDistance: bool,
    maxDistanceMeters: real)

  /** The screen's initial filters: every type enabled, no other restriction, 1000 m once distance is limited. */
  const InitialFilters: Filters :=
    Filters(false, map[AttractionKey := true, CulturalKey := true, HistoricalKey := true], "", false, 1000.0)

  /** The predicate of `displayedObjects`: type enabled, mine if asked, creator matches, near enough if asked. */
  predicate Keep(obj: Quiz.TouristObject, f: Filters, myUid: Option<string>, here: Option<LatLng>, dist: Distance) {
    var cf := ToLower(Trim(f.creatorFilter));
    var typeKey := NormalizeType(obj.objectType);
    && (typeKey in f.typeEnabled && f.typeEnabled[typeKey])
    && (!f.onlyMine || Some(obj.ownerUid) == myUid)
    && (cf == [] || (obj.ownerName.Some? && Contains(ToLower(obj.ownerName.value), cf)))
    && (!f.limitByDistance || here.None? || dist(here.value, obj.latLng) <= f.maxDistanceMeters)
  }

  /** The filter's lambda, with the screen state it captures. */
  function KeepFn(f: Filters, myUid: Option<string>, here: Option<LatLng>, dist: Distance): Quiz.TouristObject -> bool {
    o => Keep(o, f, myUid, here, dist)
  }

  /** `displayedObjects`: `objects.filter { … }`. */
  function Displayed(objects: seq<Quiz.TouristObject>, f: Filters, myUid: Option<string>, here: Option<LatLng>,
                     dist: Distance): seq<Quiz.TouristObject>
  {
    Filter(objects, KeepFn(f, myUid, here, dist))
  }

  /**
   * The displayed objects are the kept objects in list order: `idx` picks
   * them out, strictly increasing, and misses none.
   */
  lemma DisplayedIsOrderedFilter(objects: seq<Quiz.TouristObject>, f: Filters, myUid: Option<string>,
                                 here: Option<LatLng>, dist: Distance)
    returns (idx: seq<int>)
    ensures var r := Displayed(objects, f, myUid, here, dist);
            |idx| == |r|
            && (forall k :: 0 <= k < |idx| ==>
                  0 <= idx[k] < |objects| && r[k] == objects[idx[k]] && Keep(objects[idx[k]], f, myUid, here, dist))
            && (forall k, l :: 0 <= k < l < |idx| ==> idx[k] < idx[l])
            && (forall i :: 0 <= i < |objects| && Keep(objects[i], f, myUid, here, dist) ==> i in idx)
  {
    idx := FilterPicks(objects, KeepFn(f, myUid, here, dist));
  }

  /** A creator filter that is blank after trimming filters nothing out. */
  lemma BlankCreatorFilterIgnored(objects: seq<Quiz.TouristObject>, f: Filters, myUid: Option<string>,
                                  here: Option<LatLng>, dist: Distance)
    requires IsBlank(f.creatorFilter)
    ensures Displayed(objects, f, myUid, here, dist) == Displayed(objects, f.(creatorFilter := ""), myUid, here, dist)
  {
    assert Trim(f.creatorFilter) == [] && Trim(f.(creatorFilter := "").creatorFilter) == [];
    FilterCongruent(objects, KeepFn(f, myUid, here, dist), KeepFn(f.(creatorFilter := ""), myUid, here, dist));
  }

  /** A creator filter that is not blank hides every object without an owner name. */
  lemma CreatorFilterNeedsOwnerName(obj: Quiz.TouristObject, f: Filters, myUid: Option<string>, here: Option<LatLng>,
                                    dist: Distance)
    requires !IsBlank(f.creatorFilter) && obj.ownerName.None?
    ensures !Keep(obj, f, myUid, here, dist)
  {
  }

  /** Filters that enable every type and restrict nothing else. */
  predicate Unrestricted(f: Filters) {
    && AttractionKey in f.typeEnabled && f.typeEnabled[AttractionKey]
    && CulturalKey in f.typeEnabled && f.typeEnabled[CulturalKey]
    && HistoricalKey in f.typeEnabled && f.typeEnabled[HistoricalKey]
    && !f.onlyMine && IsBlank(f.creatorFilter) && !f.limitByDistance
  }

  /** Unrestricted filters keep any object. */
  lemma UnrestrictedKeeps(o: Quiz.TouristObject, f: Filters, myUid: Option<string>, here: Option<LatLng>, dist: Distance)
    requires Unrestricted(f)
    ensures KeepFn(f, myUid, here, dist)(o)
  {
    assert Trim(f.creatorFilter) == [];
  }

  /** With unrestricted filters, such as the initial ones, every object is displayed. */
  lemma UnrestrictedShowsAll(objects: seq<Quiz.TouristObject>, f: Filters, myUid: Option<string>, here: Option<LatLng>,
                             dist: Distance)
    requires Unrestricted(f)
    ensures Displayed(objects, f, myUid, here, dist) == objects
  {
    forall o | o in objects
      ensures KeepFn(f, myUid, here, dist)(o)
    {
      UnrestrictedKeeps(o, f, myUid, here, dist);
    }
    FilterAll(objects, KeepFn(f, myUid, here, dist));
  }

  /** The screen starts with unrestricted filters. */
  lemma InitialFiltersUnrestricted()
    ensures Unrestricted(InitialFilters)
  {
    assert IsBlank(InitialFilters.creatorFilter);
  }

  // ---------------------------------------------------------------------------
  // The create form's validation

  /** A form question the create action keeps: non-blank text and at least three options, none blank. */
  predicate Usable(q: QItem) {
    !IsBlank(q.text) && |q.options| >= 3 && forall i :: 0 <= i < |q.options| ==> !IsBlank(q.options[i])
  }

  /** `options.map { it.trim() }.take(3)`. */
  function TrimTake3(options: seq<string>): (r: seq<string>)
    ensures |r| == if |options| < 3 then |options| else 3
    ensures forall i :: 0 <= i < |r| ==> r[i] == Trim(options[i])
  {
    var trimmed := seq(|options|, i requires 0 <= i < |options| => Trim(options[i]));
    if |trimmed| < 3 then trimmed else trimmed[..3]
  }

  /** What the create action hands to the store for one kept question. */
  function ToCreateQuestion(q: QItem): Quiz.CreateQuestion {
    Quiz.CreateQuestion(Trim(q.text), TrimTake3(q.options), q.correctIndex)
  }

  /** The `filter { … }.map { … }` over the form's questions. */
  function CreateQuestions(qs: seq<QItem>): (r: seq<Quiz.CreateQuestion>)
    ensures |r| == |Filter(qs, Usable)|
  {
    var kept := Filter(qs, Usable);
    seq(|kept|, i requires 0 <= i < |kept| => ToCreateQuestion(kept[i]))
  }

  /** A trimmed string that was not blank is not blank, and trimming it again changes nothing. */
  lemma TrimmedNotBlank(s: string)
    requires !IsBlank(s)
    ensures !IsBlank(Trim(s)) && Trim(Trim(s)) == Trim(s)
  {
    TrimIdempotent(s);
  }

  /** The question a usable form question becomes has non-blank trimmed text and three non-blank trimmed options. */
  lemma UsableToCreateQuestion(q: QItem)
    requires Usable(q)
    ensures var c := ToCreateQuestion(q);
            !IsBlank(c.text) && Trim(c.text) == c.text && |c.options| == 3
            && forall j :: 0 <= j < 3 ==> !IsBlank(c.options[j]) && Trim(c.options[j]) == c.options[j]
  {
    var c := ToCreateQuestion(q);
    TrimmedNotBlank(q.text);
    forall j | 0 <= j < 3
      ensures !IsBlank(c.options[j]) && Trim(c.options[j]) == c.options[j]
    {
      TrimmedNotBlank(q.options[j]);
    }
  }

  /**
   * The questions the form submits are the usable form questions, in order:
   * `idx` picks them out, strictly increasing, and misses none.
   */
  lemma CreateQuestionsAreUsable(qs: seq<QItem>) returns (idx: seq<int>)
    ensures var r := CreateQuestions(qs);
            |idx| == |r|
            && (forall k :: 0 <= k < |idx| ==> 0 <= idx[k] < |qs| && Usable(qs[idx[k]]) && r[k] == ToCreateQuestion(qs[idx[k]]))
            && (forall k, l :: 0 <= k < l < |idx| ==> idx[k] < idx[l])
            && (forall i :: 0 <= i < |qs| && Usable(qs[i]) ==> i in idx)
  {
    idx := FilterPicks(qs, Usable);
  }

  /**
   * Every question the form submits has non-blank trimmed text and exactly
   * three options, each non-blank and trimmed.
   */
  lemma CreateQuestionsWellFormed(qs: seq<QItem>, q: Quiz.CreateQuestion)
    requires q in CreateQuestions(qs)
    ensures !IsBlank(q.text) && Trim(q.text) == q.text && |q.options| == 3
    ensures forall j :: 0 <= j < 3 ==> !IsBlank(q.options[j]) && Trim(q.options[j]) == q.options[j]
  {
    var idx := CreateQuestionsAreUsable(qs);
    var r := CreateQuestions(qs);
    var k :| 0 <= k < |r| && r[k] == q;
    UsableToCreateQuestion(qs[idx[k]]);
  }

  /** The outcome of the create button. */
  datatype CreateOutcome =
    | Ignored        // not signed in, or no location yet: nothing happens
    | MissingData    // the "enter all data" message
    | Submit(ownerUid: string, name: string, details: string, at: LatLng,
             questions: seq<Quiz.CreateQuestion>, typeKey: string)

  /** `onCreate`: the trimmed name and details and at least one usable question are needed. */
  function OnCreate(uid: Option<string>, loc: Option<LatLng>, name: string, details: string, qs: seq<QItem>,
                    selectedType: string): (r: CreateOutcome)
    ensures r.Ignored? <==> uid.None? || loc.None?
    ensures r.MissingData? <==> uid.Some? && loc.Some? && (IsBlank(name) || IsBlank(details) || CreateQuestions(qs) == [])
    ensures r.Submit? ==> r.ownerUid == uid.value && r.at == loc.value
                          && r.name == Trim(name) && !IsBlank(r.name) && r.details == Trim(details) && !IsBlank(r.details)
                          && r.questions == CreateQuestions(qs) && r.questions != []
                          && r.typeKey == TypeKey(selectedType) && IsTypeKey(r.typeKey)
  {
    if uid.None? || loc.None? then Ignored
    else
      var trimmedName := Trim(name);
      var trimmedDetails := Trim(details);
      var questions := CreateQuestions(qs);
      if trimmedName == [] || trimmedDetails == [] || questions == [] then MissingData
      else Submit(uid.value, trimmedName, trimmedDetails, loc.value, questions, TypeKey(selectedType))
  }

  /**
   * A submitted question reaches the store unchanged: its document holds
   * exactly its three options, and the stored correct answer is the option
   * at its index.
   */
  lemma SubmittedQuestionsStoredAsTyped(uid: Option<string>, loc: Option<LatLng>, name: string, details: string,
                                        qs: seq<QItem>, selectedType: string, q: Quiz.CreateQuestion)
    requires OnCreate(uid, loc, name, details, qs, selectedType).Submit?
    requires q in OnCreate(uid, loc, name, details, qs, selectedType).questions
    ensures |q.options| == 3
    ensures var d := Quiz.NewQuestionDoc(q, uid.value);
            d.option1 == Some(q.options[0]) && d.option2 == Some(q.options[1]) && d.option3 == Some(q.options[2])
            && (0 <= q.correctIndex < 3 ==> d.correctAnswer == Some(q.options[q.correctIndex]))
  {
    CreateQuestionsWellFormed(qs, q);
    TrimmedOptionsStoredAsTyped(q, uid.value);
  }

  /** A question with three trimmed options is stored with exactly those options and the one at its index as answer. */
  lemma TrimmedOptionsStoredAsTyped(q: Quiz.CreateQuestion, creatorUid: string)
    requires |q.options| == 3 && forall j :: 0 <= j < 3 ==> Trim(q.options[j]) == q.options[j]
    ensures var d := Quiz.NewQuestionDoc(q, creatorUid);
            d.option1 == Some(q.options[0]) && d.option2 == Some(q.options[1]) && d.option3 == Some(q.options[2])
            && (0 <= q.correctIndex < 3 ==> d.correctAnswer == Some(q.options[q.correctIndex]))
  {
    assert q.options[..3] == q.options;
    assert Quiz.SafeOptions(q.options) == q.options;
    if 0 <= q.correctIndex < 3 {
      assert Trim(q.options[q.correctIndex]) == q.options[q.correctIndex];
    }
  }

  // ---------------------------------------------------------------------------
  // The form's questions

  function Max(a: int, b: int): int {
    if a < b then b else a
  }

  /**
   * `onChangeQuestionOption`'s list edit: pads with empty options up to three,
   * then sets the one at `optIdx`.
   */
  method PadAndSet(options: seq<string>, optIdx: int, value: string) returns (r: seq<string>)
    requires 0 <= optIdx < Max(|options|, 3)
    ensures |r| == Max(|options|, 3)
    ensures r[optIdx] == value
    ensures forall i :: 0 <= i < |options| && i != optIdx ==> r[i] == options[i]
    ensures forall i :: |options| <= i < |r| && i != optIdx ==> r[i] == ""
  {
    r := options;
    while |r| < 3
      invariant |options| <= |r| <= Max(|options|, 3)
      invariant r[..|options|] == options
      invariant forall i :: |options| <= i < |r| ==> r[i] == ""
    {
      r := r + [""];
    }
    r := r[optIdx := value];
  }

  /** The add-object dialog's state: name, details and the editable question list. */
  class AddObjectForm {
    var name: string
    var details: string
    var questions: seq<QItem>

    /** Every question of the form has at least three options. */
    predicate Valid()
      reads this
    {
      forall i :: 0 <= i < |questions| ==> |questions[i].options| >= 3
    }

    constructor ()
      ensures Valid() && name == [] && details == [] && questions == []
    {
      name := [];
      details := [];
      questions := [];
    }

    /** `onAddQuestion`: a blank question with three empty options and index 0. */
    method AddQuestion(id: string)
      requires Valid()
      modifies this
      ensures Valid()
      ensures questions == old(questions) + [QItem("", ["", "", ""], 0, id)]
      ensures name == old(name) && details == old(details)
    {
      questions := questions + [QItem("", ["", "", ""], 0, id)];
    }

    /** `onRemoveQuestion`. */
    method RemoveQuestion(idx: int)
      requires Valid() && 0 <= idx < |questions|
      modifies this
      ensures Valid()
      ensures questions == old(questions)[..idx] + old(questions)[idx + 1..]
      ensures name == old(name) && details == old(details)
    {
      questions := questions[..idx] + questions[idx + 1..];
    }

    /** `onChangeQuestionText`. */
    method ChangeQuestionText(idx: int, text: string)
      requires Valid() && 0 <= idx < |questions|
      modifies this
      ensures Valid()
      ensures questions == old(questions)[idx := old(questions)[idx].(text := text)]
      ensures name == old(name) && details == old(details)
    {
      questions := questions[idx := questions[idx].(text := text)];
    }

    /** `onChangeQuestionOption`: the one option changes; the list is at least three long. */
    method ChangeQuestionOption(idx: int, optIdx: int, value: string)
      requires Valid() && 0 <= idx < |questions|
      requires 0 <= optIdx < Max(|questions[idx].options|, 3)
      modifies this
      ensures Valid()
      ensures |questions| == |old(questions)|
      ensures forall i :: 0 <= i < |questions| && i != idx ==> questions[i] == old(questions)[i]
      ensures var q := questions[idx];
              var o := old(questions)[idx];
              q.text == o.text && q.correctIndex == o.correctIndex && q.id == o.id
              && |q.options| == |o.options| && q.options[optIdx] == value
              && forall j :: 0 <= j < |q.options| && j != optIdx ==> q.options[j] == o.options[j]
      ensures name == old(name) && details == old(details)
    {
      var q := questions[idx];
      var newOptions := PadAndSet(q.options, optIdx, value);
      questions := questions[idx := q.(options := newOptions)];
    }

    /** `onChangeQuestionCorrectIndex`. */
    method ChangeQuestionCorrectIndex(idx: int, correct: int)
      requires Valid() && 0 <= idx < |questions|
      modifies this
      ensures Valid()
      ensures questions == old(questions)[idx := old(questions)[idx].(correctIndex := correct)]
      ensures name == old(name) && details == old(details)
    {
      questions := questions[idx := questions[idx].(correctIndex := correct)];
    }

    /** After a successful create the form is emptied. */
    method OnCreated()
      modifies this
      ensures Valid() && name == [] && details == [] && questions == []
    {
      name := [];
      details := [];
      questions := [];
    }
  }
}
