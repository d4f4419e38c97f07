# TouristQuiz rules, modelled in Dafny

TouristQuiz is an Android quiz game played on a map. Users place tourist
objects (attractions, cultural objects, historical locations) with
three-option questions. Other users answer those questions for points, rate
them, and get a notification when they come within 30 m of an object. The
service also scans the other users' location documents for users within
30 m, but as written those alerts never fire: `uploadLocation` writes no
`name` field and the user scan skips every document without one
(`Proximity.UploadedLocationsNeverAlert`). This project models the rules layer of the application:

- `common.dfy` (`Common`): `Option`, coordinates, the distance function type, and an order-preserving `Filter` with its lemmas.
- `text.dfy` (`Text`): the Kotlin string operations the rules use. These are `trim`, `isBlank`, `lowercase`, `startsWith`, `removePrefix`, `contains`, `replaceFirstChar { uppercase() }` and Java's `String.hashCode`.
- `quiz.dfy` (`Quiz`): the question store and the answer ledger (`ObjectRepository`).
  - The document store is the class `QuizStore`, whose fields are maps for `users`, `users/{uid}/answered`, `objects` and `objects/{id}/questions`.
  - Creating an object, adding a question, answering, rating and deleting are methods that update those maps.
  - Parsing documents and recovering answered question ids are functions.
- `locations.dfy` (`Locations`): the `user_locations` collection (`UserLocationRepository`).
  - The class `LocationTable` uploads and deletes records.
  - A snapshot loop builds the list of online users.
- `proximity.dfy` (`Proximity`): the proximity service (`ProximityService`).
  - The class `ProximityMonitor` holds the two throttle maps.
  - Its scan loops are proved against the specification function `Scan`, and the throttle properties are lemmas about `Scan`.
- `map_screen.dfy` (`MapScreen`): the rules embedded in the map screen.
  - Type-key normalisation, the object filter, and validation of the "add object" form.
  - The form's question list, the class `AddObjectForm`, with the option-padding loop.
- `object_details.dfy` (`ObjectDetails`): the rules of the object details dialog.
  - Who may answer, rate or manage, what a question's panel shows, and the type label.
  - The dialog's per-question state, the class `DetailsDialog`, and the "add question" sub-dialog.

Some things become inputs:

- Time becomes integer milliseconds: `now` for the device clock and `serverNow` for the store's timestamp.
- `Location.distanceBetween` becomes a function parameter `dist`.
- A snapshot read that fails becomes `None`.
- The signed-in user's id is an `Option`.

Calls run one after another.

## Model

| member | source | states |
|---|---|---|
| Quiz.ParseObject | app/src/main/java/com/example/touristquiz/data/ObjectRepository.kt:52-62 | a document becomes an object iff it has owner, name, lat and lng; the id, owner, owner name, name, type, image URL, coordinates and creation time are copied, and details default to \"\" |
| Quiz.StoredOptions | app/src/main/java/com/example/touristquiz/data/ObjectRepository.kt:73-76 | the options are the three stored ones when all three exist, otherwise empty |
| Quiz.LoadQuestion | app/src/main/java/com/example/touristquiz/data/ObjectRepository.kt:71-96 | a document without text is dropped; otherwise the question carries the document id, its text, the options (all three or none), the stored correct answer and index, the creator, the ratings, the average and the count |
| Quiz.SafeOptions | app/src/main/java/com/example/touristquiz/data/ObjectRepository.kt:143 | always three options: the first three given, or three empty strings when fewer were given |
| Quiz.NewQuestionLoadsBack | app/src/main/java/com/example/touristquiz/data/ObjectRepository.kt:143-157 | a written question loads back with the safe options, the given index, the trimmed option at that index as correct answer (absent when out of range), the creator, no ratings, average 0 and count 0 |
| Quiz.NewQuestionResolves | app/src/main/java/com/example/touristquiz/data/ObjectRepository.kt:152 | a written question resolves to exactly its given index, and its empty ratings agree with its count and average |
| Quiz.QuestionBatchKeys | app/src/main/java/com/example/touristquiz/data/ObjectRepository.kt:141-142 | the batch writes under exactly the given ids |
| Quiz.QuestionBatchValues | app/src/main/java/com/example/touristquiz/data/ObjectRepository.kt:141-159 | with distinct ids, the document under each id is the normalised form of that id's question |
| Quiz.QuizStore.BuildBatch | app/src/main/java/com/example/touristquiz/data/ObjectRepository.kt:140-160 | the loop filling the batch builds exactly `QuestionBatch` |
| Quiz.IndexOfFirst | app/src/main/java/com/example/touristquiz/data/ObjectRepository.kt:199 | the result is the first index satisfying the predicate, or -1 when none does |
| Quiz.ResolveCorrectIndex | app/src/main/java/com/example/touristquiz/data/ObjectRepository.kt:190-202 | a stored index is used as is; otherwise, with an answer and three options, it is the first option equal to the answer after trimming and ignoring case; otherwise none |
| Quiz.QuizStore.ResolveIndex | app/src/main/java/com/example/touristquiz/data/ObjectRepository.kt:190-202 | the reassigning code computes exactly `ResolveCorrectIndex` |
| Quiz.AnsweredIdsExact | app/src/main/java/com/example/touristquiz/data/ObjectRepository.kt:215-222 | an id is recovered for an object iff the key `objectId_questionId` is among the user's answered records |
| Quiz.FirstIndexOf | app/src/main/java/com/example/touristquiz/data/ObjectRepository.kt:183 | the first position holding the character, or -1 exactly when it does not occur |
| Quiz.SeparatorPosition | app/src/main/java/com/example/touristquiz/data/ObjectRepository.kt:183 | for an object id without `_`, the first `_` of an answered key is the one after the object id |
| Quiz.AnsweredKeyInjective | app/src/main/java/com/example/touristquiz/data/ObjectRepository.kt:183 | for object ids without `_`, distinct (object, question) pairs have distinct answered keys |
| Quiz.SumRatingsRemove | app/src/main/java/com/example/touristquiz/data/ObjectRepository.kt:273-274 | the sum of a rating map is one entry plus the sum of the rest |
| Quiz.RatingUpsert | app/src/main/java/com/example/touristquiz/data/ObjectRepository.kt:272-275 | re-rating keeps the count and changes the sum by the difference; a new rater adds one to the count and the rating to the sum; every other entry is unchanged |
| Quiz.TwoRatingsAverage | app/src/main/java/com/example/touristquiz/data/ObjectRepository.kt:274 | example only: ratings 4 and 2 average to 3 |
| Quiz.SumOfRatings | app/src/main/java/com/example/touristquiz/data/ObjectRepository.kt:273-274 | the loop sums the rating map |
| Quiz.Credit | app/src/main/java/com/example/touristquiz/data/ObjectRepository.kt:164-165 | adds points to an existing user document only; missing users and every other user are unchanged |
| Quiz.FlattenSnoc | app/src/main/java/com/example/touristquiz/data/ObjectRepository.kt:306 | concatenating chunks distributes over appending a chunk |
| Quiz.Chunked | app/src/main/java/com/example/touristquiz/data/ObjectRepository.kt:306 | the chunks concatenate back to the list, and each holds between 1 and the chunk size items |
| Quiz.QuizStore.constructor | app/src/main/java/com/example/touristquiz/data/ObjectRepository.kt:14-17 | an empty store |
| Quiz.QuizStore.LoadQuestions | app/src/main/java/com/example/touristquiz/data/ObjectRepository.kt:68-97 | the loaded questions are exactly the object's question documents that have text, each parsed by `LoadQuestion` |
| Quiz.QuizStore.CreateObject | app/src/main/java/com/example/touristquiz/data/ObjectRepository.kt:115-169 | writes the object document with the resolved owner name; with questions, writes one normalised question per fresh id, with the owner as creator; credits the owner 20 points; leaves answered records alone |
| Quiz.QuizStore.AddQuestionToObject | app/src/main/java/com/example/touristquiz/data/ObjectRepository.kt:243-262 | writes exactly one normalised question under the new id, created by `creatorUid`; nothing else changes |
| Quiz.QuizStore.SubmitAnswerByIndex | app/src/main/java/com/example/touristquiz/data/ObjectRepository.kt:177-213 | an existing answered record gives AlreadyAnswered with nothing changed; a resolved index different from the selection gives Incorrect with nothing changed; a match writes the record and adds 5 points in one step, or fails with nothing written when the user document is missing |
| Quiz.QuizStore.RateQuestion | app/src/main/java/com/example/touristquiz/data/ObjectRepository.kt:264-293 | a missing question gives false with nothing changed; otherwise the rater's entry is set, the count is the number of raters and the average the exact mean; the creator, when recorded, gains the rating, and the rater gains 1 |
| Quiz.QuizStore.QuestionSnapshot | app/src/main/java/com/example/touristquiz/data/ObjectRepository.kt:303-304 | lists every question document id exactly once |
| Quiz.QuizStore.DeleteBatch | app/src/main/java/com/example/touristquiz/data/ObjectRepository.kt:307-309 | one batch removes exactly its documents |
| Quiz.QuizStore.DeleteBatches | app/src/main/java/com/example/touristquiz/data/ObjectRepository.kt:306-310 | the loop over the batches removes exactly the documents of all batches |
| Quiz.QuizStore.DeleteObject | app/src/main/java/com/example/touristquiz/data/ObjectRepository.kt:295-317 | a missing object, a missing owner or another requester gives false with nothing deleted; otherwise every question is deleted once, in batches of 1 to 400, then the object, and the result is true |
| Quiz.CreateAnswerTwiceScenario | app/src/main/java/com/example/touristquiz/data/ObjectRepository.kt:183-222 | for any question: the owner creates it and gains 20 points; a player answering with its index gets Correct and 5 points and finds its id among the answered ids; answering again gives AlreadyAnswered and no more points |
| Locations.LocationTable.constructor | app/src/main/java/com/example/touristquiz/data/UserLocationRepository.kt:10 | no records |
| Locations.LocationTable.UploadLocation | app/src/main/java/com/example/touristquiz/data/UserLocationRepository.kt:11-19 | overwrites the one record keyed by the uid with the coordinates, image URL and store time, without a name; every other uid is unchanged |
| Locations.LocationTable.DeleteLocation | app/src/main/java/com/example/touristquiz/data/UserLocationRepository.kt:22-25 | removes the uid's record and touches no other |
| Locations.Listed | app/src/main/java/com/example/touristquiz/data/UserLocationRepository.kt:37-49 | the listener's list is no longer than the snapshot |
| Locations.OnLocationsSnapshot | app/src/main/java/com/example/touristquiz/data/UserLocationRepository.kt:34-50 | a failed snapshot gives no callback; otherwise the loop builds exactly `Listed` |
| Locations.ListedIsOrderedFilter | app/src/main/java/com/example/touristquiz/data/UserLocationRepository.kt:37-49 | the list is the listed records, in snapshot order, and every listed record is in it; each entry's uid is its document id |
| Locations.ListedEntryIsOnlineRecord | app/src/main/java/com/example/touristquiz/data/UserLocationRepository.kt:40-47 | every emitted user has a snapshot document with both coordinates and a timestamp within the window |
| Locations.UploadedListedWhileFresh | app/src/main/java/com/example/touristquiz/data/UserLocationRepository.kt:30 | an uploaded record is listed iff it is no older than the window (bound included) |
| Proximity.UserTarget | app/src/main/java/com/example/touristquiz/location/ProximityService.kt:76-80 | a location document is scanned under its id and with its own name |
| Proximity.ObjectTarget | app/src/main/java/com/example/touristquiz/location/ProximityService.kt:98-101 | an object document is scanned under its id and with its own name |
| Proximity.TruncateTowardZero | app/src/main/java/com/example/touristquiz/location/ProximityService.kt:87 | `Float.toInt` rounds toward zero |
| Proximity.NotificationId | app/src/main/java/com/example/touristquiz/location/ProximityService.kt:128 | the id lies between the base and the base plus 0xFFF |
| Proximity.NotificationIdRanges | app/src/main/java/com/example/touristquiz/location/ProximityService.kt:128 | user ids lie in [2000, 6095] and object ids in [3000, 7095] |
| Proximity.ScanIneligible | app/src/main/java/com/example/touristquiz/location/ProximityService.kt:77-80 | a snapshot of ineligible documents raises nothing and leaves the throttle map alone |
| Proximity.UploadedLocationsNeverAlert | app/src/main/java/com/example/touristquiz/data/UserLocationRepository.kt:13-18 | documents written by `uploadLocation` have no name, so the user scan over them never alerts |
| Proximity.SelfNeverAlerted | app/src/main/java/com/example/touristquiz/location/ProximityService.kt:73-77 | in any snapshot, the signed-in user's own document raises no alert and leaves their throttle entry unchanged |
| Proximity.ScanKeepsOthers | app/src/main/java/com/example/touristquiz/location/ProximityService.kt:75-89 | ids outside the snapshot keep their throttle entry |
| Proximity.ScanAt | app/src/main/java/com/example/touristquiz/location/ProximityService.kt:84-87 | a document with a unique id alerts iff it is eligible, within 30 m inclusive and past its cooldown (last defaults to 0), and is then stamped with `now`; otherwise its entry is unchanged |
| Proximity.AlertsAreAbout | app/src/main/java/com/example/touristquiz/location/ProximityService.kt:75-89 | every alert is about a document of the snapshot |
| Proximity.AlertsAreOrderedFiring | app/src/main/java/com/example/touristquiz/location/ProximityService.kt:75-89 | the alerts are, in snapshot order, those of documents that fire against the throttle map before the scan (eligible, within 30 m, past the cooldown), each with the document's name, truncated distance and notification id; the first occurrence of every firing id raises one |
| Proximity.AlertedStampedNow | app/src/main/java/com/example/touristquiz/location/ProximityService.kt:86 | every alerted id has throttle entry `now` afterwards |
| Proximity.CoolingDownStaysQuiet | app/src/main/java/com/example/touristquiz/location/ProximityService.kt:85 | an id inside its cooldown raises nothing and keeps its entry |
| Proximity.WithinCooldownAtMostOnce | app/src/main/java/com/example/touristquiz/location/ProximityService.kt:85-86 | two scans no more than one cooldown apart raise at most one alert per id |
| Proximity.ProximityMonitor.constructor | app/src/main/java/com/example/touristquiz/location/ProximityService.kt:30-32 | empty throttle maps, not yet receiving updates |
| Proximity.ProximityMonitor.StartLocationUpdates | app/src/main/java/com/example/touristquiz/location/ProximityService.kt:44-52 | updates run iff the permission is granted; otherwise the service stops |
| Proximity.ProximityMonitor.CheckUserProximity | app/src/main/java/com/example/touristquiz/location/ProximityService.kt:70-91 | a failed read raises nothing; otherwise the loop leaves exactly the alerts and throttle map of `Scan` with the user rule, excluding the signed-in user; the object throttle is untouched |
| Proximity.ProximityMonitor.CheckObjectProximity | app/src/main/java/com/example/touristquiz/location/ProximityService.kt:93-114 | the same with the object rule and the separate object throttle; the user throttle is untouched |
| Proximity.ProximityMonitor.OnLocationResult | app/src/main/java/com/example/touristquiz/location/ProximityService.kt:54-68 | no fix does nothing; otherwise both scans run, each at its own clock reading, and, when signed in, the device's location is uploaded |
| Proximity.ProximityMonitor.OnDestroy | app/src/main/java/com/example/touristquiz/location/ProximityService.kt:167-171 | stops the updates and keeps the throttle maps |
| MapScreen.NormalizeType | app/src/main/java/com/example/touristquiz/ui/MapScreen.kt:118-125 | always a canonical key; a missing type gives `attraction` |
| MapScreen.NameListsDisjoint | app/src/main/java/com/example/touristquiz/ui/MapScreen.kt:121-123 | no spelling is in two lists |
| MapScreen.NormalizeTypeClassifies | app/src/main/java/com/example/touristquiz/ui/MapScreen.kt:118-125 | the result is `cultural` or `historical` iff the trimmed lower-case spelling is in that list, and `attraction` otherwise |
| MapScreen.KeyNormalizesToItself | app/src/main/java/com/example/touristquiz/ui/MapScreen.kt:121-123 | each canonical key normalises to itself |
| MapScreen.KeyIsTrimmedLower | app/src/main/java/com/example/touristquiz/ui/MapScreen.kt:119 | trimming and lower-casing leave a canonical key unchanged |
| MapScreen.KeyIsItsOwnSpelling | app/src/main/java/com/example/touristquiz/ui/MapScreen.kt:121-123 | each canonical key is in its own list |
| MapScreen.KeyIsLowerWord | app/src/main/java/com/example/touristquiz/ui/MapScreen.kt:121-123 | the canonical keys are non-empty lower-case ASCII words |
| MapScreen.LowerLetterFixed | app/src/main/java/com/example/touristquiz/ui/MapScreen.kt:119 | lower-casing keeps an ASCII lower-case letter, which is not whitespace |
| MapScreen.LowerWordFixed | app/src/main/java/com/example/touristquiz/ui/MapScreen.kt:119 | trimming and lower-casing keep a lower-case ASCII word |
| MapScreen.SpellingNormalizes | app/src/main/java/com/example/touristquiz/ui/MapScreen.kt:120-124 | a spelling already trimmed and lower-case normalises to its list's key |
| MapScreen.KeyIsOnlyItsOwnName | app/src/main/java/com/example/touristquiz/ui/MapScreen.kt:121-123 | each key is in its own list and in no earlier one |
| MapScreen.NormalizeTypeIdempotent | app/src/main/java/com/example/touristquiz/ui/MapScreen.kt:118-125 | normalising twice is normalising once |
| MapScreen.TypeKey | app/src/main/java/com/example/touristquiz/ui/MapScreen.kt:288-293 | the stored type is always a canonical key |
| MapScreen.TypeKeyReadsBack | app/src/main/java/com/example/touristquiz/ui/MapScreen.kt:288-293 | the stored type normalises back to itself |
| MapScreen.TypeKeyAgreesWithNormalizeType | app/src/main/java/com/example/touristquiz/ui/MapScreen.kt:288-293 | when the form maps a label to `cultural` or `historical`, reading the label back gives the same key |
| MapScreen.DisplayedIsOrderedFilter | app/src/main/java/com/example/touristquiz/ui/MapScreen.kt:131-147 | the displayed objects are, in order, the objects passing the type, owner, creator and distance tests, and every passing object is displayed |
| MapScreen.BlankCreatorFilterIgnored | app/src/main/java/com/example/touristquiz/ui/MapScreen.kt:132-137 | a creator filter that is blank after trimming restricts nothing |
| MapScreen.CreatorFilterNeedsOwnerName | app/src/main/java/com/example/touristquiz/ui/MapScreen.kt:137 | a non-blank creator filter hides objects without an owner name |
| MapScreen.UnrestrictedKeeps | app/src/main/java/com/example/touristquiz/ui/MapScreen.kt:133-147 | with every type enabled and no other restriction, an object is kept |
| MapScreen.UnrestrictedShowsAll | app/src/main/java/com/example/touristquiz/ui/MapScreen.kt:131-147 | with such filters every object is displayed |
| MapScreen.InitialFiltersUnrestricted | app/src/main/java/com/example/touristquiz/ui/MapScreen.kt:106-114 | the initial filters restrict nothing |
| MapScreen.TrimTake3 | app/src/main/java/com/example/touristquiz/ui/MapScreen.kt:283 | the first three options, each trimmed |
| MapScreen.CreateQuestions | app/src/main/java/com/example/touristquiz/ui/MapScreen.kt:281-283 | one created question per usable form question |
| MapScreen.TrimmedNotBlank | app/src/main/java/com/example/touristquiz/ui/MapScreen.kt:282-283 | trimming a non-blank string gives a non-blank, trimmed string |
| MapScreen.UsableToCreateQuestion | app/src/main/java/com/example/touristquiz/ui/MapScreen.kt:282-283 | a usable form question becomes a question with trimmed non-blank text and three trimmed non-blank options |
| MapScreen.CreateQuestionsAreUsable | app/src/main/java/com/example/touristquiz/ui/MapScreen.kt:281-283 | the created questions are, in order, the converted usable form questions, and every usable one is converted |
| MapScreen.CreateQuestionsWellFormed | app/src/main/java/com/example/touristquiz/ui/MapScreen.kt:281-283 | every created question has trimmed non-blank text and three trimmed non-blank options |
| MapScreen.OnCreate | app/src/main/java/com/example/touristquiz/ui/MapScreen.kt:275-296 | no user or location does nothing; a blank name or details, or no usable question, reports missing data; otherwise it submits the trimmed fields, the created questions and `TypeKey` of the selected type label |
| MapScreen.SubmittedQuestionsStoredAsTyped | app/src/main/java/com/example/touristquiz/ui/MapScreen.kt:283-296 | every submitted question is stored with its three options unchanged and, for an index in 0..2, that option as correct answer |
| MapScreen.TrimmedOptionsStoredAsTyped | app/src/main/java/com/example/touristquiz/data/ObjectRepository.kt:143-153 | three trimmed options are stored unchanged and the correct answer is the option at the index |
| MapScreen.PadAndSet | app/src/main/java/com/example/touristquiz/ui/MapScreen.kt:259-265 | pads with "" to at least three options, sets `optIdx`, and keeps every other entry |
| MapScreen.AddObjectForm.constructor | app/src/main/java/com/example/touristquiz/ui/MapScreen.kt:72-76 | an empty form |
| MapScreen.AddObjectForm.AddQuestion | app/src/main/java/com/example/touristquiz/ui/MapScreen.kt:271 | appends a blank question with three empty options and index 0 |
| MapScreen.AddObjectForm.RemoveQuestion | app/src/main/java/com/example/touristquiz/ui/MapScreen.kt:272 | removes exactly the question at the index |
| MapScreen.AddObjectForm.ChangeQuestionText | app/src/main/java/com/example/touristquiz/ui/MapScreen.kt:255-258 | replaces one question's text |
| MapScreen.AddObjectForm.ChangeQuestionOption | app/src/main/java/com/example/touristquiz/ui/MapScreen.kt:259-266 | replaces one question's options by the padded list with the new value |
| MapScreen.AddObjectForm.ChangeQuestionCorrectIndex | app/src/main/java/com/example/touristquiz/ui/MapScreen.kt:267-270 | replaces one question's index |
| MapScreen.AddObjectForm.OnCreated | app/src/main/java/com/example/touristquiz/ui/MapScreen.kt:298 | clears the form |
| ObjectDetails.CreatorCannotAnswerOrRate | app/src/main/java/com/example/touristquiz/ui/map/components/ObjectDetailsDialog.kt:88-133 | the creator (question creator, else object owner) can neither answer nor rate |
| ObjectDetails.StoredQuestionAnswerable | app/src/main/java/com/example/touristquiz/ui/map/components/ObjectDetailsDialog.kt:88-92 | for a question written by the store and loaded back, the answer form is offered exactly to a signed-in user other than its author who has not answered it; its author never gets it |
| ObjectDetails.CanRateMeans | app/src/main/java/com/example/touristquiz/ui/map/components/ObjectDetailsDialog.kt:131-133 | rating is offered iff signed in, not the creator and not yet a rater |
| ObjectDetails.CanManageIsStoredOwner | app/src/main/java/com/example/touristquiz/ui/map/components/ObjectDetailsDialog.kt:150-155 | for an object read from its document, the owner's buttons appear exactly for the signed-in user the document names as owner, the user `DeleteObject` accepts |
| ObjectDetails.CorrectTextAfterIncorrect | app/src/main/java/com/example/touristquiz/ui/map/components/ObjectDetailsDialog.kt:119-123 | the option at the index when there are three options (the lookup fails for an index outside 0..2), else a non-blank stored answer, else "(N/A)" |
| ObjectDetails.PanelFeedback | app/src/main/java/com/example/touristquiz/ui/map/components/ObjectDetailsDialog.kt:94-127 | the answer form is shown iff answering is offered |
| ObjectDetails.CreatorNeverSeesAnswerForm | app/src/main/java/com/example/touristquiz/ui/map/components/ObjectDetailsDialog.kt:88-94 | the creator never gets the answer form |
| ObjectDetails.AnsweredShowsCorrectOption | app/src/main/java/com/example/touristquiz/ui/map/components/ObjectDetailsDialog.kt:114-117 | after Correct or AlreadyAnswered, the option at the stored index is shown as correct |
| ObjectDetails.StoredQuestionCorrectText | app/src/main/java/com/example/touristquiz/ui/map/components/ObjectDetailsDialog.kt:119-120 | a stored question with an index in 0..2 shows its option at that index after Incorrect |
| ObjectDetails.TypeLabel | app/src/main/java/com/example/touristquiz/ui/map/components/ObjectDetailsDialog.kt:72-78 | a trimmed lower-case spelling in one of the three lists gets that list's label; anything else is shown with its first character upper-cased |
| ObjectDetails.KeyLabel | app/src/main/java/com/example/touristquiz/ui/map/components/ObjectDetailsDialog.kt:73-76 | each canonical key gets the label the create form offered for it |
| ObjectDetails.KeyIsOwnSpelling | app/src/main/java/com/example/touristquiz/ui/map/components/ObjectDetailsDialog.kt:74-76 | each canonical key is in its own label list and in no earlier one |
| ObjectDetails.StoredTypeLabel | app/src/main/java/com/example/touristquiz/ui/map/components/ObjectDetailsDialog.kt:71-79 | the type stored by the create form is labelled with its own label |
| ObjectDetails.DetailsDialog.constructor | app/src/main/java/com/example/touristquiz/ui/map/components/ObjectDetailsDialog.kt:48-49 | no selection and no answer status for any question, and no rating picked (the rating starts at 0, line 134) |
| ObjectDetails.DetailsDialog.Select | app/src/main/java/com/example/touristquiz/ui/map/components/ObjectDetailsDialog.kt:98 | records the selected option for the question |
| ObjectDetails.DetailsDialog.Submit | app/src/main/java/com/example/touristquiz/ui/map/components/ObjectDetailsDialog.kt:102-105 | forwards the selection iff there is one in 0..2 |
| ObjectDetails.DetailsDialog.OnResult | app/src/main/java/com/example/touristquiz/ui/map/components/ObjectDetailsDialog.kt:105-109 | records the result; on Correct or AlreadyAnswered the selection moves to the stored index |
| ObjectDetails.DetailsDialog.PickRating | app/src/main/java/com/example/touristquiz/ui/map/components/ObjectDetailsDialog.kt:141-142 | the rating is sent iff nothing was picked for the question, and then recorded |
| ObjectDetails.ResultLocksQuestion | app/src/main/java/com/example/touristquiz/ui/map/components/ObjectDetailsDialog.kt:91-92 | once a result is recorded, answering is no longer offered |
| ObjectDetails.TwoPicksSendOne | app/src/main/java/com/example/touristquiz/ui/map/components/ObjectDetailsDialog.kt:142 | of two picks on one question, only the first is sent |
| ObjectDetails.AddQuestionRequest | app/src/main/java/com/example/touristquiz/ui/map/components/ObjectDetailsDialog.kt:167-168 | forwards the question, untrimmed, iff its text and every option are non-blank |
| ObjectDetails.AddedQuestionStored | app/src/main/java/com/example/touristquiz/ui/map/components/ObjectDetailsDialog.kt:167-168 | an added question is stored with its options as typed and the trimmed option at the index as correct answer |
| Text.TrimStart | app/src/main/java/com/example/touristquiz/ui/MapScreen.kt:279 | the result is a suffix of the input, every dropped character is whitespace, and the result does not start with whitespace |
| Text.TrimEnd | app/src/main/java/com/example/touristquiz/ui/MapScreen.kt:279 | the result is a prefix of the input, every dropped character is whitespace, and the result does not end with whitespace |
| Text.Trim | app/src/main/java/com/example/touristquiz/ui/MapScreen.kt:279-280 | the result has no whitespace at either end and is empty iff the input is blank |
| Text.TrimIdempotent | app/src/main/java/com/example/touristquiz/ui/MapScreen.kt:283 | trimming twice is trimming once |
| Text.ToLower | app/src/main/java/com/example/touristquiz/ui/MapScreen.kt:119 | same length, every character lower-cased |
| Text.RemovePrefix | app/src/main/java/com/example/touristquiz/data/ObjectRepository.kt:221 | strips the prefix when present, else returns the string |
| Text.CapitalizeFirst | app/src/main/java/com/example/touristquiz/ui/map/components/ObjectDetailsDialog.kt:77 | the first character upper-cased, the rest unchanged |
| Text.Utf16 | app/src/main/java/com/example/touristquiz/location/ProximityService.kt:128 | one or two UTF-16 code units per character |

## Left out

- Store and network failures: apart from the cases stated above (a failed snapshot read, a missing `users/{uid}` document), every store call is taken to succeed. `addQuestionToObject`'s `onComplete(false)` and `rateQuestion`'s update failure are not modelled.
- Concurrency: the read-then-write in `submitAnswerByIndex` and `rateQuestion` is not atomic in the application, and the throttle maps are concurrent hash maps. The model runs calls one after another and claims nothing under races.
- Floating point: `averageRating` is exact real division, and distances are given reals from the parameter `dist`.
- Proximity.TruncateTowardZero: does not model the saturation of `Float.toInt` at the 32-bit range.
- Long to Int: `getLong(...).toInt()` on `correctIndex` and `numRatings` is taken to be lossless.
- Text.LowerChar: case mapping covers ASCII, Latin-1 and the Serbian Latin letters only, not all of Unicode.
- Firestore document order: `Quiz.QuizStore.QuestionSnapshot` may list the questions in any order, and `Quiz.QuizStore.LoadQuestions` returns a map keyed by question id, so the list order of `loadQuestions` is not modelled.
- Notification building, channels, the foreground service and intents are not modelled. An alert stands for a posted notification.
- Proximity.ProximityMonitor.OnLocationResult: does not consult `running`. Location callbacks arrive only while updates are registered, and the model does not check that.
- The signed-in user id and the `profileImageUrl` read from `users/{uid}` before an upload are parameters of `OnLocationResult`.
- Image upload, authentication, the leaderboard query and the rendering of the screens are not modelled.
- The map screen's calls into the store are not composed into one method. The screen only forwards to the store methods above, after checking that a user and a repository exist; a missing repository is not modelled.
- Deleting an object leaves the users' answered records for its questions in place, as the application does.
- `getAnsweredQuestionIds` swallows a failed read and returns the empty set; the model reads the map, so this case does not arise.
- The proximity service does not delete the device's location on destroy; the sign-out path that does so is not part of this model.
