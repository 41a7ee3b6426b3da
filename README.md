# NutriScope, modelled in Dafny

NutriScope estimates the nutrition of a meal. There are two ways in:

- **Photo.** The user uploads a photo. The Flask backend names the food:
  - international dishes use a YOLO detector, whose detections are aggregated by total area per class;
  - Indian dishes use several Roboflow workflows, whose confident predictions are put to a majority vote.
- **Manual entry.** The user types a food name, with type-ahead suggestions, a quantity and a unit.

Either way the backend looks the food up in Nutritionix, falling back to an AI estimate, and returns a record per 100 g (or per item) with a summary. The React pages then:

- scale the record to the chosen quantity, with JavaScript rounding;
- re-classify each macro-nutrient into low, medium or high bands;
- keep their own small state machines: the detector page's file, result and reset; the manual page's suggestion list, keyboard selection and submit flow.

This project models that core:

- the two summarisers, absolute bands on the detector page and target-relative bands on the manual page and the server;
- quantity scaling under both rounding rules;
- the detector page (`Detector.FoodDetector`) and the manual page (`ManualEntry.ManualFoodInput`) as classes;
- the backend handlers `/predict`, `/manual-nutrition` and `/food-suggestions`;
- `normalize_name`, the YOLO aggregation and the Indian-workflow vote.

It proves what the code promises: totality and exclusivity of the bands, scaling results, agreement of client and server off rounding ties, keyboard-selection bounds, validation order, suggestion-list shape, top-class choice and the vote's outcome.

Modelling conventions:

- Summary sentences are abstracted to their band and interpolated value.
- JavaScript numbers are `Num = Fin(real) | NaN`. Every comparison with NaN is false.
- `Math.round` is floor(x + 1/2). Python's `round` is round-half-to-even. Both work on exact reals.
- Python dictionaries filled left to right are a `seq` of keys in first-seen order plus a `map`.
- Everything the code receives from outside is a parameter of the operation that receives it. This covers the YOLO boxes, the Roboflow runs, the Nutritionix and AI lookups, the fetch outcomes and the file reader's data URL.

Modules, one per file:

- `Wrappers` and `Nutrition` hold shared types.
- `Rounding` and `JsText` model JavaScript number and string behaviour.
- `DetectorSummary`, `TargetSummary` and `Scaling` are the summarisers and quantity scaling.
- `Detector` is the photo page, from `FoodDetector.js`.
- `ManualEntry` is the manual-entry page, from `ManualFoodInput.js`.
- `Tally` holds generic counting over sequences. `Names`, `Yolo` and `IndianVote` are the backend's aggregation code.
- `Backend` holds the handlers.

## Model

| member | source | states |
|---|---|---|
| DetectorSummary.BandOf | frontend/src/components/FoodDetector.js:55-84 | low iff the value is below the low cut, medium iff it is between the cuts inclusive, high otherwise (NaN included); exactly one band holds |
| DetectorSummary.GenerateSummary | frontend/src/components/FoodDetector.js:51-86 | the summary has exactly the four keys, each the sentence for its own value's band |
| DetectorSummary.SummaryIsPerDimension | frontend/src/components/FoodDetector.js:63-84 | each key's sentence depends only on that key's value |
| DetectorSummary.CaloriesBoundaries | frontend/src/components/FoodDetector.js:55-60 | 280 kcal is low; 300 and 600 are medium; 601 is high |
| DetectorSummary.UndefinedReadsHigh | frontend/src/components/FoodDetector.js:55-84 | when every value is missing or NaN, all four sentences are the high ones, because every comparison fails |
| DetectorSummary.NutritionColour | frontend/src/components/FoodDetector.js:144-151 | calories below 250 are low, below 500 medium, otherwise high; any other key is normal |
| Detector.Shape | frontend/src/components/FoodDetector.js:111-123 | a response with nutrition and no error gets its nutrition replaced by `ScaleJs` of it with the multiplier of the unit and `parseFloat(quantity)` (all four keys), the summary of the new values and the quantity and unit stamped; food, type and error are kept; any other response is stored unchanged |
| Detector.RescaleInPlace | frontend/src/components/FoodDetector.js:112-116 | overwriting the four fields one by one gives the scaled record |
| Detector.UnreadableQuantityReadsHigh | frontend/src/components/FoodDetector.js:112-119 | an unreadable quantity (parseFloat NaN) turns every field into NaN and every sentence into a high one; there is no validation |
| Detector.DefaultQuantityKeepsRecord | frontend/src/components/FoodDetector.js:25-26 | with the default quantity "1" and unit "count", an already-rounded record is shown as it came |
| Detector.ExampleBands | frontend/src/components/FoodDetector.js:55-84 | 375 kcal, 12 g protein, 7.5 g fat and 30 g carbs read medium, medium, low, medium |
| Detector.AnalyzeExample | frontend/src/components/FoodDetector.js:111-119 | a record of 250/8/5/20 at "150" grams is shown as 375/12/7.5/30 with those bands |
| Detector.FoodDetector.constructor | frontend/src/components/FoodDetector.js:19-26 | no file, preview or result, not loading, food type "international", quantity "1", unit "count" |
| Detector.FoodDetector.HandleFileChange | frontend/src/components/FoodDetector.js:29-40 | the file is stored and the result cleared; the preview is the data URL, or none when there is no file |
| Detector.FoodDetector.HandleDrop | frontend/src/components/FoodDetector.js:42-49 | a dropped file whose type starts with "image/" is taken as chosen; anything else changes nothing |
| Detector.FoodDetector.SetFoodType | frontend/src/components/FoodDetector.js:183 | only the food type changes |
| Detector.FoodDetector.SetQuantity | frontend/src/components/FoodDetector.js:245 | only the quantity changes |
| Detector.FoodDetector.SetUnit | frontend/src/components/FoodDetector.js:255 | only the unit changes |
| Detector.FoodDetector.HandleAnalyze | frontend/src/components/FoodDetector.js:89-130 | with no file it alerts and changes nothing; otherwise the result is the shaped response, or the failure record when the fetch fails, and loading is off; the file, preview, type, quantity and unit are kept |
| Detector.FoodDetector.HandleReset | frontend/src/components/FoodDetector.js:132-142 | file, preview and result are cleared, loading is off, quantity and unit are back to "1" and "count", and the food type is kept |
| Scaling.JsMultiplier | frontend/src/components/FoodDetector.js:112 | the multiplier is the quantity for "count" and the quantity over 100 otherwise; it is NaN exactly when the quantity is |
| Scaling.PyMultiplier | backend/app.py:350 | the same rule on the server (a zero count falls through to 0/100, which is the same value) |
| Scaling.RoundFieldJs | frontend/src/components/FoodDetector.js:113-116 | calories are rounded to a whole number within half a unit, below-inclusive; the other fields to one decimal within 0.05 |
| Scaling.RoundFieldPy | backend/app.py:353-356 | calories are rounded to a whole number and the other fields to one decimal, each within half a step |
| Scaling.GramsExample | frontend/src/components/FoodDetector.js:112-116 | 250/8/5/20 at 150 g gives 375/12/7.5/30 on the client and on the server |
| Scaling.CountExample | frontend/src/components/FoodDetector.js:112-116 | 250/8/5/20 at two items gives 500/16/10/40 |
| Scaling.TieDisagreement | backend/app.py:353 | 5 kcal at half an item is 3 on the client and 2 on the server |
| Scaling.FieldAgreesOffTies | backend/app.py:353-356 | off a rounding tie, the client's and server's rounding of one field agree |
| Scaling.ScalesAgreeOffTies | backend/app.py:352-357 | off ties, the client's rescaling of a server record equals the server's totals |
| Scaling.ScaleJs | frontend/src/components/FoodDetector.js:111-115 | the four keys, each the field times the multiplier rounded as the client does; a field is a number exactly when the field was present and the multiplier is a number, and then calories are whole and the rest in tenths |
| Scaling.ScalePy | backend/app.py:350-357 | the four keys of a complete record, each the field times the multiplier rounded as Python does: calories whole, the rest in tenths |
| Scaling.ClientMatchesServerOffTies | backend/app.py:350-357 | for the same unit and quantity, client and server totals agree unless a product falls on a tie |
| Scaling.FieldKeepsRounded | backend/app.py:353-356 | rounding an already-rounded value changes nothing, on either side |
| Scaling.UnitScaleKeepsRounded | backend/app.py:338-357 | a multiplier of one (one item or 100 g) leaves an already-rounded record unchanged, on either side |
| Rounding.JsRound | frontend/src/components/FoodDetector.js:113 | Math.round is the integer n with n - 1/2 <= x < n + 1/2 |
| Rounding.RoundHalfEven | backend/app.py:353 | round is the nearest integer, the even one on a tie |
| Rounding.RoundingsAgreeOffTies | backend/app.py:353 | the two rules agree whenever the fractional part is not one half |
| Rounding.JsRoundTiesUp | frontend/src/components/FoodDetector.js:113 | on a tie Math.round goes up |
| Rounding.TieWitness | backend/app.py:353 | 2.5 rounds to 3 in JavaScript and to 2 in Python |
| Rounding.RoundingFixesRounded | backend/app.py:353-356 | integers and one-decimal values are fixed points of all four rounding functions |
| JsText.ParseFloat | frontend/src/components/FoodDetector.js:112 | parseFloat skips leading whitespace and reads the longest decimal prefix; blank text is NaN |
| JsText.ToNumber | frontend/src/components/ManualFoodInput.js:147 | Number(), which isNaN applies, is 0 on blank text and NaN unless the whole trimmed text is a numeral |
| JsText.TrimEmptyIffBlank | frontend/src/components/ManualFoodInput.js:142 | `trim()` is empty exactly for all-whitespace text |
| JsText.BlankCoercions | frontend/src/components/ManualFoodInput.js:147 | blank text is 0 to Number() and NaN to parseFloat |
| JsText.WordCoercions | frontend/src/components/ManualFoodInput.js:147 | "abc" is NaN to both |
| JsText.PrefixCoercions | frontend/src/components/ManualFoodInput.js:147 | "12abc" is NaN to Number() but 12 to parseFloat |
| JsText.SignedCoercion | frontend/src/components/ManualFoodInput.js:147 | "-1" is -1 to parseFloat |
| JsText.FractionCoercion | frontend/src/components/FoodDetector.js:112 | "2.5" is 2.5 to parseFloat |
| JsText.OneCoercion | frontend/src/components/FoodDetector.js:25 | the default quantity "1" is 1 to both coercions |
| JsText.GramsCoercion | frontend/src/components/FoodDetector.js:112 | "150" is 150 to both coercions |
| TargetSummary.BandOf | frontend/src/components/ManualFoodInput.js:100-133 | low iff the value is below the low ratio times the target, high iff it is above the high ratio times it, moderate otherwise |
| TargetSummary.Summarise | frontend/src/components/ManualFoodInput.js:86-138 | the summary has exactly the four target keys |
| TargetSummary.CutOffs | frontend/src/components/ManualFoodInput.js:100-133 | the thresholds are 250/600 kcal, 17.5/32.5 g protein, 10/24 g fat and 25/60 g carbs |
| TargetSummary.ProteinExamples | frontend/src/components/ManualFoodInput.js:100-106 | 0 g protein is low, 25 g moderate, 40 g high |
| TargetSummary.MissingKeyIsLowZero | frontend/src/components/ManualFoodInput.js:97 | a missing key reads as 0 and is low |
| ManualEntry.GenerateSummary | frontend/src/components/ManualFoodInput.js:86-138 | the forEach over the target keys builds exactly the target-relative summary |
| ManualEntry.PortionSummaryExample | frontend/src/components/ManualFoodInput.js:174-176 | the page summarises the totals: 250 kcal per 100 g is moderate, but 300 g of it (750 kcal) is high |
| ManualEntry.Validate | frontend/src/components/ManualFoodInput.js:142-150 | a blank name fails first with its message; otherwise an empty, non-numeric or non-positive quantity fails with the quantity message; nothing else fails |
| ManualEntry.ValidQuantityIsPositive | frontend/src/components/ManualFoodInput.js:147 | for a number input's value, a passing quantity is positive, and parseFloat and Number() read it alike |
| ManualEntry.BlankQuantityPasses | frontend/src/components/ManualFoodInput.js:147 | the check itself lets any non-empty blank quantity through (with a named food), and parseFloat reads it as NaN |
| ManualEntry.ValidateRejects | frontend/src/components/ManualFoodInput.js:142-150 | no name, no quantity and "-1" are each rejected with the right message |
| ManualEntry.ValidateAccepts | frontend/src/components/ManualFoodInput.js:142-150 | "rice" with "150" passes |
| ManualEntry.Received | frontend/src/components/ManualFoodInput.js:29-30 | the empty common/branded pair reaches the page with no suggestion list; a list answer with its list |
| ManualEntry.UpUndoesDown | frontend/src/components/ManualFoodInput.js:61-70 | ArrowUp undoes ArrowDown everywhere but at the last entry, and ArrowDown undoes ArrowUp on every entry of the list |
| ManualEntry.DownPresses | frontend/src/components/ManualFoodInput.js:61-66 | from no selection, k presses of ArrowDown select entry k - 1 and stop at the last entry |
| ManualEntry.ErrorText | frontend/src/components/ManualFoodInput.js:179 | the server's error message when it is not empty, a fallback otherwise; never empty |
| ManualEntry.RequestBody | frontend/src/components/ManualFoodInput.js:164-168 | the request carries the name and unit, and a number quantity exactly when parseFloat reads one |
| ManualEntry.ManualFoodInput.constructor | frontend/src/components/ManualFoodInput.js:7-15 | empty name and quantity, unit "grams", no result, no error, an empty hidden list and no selection |
| ManualEntry.ManualFoodInput.SetFoodName | frontend/src/components/ManualFoodInput.js:43-45 | only the food name changes |
| ManualEntry.ManualFoodInput.SetQuantity | frontend/src/components/ManualFoodInput.js:279 | only the quantity changes |
| ManualEntry.ManualFoodInput.SetUnit | frontend/src/components/ManualFoodInput.js:291 | only the unit changes |
| ManualEntry.Utf16Length | frontend/src/components/ManualFoodInput.js:19 | `foodName.length` counts UTF-16 code units: between the number of characters and twice it |
| ManualEntry.Utf16LengthOfBmp | frontend/src/components/ManualFoodInput.js:19 | the code-unit length equals the character count iff no character lies outside the Basic Multilingual Plane |
| ManualEntry.AstralCharIsTwoUnits | frontend/src/components/ManualFoodInput.js:19 | one character outside the Basic Multilingual Plane already has length 2, so it asks for suggestions |
| ManualEntry.ManualFoodInput.RefreshSuggestions | frontend/src/components/ManualFoodInput.js:18-41 | under two UTF-16 code units the list is cleared and hidden; a failed fetch clears and hides; an answer replaces the list, shows it iff it has entries, and resets the selection; the invariant is kept |
| ManualEntry.ManualFoodInput.HandleSuggestionClick | frontend/src/components/ManualFoodInput.js:47-55 | the name becomes the suggestion's name, and the list is emptied and hidden |
| ManualEntry.ManualFoodInput.HandleKeyDown | frontend/src/components/ManualFoodInput.js:57-84 | with the list hidden every key is ignored. Otherwise: ArrowDown and ArrowUp move the selection within [-1, len-1]; Enter picks the selected entry only when there is one; Escape hides the list and clears the selection; any other key changes nothing |
| ManualEntry.ManualFoodInput.Send | frontend/src/components/ManualFoodInput.js:152-186 | once the request is out: the list closes, and the answer sets the result or the error message; loading ends off |
| ManualEntry.ManualFoodInput.ReceiveAnswer | frontend/src/components/ManualFoodInput.js:171-183 | a 200 is stored with the summary of its totals; an error answer sets its message or the fallback; a failed fetch the network message |
| ManualEntry.ManualFoodInput.HandleSubmit | frontend/src/components/ManualFoodInput.js:140-187 | a failed check sets only its message and sends nothing. Otherwise the request is sent and the list closed. A 200 is shown with the summary of its totals; an error answer shows its message or the fallback; a failed fetch shows the network message; loading ends off |
| ManualEntry.SentQuantityIsPositive | frontend/src/components/ManualFoodInput.js:147-166 | from a number input, a request that is sent carries a positive number |
| ManualEntry.SubmittedRequestSucceeds | frontend/src/components/ManualFoodInput.js:158-176 | end to end, a sent request for a food with a complete record is answered with the totals for that quantity and unit, and the page shows their summary |
| Names.Lower | backend/app.py:65 | lower-casing keeps the length and maps each character |
| Names.WordChars | backend/app.py:65 | removing the non-word runs leaves only word characters |
| Names.Normalize | backend/app.py:64-65 | the result is lower-case word characters only |
| Names.NormalizeIdempotent | backend/app.py:64-65 | normalising twice is normalising once |
| Names.NormalizeExample | backend/app.py:64-65 | "Dal!" normalises to "dal" |
| Tally.Count | backend/app.py:227 | the count is positive exactly for elements of the sequence |
| Tally.FirstSeen | backend/app.py:175-178 | the distinct classes, without repeats |
| Tally.FirstSeenMembers | backend/app.py:175-178 | every element appears in the first-seen order |
| Tally.FirstSeenOrder | backend/app.py:175-178 | that order is the order of first occurrence |
| Yolo.Detections | backend/app.py:157-169 | one detection per box |
| Yolo.RelevantKeeps | backend/app.py:171 | a detection is kept iff its class is not tableware or juice |
| Yolo.DetectBoxes | backend/app.py:158-169 | the loop over one result's boxes builds their detections in order |
| Yolo.CollectDetections | backend/app.py:157-169 | the nested loop builds the detections of all results in order |
| Yolo.TallyClasses | backend/app.py:175-181 | the counter holds exactly the seen classes, in first-seen order, each with its count, total area and maximal confidence |
| Yolo.UnseenStats | backend/app.py:177-178 | an unseen class has the zero counter |
| Yolo.MaxConfBounds | backend/app.py:181 | max_conf is at least every confidence of its class |
| Yolo.MaxConfAttained | backend/app.py:181 | a positive max_conf is the confidence of one of the class's detections |
| Yolo.StatsOf | backend/app.py:175-181 | the counter of one class: its count is positive exactly when the class was detected, is at most the number of detections, and its maximal confidence starts at 0 |
| Yolo.IsTopClass | backend/app.py:183-184 | the class `max` picks: largest total area, the earliest-inserted among equals; such a class has been counted |
| Yolo.TopClass | backend/app.py:183 | the chosen entry has maximal total area, and every earlier entry has strictly less |
| Yolo.TopCoversAll | backend/app.py:183 | the chosen class's area is maximal over all kept classes |
| Yolo.TopFirstAmongEquals | backend/app.py:183 | any class seen before the chosen one has strictly less area, so ties go to the first seen |
| Yolo.TopClassUnique | backend/app.py:183-184 | at most one class satisfies that choice |
| Yolo.RunYolo | backend/app.py:148-194 | no model gives "Unknown", 0 and the model error; an inference that raises gives "Unknown", 0 and the exception text; no kept detection gives "Unknown", 0; otherwise the food is the top class, never an ignored one, with its maximal confidence |
| Yolo.RelevantClasses | backend/app.py:171 | no class of the kept detections is ignored |
| Yolo.TablewareOnlyIsUnknown | backend/app.py:155 | detections of ignored classes only leave nothing |
| IndianVote.ProcessedLength | backend/app.py:211-222 | a run's predictions are read up to the first malformed one, which ends that run |
| IndianVote.Confident | backend/app.py:212-218 | no more votes than predictions |
| IndianVote.ConfidentKeeps | backend/app.py:212-218 | every prediction at or above 0.6 becomes a vote, so with ConfidentClears the filter drops exactly the predictions below the threshold |
| IndianVote.RunVotes | backend/app.py:205-222 | a failed workflow call adds no vote; a successful one adds at most one vote per prediction, each with confidence at least 0.6 |
| IndianVote.AllVotes | backend/app.py:203-222 | the votes of all workflows, in workflow order, each with confidence at least 0.6 |
| IndianVote.ConfidentClears | backend/app.py:214 | every kept vote has confidence at least 0.6 |
| IndianVote.AllVotesClear | backend/app.py:203-218 | every vote from all runs has confidence at least 0.6 |
| IndianVote.AverageReachesThreshold | backend/app.py:228-229 | in exact arithmetic the average of the kept confidences is at least 0.6, so the average check never rejects |
| IndianVote.FirstNamesKeys | backend/app.py:219-220 | the mapping has exactly the normalised names as keys |
| IndianVote.FirstNamesFirst | backend/app.py:219-220 | each key maps to the original name first seen for it |
| IndianVote.AddRun | backend/app.py:211-220 | one run's loop extends the names, confidences and first-seen mapping by that run's votes |
| IndianVote.CollectVotes | backend/app.py:203-222 | the lists and the mapping are those of all votes of all runs |
| IndianVote.MostCommon | backend/app.py:227 | the answer is an element with maximal count, the first seen among equals |
| IndianVote.MostCommonUnique | backend/app.py:227 | at most one key has the largest count and comes first among the keys with that count |
| IndianVote.LeaderIndex | backend/app.py:227 | in every non-empty prefix, some position has the largest count and no earlier position reaches it |
| IndianVote.MostCommonExists | backend/app.py:227 | every non-empty list has such a most common key |
| IndianVote.MostCommonKey | backend/app.py:227 | the most common key of a non-empty list, as `most_common(1)[0]` gives it |
| IndianVote.Winner | backend/app.py:224-231 | the vote's result: when it names someone, that name is the original spelling of a vote whose normalised name has at least two votes |
| IndianVote.WinnerOf | backend/app.py:224-231 | the vote's winner is the first original spelling of the most common key if that key has at least two votes, and nothing otherwise |
| IndianVote.WinnerWasVoted | backend/app.py:224-231 | there is a winner iff some normalised name has at least two votes; the winner is the original name of such a vote |
| IndianVote.RunIndianWorkflows | backend/app.py:196-231 | no client or no vote gives none. Otherwise a name is returned iff the vote has a winner, that is iff some normalised name has at least two votes. The name is the winner: the first original spelling of the most common key, ties going to the key seen first. It comes with the average confidence, which in exact arithmetic is at least 0.6 |
| Backend.NutritionFor | backend/app.py:308-312 | the Nutritionix record when it is not empty, the AI estimate otherwise (also app.py:341-345); empty only when both are |
| Backend.GenerateNutritionSummary | backend/app.py:233-270 | the loop over the four keys builds exactly the target-relative summary, missing keys read as 0 |
| Backend.ManualNutrition | backend/app.py:329-375 | no body or no name is a 400. A named request is a 200 iff its quantity is absent or a number and the record has all four keys; otherwise it is a 500, never a 400. In a 200 the totals are the record scaled with the defaults 100 and grams, the summary is of the unscaled record, and the source says which service answered |
| Backend.SummaryIgnoresQuantity | backend/app.py:359 | two requests for the same food get the same summary whatever their quantities and units |
| Backend.ManualDefaultsKeepRecord | backend/app.py:338-357 | with the defaults the multiplier is 1, so an already-rounded record is its own total |
| Backend.ManualNonNumericFails | backend/app.py:338-375 | a quantity that is not a number makes the multiplication raise, and the answer is the generic 500 |
| Backend.ManualSucceeds | backend/app.py:337-371 | a numeric quantity and a complete record always get a 200 |
| Backend.FirstTen | backend/app.py:401 | at most the first ten items |
| Backend.SuggestionsAt | backend/app.py:400-417 | the i-th suggestion is built from the i-th item |
| Backend.AppendSuggestions | backend/app.py:401-417 | the append loop adds one suggestion per item in order, and fails at an item without a name |
| Backend.FoodSuggestions | backend/app.py:377-423 | an empty query gives the empty pair; a failed search or an unnamed item gives the empty list; otherwise the common suggestions, then the branded ones |
| Backend.SuggestionListShape | backend/app.py:398-419 | at most twenty suggestions: up to ten common without a brand, then up to ten branded with one |
| Backend.SuggestionDefaults | backend/app.py:404-416 | missing members default to 0 kcal, unit "" and a serving of 1, and a missing brand to "" |
| Backend.IndianFood | backend/app.py:296-302 | the Indian branch's food is never empty, and is "Unknown" without a configured client or without a vote |
| Backend.IndianFoodWasVoted | backend/app.py:294-303 | the Indian branch's food is "Unknown" or an original name that was voted for, with at least two votes for its normalised name |
| Backend.Classify | backend/app.py:290-304 | international uses YOLO's top class ("Unknown" when the model is missing, the inference raises or nothing is kept); Indian uses the vote's winner when it is a non-empty name, "Unknown" otherwise |
| Backend.Predict | backend/app.py:272-327 | the checks come in order: missing file or field (400), empty file name (400), unknown food type after lower-casing (400). A request that passes the three checks is always a 200. It names the classified food (the top class, or the vote's winner or "Unknown") and its kind, and carries the Nutritionix record (the AI one when that is empty) and that record's summary |

## Left out

- Rendering: JSX, animation and CSS. The remaining pages (home, navbar, routing, the upload page that only forwards a response) are not part of this model.
- HTTP, file and browser I/O are parameters, not models:
  - the `fetch` calls and their JSON parsing;
  - the file reader behind the preview;
  - Flask routing;
  - saving the uploaded file;
  - logging.
- Timing: the 300 ms suggestion debounce, the 100 ms focus timer and the outside-click listener. `RefreshSuggestions` is the debounced call once it has run; responses arriving out of order are not modelled.
- `SetFoodName` does not trigger `RefreshSuggestions`: the caller runs the effect. A suggestion click, for instance, changes the name, and with it the next refresh.
- The input field's `onFocus` handler sets the list to itself, which changes nothing. It has no member.
- YOLO inference, Roboflow workflows, Nutritionix and Cohere are inputs: boxes, runs, lookups and search outcomes. `get_nutrition` and `get_ai_nutrition` are not part of this model; their result is any map over the four keys, with the AI's extra `source` member dropped.
- Floating point: values are exact reals, so IEEE-754 rounding of products such as 1.005 * 100 is not captured.
- IndianVote.AverageReachesThreshold: holds of exact reals only. The program sums doubles, so the mean of ten votes of 0.6 is 0.5999999999999999 and its `avg_conf >= 0.6` check rejects.
- IndianVote.RunIndianWorkflows: returns the winner whenever there is one. The program can return none for a winner whose double-precision mean confidence falls just below 0.6, as in the previous line.
- JavaScript coercions read plain decimal literals only: optional sign, digits, an optional fraction. Exponents, `Infinity`, hexadecimal and the like are not modelled.
- `Names.Lower` and `Names.WordChars` are ASCII-only. Python's Unicode lower-casing and Unicode `\W` are not modelled.
- Exception texts from `str(e)` are not modelled. In particular, `/predict`'s catch-all 500 is absent. YOLO's own catch-all is modelled, with the exception text as a parameter of the failed inference. The lookups are total functions here and cannot raise.
- Backend.ManualNutrition: a `food_name` or `unit` that is present but not a string (null, a number), and a boolean quantity, are not modelled. A quantity is absent, a number, or anything else (which fails).
- The detector page's drag-over highlight (`dragOver`) and the file input's reset are left out, because they only affect presentation.
- Detector.FoodDetector.HandleAnalyze: the photo's form data and the server's reply are not linked. The reply is a parameter; the link is `Backend.Predict`.
