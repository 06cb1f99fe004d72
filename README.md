# Trip planning and budget prediction: a verified model of the core

This project models, in Dafny, the logic at the heart of a trip-planning
application. A traveller fills in a preference form. The backend validates
the request, shares the travel days among the requested locations, and
draws up to three plans of packages under a day allotment per location. A
page lists the plans the traveller confirmed, deletes them and exports one
as a PDF. A chat widget greets the traveller and answers with fixed
replies. The rules for choosing those replies are modelled in full,
including a package-id pattern.

The model is organised one module per concern:

- `wrappers.dfy` (module `Wrappers`): `Option` and `Result`.
- `text.dfy` (module `Text`): JavaScript `trim`, ASCII `toLowerCase`, `includes`, `split`/`join`, decimal rendering of numbers, decimal numerals `\d+(\.\d+)?` and their value.
- `package_id.dfy` (module `PackageId`): the regular expression `\d{2,3}\.\w{1,2}\.\d{1,3}` with JavaScript's leftmost, greedy, backtracking search.
- `chat_bot.dfy` (module `ChatBot`): the greeting seed, the reply rules, and the widget state (`ChatWidget`).
- `budget_form.dfy` (module `BudgetForm`): the form record, the rating guards, the location parser, the submit payload, and the form state (`BudgetFormState`).
- `trip_request.dfy` (module `TripRequest`): the request schema: `total_days >= 1` and the rating-range pattern.
- `day_allocation.dfy` (module `DayAllocation`): sharing the travel days among locations.
- `package_selection.dfy` (module `PackageSelection`): the greedy pick of sampled packages under one location's day allotment.
- `feature_frame.dfy` (module `FeatureFrame`): aligning a data frame's columns with the model's features (`Frame`).
- `planner.dfy` (module `Planner`): `predict_budget_multiple_options`, from request checks to the list of plans.
- `pdf_layout.dfy` (module `PdfLayout`): the cursor and page counter of the PDF export.
- `confirmed_plans.dfy` (module `ConfirmedPlans`): the confirmed-plans page: fetch, delete, plan labels (`PlansPage`).

Some things lie outside the application's code, or cannot be computed, so they
become parameters:

- what `localStorage` holds;
- the HTTP outcome of each request;
- the dataset rows, with the regression model's prediction attached to each row as an integer number of cents;
- the fitted location encoder's classes;
- the random draws (`Planner.Draw`);
- the page height;
- today's date.

Modelling choices:

- Ratings are exact rationals (`real`) read from decimal numerals.
- Budgets are integer cents.
- Timers are a queue of pending replies that a later step delivers.

## Model

| member | source | states |
|---|---|---|
| ChatBot.Seed | frontend/src/components/ChatBot.jsx:20-55 | every seeded message is from the bot; a saved plan gives exactly 3 messages, the first containing the plan number; otherwise a non-empty marker gives 2; otherwise 1 |
| ChatBot.ChatWidget.Open | frontend/src/components/ChatBot.jsx:14-58 | when hidden nothing changes; when shown the messages are replaced by the seed chosen from the stored plan and the marker storage holds at that moment (not appended), the marker is removed on every branch, the confirmed plan is set only when one is stored, and input and pending replies are kept |
| ChatBot.ChatWidget.StoreMarker | frontend/src/components/ChatBot.jsx:18 | a marker written to storage by another part of the application is what the next opening reads |
| ChatBot.ChatWidget.SetInput | frontend/src/components/ChatBot.jsx:152 | the input becomes the typed value |
| ChatBot.ChatWidget.Send | frontend/src/components/ChatBot.jsx:60-72 | blank or whitespace-only input changes nothing; otherwise exactly one user message with the untrimmed input is appended, one reply is scheduled for that input and the plan known at send time, and the input is cleared |
| ChatBot.ChatWidget.TimerFires | frontend/src/components/ChatBot.jsx:67-69 | the oldest pending reply is delivered as exactly one bot message, with the text computed from the input at send time; nothing else changes |
| ChatBot.ChatWidget.constructor | frontend/src/components/ChatBot.jsx:7-9 | no messages, empty input, no confirmed plan, nothing scheduled |
| ChatBot.GenerateBotResponse | frontend/src/components/ChatBot.jsx:74-104 | total; the reply is one of the four fixed replies or one of the two templates filled with the matched package id |
| ChatBot.ComboReplyIff | frontend/src/components/ChatBot.jsx:78-84 | the combo reply is given iff the lower-cased text contains "triplane 1", "triplane 2" or "custom package" |
| ChatBot.InPlanReplyIff | frontend/src/components/ChatBot.jsx:86-89 | the "part of your confirmed plan" reply for id `m` is given iff rule 1 fails, the matched id is `m`, and the confirmed plan's `packageIDs` contains `m` |
| ChatBot.NotSelectedReplyIff | frontend/src/components/ChatBot.jsx:86-92 | the "wasn't selected" reply for `m` is given iff rule 1 fails, the matched id is `m`, and the plan is absent, lacks `packageIDs` or does not contain `m` |
| ChatBot.WelcomeReplyIff | frontend/src/components/ChatBot.jsx:95-97 | the welcome reply is given iff rules 1 and 2 fail and the text says "thank you" or "thanks" |
| ChatBot.SorryReplyIff | frontend/src/components/ChatBot.jsx:99-101 | the sorry reply is given iff rules 1-3 fail and the text says "not satisfied" or "change" |
| ChatBot.FallbackReplyIff | frontend/src/components/ChatBot.jsx:103 | the fallback is given iff no earlier rule applies |
| ChatBot.TemplatesDistinct | frontend/src/components/ChatBot.jsx:83-103 | the six reply shapes are pairwise different, so each rule's reply identifies the rule |
| ChatBot.InPlanReplyInjective | frontend/src/components/ChatBot.jsx:89 | different ids give different "part of your plan" replies |
| ChatBot.NotSelectedReplyInjective | frontend/src/components/ChatBot.jsx:91 | different ids give different "wasn't selected" replies |
| PackageId.LastGroup | frontend/src/components/ChatBot.jsx:76 | the greedy `\d{1,n}` takes between 1 and n digits |
| PackageId.LastGroupGreedy | frontend/src/components/ChatBot.jsx:76 | the greedy group takes at least as many digits as any run that fits |
| PackageId.MiddleGroups | frontend/src/components/ChatBot.jsx:76 | a match of `\w{1,n}\.\d{1,3}` has its group sizes in range and the right characters |
| PackageId.MatchAt | frontend/src/components/ChatBot.jsx:76 | a match at a position has the full shape with group sizes in range |
| PackageId.MatchAtFinds | frontend/src/components/ChatBot.jsx:76 | backtracking finds a match wherever the pattern matches, with a last group at least as long |
| PackageId.MatchAtLongest | frontend/src/components/ChatBot.jsx:76 | the match found at a position is the longest one there |
| PackageId.GroupSizesForced | frontend/src/components/ChatBot.jsx:76 | at one position the first two groups' sizes are forced by the dots |
| PackageId.SliceShape | frontend/src/components/ChatBot.jsx:76 | matching a slice is matching the text at the slice's start |
| PackageId.Search | frontend/src/components/ChatBot.jsx:76 | a hit found from a position starts there or later and matches there |
| PackageId.SearchLeftmost | frontend/src/components/ChatBot.jsx:76 | when the pattern matches at `j`, the search finds a hit starting at `j` or earlier |
| PackageId.IdAtShape | frontend/src/components/ChatBot.jsx:76 | a substring that is a package id has the pattern's shape at its position |
| PackageId.NoIdBefore | frontend/src/components/ChatBot.jsx:76 | no package id starts before the hit |
| PackageId.NoLongerIdAtHit | frontend/src/components/ChatBot.jsx:76 | no longer package id starts at the hit |
| PackageId.FindPackageId | frontend/src/components/ChatBot.jsx:76-77 | a found id is 6 to 10 characters long; which id is found is stated by FoundIsLeftmostLongest and NotFoundMeansNone |
| PackageId.FoundIsLeftmostLongest | frontend/src/components/ChatBot.jsx:76-87 | the matched id occurs in the text, is a package id, starts at the leftmost position where one starts, and is the longest there |
| PackageId.NotFoundMeansNone | frontend/src/components/ChatBot.jsx:76-86 | no match means no substring of the text is a package id |
| Text.ToLower | frontend/src/components/ChatBot.jsx:75 | lower-casing keeps the length |
| Text.ToLowerPointwise | frontend/src/components/ChatBot.jsx:75 | lower-casing maps each character separately and keeps the length |
| Text.Contains | frontend/src/components/ChatBot.jsx:79-97 | `includes` holds of the empty string and of the string itself, and never of a longer string |
| Text.Trim | frontend/src/components/BudgetForm.jsx:57 | the result is no longer than the input and neither starts nor ends with whitespace |
| Text.Split | frontend/src/components/BudgetForm.jsx:56 | a split gives at least one piece, and no piece contains the separator |
| Text.TrimIsPiece | frontend/src/components/BudgetForm.jsx:57 | the trimmed string is a contiguous piece of the input with only whitespace around it |
| Text.TrimEmptyIffBlank | frontend/src/components/ChatBot.jsx:61 | trimming gives the empty string iff the input is all whitespace |
| Text.TrimOfTrimmed | frontend/src/components/BudgetForm.jsx:57 | a string without surrounding whitespace is its own trim |
| Text.TrimPadded | frontend/src/components/BudgetForm.jsx:57 | trimming removes exactly the whitespace padding around a non-blank core |
| Text.JoinSplit | frontend/src/components/BudgetForm.jsx:56 | joining the pieces of a split with the separator gives back the string |
| Text.SplitJoin | frontend/src/components/BudgetForm.jsx:56 | splitting a join of separator-free pieces gives back the pieces |
| Text.SplitAfterPiece | app/utils.py:64 | a separator-free piece followed by the separator splits off as the first piece |
| Text.NatToString | frontend/src/pages/ConfirmedPlans.jsx:88 | a number renders as a non-empty run of digits with no leading zero |
| Text.NatToStringInjective | frontend/src/pages/ConfirmedPlans.jsx:88 | different numbers render as different digit strings |
| Text.DigitsValueOfNatToString | frontend/src/pages/ConfirmedPlans.jsx:88 | reading a rendered number's digits back gives the number |
| Text.ParseDecimal | frontend/src/components/BudgetForm.jsx:34-41 | a number is read exactly when the string is a decimal numeral, and it is never negative |
| BudgetForm.ApplyChange | frontend/src/components/BudgetForm.jsx:29-49 | a minimum above the maximum, or a maximum below the minimum, is rejected with its message; otherwise exactly the named field changes |
| BudgetForm.RatingAbove | frontend/src/components/BudgetForm.jsx:34-41 | a comparison with a rating that is not a number is false, and no rating is above itself |
| BudgetForm.NonNumericMinimumAccepted | frontend/src/components/BudgetForm.jsx:34 | a minimum that is not a number passes the guard, since a comparison with NaN is false |
| BudgetForm.ChangeKeepsRatingsOrdered | frontend/src/components/BudgetForm.jsx:32-45 | from ordered ratings, an accepted change to a numeric rating keeps minimum <= maximum |
| BudgetForm.OptionChangeKeepsRatingsOrdered | frontend/src/components/BudgetForm.jsx:27-45 | the same for any rating chosen from the select's options |
| BudgetForm.RatingOptionValue | frontend/src/components/BudgetForm.jsx:27 | option `i` of the rating selects reads as the number `i` |
| BudgetForm.PresetsOrdered | frontend/src/components/BudgetForm.jsx:5-21 | the initial and sample records both have minimum <= maximum |
| BudgetForm.ParseLocations | frontend/src/components/BudgetForm.jsx:55-58 | every parsed location is non-empty, has no surrounding whitespace and no comma |
| BudgetForm.KeepTrimmed | frontend/src/components/BudgetForm.jsx:57-58 | trimming and dropping empty pieces never gives more names than pieces |
| BudgetForm.KeepTrimmedKeeps | frontend/src/components/BudgetForm.jsx:57-58 | a string is kept iff it is non-empty and is the trim of some piece |
| BudgetForm.KeepTrimmedAppend | frontend/src/components/BudgetForm.jsx:57-58 | trimming and dropping empties works piece by piece, so the original order is kept |
| BudgetForm.KeepTrimmedNames | frontend/src/components/BudgetForm.jsx:57-58 | comma-free pieces give well-formed location names |
| BudgetForm.KeepTrimmedSpaced | frontend/src/components/BudgetForm.jsx:57-58 | names padded with a space come back unchanged |
| BudgetForm.ParseLocationsRoundTrip | frontend/src/components/BudgetForm.jsx:55-58 | names typed as "a, b, c" parse back to exactly those names, in order |
| BudgetForm.SampleLocations | frontend/src/components/BudgetForm.jsx:15 | the sample's locations parse to LOC_11, LOC_42, LOC_67 |
| BudgetForm.BuildPayload | frontend/src/components/BudgetForm.jsx:54-77 | fails iff there are no locations or fewer than one day, with the message of the first failed check; otherwise carries the parsed locations, the days, and `rating_range` = min ++ "-" ++ max |
| BudgetForm.PayloadValidates | frontend/src/components/BudgetForm.jsx:70 | a built payload whose ratings are numerals passes the request schema unchanged |
| BudgetForm.OptionRangesMatch | frontend/src/components/BudgetForm.jsx:70 | any two rating options joined by "-" match the schema's range pattern |
| BudgetForm.ToRequest | frontend/src/components/BudgetForm.jsx:72-77 | the request carries the payload's fields |
| BudgetForm.BudgetFormState.HandleChange | frontend/src/components/BudgetForm.jsx:29-49 | an accepted change sets the record and raises no toast; a rejected one keeps the record and adds its error toast; ordered ratings stay ordered |
| BudgetForm.BudgetFormState.HandleSubmit | frontend/src/components/BudgetForm.jsx:51-86 | a failed check adds its error toast and submits nothing; otherwise the payload is submitted, a throw adds the "Something went wrong." toast, and loading is off afterwards either way |
| BudgetForm.BudgetFormState.HandleReset | frontend/src/components/BudgetForm.jsx:88-91 | the record becomes the initial one, with ordered ratings, and an info toast is added |
| BudgetForm.BudgetFormState.HandleSample | frontend/src/components/BudgetForm.jsx:93-96 | the record becomes the sample, whose locations parse to three names, and a success toast is added |
| BudgetForm.BudgetFormState.constructor | frontend/src/components/BudgetForm.jsx:24-25 | the form starts at the initial record, not loading |
| TripRequest.Validate | app/models.py:4-13 | a request is accepted unchanged iff `total_days >= 1` and the range matches the pattern; otherwise every violated constraint is reported |
| TripRequest.RangePatternBySplit | app/models.py:10 | a range matches the pattern iff splitting it at "-" gives exactly two numerals |
| TripRequest.RangeOfNumeralsMatches | app/models.py:10 | two numerals joined by "-" match |
| TripRequest.RangePatternAcceptsIntegers | app/models.py:10 | "3-5" and "5-3" match: the bounds need not be ordered |
| TripRequest.RangePatternAcceptsDecimals | app/models.py:10 | "3.0-5.0" matches |
| TripRequest.RangePatternRejectsTrailingPoint | app/models.py:10 | "3.-5" does not match |
| TripRequest.RangePatternRejectsMissingMinimum | app/models.py:10 | "-5" does not match |
| TripRequest.RangePatternRejectsThreeParts | app/models.py:10 | "3-5-6" does not match |
| DayAllocation.BaseDays | app/utils.py:107 | the base is at least 1, and when above 1 it is the floor of days over locations |
| DayAllocation.Initial | app/utils.py:107 | every listed location starts at the base |
| DayAllocation.AllocateDays | app/utils.py:107-112 | the loop over the shuffled locations produces the allocation |
| DayAllocation.Allocation | app/utils.py:107-112 | exactly the listed locations get an allotment |
| DayAllocation.AddExtra | app/utils.py:109-112 | handing out extra days changes no location set: the same locations have allotments |
| DayAllocation.ShuffleMembers | app/utils.py:109 | a shuffled order has the same length and the same locations as the list |
| DayAllocation.AddExtraEffect | app/utils.py:109-112 | a location gets one extra day iff it is among the first `extra` in the shuffled order |
| DayAllocation.AddExtraNothingLeft | app/utils.py:110 | with nothing extra to give, no allotment changes |
| DayAllocation.AllocationValues | app/utils.py:107-112 | with no location listed twice, every allotment is the base or the base plus one |
| DayAllocation.AllocationFewerDays | app/utils.py:107-112 | with no location listed twice and fewer days than locations, every location gets 1 day, so more days are allotted than requested |
| DayAllocation.AllocationAt | app/utils.py:107-112 | with no location listed twice and at least as many days as locations, the `i`-th location of the shuffled order gets the base plus one iff `i` is below the remainder `total_days - base * len(locations)`, and the base otherwise |
| DayAllocation.RepeatedLocationGetsTwoExtra | app/utils.py:107-112 | a location listed twice gets an extra day on each of its turns: for A, A, B and 7 days the base is 2 and A gets 4 |
| DayAllocation.AllocationSum | app/utils.py:107-112 | with distinct locations and at least one day each, the allotments add up to exactly the requested days |
| PackageSelection.Sampled | app/utils.py:118 | as many rows are examined as positions are drawn |
| PackageSelection.SampledAt | app/utils.py:118 | drawn row `j` is the row at drawn position `j` |
| PackageSelection.SampledFromRows | app/utils.py:118 | every drawn row is a row of the location |
| PackageSelection.ToPackage | app/utils.py:126-133 | a record keeps its row's days and predicted budget (the location and type name it carries are stated by ScanLabels, its activities by ActivitiesOfRow) |
| PackageSelection.ActivitiesOfRow | app/utils.py:69-71 | the activities listed are the row's own one-hot activities, after the column `Travel_Companion`, which is listed exactly when its value is 1 (a Couple) |
| PackageSelection.Scan | app/utils.py:119-139 | the days used and the budget are the sums over the kept records, and no more records are kept than rows are examined |
| PackageSelection.SelectForLocation | app/utils.py:118-141 | the loop, with its `continue` and `break`, keeps the records, days and budget of the scan |
| PackageSelection.ScanStopped | app/utils.py:138-139 | after the loop breaks, the remaining rows change nothing |
| PackageSelection.ScanWithinCap | app/utils.py:123-124 | once something is kept, the days used never exceed the allotment |
| PackageSelection.ScanStopsAtCap | app/utils.py:138-139 | the loop stops iff something is kept and the days used reach the allotment |
| PackageSelection.ScanKeepsOnlyBelowCap | app/utils.py:138-139 | before each kept record but the first, the days used were below the allotment |
| PackageSelection.ScanInOrder | app/utils.py:122-133 | the records are the records of rows, in the rows' order |
| PackageSelection.ScanRecordFromRow | app/utils.py:122-133 | every record is the record of an examined row |
| PackageSelection.ScanLabels | app/utils.py:126-128 | every kept record carries the location and type name it was made under |
| PackageSelection.ScanTakesAllWhenRoom | app/utils.py:122-139 | when all rows together fit below the allotment, all are kept and their days are used |
| PackageSelection.AtMostFiveKept | app/utils.py:118 | at most 5 records are kept per location |
| Planner.CompanionCode | app/utils.py:57-58 | -1 iff the companion is not one of the four names; otherwise the code indexes that name |
| Planner.Encode | app/utils.py:66-77 | an encoding exists iff the name is a class, and its code indexes that class, so `inverse_transform` of the code gives back the name |
| Planner.RatingBounds | app/utils.py:64 | bounds are read iff the range splits at "-" into exactly two numerals |
| Planner.ValidatedRangeHasBounds | app/models.py:10 | a range the schema accepts always gives a minimum and a maximum, the values of its two sides |
| Planner.MatchingRows | app/utils.py:81-84 | filtering never adds rows |
| Planner.Matches | app/utils.py:81-84 | a row can only pass when the range is ordered, since `between` needs minimum <= rating <= maximum |
| Planner.MatchingRowsExact | app/utils.py:81-84 | a row is kept iff it is in the dataset and passes every comparison of the filter |
| Planner.LocationPackages | app/utils.py:73-95 | only requested locations get rows |
| Planner.LocationRows | app/utils.py:75-95 | a location the encoder does not know gets no rows; a known one gets at most the dataset's rows |
| Planner.LocationPackagesExact | app/utils.py:73-95 | a location gets rows iff it is requested, it encodes and some row matches; those are its matching rows |
| Planner.CollectLocationPackages | app/utils.py:73-95 | the loop, with its two `continue`s, builds exactly those rows per location |
| Planner.NoPackagesIffNoRows | app/utils.py:97 | nothing is collected iff no requested location has a matching row |
| Planner.Prepare | app/utils.py:57-98 | passing the checks implies at least one requested location |
| Planner.OptionAllocation | app/utils.py:107-112 | every requested location has an allotment |
| Planner.Selection | app/utils.py:114-141 | at most 5 records per location, each under the requested type name |
| Planner.OptionPlan | app/utils.py:144-158 | a pass gives a plan only when it picked something, never more than 5 records per location, and the plan echoes the companion |
| Planner.SelectPackages | app/utils.py:114-142 | the loop over locations gathers the selection of every location in turn, and the budget is the sum of the records' predictions |
| Planner.BuildOption | app/utils.py:103-158 | one pass of the option loop gives the option plan |
| Planner.Plans | app/utils.py:100-158 | no more plans than passes |
| Planner.CollectPlans | app/utils.py:100-160 | the option loop produces the plans of the draws, in order |
| Planner.PredictBudgetMultipleOptions | app/utils.py:47-160 | the function's result is the modelled outcome |
| Planner.Predict | app/utils.py:47-160 | plans are returned only for a known companion and package type and at least one location |
| Planner.PredictOutcome | app/utils.py:57-98 | the unknown-companion error iff the companion is unknown; an exception iff the range does not split into two numbers or the package type is unknown; the no-match error iff no location has rows; plans otherwise |
| Planner.PredictPlans | app/utils.py:63-98 | when plans are returned, they are the plans over the rows collected for the encoded request |
| Planner.PlansFromPasses | app/utils.py:102-144 | every returned plan is the plan of some pass, and a pass that selects nothing adds none |
| Planner.PlanCount | app/utils.py:102 | at most `max_options` plans are returned |
| Planner.AtMostThreePlans | app/utils.py:53 | called with the default `max_options`, at most 3 plans are returned |
| Planner.PlanShape | app/utils.py:144-157 | every plan has records, its total days and budget are their sums, and the companion is echoed |
| Planner.SelectionRecord | app/utils.py:114-133 | every selected record is of a location with rows, of the requested type, and made from one of its rows |
| Planner.OptionRecord | app/utils.py:114-133 | the same for a pass's plan |
| Planner.PlanRecordsMatch | app/utils.py:81-133 | every record of every plan is for a requested location and the requested type, and comes from a dataset row that passes the filter |
| Planner.CompanionColumnInActivities | app/utils.py:69-129 | a record from a filtered row lists `Travel_Companion` as its first activity when the companion is a Couple, and exactly its row's activities otherwise |
| Planner.SelectionDays | app/utils.py:114-141 | the selected days are at most the allotments added up |
| Planner.OptionFits | app/utils.py:107-152 | with distinct locations and at least one day each, a pass's plan uses at most the requested days |
| Planner.PlanFitsRequestedDays | app/utils.py:107-155 | with distinct locations and at least one day each, no returned plan exceeds the requested days |
| FeatureFrame.Frame.AddMissing | app/utils.py:41-43 | every model feature the frame lacks is appended as a column of zeros; nothing else changes |
| FeatureFrame.Frame.Select | app/utils.py:44 | the named columns, in the order named |
| FeatureFrame.Frame.constructor | app/utils.py:39 | a frame with the given columns |
| FeatureFrame.PrepareInput | app/utils.py:39-44 | the model is given exactly its features in its order, each the frame's column or zeros, and the frame gains the missing columns in place: its old columns keep their values and each added column holds zeros |
| FeatureFrame.Extended | app/utils.py:41-43 | the loop never removes a column |
| FeatureFrame.Aligned | app/utils.py:44 | the model is given one column per feature |
| FeatureFrame.FilledAt | app/utils.py:41-43 | after the loop each feature holds its old column, or zeros if it had none |
| FeatureFrame.FilledNew | app/utils.py:43 | a column that was absent holds zeros once added |
| FeatureFrame.Filled | app/utils.py:41-43 | columns the frame had are never changed |
| FeatureFrame.ExtendedKeepsColumns | app/utils.py:41-43 | the old columns come first, in their order |
| FeatureFrame.ExtendedNames | app/utils.py:41-43 | afterwards a name is a column iff it was one or is a feature |
| FeatureFrame.ExtendedDistinct | app/utils.py:42-43 | no column is added twice |
| FeatureFrame.AlignedIgnoresOtherColumns | app/utils.py:44 | columns that are not features make no difference to what the model is given |
| PdfLayout.NewPage | frontend/src/pages/ConfirmedPlans.jsx:55-60 | a new page is the next page, with the cursor back at 25 |
| PdfLayout.ItemAdvance | frontend/src/pages/ConfirmedPlans.jsx:139-167 | an item with `k` activities moves the cursor by 73 + 6k |
| PdfLayout.ItemBoxHeight | frontend/src/pages/ConfirmedPlans.jsx:123 | an item's box has positive height |
| PdfLayout.PlaceItem | frontend/src/pages/ConfirmedPlans.jsx:121-167 | each item draws exactly one box |
| PdfLayout.PlaceItems | frontend/src/pages/ConfirmedPlans.jsx:120-168 | one box per item |
| PdfLayout.PlaceSummary | frontend/src/pages/ConfirmedPlans.jsx:170-180 | the summary draws exactly one box |
| PdfLayout.Layout | frontend/src/pages/ConfirmedPlans.jsx:32-200 | one box per item plus the summary's |
| PdfLayout.ExportPlan | frontend/src/pages/ConfirmedPlans.jsx:32-200 | the export's statements, loops included, produce the layout |
| PdfLayout.ItemPages | frontend/src/pages/ConfirmedPlans.jsx:55-121 | during the items the page count is 1 plus the breaks so far, and each page's number is written once, in order |
| PdfLayout.PageCount | frontend/src/pages/ConfirmedPlans.jsx:47-197 | the final page count is 1 plus the number of page breaks; the page numbers run 1..n, and the last is written once more at the end |
| PdfLayout.BoxesStay | frontend/src/pages/ConfirmedPlans.jsx:120-168 | later items never move boxes already drawn |
| PdfLayout.ItemPlacement | frontend/src/pages/ConfirmedPlans.jsx:121-167 | item `i` starts a new page iff y + 80 > pageHeight - 30; its box starts 10 above its cursor and is 65 + 6k high; the cursor moves 73 + 6k |
| PdfLayout.SummaryPlacement | frontend/src/pages/ConfirmedPlans.jsx:170-180 | the summary starts a new page iff y + 60 > pageHeight - 30; its box comes last, and the cursor moves 12 |
| PdfLayout.ItemsStartWithRoom | frontend/src/pages/ConfirmedPlans.jsx:121 | on a page at least 135 high, every item starts with 80 free above the bottom margin |
| PdfLayout.ThreeBareItemsOnA4 | frontend/src/pages/ConfirmedPlans.jsx:32-200 | on A4 (297 high), three items without activities give 2 pages, with the third item and the summary on page 2 |
| ConfirmedPlans.RemoveById | frontend/src/pages/ConfirmedPlans.jsx:213 | the survivors are listed plans with another id |
| ConfirmedPlans.RemoveByIdMembers | frontend/src/pages/ConfirmedPlans.jsx:213 | a plan survives iff it was listed and its id differs |
| ConfirmedPlans.RemoveByIdInOrder | frontend/src/pages/ConfirmedPlans.jsx:213 | the survivors keep their original order |
| ConfirmedPlans.RemoveByIdCount | frontend/src/pages/ConfirmedPlans.jsx:213 | exactly as many plans are removed as carry the id |
| ConfirmedPlans.RemoveByIdAbsent | frontend/src/pages/ConfirmedPlans.jsx:213 | when no plan carries the id, the list is unchanged |
| ConfirmedPlans.RemoveByIdKeepsDistinct | frontend/src/pages/ConfirmedPlans.jsx:213 | distinct ids stay distinct |
| ConfirmedPlans.Heading | frontend/src/pages/ConfirmedPlans.jsx:88 | the heading is "Trip Plan #" followed by digits that read back as `plan_number + 1` |
| ConfirmedPlans.HeadingsTellPlansApart | frontend/src/pages/ConfirmedPlans.jsx:88 | two plans get the same heading iff they have the same number |
| ConfirmedPlans.DeletePrompt | frontend/src/pages/ConfirmedPlans.jsx:294 | the delete prompt names the plan by its heading |
| ConfirmedPlans.PdfFileName | frontend/src/pages/ConfirmedPlans.jsx:199 | the file name carries `plan_number + 1` as digits between "TripPlan_" and "_" |
| ConfirmedPlans.FileNamesTellPlansApart | frontend/src/pages/ConfirmedPlans.jsx:199 | on one day, two plans get the same file name iff they have the same number |
| ConfirmedPlans.DownloadPdf | frontend/src/pages/ConfirmedPlans.jsx:32-200 | the PDF has the plan's heading as title, the layout of its items, and the plan's file name |
| ConfirmedPlans.PlansPage.constructor | frontend/src/pages/ConfirmedPlans.jsx:9-12 | no plans, loading, nothing pending, no alerts |
| ConfirmedPlans.PlansPage.FetchPlans | frontend/src/pages/ConfirmedPlans.jsx:19-30 | the plans become `confirmed_plans`, or the empty list when it is missing; a failure keeps them; loading is false on every path |
| ConfirmedPlans.PlansPage.AskDelete | frontend/src/pages/ConfirmedPlans.jsx:249 | the plan awaits confirmation |
| ConfirmedPlans.PlansPage.CancelDelete | frontend/src/pages/ConfirmedPlans.jsx:287-297 | nothing awaits confirmation |
| ConfirmedPlans.PlansPage.ConfirmDelete | frontend/src/pages/ConfirmedPlans.jsx:206-223 | with nothing pending, nothing changes; an ok response removes exactly the plans with the pending id and keeps the rest in order; a refused or failed request keeps the list and adds its alert; nothing is pending afterwards; distinct ids stay distinct |

## Left out

- Rendering is left out: JSX markup, styling, icons, the portal and scrolling. So are the detail modal (`selectedPlan`, `handleViewDetails`) and navigation.
- Network and storage are parameters: fetch calls, `localStorage` and `JSON.parse` of the stored plan. The stored plan is an option value passed to each opening of the chat; the marker is an optional string the widget holds, which other parts of the application write. A stored plan that does not parse is not modelled.
- `console.error` logging is not modelled.
- `load_dataset` is left out: the Excel reading, the column renaming and the one-hot encoding of activities. Each dataset row is given already encoded, with its one-hot activities as names. Of the dataset's other columns only those the code names are modelled; a further column in the spreadsheet that is not excluded would also be listed as an activity when its value is 1.
- The XGBoost prediction is left out. Each row carries its prediction as integer cents, already rounded to two decimals.
- Floating point is not modelled. `round(total_budget, 2)` and the `"%.2f"` strings are exact integer cents, and `Intl.NumberFormat` is not modelled.
- The location encoder is the list of its fitted classes. The package-type encoder is fixed to Basic, Moderate and Premium, as the decoding at `app/utils.py:128` implies.
- Randomness is a parameter: `random.sample` and `DataFrame.sample` are draws the caller supplies, one per pass.
- `remaining_days` is computed but never used by `predict_budget_multiple_options`, so it is left out.
- Planner.RatingBounds: reads numbers only from unsigned decimal numerals. Python's `float` also accepts signs, exponents, `inf` and `nan`, so a range such as `1e0-5` would be read by the backend and is an exception here. With ASCII digits (see TripRequest.Validate below), the schema pattern never lets such a range through.
- TripRequest.Validate: assumes pydantic v2, where `pattern=` is enforced, and narrows its `\d` to the ASCII digits. Pydantic v2's regular expressions take `\d` as any Unicode decimal digit and `float` reads those digits too, so a range such as `٣-٥` (Arabic-Indic digits) is accepted and read as 3 to 5 by the backend, while the model rejects it. Under pydantic v1 (the endpoint's `req.dict()` is the v1 spelling) `pattern=` would not be checked at all.
- Text.ToLower: lower-cases ASCII letters only; JavaScript also lower-cases other alphabets.
- PackageId.MatchAt: `\d` is the ASCII digits, as in JavaScript without the `u` flag. `\w` is ASCII letters, digits and `_`.
- Text.ParseDecimal: `parseFloat` is modelled only on unsigned decimal numerals. Every other string is treated as NaN, though `parseFloat` would read a leading number such as `"3abc"` as 3. The rating selects only offer numerals.
- The form's `total_days` is an integer. The number input hands over a string that `Number(...)` converts, and that conversion is not modelled.
- The 500 ms timer is a queue of pending replies. The order of delivery is the order of scheduling, and timers still running when the chat closes are not cancelled.
- Concurrency is left out: the delete handler reads `plans` from its render, and a concurrent fetch in between is not modelled.
- A saved plan's `plan_number` is a natural number, the zero-based index the page adds 1 to; the confirmation flow that assigns it is not part of this model.
- PdfLayout.ExportPlan: models only the cursor, the page counter, the boxes and the page numbers. Text, fonts, colours and centring are not modelled.
- The field names differ between components. The chat widget reads `planNumber` and `packageIDs`, the page reads `plan_number` and `package_ids`, and each module uses the names its own source uses.
