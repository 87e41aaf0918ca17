# Road-trip assistant frontend logic, in Dafny

The road-trip assistant is a chat frontend (React) for a route-planning
agent. Apart from markup, the frontend holds a small amount of logic, and
this project models it and proves its properties:

- **Itinerary parsing** (`ItineraryDisplay.jsx`):
  - deciding whether an assistant reply is an itinerary;
  - splitting it into day and summary sections, with or without the
    `DAY_SECTIONS:` / `SUMMARY_SECTIONS:` delimiters;
  - scanning a day's lines into its fields (route, coordinates, driving,
    start time, notes, the overnight stay with its details, and other
    bullets);
  - grouping a summary's lines into paragraphs and bullet lists;
  - moving through the day carousel.
- **The guided question flow:**
  - its five-question table and the two request builders and reply parser
    (`guidedFlow.js`);
  - the controller state that prompts, stores answers and finishes
    (`useGuidedFlow.js`).
- **The message list helpers** (`messageUtils.js`) and **the choice of the
  single message that offers Retry** (`ChatWindow.jsx`).
- **The trip form:** its single-field update and its ordered validation
  (`TripForm.jsx`).
- **Route coordinates** (`RouteMap.jsx`): parsing the route string into
  points, and the map's centre, bounds and markers.

Each source file becomes one or more modules:

| module | models |
|---|---|
| `Wrappers` | `Option` |
| `Text` | `trim`, `startsWith`, `includes`, `indexOf`, `split`, `join`, `substring`, `parseInt` on strings as `seq<char>` |
| `JsValues` | JavaScript values, truthiness, `\|\|`, property access, object spread, and numbers that may be `NaN` |
| `ItinerarySections` | `parseItinerary`, with the two regular expressions written out as string searches |
| `ItineraryView` | `isItinerary`, the day/summary filters, and what is rendered (plain text, sections, or the fallback text) |
| `DayContent` | `parseDayContent` |
| `SummaryContent` | `parseSummaryContent` |
| `DayCarousel` | `currentDayIndex` with `goToNext` / `goToPrevious` / `goToDay`, as a class |
| `GuidedFlow` | `GUIDED_FLOW`, `buildPayload`, `parseResponse`, `GUIDED_FLOW_COMPLETE_MESSAGE` |
| `GuidedFlowHook` | `useGuidedFlow`, as a class whose fields are the hook's state |
| `MessageUtils` | `createMessage`, `addMessage`, `updateMessage`, `replaceMessage` |
| `ChatWindow` | the backward scan for `latestAssistantId` and the `isLatestAssistant` flags |
| `TripForm` | `formData` with `handleChange`, as a class, and `handleSubmit` |
| `RouteMap` | `parseCoordinates`, `getMapCenter`, `getMapBounds`, the marker condition |

**How the JavaScript is represented:**
- Loops that push onto arrays are methods with `while` loops. Each is proved
  equal to a specification function, and the properties are lemmas about
  that function.
- Objects are maps from property names to values, so `{ ...a, ...b }` is map
  union.
- React state updates take effect at once.

Behaviour of the code worth knowing:
- **Field values.** In `parseDayContent`, every field prefix except
  `- Start time suggestion:` drops one character more than the prefix. A
  line `- Route:Seattle` therefore gives the route `eattle`
  (`DayContent.FieldValueWithoutSpace`).
- **Overnight details.** The indented `'  - '` alternative for overnight
  details never fires, because the line has already been trimmed.
- **Summary bullets.** Bullets in a summary keep what follows `- `
  untrimmed.
- **Finishing the flow.** `finishFlow` never adds the completion message:
  both of its branches return the previous list's contents.
- **Retry flag.** A message is flagged for Retry when its id equals the
  selected id. With duplicate ids, more than one message can be flagged.

## Model

| member | source | states |
|---|---|---|
| `ItineraryView.IsItineraryMarkers` | frontend/src/components/ItineraryDisplay.jsx:9-16 | Text is an itinerary iff it contains `Day ` and one of `Route:`, `Driving:`, `DAY_SECTIONS:`, `SUMMARY_SECTIONS:`; the `- Route:` and `- Driving:` alternatives are implied by the shorter ones |
| `ItineraryView.IsItinerary` | frontend/src/components/ItineraryDisplay.jsx:9-16 | Definition of the `isItinerary` test: `Day ` and one of the six markers; `IsItineraryMarkers` proves what it amounts to |
| `ItineraryView.NoDayNoItinerary` | frontend/src/components/ItineraryDisplay.jsx:9-16 | Text without any occurrence of `Day ` is never an itinerary, whatever markers it holds |
| `ItineraryView.DayWithRouteIsItinerary` | frontend/src/components/ItineraryDisplay.jsx:9-16 | A day heading followed by a `- Route:` line is an itinerary |
| `ItineraryView.Render` | frontend/src/components/ItineraryDisplay.jsx:18-26 | Non-itinerary text is shown verbatim, and only then. Otherwise the days and summaries shown are the day and summary sections of the parse. The text is shown again exactly when both are empty, which by `FiltersPartition` is when the parse is empty. The filters are those of lines 341-345 and the repeated text that of lines 442-446. |
| `ItineraryView.FilterMembers` | frontend/src/components/ItineraryDisplay.jsx:344-345 | The day filter keeps exactly the day sections of the list, and the summary filter exactly its summary sections |
| `ItineraryView.FiltersPartition` | frontend/src/components/ItineraryDisplay.jsx:344-345 | Every section goes to exactly one of the two filters |
| `ItineraryView.FiltersAppend` | frontend/src/components/ItineraryDisplay.jsx:344-345 | Both filters distribute over concatenation, so they keep source order |
| `ItineraryView.DaysAppend` | frontend/src/components/ItineraryDisplay.jsx:344 | The day filter of a concatenation is the concatenation of the day filters |
| `ItineraryView.SummariesAppend` | frontend/src/components/ItineraryDisplay.jsx:345 | The summary filter of a concatenation is the concatenation of the summary filters |
| `ItineraryView.FilterOnlyDays` | frontend/src/components/ItineraryDisplay.jsx:344-345 | A list of day sections passes the day filter whole and the summary filter not at all |
| `ItineraryView.FilterOnlySummaries` | frontend/src/components/ItineraryDisplay.jsx:344-345 | A list of summary sections passes the summary filter whole and the day filter not at all |
| `ItineraryView.DelimitedFilters` | frontend/src/components/ItineraryDisplay.jsx:33-78 | With both delimiters, the carousel gets exactly the day region's sections and the summary list exactly the summary region's. The filters are those of lines 344-345. |
| `ItinerarySections.ParseItinerary` | frontend/src/components/ItineraryDisplay.jsx:29-109 | The loops push exactly the sections of the specification `SectionsOf`: in delimited mode the day region's sections and then the summary region's, otherwise those of the whole text split on blank lines |
| `ItinerarySections.SectionsOf` | frontend/src/components/ItineraryDisplay.jsx:29-109 | Definition of the value `parseItinerary` returns: the day region's then the summary region's sections with both delimiters, otherwise the classified blocks of the whole text; `ParseItinerary` is proved equal to it |
| `ItinerarySections.Block` | frontend/src/components/ItineraryDisplay.jsx:42-52 | Definition of a block's trimmed first line and the rest of its lines joined and trimmed, or nothing for a blank block |
| `ItinerarySections.ClassifyBlock` | frontend/src/components/ItineraryDisplay.jsx:48-104 | Definition of what a block becomes in each of the three loops; `DayBlockIff`, `SummaryRegionBlockIff` and `FallbackSummaryIff` prove the three rules |
| `ItinerarySections.IsDayHeading` | frontend/src/components/ItineraryDisplay.jsx:48 | Definition of `/^Day \d+$/i` as a string predicate: `day` in any case, one space, one or more ASCII digits to the end |
| `ItinerarySections.FallbackSummaryIff` | frontend/src/components/ItineraryDisplay.jsx:98-104 | Without both delimiters, a block is a summary iff its trimmed first line is not a day heading and contains `Estimated total` or `total trip`, or equals `Notes`; the title is that line and the content the rest of the block |
| `ItinerarySections.PushDayBlocks` | frontend/src/components/ItineraryDisplay.jsx:37-57 | The day-region loop appends the classified day blocks, in order, to what was there |
| `ItinerarySections.PushSummaryBlocks` | frontend/src/components/ItineraryDisplay.jsx:59-78 | The summary-region loop appends the classified summary blocks, in order |
| `ItinerarySections.PushFallbackBlocks` | frontend/src/components/ItineraryDisplay.jsx:79-106 | The fallback loop appends the classified blocks of the whole text, in order |
| `ItinerarySections.DaySpanFrom` | frontend/src/components/ItineraryDisplay.jsx:34 | A match of the day regex is `DAY_SECTIONS:`, white space ending in a newline, and a group that runs up to the first `SUMMARY_SECTIONS:` after it |
| `ItinerarySections.SummarySpanFrom` | frontend/src/components/ItineraryDisplay.jsx:35 | A match of the summary regex is `SUMMARY_SECTIONS:`, white space ending in a newline, and a group that runs to the end |
| `ItinerarySections.GroupStart` | frontend/src/components/ItineraryDisplay.jsx:34-35 | `\s*\n` after a marker ends at the last newline of the white-space run that follows it, if there is one |
| `ItinerarySections.WhiteRunEnd` | frontend/src/components/ItineraryDisplay.jsx:34-35 | The white-space run that starts after a marker is the longest one |
| `ItinerarySections.LastNewline` | frontend/src/components/ItineraryDisplay.jsx:34-35 | The last newline in a range, or none |
| `ItinerarySections.IndexOfFrom` | frontend/src/components/ItineraryDisplay.jsx:34-35 | The leftmost occurrence of a marker at or after a position, or none |
| `ItinerarySections.DayNumberParse` | frontend/src/components/ItineraryDisplay.jsx:53 | On a `Day <digits>` heading, `parseInt(firstLine.split(' ')[1])` is the value of the digits. The fallback mode repeats it at line 95. |
| `ItinerarySections.DayBlockIff` | frontend/src/components/ItineraryDisplay.jsx:41-97 | In the day region and in fallback mode, a block is a day section iff its trimmed first line matches `Day <digits>` in full, in any case |
| `ItinerarySections.SummaryRegionBlockIff` | frontend/src/components/ItineraryDisplay.jsx:63-77 | In the summary region, a block is a summary iff, trimmed, it is not empty and does not start with `-` |
| `ItinerarySections.FirstLineOfBlock` | frontend/src/components/ItineraryDisplay.jsx:67-70 | The trimmed first line of a non-empty trimmed block is not empty and starts with the block's first character |
| `ItinerarySections.DayTitles` | frontend/src/components/ItineraryDisplay.jsx:48-96 | Every day section's title is a day heading, and its number is the value of the heading's digits |
| `ItinerarySections.RegionKinds` | frontend/src/components/ItineraryDisplay.jsx:48-70 | The day region yields only day sections and the summary region only summaries |
| `ItinerarySections.DelimitedDaysFirst` | frontend/src/components/ItineraryDisplay.jsx:37-78 | In delimited mode no day section comes after a summary section |
| `ItinerarySections.DaysThenSummaries` | frontend/src/components/ItineraryDisplay.jsx:37-78 | Days followed by summaries have no day after a summary |
| `ItinerarySections.DelimitedKinds` | frontend/src/components/ItineraryDisplay.jsx:37-78 | In delimited mode the day region gives only day sections and the summary region only summaries |
| `ItinerarySections.SectionsFromBlocks` | frontend/src/components/ItineraryDisplay.jsx:41-105 | The sections number at most the blocks, and each comes from a block of the input |
| `ItinerarySections.SectionsAppend` | frontend/src/components/ItineraryDisplay.jsx:41-105 | The sections of two lists of blocks are those of the first followed by those of the second, so source block order is kept |
| `ItinerarySections.SectionsSnoc` | frontend/src/components/ItineraryDisplay.jsx:41-56 | One more block appends its own section, if it yields one, after the sections of the blocks before it |
| `ItinerarySections.PushDayPart` | frontend/src/components/ItineraryDisplay.jsx:41-55 | One pass of the day-region loop body pushes exactly the section the block classifies as, or nothing |
| `ItinerarySections.PushSummaryPart` | frontend/src/components/ItineraryDisplay.jsx:63-77 | One pass of the summary-region loop body pushes exactly the section the block classifies as, or nothing |
| `ItinerarySections.PushFallbackPart` | frontend/src/components/ItineraryDisplay.jsx:83-105 | One pass of the fallback loop body pushes exactly the section the block classifies as, or nothing |
| `ItinerarySections.ClassifiedKind` | frontend/src/components/ItineraryDisplay.jsx:48-103 | A block classified as a day has a `Day <digits>` title whose number is the digits' value, and is never from the summary region; a summary is never from the day region |
| `ItinerarySections.SpanBetweenFrom` | frontend/src/components/ItineraryDisplay.jsx:34 | The leftmost match at or after a position of an opening marker, white space ending in a newline, and a lazy group up to the first closing marker |
| `ItinerarySections.SpanToEndFrom` | frontend/src/components/ItineraryDisplay.jsx:35 | The leftmost match at or after a position of a marker, white space ending in a newline, and a group running to the end |
| `DayContent.ParseDayContent` | frontend/src/components/ItineraryDisplay.jsx:112-159 | The line loop builds exactly the fields of the specification `DayFieldsOf` |
| `DayContent.DayFieldsOf` | frontend/src/components/ItineraryDisplay.jsx:112-159 | Definition of the fields `parseDayContent` returns: the scan of `Step` over the lines; the lemmas below state what each field holds |
| `DayContent.Step` | frontend/src/components/ItineraryDisplay.jsx:119-155 | One pass of the loop body: a field line sets its field and `currentSection`, an overnight detail is appended while overnight is current, a plain bullet goes to `other` while no field has been seen; an overnight stay is always the one details are added to |
| `DayContent.Cut` | frontend/src/components/ItineraryDisplay.jsx:121-141 | The characters dropped are 9, 21, 11, 24, 9 and 13: one more than the prefix, except for the start time |
| `DayContent.PrefixesExclusive` | frontend/src/components/ItineraryDisplay.jsx:121-141 | No line starts with two of the six prefixes |
| `DayContent.FieldOfIff` | frontend/src/components/ItineraryDisplay.jsx:121-141 | A trimmed line is a line for a field iff it starts with that field's prefix |
| `DayContent.FieldValueOfLine` | frontend/src/components/ItineraryDisplay.jsx:121-141 | A line of prefix, the usual space and a value yields the trimmed value |
| `DayContent.FieldValueWithoutSpace` | frontend/src/components/ItineraryDisplay.jsx:123 | Without the space after the prefix, the first character of the value is lost |
| `DayContent.SetField` | frontend/src/components/ItineraryDisplay.jsx:121-141 | A field line sets that field and no other; an overnight line starts a stay with no details |
| `DayContent.StepValue` | frontend/src/components/ItineraryDisplay.jsx:121-141 | One line changes a field only when it is a line for that field |
| `DayContent.ValueIsLast` | frontend/src/components/ItineraryDisplay.jsx:121-141 | Each field holds the value of its last line; a later line overwrites an earlier one |
| `DayContent.CurrentIsLastField` | frontend/src/components/ItineraryDisplay.jsx:115-141 | `currentSection` is the field of the last field line and is never reset |
| `DayContent.TrimmedNotIndented` | frontend/src/components/ItineraryDisplay.jsx:143-150 | The `'  - '` test never fires on a trimmed line, so a detail always loses `- ` |
| `DayContent.StepOvernight` | frontend/src/components/ItineraryDisplay.jsx:136-150 | One line changes the stay only when it starts a new stay, or adds a detail while the stay is current |
| `DayContent.OvernightIsLastStay` | frontend/src/components/ItineraryDisplay.jsx:136-150 | The stay is that of the last overnight line. Its details are the detail lines after it and before the next field line, in order |
| `DayContent.OvernightStep` | frontend/src/components/ItineraryDisplay.jsx:143-150 | A line after the last overnight line keeps the stay's details equal to the details of the lines before the next field line |
| `DayContent.StepOther` | frontend/src/components/ItineraryDisplay.jsx:151-155 | One line changes `other` only when it is a plain bullet read before any field |
| `DayContent.OtherBeforeFirstField` | frontend/src/components/ItineraryDisplay.jsx:151-155 | `other` holds the plain bullets before the first field line, without `- ` and trimmed, and is absent when there are none |
| `DayContent.StepOtherItem` | frontend/src/components/ItineraryDisplay.jsx:151-155 | Before any field, a line that sets no field adds its plain bullet item, if it has one, to `other` |
| `DayContent.OtherAfterField` | frontend/src/components/ItineraryDisplay.jsx:151-155 | Once a field line has been read, a further line leaves `other` as it was |
| `DayContent.OtherBeforeField` | frontend/src/components/ItineraryDisplay.jsx:151-155 | While no field line has been read, a further line adds its bullet item, or ends the run of bullets if it sets a field |
| `DayContent.LastIndexOf` | frontend/src/components/ItineraryDisplay.jsx:121-141 | The position of the last line for a field, with none after it |
| `DayContent.FirstFieldIndex` | frontend/src/components/ItineraryDisplay.jsx:151 | The position of the first field line, with none before it |
| `DayContent.LastFieldIndex` | frontend/src/components/ItineraryDisplay.jsx:121-141 | The position of the last field line, with none after it |
| `SummaryContent.ParseSummaryContent` | frontend/src/components/ItineraryDisplay.jsx:284-312 | The loop builds exactly the elements of the specification `SummaryElements`, even though the open list is filled after it was pushed |
| `SummaryContent.SummaryElements` | frontend/src/components/ItineraryDisplay.jsx:284-312 | Definition of the value `parseSummaryContent` returns: the elements of `Group` over the lines |
| `SummaryContent.Group` | frontend/src/components/ItineraryDisplay.jsx:289-309 | The state after the loop has read the lines, in which an open list is always the last element |
| `SummaryContent.GroupIsRuns` | frontend/src/components/ItineraryDisplay.jsx:284-312 | The loop's elements equal `Runs`: read front to back, each maximal run of consecutive bullet lines is exactly one list of those lines' items, each plain line one paragraph, and a blank line nothing |
| `SummaryContent.Runs` | frontend/src/components/ItineraryDisplay.jsx:292-308 | Reference definition of the grouping by maximal runs, independent of the loop's open-list flag |
| `SummaryContent.BulletRun` | frontend/src/components/ItineraryDisplay.jsx:292-298 | The leading run of bullet lines is maximal: every line in it is a bullet and the line after it, if any, is not |
| `SummaryContent.BulletItems` | frontend/src/components/ItineraryDisplay.jsx:298 | One item per bullet line, in order, each the trimmed line without its `- ` |
| `SummaryContent.GroupAppend` | frontend/src/components/ItineraryDisplay.jsx:299-308 | Once a blank or plain line has closed the list, the remaining lines are grouped on their own and their elements appended |
| `SummaryContent.ItemsInOrder` | frontend/src/components/ItineraryDisplay.jsx:284-312 | Every non-blank line contributes exactly one item, in source order: bullets without `- `, plain lines trimmed |
| `SummaryContent.ElementPerRun` | frontend/src/components/ItineraryDisplay.jsx:292-308 | There is one element per maximal run of consecutive bullet lines and one per plain line |
| `SummaryContent.ParagraphsArePlainLines` | frontend/src/components/ItineraryDisplay.jsx:302-308 | The paragraphs are the plain lines, trimmed, in order |
| `SummaryContent.ListsAreNonEmpty` | frontend/src/components/ItineraryDisplay.jsx:294-298 | No list is empty |
| `SummaryContent.OpenAfterBullet` | frontend/src/components/ItineraryDisplay.jsx:292-306 | A list is open exactly when the last line read was a bullet |
| `SummaryContent.BlankSplitsLists` | frontend/src/components/ItineraryDisplay.jsx:299-301 | A blank line between bullets starts a second list |
| `SummaryContent.BulletKeepsSpace` | frontend/src/components/ItineraryDisplay.jsx:298 | A bullet item keeps what follows `- ` untrimmed |
| `SummaryContent.Step` | frontend/src/components/ItineraryDisplay.jsx:290-308 | After each line, an open list is the last element |
| `SummaryContent.FlattenExtend` | frontend/src/components/ItineraryDisplay.jsx:298 | Adding an item to the open list adds it at the end of the items |
| `DayCarousel.StepsInRange` | frontend/src/components/ItineraryDisplay.jsx:348-354 | For n > 0 days, next and previous keep the index in [0, n); next wraps from the last day to the first and previous the other way |
| `DayCarousel.Next` | frontend/src/components/ItineraryDisplay.jsx:352-354 | Definition of `(prevIndex + 1) % daySections.length` with JavaScript's remainder; `NextStep` gives its closed form |
| `DayCarousel.Previous` | frontend/src/components/ItineraryDisplay.jsx:348-350 | Definition of `(prevIndex - 1 + daySections.length) % daySections.length`; `PreviousStep` gives its closed form |
| `DayCarousel.NextStep` | frontend/src/components/ItineraryDisplay.jsx:352-354 | The next button moves one day on, and from the last day back to the first |
| `DayCarousel.PreviousStep` | frontend/src/components/ItineraryDisplay.jsx:348-350 | The previous button moves one day back, and from the first day to the last |
| `DayCarousel.NextPreviousInverse` | frontend/src/components/ItineraryDisplay.jsx:348-354 | Next then previous, and previous then next, restore the index |
| `DayCarousel.Carousel.constructor` | frontend/src/components/ItineraryDisplay.jsx:6 | The carousel starts on the first day |
| `DayCarousel.JsRem` | frontend/src/components/ItineraryDisplay.jsx:349-353 | JavaScript `%` agrees with Dafny's on non-negative dividends and is never positive on negative ones |
| `DayCarousel.JsRemOdd` | frontend/src/components/ItineraryDisplay.jsx:349-353 | JavaScript `%` of a negated dividend is the negated remainder |
| `DayCarousel.Carousel.GoToNext` | frontend/src/components/ItineraryDisplay.jsx:352-354 | The index becomes the next one and stays in range |
| `DayCarousel.Carousel.GoToPrevious` | frontend/src/components/ItineraryDisplay.jsx:348-350 | The index becomes the previous one and stays in range |
| `DayCarousel.Carousel.GoToDay` | frontend/src/components/ItineraryDisplay.jsx:356-358 | The index becomes the chosen day |
| `GuidedFlow.FlowOrder` | frontend/src/guidedFlow.js:4-95 | The flow has five questions: `from`, `to`, `duration`, `drivingHoursPerDay`, `routePreference` |
| `GuidedFlow.Flow` | frontend/src/guidedFlow.js:4-95 | The constant five-question table, with prompts, acknowledgements, modes, endpoints, payload keys, the repeat prompt and options as written; the lemmas below state its shape |
| `GuidedFlow.CompleteMessage` | frontend/src/guidedFlow.js:97-98 | The completion text `Thanks - that completes the guided questions.` |
| `GuidedFlow.StorageKeyIsId` | frontend/src/guidedFlow.js:4-95 | Each question's storage key is its id, and the ids are distinct |
| `GuidedFlow.FlowModes` | frontend/src/guidedFlow.js:9-67 | The first three questions are collected with no endpoint. The last two are API questions on `/init` and `/utility_itinerary` with payload key `query`, and exactly the API questions build a payload |
| `GuidedFlow.RepeatAndOptions` | frontend/src/guidedFlow.js:29-69 | Only `drivingHoursPerDay` has a repeat prompt and `repeatIndex` 0; only `routePreference` has the options `Yes` and `No` |
| `GuidedFlow.OrUnknown` | frontend/src/guidedFlow.js:40-75 | An empty answer reads `unknown`, any other answer as itself |
| `GuidedFlow.AnswerOf` | frontend/src/guidedFlow.js:37-74 | A missing or empty prior answer reads `unknown` |
| `GuidedFlow.BuildPayload` | frontend/src/guidedFlow.js:36-89 | The payload passes `history` and `answers` through and sets `questionId` to `notes` |
| `GuidedFlow.QueryHasFourLines` | frontend/src/guidedFlow.js:42-81 | When no answer holds a line break, the query splits on `\n` into exactly its four template lines |
| `GuidedFlow.QueryLines` | frontend/src/guidedFlow.js:37-81 | Exactly four template lines, each answer defaulting to `unknown` |
| `GuidedFlow.LinesSingle` | frontend/src/guidedFlow.js:42-81 | A line break in the query can only come from an answer |
| `GuidedFlow.QueryReadsOnlyUsedKeys` | frontend/src/guidedFlow.js:37-81 | The `/init` query depends only on `from`, `to`, `duration` and the current answer; the utility query also on `drivingHoursPerDay` |
| `GuidedFlow.EmptyAnswerIsMissing` | frontend/src/guidedFlow.js:37-75 | An empty answer builds the same query as a missing one |
| `GuidedFlow.ParseResponse` | frontend/src/guidedFlow.js:56-93 | The answer is `data.answer` if truthy, else `data.message` if truthy, else `No answer returned.`, and so always truthy. The flow stops iff `data.continue` is exactly `false` |
| `GuidedFlow.OnlyFalseStops` | frontend/src/guidedFlow.js:58-92 | A missing `continue`, or `null`, `0`, `undefined` or `''`, lets the flow go on |
| `GuidedFlowHook.GuidedFlowState.Initialize` | frontend/src/hooks/useGuidedFlow.js:14-34 | Unauthenticated, nothing changes. Authenticated: the messages become the welcome and then the first prompt; guided mode is on iff there is a question; the index is 0; the answers and the ref are empty |
| `GuidedFlowHook.InitialMessages` | frontend/src/hooks/useGuidedFlow.js:17-23 | The welcome message, then the first question's prompt with id `g-<id>-0` when there is a question |
| `GuidedFlowHook.InitialMessagesOfFlow` | frontend/src/hooks/useGuidedFlow.js:17-23 | With the guided flow: the welcome, then `g-from-0` asking for the starting location |
| `GuidedFlowHook.GuidedFlowState.constructor` | frontend/src/hooks/useGuidedFlow.js:5-8 | The hook starts outside guided mode at index 0, with no answers and the ref equal to them |
| `GuidedFlowHook.GuidedFlowState.FinishFlow` | frontend/src/hooks/useGuidedFlow.js:36-46 | Guided mode off, the index at the flow's length, the messages' contents and the answers unchanged |
| `GuidedFlowHook.GuidedFlowState.PromptQuestion` | frontend/src/hooks/useGuidedFlow.js:48-68 | Without a question at the index it behaves as `finishFlow`. Otherwise it appends exactly one assistant prompt after the unchanged list, turns guided mode on and sets the index, which stays below the flow's length. Answers are untouched |
| `GuidedFlowHook.RepeatChangesOnlyHours` | frontend/src/hooks/useGuidedFlow.js:55-56 | A normal prompt shows `prompt`; a repeat changes the text exactly for the question that defines a repeat prompt |
| `GuidedFlowHook.PromptText` | frontend/src/hooks/useGuidedFlow.js:55-56 | Definition of the prompt shown: `repeatPrompt` when a repeat is asked and the question has a non-empty one, otherwise `prompt` |
| `GuidedFlowHook.PromptId` | frontend/src/hooks/useGuidedFlow.js:61 | Definition of the prompt id `g-<question id>-<stamp>`, with the stamp standing for `Date.now()` |
| `GuidedFlowHook.PromptIsLatestAssistant` | frontend/src/hooks/useGuidedFlow.js:58-65 | The prompt just appended is the message the chat window selects for Retry |
| `GuidedFlowHook.GuidedFlowState.StoreGuidedAnswer` | frontend/src/hooks/useGuidedFlow.js:70-78 | An empty key returns the current answers unchanged. Otherwise the result is the answers with that key set, held by both the ref and the state; nothing else changes |
| `GuidedFlowHook.StoredAnswer` | frontend/src/hooks/useGuidedFlow.js:74 | Storing sets the key and keeps every other key's answer |
| `GuidedFlowHook.AssistantMessage` | frontend/src/hooks/useGuidedFlow.js:19-64 | Prompt messages have exactly `id`, `role` and `text`, with role `assistant` |
| `MessageUtils.CreateMessage` | frontend/src/utils/messageUtils.js:2-7 | The message has `id`, `role`, `text` and the keys of `extra`; fields of `extra` win; otherwise role and text are the arguments and the id is the role's first character, `-` and the unique part |
| `MessageUtils.IdStartsWithRole` | frontend/src/utils/messageUtils.js:3 | Unless `extra` sets it, the id starts with the role's first character and `-` |
| `MessageUtils.IdPrefix` | frontend/src/utils/messageUtils.js:3 | The first character of the role, or `undefined` for an empty role |
| `MessageUtils.AddMessage` | frontend/src/utils/messageUtils.js:12 | The old list with the message appended: one longer |
| `MessageUtils.UpdateMessage` | frontend/src/utils/messageUtils.js:9-10 | Length and order are kept. Every entry with the id, not only the first, gets the updates spread over it; the others are unchanged |
| `MessageUtils.ReplaceMessage` | frontend/src/utils/messageUtils.js:14-15 | Length is kept; every entry with the id is replaced by the new message; the others are unchanged |
| `MessageUtils.AbsentIdChangesNothing` | frontend/src/utils/messageUtils.js:9-15 | Updating or replacing an id that no message has returns an equal list |
| `MessageUtils.UpdateTwice` | frontend/src/utils/messageUtils.js:9-10 | Two updates of one id that do not change it equal one update with both merged, the later winning |
| `MessageUtils.UpdateAdded` | frontend/src/utils/messageUtils.js:9-12 | Updating a just-added message with a fresh id changes only the new last entry |
| `MessageUtils.ReplaceBack` | frontend/src/utils/messageUtils.js:14-15 | Replacing by a message with the same id and replacing back restores the list |
| `JsValues.Or` | frontend/src/guidedFlow.js:37-57 | `a \|\| b` is `a` when truthy, else `b`, and is truthy iff either is |
| `JsValues.Spread` | frontend/src/utils/messageUtils.js:6-10 | Spread has the keys of both objects, the second winning |
| `ChatWindow.LatestAssistantId` | frontend/src/components/ChatWindow.jsx:5-8 | The backward scan yields the id of the last assistant message, or `null` when there is none |
| `ChatWindow.LatestAssistantIdOf` | frontend/src/components/ChatWindow.jsx:5-8 | Definition of the selected id: the id of the message at `LastAssistant`, or `null` |
| `ChatWindow.LastAssistant` | frontend/src/components/ChatWindow.jsx:6-7 | The selected position holds an assistant message, and every message after it has another role |
| `ChatWindow.LastAssistantUnique` | frontend/src/components/ChatWindow.jsx:6-7 | Those conditions determine the position |
| `ChatWindow.LatestIsLastAssistant` | frontend/src/components/ChatWindow.jsx:5-8 | An assistant message with no assistant message after it supplies the selected id |
| `ChatWindow.NoAssistantGivesNull` | frontend/src/components/ChatWindow.jsx:5-8 | Without assistant messages the selection is `null` |
| `ChatWindow.Bubbles` | frontend/src/components/ChatWindow.jsx:12-14 | One bubble per message, in list order, flagged as latest assistant exactly when its id equals the selected id |
| `ChatWindow.FlaggedIsLastAssistant` | frontend/src/components/ChatWindow.jsx:13 | With unique ids, a bubble is flagged iff it is the last assistant message |
| `ChatWindow.AtMostOneFlagged` | frontend/src/components/ChatWindow.jsx:13 | With unique ids at most one bubble is flagged |
| `ChatWindow.NoAssistantNoneFlagged` | frontend/src/components/ChatWindow.jsx:5-13 | Without assistant messages, and with no `null` id, no bubble is flagged |
| `TripForm.InitialForm` | frontend/src/components/TripForm.jsx:5-11 | The form starts with exactly the five fields, all empty |
| `TripForm.TripFormState.constructor` | frontend/src/components/TripForm.jsx:5-11 | The form state starts as the empty form |
| `TripForm.TripFormState.HandleChange` | frontend/src/components/TripForm.jsx:13-19 | The named field gets the value and every other field keeps its own |
| `TripForm.ChangeSetsOneField` | frontend/src/components/TripForm.jsx:15-18 | After a change, only the named field differs |
| `TripForm.FirstFailureWins` | frontend/src/components/TripForm.jsx:21-51 | The checks run in the order from, to, duration, hours, preference. The first failing check gives its own message. The form is submitted, as it is, iff no check fails |
| `TripForm.HandleSubmit` | frontend/src/components/TripForm.jsx:21-51 | A submission hands over the form unchanged, and a rejection carries one of the five check messages; `FirstFailureWins` says which |
| `TripForm.HoursBoundsAccepted` | frontend/src/components/TripForm.jsx:40 | Driving hours of 1 and of 12 are accepted |
| `TripForm.InitialFormRejected` | frontend/src/components/TripForm.jsx:5-27 | Submitting the untouched form gives `Please enter a starting location` |
| `TripForm.HasFieldsLists` | frontend/src/components/TripForm.jsx:5-11 | The field check names exactly the five listed fields |
| `RouteMap.ParseCoordinates` | frontend/src/components/RouteMap.jsx:16-31 | `null` exactly for absent or empty input. Otherwise one point per `;`-separated segment of the unbracketed string, in order, and at least one |
| `RouteMap.StripBracketsAround` | frontend/src/components/RouteMap.jsx:21 | Brackets around a string come off |
| `RouteMap.StripBrackets` | frontend/src/components/RouteMap.jsx:21 | `/^\[\|\]$/g`: at most one leading `[` and one trailing `]` come off, so the result is never longer |
| `RouteMap.StripBracketsNone` | frontend/src/components/RouteMap.jsx:21 | A string without a leading `[` or trailing `]` is kept |
| `RouteMap.StripBracketsOnce` | frontend/src/components/RouteMap.jsx:21 | Only one bracket comes off each end |
| `RouteMap.PairIsSwapped` | frontend/src/components/RouteMap.jsx:23-24 | Segment `a,b` becomes the point `[b, a]` |
| `RouteMap.PointOf` | frontend/src/components/RouteMap.jsx:23-24 | Definition of one segment's point: the part after the comma as latitude (absent without a comma) and the part before it as longitude |
| `RouteMap.SegmentsInOrder` | frontend/src/components/RouteMap.jsx:21-25 | A bracketed list of segments parses to one point per segment, in order |
| `RouteMap.MapCenter` | frontend/src/components/RouteMap.jsx:59-64 | The first point when there is one, otherwise `[39.8283, -98.5795]` |
| `RouteMap.MapBounds` | frontend/src/components/RouteMap.jsx:66-71 | The points themselves iff there is more than one, otherwise `null` |
| `RouteMap.Markers` | frontend/src/components/RouteMap.jsx:92-100 | Start and end markers at the first and last points iff there are at least two |
| `RouteMap.BoundsWithMarkers` | frontend/src/components/RouteMap.jsx:66-100 | Bounds are set exactly when markers are shown, and the start marker is the centre |
| `RouteMap.CentreOfRoute` | frontend/src/components/RouteMap.jsx:17-64 | A non-empty route string centres the map on its first segment's point |
| `RouteMap.NoRoute` | frontend/src/components/RouteMap.jsx:17-92 | Absent or empty input gives the fallback centre, no bounds and no markers |
| `Text.JoinSplit` | frontend/src/components/ItineraryDisplay.jsx:39-52 | Joining the pieces of a split restores the string |
| `Text.SplitJoinChar` | frontend/src/guidedFlow.js:42-47 | Splitting a join of pieces free of the separator gives the pieces back |
| `Text.Trim` | frontend/src/components/ItineraryDisplay.jsx:42 | A trimmed string neither starts nor ends with white space, and is empty iff the string is all white space. The same `trim` is used throughout, e.g. lines 119 and 290. |
| `Text.IndexOf` | frontend/src/components/ItineraryDisplay.jsx:9-16 | The leftmost occurrence, or none |
| `Text.ParseIntDigits` | frontend/src/components/ItineraryDisplay.jsx:53 | `parseInt` of a digit string is its decimal value |
| `Text.ParseInt` | frontend/src/components/ItineraryDisplay.jsx:53 | On strings without leading white space or sign, `parseInt` gives a number exactly when the string starts with a digit |

## Left out

- Rendering: JSX markup, styling, the Leaflet map, toasts, and the
  `renderDayContent` / `renderSummaryContent` markup. The model stops at the
  values these consume; `ItineraryView.Render` says which values are shown.
- `parseGeometry` in `RouteMap.jsx`: it relies on `JSON.parse` and is never
  called.
- The `try` / `catch` of `parseCoordinates`: string replacement and
  splitting on a string cannot throw, so the `catch` branch is unreachable.
- Number conversion: `Number(...)` and the string-to-number coercion in
  `formData.duration < 1` are a parameter (`toNumber`) that yields a real
  number or `NaN`. Floating-point rounding is not modelled. Carousel and
  day-number arithmetic use unbounded integers, which is exact for any
  realistic number of days.
- Text.ParseInt: leading white space and a sign are not read, so `parseInt(" 7")` and `parseInt("-7")` are not
  modelled. The only calls (`ItineraryDisplay.jsx` lines 53 and 95) pass the digits of a `Day <digits>` heading.
- JsValues.Value: numbers in a backend reply (`data.answer`, `data.message`, `data.continue`) are integers, so a
  fractional number or `NaN` there cannot be represented. Truthiness and `!== false` treat them alike: `NaN`
  is falsy like `0`, and neither equals `false`.
- Message ids: `Date.now()` and `Math.random()` are passed in as a string
  (`unique` in `MessageUtils.CreateMessage`, `stamp` in
  `GuidedFlowHook.GuidedFlowState.PromptQuestion`).
- React scheduling: state updates, the effect that copies the answers into
  the ref, and `setMessages(prev => ...)` all take effect at once and in
  order. Batching and stale closures are not modelled.
- Arrays as values in the source are values here:
  - `currentSubItems` aliases `sections.overnight.details` in
    `parseDayContent`;
  - `currentList` aliases the last element of `elements` in
    `parseSummaryContent`.

  The model updates the stay or the last list directly. In both places the
  alias always refers to that object, so no behaviour is lost.
- `finishFlow`'s search for a `guided-complete` message: both branches
  return a list with the same contents, so the model does not compute the
  search.
- Strings are sequences of characters: JavaScript's UTF-16 code units
  (surrogate pairs) and the key order of objects are not modelled.
  `Text.IsWhite` is ECMAScript's WhiteSpace and LineTerminator set.
- `ItineraryDisplay`'s carousel is modelled only for at least one day
  (`DayCarousel.Carousel.constructor` requires it). With no day sections
  the buttons are not rendered, and `% 0` would give `NaN`.
- Answers in `buildPayload` are strings, the only values the flow stores.
  `history` is passed through as an opaque value.
- POI or attraction extraction and edit, retry or submit handlers are not
  part of this code and are not modelled. Likewise `usePolling.js`,
  `App.jsx`, `PasswordScreen.jsx`, the chat input and bubble components,
  and the Python backend are not part of this model.
