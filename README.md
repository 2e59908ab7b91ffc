# Manora journaling app: a Dafny model of its data-handling core

Manora is a journaling web app. A user writes a free-text journal entry. A
server function asks an AI gateway to pull tasks, calendar events, notes and
health mentions out of that entry and stores them as rows linked to the entry.
List pages show those rows with search and filters. A dashboard shows counters
and AI-generated insights, and a second server function copies events into
Google Calendar.

This project models the parts of that code that transform data or keep state,
and proves what they promise:

- **process-journal** (`process_journal.dfy`):
  - request validation and the mapping of AI gateway statuses to responses;
  - stripping of a Markdown code fence around the AI's answer;
  - the row builders, which apply the priority default and turn an empty date or time into null;
  - the insert sequence: the journal entry first, then one batch per extracted category.
- **google-calendar-sync** (`calendar_sync.dfy`):
  - the credential lookup;
  - the decision to run a refresh-token grant (section 6 of RFC 6749) and the credential update that follows;
  - the construction of the event's start and end strings;
  - dispatch on the `create` or `delete` action.
- **generate-insights** (`generate_insights.dfy`):
  - the three summary strings;
  - the removal of fence markers from the AI's answer;
  - the fixed fallback used when that answer does not parse.
- **Tasks, Notes, Health and Previous-entries pages** (`tasks_page.dfy`, `notes_page.dfy`, `health_page.dfy`, `previous_entries.dfy`):
  - the search and filter pipelines, which are order-preserving filters;
  - the priority badge;
  - the page state that fetch, toggle, add and delete update.
- **Insights panel and journal input** (`insights_display.dfy`, `journal_input.dfy`):
  - stats counting, the progress value and the mood badge;
  - how the panel updates its insights;
  - the `content`/`processing` state machine around one submission.

Shared modules model the JavaScript built-ins these rely on:

- `text.dfy`: the `trim` whitespace set, ASCII `toLowerCase`, `includes`, `join`, and decimal rendering of numbers;
- `sequences.dfy`: `Array.prototype.filter`;
- `wrappers.dfy`: null-able values and truthiness;
- `date_buckets.dfy`: the today/week/month date filter.

The database, the AI gateway, Google's endpoints, `supabase.auth`, the clock
and `JSON.parse` are parameters of the model:

- every select or insert is an answer passed in (`Fetch`, an `ok` flag, a new id);
- the gateway's answer is a value;
- `JSON.parse` is a function returning `None` when it would throw;
- the clock is an integer count of milliseconds, and the start of today is a separate input.

Each stateful page or handler is a class with a call log (`requests` or `calls`), so contracts can say which calls were made and in what order.

Two behaviours of the calendar sync are easy to misread:

- **Event length.** An event with a time has zero length: the code gives start and end the same `event_time` (`CalendarSync.BuildEventShape`). Only an event without a time runs from 00:00:00 to 01:00:00.
- **Failed refresh.** A failed token refresh is not detected, because the code never checks the refresh answer:
  - a missing `expires_in` makes building the update throw, which gives a 500 and stores nothing;
  - a missing `access_token` is sent as absent (the header reads `Bearer undefined`), while the stored token is kept, since `JSON.stringify` leaves an undefined property out of the update.

## Model

| member | source | states |
|---|---|---|
| Text.TrimStart | src/pages/Tasks.tsx:108 | the longest suffix that does not start with JavaScript whitespace; the dropped prefix is all whitespace |
| Text.TrimEnd | src/pages/Tasks.tsx:108 | the longest prefix that does not end with whitespace; the dropped suffix is all whitespace |
| Text.TrimShape | src/pages/Tasks.tsx:108 | `trim()` returns a contiguous middle piece of its input with no whitespace at either end, and only whitespace around it |
| Text.TrimIdempotent | src/pages/Tasks.tsx:108 | trimming twice is trimming once |
| Text.TrimPadded | supabase/functions/generate-insights/index.ts:103 | a trimmed text padded with whitespace on both sides trims back to itself |
| Text.BlankIff | src/components/JournalInput.tsx:20 | `!s.trim()` holds exactly when every character of `s` is whitespace |
| Text.Lower | src/pages/Tasks.tsx:48 | `toLowerCase` keeps the length, leaves no capital letter, keeps every other character, and moves each capital to its small letter |
| Text.LowerIdempotent | src/pages/Tasks.tsx:150 | lower-casing twice is lower-casing once |
| Text.ContainsIff | src/pages/Tasks.tsx:48 | `includes` holds exactly when the needle occurs at some position of the haystack |
| Text.ContainsEmpty | src/pages/Tasks.tsx:47-49 | every text includes the empty query |
| Text.JoinEmptyIff | supabase/functions/generate-insights/index.ts:47 | with a non-empty separator, `join` is empty exactly for no items or one empty item |
| Text.NatToStringRoundTrip | supabase/functions/generate-insights/index.ts:49 | a count rendered in decimal reads back as the same count, with a leading zero only for zero |
| Sequences.Filter | src/pages/Tasks.tsx:47-59 | `filter` keeps exactly the elements that pass, never more than it was given |
| Sequences.FilterIsSubsequence | src/pages/Tasks.tsx:47-59 | a filtered list keeps its elements' relative order |
| Sequences.FilterFilter | src/pages/Tasks.tsx:47-59 | two filters in a row are one filter by both predicates |
| Sequences.Count | src/components/InsightsDisplay.tsx:47 | a count of passing elements is at most the length, 0 exactly when none passes and the length exactly when all pass |
| Sequences.FilterCount | src/components/InsightsDisplay.tsx:47 | the length of a filtered list is the number of elements that pass |
| Sequences.FilterMonotone | src/pages/NotesInsights.tsx:48-58 | a weaker predicate keeps every element a stronger one keeps |
| DateBuckets.BucketBounds | src/pages/NotesInsights.tsx:46-58 | no named bucket admits a time after `now`; "all" and unnamed values admit every time |
| DateBuckets.BucketsNested | src/pages/NotesInsights.tsx:51-56 | today lies within week, week within month, month within all |
| TasksPage.FilterTasksIsOnePass | src/pages/Tasks.tsx:46-62 | the search, status and priority stages together are one filter by the conjunction of the three tests |
| TasksPage.FilterTasksCorrect | src/pages/Tasks.tsx:46-62 | the shown tasks are an order-preserving subsequence of the tasks that pass all three tests, and every task that passes is shown; a null priority never matches a priority filter |
| TasksPage.NoFilterShowsAll | src/pages/Tasks.tsx:47-59 | an empty search with both filters on "all" shows every task in order |
| TasksPage.PriorityColor | src/pages/Tasks.tsx:149-160 | high gives destructive, medium gives default, low gives secondary (case-insensitive, each an if-and-only-if); anything else or null gives outline |
| TasksPage.PriorityColorCaseInsensitive | src/pages/Tasks.tsx:149-160 | the badge depends only on the lower-cased priority |
| TasksPage.SetCompleted | src/pages/Tasks.tsx:94-96 | same length; every task keeps its id, title, priority and time; only tasks with the id take the new `completed` |
| TasksPage.ToggleTwiceRestores | src/pages/Tasks.tsx:89-96 | toggling a task and toggling it back restores the list |
| TasksPage.ToggleTouchesOnlyThatId | src/pages/Tasks.tsx:94-96 | tasks with another id are unchanged; tasks with the id change only `completed` |
| TasksPage.TasksView.constructor | src/pages/Tasks.tsx:26-33 | the page's initial state |
| TasksPage.TasksView.ChangeFilter | src/pages/Tasks.tsx:185-188 | "status" sets the status filter, "priority" the priority filter, and any other type changes nothing |
| TasksPage.TasksView.FetchTasks | src/pages/Tasks.tsx:64-83 | a successful select replaces the list, with null data as empty; a failed one keeps it; loading ends either way |
| TasksPage.TasksView.ToggleTask | src/pages/Tasks.tsx:85-105 | sends `!completed` for the id; the local list changes, by `SetCompleted`, only when the update succeeds |
| TasksPage.TasksView.AddTask | src/pages/Tasks.tsx:107-147 | a blank title or no user sends nothing; success resets the form to "" and "medium", closes it and refetches; failure keeps the form |
| NotesPage.FilterNotesIsOnePass | src/pages/NotesInsights.tsx:41-64 | the search and the date switch together are one filter |
| NotesPage.FilterNotesCorrect | src/pages/NotesInsights.tsx:41-64 | the shown notes are an order-preserving subsequence holding exactly the notes that match the search and fall in the range |
| NotesPage.NotesBucketsNested | src/pages/NotesInsights.tsx:46-58 | every note shown for "today" is shown for "week", and every note for "week" is shown for "month" |
| NotesPage.NotesView.constructor | src/pages/NotesInsights.tsx:22-28 | the page's initial state |
| NotesPage.NotesView.ChangeFilter | src/pages/NotesInsights.tsx:151 | the menu sets the date filter whatever the filter type |
| NotesPage.NotesView.FetchNotes | src/pages/NotesInsights.tsx:66-85 | a successful select replaces the list; a failed one keeps it; loading ends |
| NotesPage.NotesView.AddNote | src/pages/NotesInsights.tsx:87-126 | blank content or no user sends nothing; the untrimmed text is inserted; success clears the input, closes the form and refetches |
| HealthPage.FilterMentionsCorrect | src/pages/HealthWellness.tsx:37-60 | the shown mentions are one filter by search and date range, order-preserving, and hold exactly the matching mentions |
| HealthPage.UnnamedFilterShowsAll | src/pages/HealthWellness.tsx:42-54 | an empty search with "all" or an unnamed range shows every mention |
| HealthPage.HealthView.constructor | src/pages/HealthWellness.tsx:20-24 | the page's initial state |
| HealthPage.HealthView.ChangeFilter | src/pages/HealthWellness.tsx:106 | the menu sets the date filter whatever the filter type |
| HealthPage.HealthView.FetchHealthMentions | src/pages/HealthWellness.tsx:62-81 | a successful select replaces the list, with null data as empty; a failed one keeps it; loading ends either way |
| PreviousEntries.RemoveByIdCorrect | src/pages/PreviousEntries.tsx:63 | removal keeps, in order, exactly the entries whose id differs |
| PreviousEntries.RemoveAbsentId | src/pages/PreviousEntries.tsx:63 | removing an id that no entry has leaves the list unchanged |
| PreviousEntries.RemovePresentId | src/pages/PreviousEntries.tsx:63 | removing an id that some entry has shortens the list |
| PreviousEntries.EntriesView.constructor | src/pages/PreviousEntries.tsx:19-20 | the page's initial state |
| PreviousEntries.EntriesView.FetchEntries | src/pages/PreviousEntries.tsx:33-52 | a successful select replaces the list, with null data as empty; a failed one keeps it; loading ends either way |
| PreviousEntries.EntriesView.DeleteEntry | src/pages/PreviousEntries.tsx:54-76 | the delete is sent; the entries change, by `RemoveById`, only when it succeeds |
| InsightsDisplay.ComputeStats | src/components/InsightsDisplay.tsx:46-54 | the entry and note counters are the number of rows fetched; the task total is the number of tasks and the completed counter the number of completed tasks, never above the total; every missing result counts as 0 |
| InsightsDisplay.CompletedCountExtremes | src/components/InsightsDisplay.tsx:47 | the completed count equals the total when all tasks are done, and is 0 when none is |
| InsightsDisplay.TaskProgress | src/components/InsightsDisplay.tsx:89 | 0 with no tasks; between 0 and 100; exactly 100 when every task is completed |
| InsightsDisplay.MoodColor | src/components/InsightsDisplay.tsx:81-87 | green exactly for "positive" and red exactly for "negative", in any case; anything else is yellow |
| InsightsDisplay.MoodColorIgnoresCase | src/components/InsightsDisplay.tsx:81-87 | the badge depends only on the lower-cased mood |
| InsightsDisplay.MoodColorFacts | src/components/InsightsDisplay.tsx:81-87 | capitalised "Positive" and "NEGATIVE" get green and red, and a missing mood is shown as "neutral", in yellow |
| InsightsDisplay.InsightsView.constructor | src/components/InsightsDisplay.tsx:20-27 | the panel's initial state |
| InsightsDisplay.InsightsView.FetchData | src/components/InsightsDisplay.tsx:33-71 | with no user, stats and insights are unchanged and nothing is asked; otherwise the stats are recomputed and insights are replaced only by a non-error, non-empty answer; loading ends false |
| JournalInput.JournalForm.constructor | src/components/JournalInput.tsx:14-15 | the form's initial state |
| JournalInput.JournalForm.HandleSubmit | src/components/JournalInput.tsx:17-53 | blank content changes nothing; otherwise processing is raised for both calls and lowered on every path; success clears the content and calls `onProcessed` once; failure keeps the content |
| JournalInput.SubmitKeepsCallsGuarded | src/components/JournalInput.tsx:25-51 | every call made by a submission is made while `processing` is true |
| GenerateInsights.JournalSummaryPlaceholder | supabase/functions/generate-insights/index.ts:47 | the journal summary is never empty: "No entries yet" exactly when the join is empty, else the contents joined by a blank line |
| GenerateInsights.TasksSummaryCounts | supabase/functions/generate-insights/index.ts:48-50 | with tasks, the summary starts with the decimal number of completed tasks, which is at most the task count and is "0" exactly when no task is completed |
| GenerateInsights.HealthSummaryPlaceholder | supabase/functions/generate-insights/index.ts:51 | the health summary is never empty: "No health data" for an empty join, else the contents joined by ", " |
| GenerateInsights.RemoveMarker | supabase/functions/generate-insights/index.ts:103 | one global marker replace never lengthens its input |
| GenerateInsights.RemoveMarkerSkips | supabase/functions/generate-insights/index.ts:103 | backtick-free text ahead of the rest passes the replace unchanged |
| GenerateInsights.CleanWithoutBackticks | supabase/functions/generate-insights/index.ts:103 | backtick-free input is only trimmed |
| GenerateInsights.RemoveOpeningFence | supabase/functions/generate-insights/index.ts:103 | the first replace removes the "```json" line of a fenced answer and nothing else |
| GenerateInsights.RemoveClosingFence | supabase/functions/generate-insights/index.ts:103 | the second replace removes the closing fence and nothing else |
| GenerateInsights.CleanUnwrapsFence | supabase/functions/generate-insights/index.ts:103 | a trimmed, backtick-free JSON text in a "```json" fence comes out of cleaning exactly as it went in |
| GenerateInsights.ParseIgnoresFence | supabase/functions/generate-insights/index.ts:100-114 | a trimmed, backtick-free answer parses to the same insights, or the same fallback, whether or not it is wrapped in a "```json" fence |
| GenerateInsights.MissingUserIdIgnoresEverything | supabase/functions/generate-insights/index.ts:17-19 | without a user id the answer is the same 500, whatever the stored data, the key and the gateway |
| GenerateInsights.FallbackIndependentOfData | supabase/functions/generate-insights/index.ts:90-114 | an unparsable answer yields the fixed fallback whatever the user's data; a gateway error yields a 500 and no insights |
| ProcessJournal.StripLeadingFence | supabase/functions/process-journal/index.ts:129 | the first replace leaves a suffix: without a leading case-insensitive "```json" the whole input; with one, what follows the marker minus only whitespace, and no whitespace at its start |
| ProcessJournal.StripTrailingFence | supabase/functions/process-journal/index.ts:129 | the second replace leaves a prefix: without a final "```" the whole input; with one, what precedes the marker minus only whitespace, and no whitespace at its end |
| ProcessJournal.StripFenceIsSlice | supabase/functions/process-journal/index.ts:129 | the cleaned answer is a contiguous piece of the raw answer with no whitespace at either end |
| ProcessJournal.DropLeadingFence | supabase/functions/process-journal/index.ts:129 | an opening "```json" tag in any letter case, with the whitespace after it, is removed and the rest is kept |
| ProcessJournal.DropTrailingFence | supabase/functions/process-journal/index.ts:129 | a closing "```" is removed with any whitespace before it, and the text before that is kept |
| ProcessJournal.StripEmptyFence | supabase/functions/process-journal/index.ts:129 | a fence tagged "json" in any letter case holding only whitespace cleans to the empty text |
| ProcessJournal.StripFenceUnwraps | supabase/functions/process-journal/index.ts:129 | a trimmed JSON text in a fence tagged "json" in any letter case, with any whitespace around it, is recovered exactly |
| ProcessJournal.StripFence | supabase/functions/process-journal/index.ts:129 | an answer that neither opens with "```json" (in any letter case) nor ends with "```" is only trimmed |
| ProcessJournal.TaskRows | supabase/functions/process-journal/index.ts:158-163 | one row per item, carrying the user and the new entry and the item's title; priority is the item's when given and "medium" otherwise, never empty |
| ProcessJournal.EventRows | supabase/functions/process-journal/index.ts:176-182 | one row per item, tagged and titled; the date and time are stored exactly when the item gives a non-empty one, otherwise null |
| ProcessJournal.ContentRows | supabase/functions/process-journal/index.ts:195-216 | one row per item, tagged, with the item's content |
| ProcessJournal.DerivedCallsPerCategory | supabase/functions/process-journal/index.ts:156-225 | one batch per category whose array is present and non-empty, and none otherwise |
| ProcessJournal.DerivedCallsTagged | supabase/functions/process-journal/index.ts:158-216 | every derived batch is non-empty and each of its rows carries the user and the new entry's id |
| ProcessJournal.AiFailure | supabase/functions/process-journal/index.ts:94-120 | a 429 or 402 from the gateway is passed on, and any other failure becomes a 500 |
| ProcessJournal.AfterSuccessTagged | supabase/functions/process-journal/index.ts:140-225 | after a successful run the new entry row is appended; every new derived row carries the user and the entry's id; an accepted batch adds one row per item; a refused batch leaves its own table as it was |
| ProcessJournal.Backend.constructor | supabase/functions/process-journal/index.ts:135-137 | the store as given, and no calls yet |
| ProcessJournal.Backend.InsertDerived | supabase/functions/process-journal/index.ts:156-225 | the four batches are sent in order and each lands only if the store accepts it; a refused batch does not stop the later ones |
| ProcessJournal.Backend.InsertTasks | supabase/functions/process-journal/index.ts:157-172 | the tasks batch is sent only when present and lands only if accepted |
| ProcessJournal.Backend.InsertEvents | supabase/functions/process-journal/index.ts:175-191 | the same for events |
| ProcessJournal.Backend.InsertNotes | supabase/functions/process-journal/index.ts:194-208 | the same for notes |
| ProcessJournal.Backend.InsertHealth | supabase/functions/process-journal/index.ts:211-225 | the same for health mentions |
| ProcessJournal.Backend.Store | supabase/functions/process-journal/index.ts:139-236 | once the answer has parsed, the entry is inserted first; a refused entry gives 500 with nothing written; a JSON `null` keeps the entry and gives 500; an object has its present categories stored and gives 200 with the entry id |
| ProcessJournal.Backend.Handle | supabase/functions/process-journal/index.ts:14-248 | falsy content gives 400 with no call and no write (whitespace is accepted); gateway failures give 429, 402 or 500 with no write; an unparsable answer gives 500 with no write; the entry is inserted before any derived row, and its failure gives 500; a JSON `null` keeps the entry and then gives 500; otherwise every present category is attempted and the answer is success with the entry id |
| CalendarSync.Refreshed | supabase/functions/google-calendar-sync/index.ts:62-68 | the updated credential has the new token and an expiry `expires_in`·1000 ms after now, and keeps the refresh token |
| CalendarSync.RefreshedStaysFresh | supabase/functions/google-calendar-sync/index.ts:46-66 | a credential renewed with a non-negative lifetime is not renewed again before that lifetime ends |
| CalendarSync.RefreshMonotone | supabase/functions/google-calendar-sync/index.ts:46 | no expiry means no refresh, and an expired credential stays expired later |
| CalendarSync.DateTime | supabase/functions/google-calendar-sync/index.ts:76-80 | `date + "T" + (time \|\| fallback)`, read back piece by piece |
| CalendarSync.BuildEventShape | supabase/functions/google-calendar-sync/index.ts:73-83 | summary is the title; start and end begin with the date; start equals end exactly when a time is given; otherwise 00:00:00 to 01:00:00 |
| CalendarSync.DispatchFacts | supabase/functions/google-calendar-sync/index.ts:71-124 | at most one call, made exactly on success and with the token in use; a delete names the stored, non-empty Google id; every other action gets 400 "Invalid action" |
| CalendarSync.Bridge.constructor | supabase/functions/google-calendar-sync/index.ts:31-35 | the credential table as given, and no calls yet |
| CalendarSync.Bridge.Sync | supabase/functions/google-calendar-sync/index.ts:14-131 | no user gives 500 "Unauthorized" before any lookup; no credential gives 400 and nothing else; a refresh-token grant is sent only when the expiry is present and past; without `expires_in` the result is 500 and nothing is stored; otherwise, if the update succeeds, the reply's token is stored, or the old one kept when the reply has none; the reply's token is used for the create or delete |

## Left out

- The database, the AI gateway, Google's endpoints and `supabase.auth`. These are I/O; their answers are parameters.
- CORS and OPTIONS handling, toasts and console logging. These are plumbing.
- Server-side ordering and limits (`order`, `limit(10)`). The database applies them, so fetched lists are taken as given.
- The AI prompt texts. They are free-form language with no contract.
- Date parsing and formatting, time zones, and `toISOString`. Stored timestamps and expiries are integer milliseconds.
- The event's time zone field. It comes from `Intl` in the runtime.
- An `event_date` missing from the request. The code would interpolate it as the text "undefined"; the model takes the date as a string.
- `DateBuckets.InBucket`: date-fns `subDays` is modelled as exactly n·86 400 000 ms, which ignores daylight-saving shifts.
- `Text.Lower`: models ASCII `toLowerCase`. This is exact for the fixed keywords compared after lower-casing (priorities, moods, the "json" fence tag, for which a non-unicode `/i` regex folds only ASCII). For search queries with non-ASCII capitals it is an approximation.
- `Text.IsSpace`: follows the ECMAScript WhiteSpace and LineTerminator sets, which `trim` and `\s` share; the Unicode `Zs` category is listed by code point.
- `InsightsDisplay.TaskProgress`: computed in exact real arithmetic, not IEEE-754 doubles.
- `CalendarSync.Bridge.Sync`: reads the clock once, although the code reads it twice (`new Date()` for the expiry check, `Date.now()` for the new expiry). A fractional `expires_in` is not modelled.
- `CalendarSync.Bridge.Sync`: a stored `token_expiry` that does not parse as a date is not modelled. In the code it compares as never expired, which is the same as an absent one.
- `ProcessJournal.Backend.Handle`: models each extracted category as an array or absent. A category holding some other truthy value (such as a non-empty string) would make `.map` throw; that is not modelled.
- `ProcessJournal.Backend.Handle`: `JSON.parse` is an oracle that yields an extraction, JSON `null` or a parse failure. The structure of JSON itself is not modelled, and the error messages of foreign exceptions are represented as absent (`Error(None)`).
- `GenerateInsights.Handle`: `JSON.parse` is an oracle that yields an insights record, any other JSON value (`null`, an array, a number), which is returned with status 200 as it stands, or a parse failure. Such another value is carried as its text; its structure is not modelled.
- `InsightsDisplay.InsightsView.FetchData`: takes the function's answer as an insights record, an error or nothing. A non-record JSON answer that the panel would store as it stands is not modelled.
- `GenerateInsights.Handle`: a task summary built from `tasks.length` of a non-array value is not modelled. The tasks and health selects are modelled as lists or missing data, since the code ignores their errors.
- `Promise.all` in the insights panel. The three counts are read as independent inputs; there is no other concurrency in the code.
- The routing, sidebar, filter-menu widget, animation, calendar list and history list files, and the index page. They only render or wire up events.
