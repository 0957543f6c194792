# Company records form — a Dafny model

This project models the logic of a single-page browser application that keeps
a list of "company + employee" records in the browser's local storage. The
application is one script, `app.js`. Under its DOM code sit a few sequential
rules, and those are what the model covers:

- the submit-time form validator (`validateForm`);
- the skills editor, which keeps one chip per skill name (`addSkillChip` and the
  "add skill" button);
- the education editor, which appends rows (`addEducationRow` and the
  "add education" button);
- the form view: loading a record for editing, and submitting in create or
  edit mode (`showFormView`, the submit handler, `collectFormData`);
- the list view's delete and search filters;
- the hash router (`handleRoute` and its routes table).

Modules, one per file:

| module | file | what it holds |
|---|---|---|
| `Seqs` | seqs.dfy | `Array.prototype.filter` as `Filter`, subsequences and order |
| `Text` | text.dfy | JavaScript's `trim`, ASCII `toLowerCase`, `includes`, `split`/`join`, one-character `replace`, decimal printing |
| `Entities` | entities.dfy | records, skills, education rows, the nine form inputs |
| `Repository` | repository.dfy | lookup by id, the edit replacement, the delete and search filters, and the storage slot (`class Storage`) |
| `Skills` | skills.dfy | the skills editor's replace-by-name discipline (`Upsert`) and the replay done when a record is loaded |
| `Validation` | validation.dfy | the check table, `ValidateForm` and what the validator promises |
| `Form` | form.dfy | `class FormSession`: the form's inputs, both editor lists, the errors box, and its handlers |
| `Router` | router.dfy | hash parsing and dispatch |

How the code is modelled:

- The pure parts are functions with lemmas: the delete and search filters and
  the router.
- The validator is a method that pushes onto a list, as the source does.
  `validateForm` is split where its own comments split it:
  - `RequiredChecks` holds the seven "is required." tests.
  - `LengthChecks` holds the six calls of the `max` closure, which is
    modelled by `Max`.
  - The date, skills and education tests stay in `ValidateForm`.

  Its result is tied to a table of sixteen checks (`Checks`). `Violations` is
  what the table pushes. The lemmas then prove:
  - the messages are those of the failing checks, in table order, at most
    one per check;
  - the groups always come in the order required, length, date, skills,
    education;
  - a blank form gives exactly nine messages;
  - nothing is reported exactly when every demand is met;
  - the clock is never consulted when the join date is blank.
- The form view is a class whose fields stand for the DOM state. The chip
  list and the row list are `seq` fields. The storage slot is a `seq<Record>`
  field of `Storage`.
  - `AddChip` removes the same-named chips in a loop and then appends the new
    one. It is proved equal to `Upsert`.
  - Every method keeps the invariant that no two chips share a name
    (`Valid`).
  - `Submit` is proved to leave the collection untouched when the validator
    reports anything. Otherwise the saved collection is `Saved`: an append in
    create mode, or `ReplaceFirst` in edit mode.

Behaviour worth noting, as the code has it:

- **Rating.** The code accepts any `Number()` from 1 to 5, fractions
  included. The model takes an integer.
- **Where a re-added chip goes.** Adding a skill whose name already has a
  chip removes the old chip and appends the new one at the end, so that
  skill moves to the last position.
- **`#/edit` with no id.** The router dispatches `#/edit` with no id to
  `routes["/edit"]()`, which opens the create form.
- **Fresh id.** `uid()` draws an id at random and nothing checks it against
  the stored ids.
- **Create calls `uid()` twice.** `collectFormData` draws a fallback id,
  and the create branch then overwrites it with another. The model passes
  the one id the create branch stores.
- **Join date and designation.** The validator trims the join date
  before checking it. `collectFormData` stores both the join date and the
  designation untrimmed. `Collect` keeps that difference.
- **Edit of a vanished record.** An edit submit whose id is no longer
  stored changes nothing, yet still shows the saved message.

## Model

| member | source | states |
|---|---|---|
| `Seqs.Filter` | app.js:96 | the kept elements are elements of the input that satisfy the predicate, and there are no more of them than in the input |
| `Seqs.FilterIsSubsequence` | app.js:52-56 | a filter keeps its elements in their original relative order |
| `Seqs.FilterMembership` | app.js:96 | an element is kept exactly when it occurs in the input and satisfies the predicate |
| `Seqs.FilterCount` | app.js:96 | a filter keeps every copy of an element that satisfies the predicate and no copy of one that does not |
| `Seqs.FilterKeepsAll` | app.js:96 | a filter whose predicate holds everywhere returns its input unchanged |
| `Seqs.FilterEmpty` | app.js:52-56 | a filter returns nothing exactly when no element satisfies the predicate |
| `Seqs.FilterAppend` | app.js:96 | filtering a concatenation is concatenating the filtered parts |
| `Seqs.FilterIdempotent` | app.js:96 | filtering twice with the same predicate is filtering once |
| `Seqs.FilterKeepsOrder` | app.js:265-293 | a filter of a list ordered by a key is still ordered by that key |
| `Seqs.FilterAgree` | app.js:280-285 | two predicates that agree on every element give the same filter |
| `Text.TrimStartSpec` | app.js:254 | trimming the start leaves a suffix of the input, drops only white space, and does not start with white space |
| `Text.TrimEndSpec` | app.js:254 | trimming the end leaves a prefix of the input, drops only white space, and does not end with white space |
| `Text.Trim` | app.js:254 | `trim` leaves neither end white space and never lengthens the string |
| `Text.TrimSpec` | app.js:254 | `trim` keeps one contiguous slice of its input and drops only white space before and after it |
| `Text.TrimOfTrimmed` | app.js:254 | `trim` changes nothing in a string whose ends are not white space |
| `Text.TrimIdempotent` | app.js:51 | trimming twice is trimming once |
| `Text.TrimEmpty` | app.js:265-271 | a value trims to "" exactly when it is all white space, so such a value counts as missing |
| `Text.ToLower` | app.js:51 | lower-casing keeps the length, turns each of `A`-`Z` into the matching lower-case letter, keeps every other character, and leaves no capital |
| `Text.Includes` | app.js:53-55 | `includes` as a recursive search from each position; `IncludesIff` states what it means |
| `Text.IncludesAt` | app.js:53-55 | an occurrence of the query at a given position makes `includes` hold |
| `Text.IncludesIff` | app.js:53-55 | `includes` holds exactly when the query occurs at some position |
| `Text.IncludesEmpty` | app.js:53-55 | every string includes the empty query |
| `Text.IncludesBound` | app.js:53-55 | a string only includes queries no longer than itself |
| `Text.Decimal` | app.js:255 | a number prints as a non-empty run of digits with no leading zero |
| `Text.DecimalValue` | app.js:255 | the printed digits denote the number printed |
| `Text.Split` | app.js:330 | `split` gives at least one piece, and no piece contains the separator |
| `Text.Join` | app.js:330 | `join` with a one-character separator, the inverse of `split`; `JoinSplit` and `SplitJoin` state both round trips |
| `Text.JoinSplit` | app.js:330 | joining the pieces of a split with the separator gives back the original string |
| `Text.SplitPieceFirst` | app.js:330 | a separator-free piece followed by the separator comes out first |
| `Text.SplitNoSeparator` | app.js:330 | a string without the separator splits into itself alone |
| `Text.SplitJoin` | app.js:330 | splitting pieces that were joined by a separator they lack gives the pieces back |
| `Text.RemoveFirst` | app.js:330 | `replace("#", "")` changes nothing without a `#` and removes exactly one character otherwise; which one is `RemoveFirstAt` |
| `Text.RemoveFirstAt` | app.js:330 | the character removed is the first `#`: all text before it and all text after it is kept |
| `Repository.FirstWithId` | app.js:128 | `find` by id returns the first record with the id, and none exactly when no record has it |
| `Repository.FindIndex` | app.js:194 | `findIndex` returns the first position with the id, or -1 exactly when no record has it |
| `Repository.ReplaceFirst` | app.js:193-198 | the edit replacement keeps the collection's length |
| `Repository.ReplaceFirstAt` | app.js:193-198 | the edit replacement overwrites exactly the position `find` returns, keeping that record's `createdAt`, and changes nothing for an unknown id |
| `Repository.ReplaceFirstKeepsIdentity` | app.js:193-198 | after an edit the replaced record keeps its id and `createdAt`, and every other record is unchanged |
| `Repository.Without` | app.js:96 | delete's filter never lengthens the collection and keeps only records of the collection with another id |
| `Repository.WithoutSpec` | app.js:96 | delete removes every record with the id, keeps every copy of every other record, in order, is a no-op for an absent id, and deleting twice is deleting once |
| `Repository.Search` | app.js:51-56 | search never lengthens the list and keeps only matching records of it |
| `Repository.SearchSpec` | app.js:51-56 | search keeps exactly the records whose lower-cased name, email or phone contains the lower-cased, trimmed query, every copy of each, in list order, and an empty query keeps them all |
| `Repository.SearchTooLong` | app.js:51-56 | a query longer than all three searched fields of every record finds nothing |
| `Repository.Storage.constructor` | app.js:19-25 | the slot starts out holding the given collection |
| `Repository.Storage.Delete` | app.js:92-99 | a confirmed delete leaves the collection filtered by id; an unconfirmed one changes nothing |
| `Skills.RemoveNamed` | app.js:219-222 | the chips left after removing those named n; `RemoveNamedCount` and `RemoveNamedKeepsOthers` fix the result |
| `Skills.Upsert` | app.js:217-230 | the chip list after `addSkillChip(n, r)`: the chips named n removed, then the new chip appended; `UpsertSpec` and `UpsertKeepsUnique` state its properties |
| `Skills.RemoveNamedCount` | app.js:219-222 | removing the chips named n removes exactly as many as carry that name and leaves none of them |
| `Skills.CountNamedAppend` | app.js:229 | counting chips by name distributes over concatenation |
| `Skills.RemoveNamedKeepsOthers` | app.js:219-222 | removing the chips named n keeps every other chip in order, and nothing else |
| `Skills.UpsertSpec` | app.js:217-230 | after adding (n, r) exactly one chip is named n; it is the last one and carries r; the other chips keep their order; the list grows by one when n was absent and keeps its length when n occurred once |
| `Skills.UpsertKeepsUnique` | app.js:217-230 | adding a chip never creates two chips with the same name |
| `Skills.SubsequenceKeepsDistinct` | app.js:219-222 | a subsequence of a list with distinct names has distinct names |
| `Skills.SubsequenceMembers` | app.js:219-222 | every element of a subsequence occurs in the list |
| `Skills.Replay` | app.js:140 | the chips rebuilt by replaying stored skills in order through `addSkillChip`; `ReplaySpec` and `ReplayOfUnique` state its properties |
| `Skills.ReplaySpec` | app.js:140 | replaying stored skills through `addSkillChip` gives distinct names, and the same set of names as the stored list |
| `Skills.ReplayOfUnique` | app.js:140 | replaying a stored list whose names are already distinct rebuilds it exactly |
| `Validation.TrimFields` | app.js:254-263 | each of the seven validated values is trimmed |
| `Validation.Messages` | app.js:252-296 | a list of checks gives exactly one message per check |
| `Validation.Pushed` | app.js:252-296 | the messages the first k rows of the check table push; `PushedIsRun` ties it to a run of those rows |
| `Validation.Violations` | app.js:252-296 | what the validator reports: every row of the table pushes its message when it fails; `ViolationsAreFailedChecks`, `ViolationsOrdered` and `NoViolationsIffAcceptable` state what that means |
| `Validation.ChecksAt` | app.js:265-293 | the check table `Checks` lists the seven required checks, then the six length limits 50/100/15/25/100/15, then the date, skills and education checks |
| `Validation.RequiredRows` | app.js:265-271 | each required check fails exactly when its trimmed value is empty, with its exact message |
| `Validation.LengthRows` | app.js:272-278 | each length check fails exactly when its trimmed value is longer than its limit, with `${label} max length ${n}` |
| `Validation.LimitDigits` | app.js:273-278 | the limits 15, 25, 50 and 100 print as those digits, so a length message reads `Company Name max length 50` and so on |
| `Validation.FinalRows` | app.js:280-293 | the date check fails only for a non-empty date the clock says is in the future; the list checks fail on empty lists; each has its exact message |
| `Validation.ValidateForm` | app.js:252-296 | the returned list is exactly `Violations` of the trimmed inputs and the two list sizes |
| `Validation.RequiredChecks` | app.js:265-271 | the seven required checks push what the first seven table rows push |
| `Validation.Max` | app.js:255 | `max` pushes `${label} max length ${n}` exactly when the value is longer than n, and otherwise leaves the list alone |
| `Validation.LengthChecks` | app.js:272-278 | the six `max` calls extend the required-check messages to what the first thirteen rows push |
| `Validation.RunIsFiltered` | app.js:252-296 | running any list of checks pushes the messages of its failing checks, in order |
| `Validation.PushedIsRun` | app.js:252-296 | the first k table rows push what a run of them pushes |
| `Validation.ViolationsAreFailedChecks` | app.js:252-296 | the reported messages are the messages of the failing checks, in table order; no check stops the others |
| `Validation.ViolationsBound` | app.js:252-296 | at most sixteen messages are reported |
| `Validation.ViolationsMembership` | app.js:252-296 | a message is reported exactly when some failing check has it |
| `Validation.MessagesOfFiltered` | app.js:252-296 | a message occurs among the filtered checks' messages exactly when some kept check has it |
| `Validation.ViolationsOrdered` | app.js:265-293 | the failing checks keep table order, so required messages come first, then length, then date, then skills, then education |
| `Validation.ChecksRanked` | app.js:265-293 | the table is ordered by group |
| `Validation.NoViolationsIffAllPass` | app.js:252-296 | nothing is reported exactly when all sixteen checks pass |
| `Validation.NoViolationsIffAcceptable` | app.js:252-296 | nothing is reported exactly when all seven values are present and within their limits, the date is not in the future, and both lists are non-empty |
| `Validation.EmptyDateNeedsNoClock` | app.js:280-285 | with a blank join date the report does not depend on the clock |
| `Validation.BlankFormViolations` | app.js:265-293 | a blank form with empty lists reports exactly the seven required messages, then the skill and education messages: nine in all |
| `Validation.BlankFormTail` | app.js:272-293 | on a blank form no length or date check fails and both list checks do |
| `Form.Collect` | app.js:298-325 | the payload carries the given id and timestamp and the editor lists; the validated values and the address are trimmed; the designation and the join date are stored raw |
| `Form.AcceptedRecordWithinLimits` | app.js:184-191 | a record collected from an accepted form has every required value, within its limit, a non-blank join date not in the future, and at least one skill and one education row |
| `Form.Saved` | app.js:193-203 | the collection a successful submit saves: an append in create mode, the edit replacement otherwise; `SavedSpec` states its effect |
| `Form.SavedSpec` | app.js:193-203 | create adds exactly one record at the end and keeps the others in place; edit keeps the length and changes only the first record with the id, which keeps its `createdAt`; an unknown id changes nothing |
| `Form.FormSession.Payload` | app.js:298-325 | the record `collectFormData` builds from the form, with the hidden id or, in create mode, the fresh id (app.js:309); `Collect` states its fields |
| `Form.FormSession.constructor` | app.js:118-124 | the form starts blank, in create mode, with empty lists and hidden boxes |
| `Form.FormSession.AddChip` | app.js:217-230 | the chip list becomes `Upsert` of the old list, names stay distinct, and nothing else changes |
| `Form.FormSession.AddSkill` | app.js:156-165 | an empty selection is rejected with "Select a skill name." before the rating is looked at; a rating of 0, below 1 or above 5 is rejected with "Enter rating 1–5."; a rejection leaves the chips alone; otherwise the chip is upserted and the rating and search boxes are cleared |
| `Form.FormSession.RemoveSkill` | app.js:228 | removing a chip drops that position only and keeps names distinct |
| `Form.FormSession.AddEducationRow` | app.js:232-250 | the row is appended at the end, duplicates allowed |
| `Form.FormSession.AddEducation` | app.js:167-176 | if the trimmed school, the trimmed course or the year is empty, the message "Education: all fields are required." is shown and nothing else changes; otherwise exactly one row with the trimmed values is appended and the three inputs are cleared |
| `Form.FormSession.RemoveEducation` | app.js:244 | removing a row drops that position only |
| `Form.FormSession.Show` | app.js:105-143 | showing the form clears the inputs, lists and boxes and sets the hidden id; when a record has the id its values seed the inputs, its skills are replayed through `addSkillChip` and its rows are copied; an unknown id leaves the form blank |
| `Form.FormSession.ReplaySkills` | app.js:140 | the `forEach` over stored skills leaves exactly `Replay` of them |
| `Form.FormSession.AddEducationRows` | app.js:142 | the `forEach` over stored rows appends them as they are, in order |
| `Form.FormSession.Submit` | app.js:180-207 | the errors box shows exactly the validator's messages; with any message the collection is untouched and nothing is saved; otherwise the collection becomes `Saved` of the old one and the collected payload, with the id from the hidden input or the fresh id in create mode |
| `Router.Dispatch` | app.js:331-334 | `handleRoute`'s dispatch on the segments over the routes table of app.js:2-6; `SingleSegmentRoute`, `EditRoute` and `UnknownRoute` state its cases |
| `Router.ParseRoute` | app.js:328-335 | `handleRoute` from the hash to the view it opens, with `#/list` for a missing hash; `FixedRoutes` and the lemmas below state its results |
| `Router.Segments` | app.js:330 | every segment is non-empty and free of `/` |
| `Router.SegmentsOfPath` | app.js:330 | the segments of `#` followed by pieces joined with `/` are exactly the non-empty pieces, so empty segments are dropped |
| `Router.SegmentsOfNamed` | app.js:330 | `#/<name>` has the one segment `<name>` |
| `Router.SegmentsOfNamedThen` | app.js:330 | `#/<name>/<rest>` has `<name>` followed by the non-empty pieces of `<rest>` |
| `Router.SegmentsOfEdit` | app.js:330 | `#/edit/<rest>` has `edit` followed by the non-empty pieces of `<rest>` |
| `Router.SingleSegmentRoute` | app.js:328-335 | a one-segment path opens the create form for `new` and for `edit` without an id, and the list for anything else |
| `Router.FixedRoutes` | app.js:328-335 | an empty hash and `#/list` open the list; `#/new` and `#/edit` open the create form |
| `Router.EmptySegmentRoutes` | app.js:330-332 | `#//list` opens the list and `#/edit/` opens the create form |
| `Router.EmptySegmentDropped` | app.js:330 | a doubled slash after the hash gives the same segments as a single one |
| `Router.EditRoute` | app.js:331 | `#/edit/<id>` opens the record `id`, and segments after the id are ignored |
| `Router.UnknownRoute` | app.js:332-334 | a first segment that names no route opens the list, whatever follows it |

## Left out

- DOM rendering and event wiring are not modelled: the table rows, the chip and row markup, page titles, sidebar classes and `hidden` flags. The errors box is modelled as the list of messages it shows (empty while hidden), and the confirmation as the flag `saved`.
- `localStorage` and `JSON.parse`/`JSON.stringify` (app.js:16-25) are not modelled. The storage slot is the `records` field of `Storage`: reading it is `loadAll` and assigning it is `saveAll`. A stored value that fails to parse, and its fallback to an empty list, are not modelled.
- `uid()` (app.js:26-28) and `new Date().toLocaleString()` are the parameters `newId` and `now` of `Submit`. Nothing is claimed about the id's uniqueness, because the source does not check it.
- The future-date comparison (app.js:281-284) is the parameter `future`, a predicate on the trimmed join date. It mixes UTC date parsing with local midnight, and the model only fixes when it is consulted: for a non-empty date.
- The timers are not modelled: the 800 ms redirect after a save (app.js:206) and the 2 s auto-hide of a toast (app.js:214). The `confirm` dialog (app.js:95) is the parameter `confirmed` of `Delete`. Re-rendering after delete and search is not modelled.
- `Number()` parsing of the rating box (app.js:159) is not modelled. `ratingInput` holds the parsed value as an integer, and a cleared box reads as 0, as `Number("")` does. NaN and fractional ratings are not modelled.
- Text.ToLower: maps only the ASCII letters, because Unicode case mapping is not modelled. String lengths in the `max` checks are counted in characters, not in UTF-16 code units.
- The catalog search box's option hiding (app.js:149-154) is not modelled: it only toggles visibility. Its clearing by the add-skill button is modelled.
- `formatMonthYear` (app.js:30-36) is not modelled: it builds only the displayed row text, with locale and floating-point dates. The stored year is the raw `YYYY-MM` value.
- Form.FormSession.Show: `form.reset()` may also reset the skill and education editor inputs, depending on the page markup. That markup is not part of this model, so those inputs are left as they were.
- The cancel button (app.js:178) and the list view's rendering (`showListView`, `renderTable`) are not modelled. Navigation is left to the router's `ParseRoute`.
