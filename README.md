# promptinvoice core, modelled in Dafny

promptinvoice is a mobile invoicing app. This project models its logic and proves properties of that model:

- **The invoice store.** An in-memory collection of invoices that every change writes back, whole, to durable storage. It handles item subtotals and rounded totals, sequential `INV-` numbers, number uniqueness, adding, updating, deleting, looking up and loading.
- **The AI reply parser.** It turns a language model's free-text reply into invoice data: it strips code fences, cuts the JSON object out of the surrounding prose and parses it.
- **The invoice editor.** Field validation, the save gate, loading an invoice for editing, and the item-list edits.
- **The date picker.** Month lengths as JavaScript's `Date` computes them, month navigation, the calendar grid and the confirmed `YYYY-MM-DD` text.
- **The AdMob config plugin.** It patches the Android manifest and the iOS Info.plist.

Modules, one per source file plus shared helpers:

- `Wrappers`: `Option`, `Result`.
- `Text`: JavaScript's `trim` whitespace set, ASCII case folding, `\d`, `parseInt`/`toString` on naturals, `padStart`.
- `InvoiceTypes`: the records of `types/invoice.ts` and of the parsed AI data.
- `Money`: `calculateItemSubtotal` and `calculateInvoiceTotals`.
- `InvoiceNumbers`: `generateNextInvoiceNumber` and `isInvoiceNumberUnique`.
- `InvoiceStore`: the `Store` class and the pure functions its methods are specified by.
- `AiResponse`: the reply pipeline of `parseInvoiceWithAI`.
- `InvoiceForm`: the `Form` class of the editor screen.
- `DatePicker`: the `Calendar` class.
- `AdMobPlugin`: the `Manifest`, `ManifestApp` and `InfoPlist` classes.

How the model stands in for the runtime:

- Money is exact: amounts are reals, and rounding to cents is written out as half-up (`Math.round`).
- The parts that are I/O or library code are parameters: `JSON.parse` (`parse: string -> Option<J>`), the validity check of `new Date(text)` (`calendarValid`), generated identifiers, timestamps, the configured token, the model's reply, and `getDay()` of the first of the month.
- Durable storage is a field of the store that `SaveInvoices` overwrites and `LoadInvoices` reads: nothing, an unreadable value, or a saved collection.

Points where the code does something other than one might expect; the model follows the code:

- **AI reply errors.** The test file's copy of the extraction (__tests__/services/aiService.test.ts:6-32) returns `null` on every failure. `parseInvoiceWithAI` (services/aiService.ts:24-86) instead throws a distinct error for each case: no token, an empty reply, no JSON found and invalid JSON. `AiResponse.ParseReply` returns those errors.
- **The total's rounding.** The shown total is not the rounding of shown subtotal + shown tax − subtotal × discount: store/useInvoiceStore.ts:84-88 rounds the raw total instead, so the two can differ by a cent (`Money.TotalsOffByACent`).
- **Tax rate and discount range.** Both are fractions in [0, 1] only where the editor's validation (app/create.tsx:150-155) checks them. The store does not enforce that, and the editor converts a legacy amount discount above 1 to a fraction when loading (app/create.tsx:97-102).
- **A fallback that never fires.** In `parseInvoiceWithAI`, the `indexOf`/`lastIndexOf` fallback after a failed regular-expression search can never succeed. `AiResponse.FallbackNeverRecovers` proves it: `\{[\s\S]*\}` already matches whenever some `{` comes before a later `}`, and that is the only case in which the fallback would succeed. The fallback is modelled anyway.

## Model

| member | source | states |
|---|---|---|
| Text.TrimStart | app/create.tsx:136 | the result is a suffix of the input; what was removed is all whitespace; the result does not start with whitespace |
| Text.TrimEnd | services/aiService.ts:59 | the result is a prefix of the input; what was removed is all whitespace; the result does not end with whitespace |
| Text.BlankIffAllWhitespace | app/create.tsx:136 | `!s.trim()` holds exactly when every character of `s` is JavaScript whitespace |
| Text.TrimAround | app/create.tsx:264-273 | trimming `a + m + b`, where `m` starts and ends visibly, trims only `a`'s start and `b`'s end |
| Text.ToLower | store/useInvoiceStore.ts:237 | same length; every character is lower-cased pointwise |
| Text.ToLowerAppend | store/useInvoiceStore.ts:237 | lower-casing distributes over concatenation |
| Text.NatToString | store/useInvoiceStore.ts:231 | `toString` of a natural is a non-empty digit string |
| Text.NatToStringValue | store/useInvoiceStore.ts:225-231 | `parseInt(n.toString())` is `n` |
| Text.PadStart | store/useInvoiceStore.ts:231 | the result is as long as `s` or `width`, whichever is longer, and is pad characters followed by `s` |
| Text.LeadingZeros | store/useInvoiceStore.ts:225 | leading zeros do not change a digit string's value |
| Text.TwoDigits | components/DatePicker.tsx:106 | `String(n).padStart(2, '0')` for n < 100 is two digits that read back as `n` |
| Money.ItemSubtotal | store/useInvoiceStore.ts:74-76 | quantity times price, not rounded, is never negative for a non-negative quantity and price |
| Money.ItemSubtotalExamples | __tests__/store/useInvoiceStore.test.ts:13-27 | 2×100 = 200, 1.5×100 = 150 and the other subtotals the store's tests check, none of them rounded |
| Money.Round2 | store/useInvoiceStore.ts:85-87 | `Math.round(x*100)/100` is a whole number of cents within half a cent of `x` (halves round up) |
| Money.Round2OfCents | store/useInvoiceStore.ts:85-87 | rounding an amount already in whole cents leaves it unchanged |
| Money.SumSubtotalsAppend | store/useInvoiceStore.ts:79 | the `reduce` sum of a concatenation is the sum of the parts |
| Money.RoundsToUnique | store/useInvoiceStore.ts:85-87 | exactly one amount is `x` rounded to cents, and it is `Round2(x)` |
| Money.InvoiceTotals | store/useInvoiceStore.ts:78-89 | subtotal, tax and total are Σ, Σ·taxRate and Σ·(1+taxRate−discount), each rounded to cents from the unrounded Σ |
| Money.TotalsNonNegative | store/useInvoiceStore.ts:78-89 | non-negative lines, tax rate ≥ 0 and discount ≤ 1 give no negative amount |
| Money.TotalsAddUpWithinRounding | store/useInvoiceStore.ts:78-89 | the shown total differs from shown subtotal + shown tax − exact discount by less than 1.5 cents |
| Money.TotalsOffByACent | store/useInvoiceStore.ts:84-88 | 0.125 at 20% tax shows 0.13 + 0.03 but a total of 0.15 |
| Money.InvoiceTotalsExamples | __tests__/store/useInvoiceStore.test.ts:30-97 | 100/0.2/0.1 gives 100, 20, 110; 99.99/0.15 gives 99.99, 15, 114.99; two lines without tax give 250 |
| InvoiceNumbers.SuffixesCollected | store/useInvoiceStore.ts:220-226 | every matching number's suffix is among the collected suffixes |
| InvoiceNumbers.SuffixesFromStored | store/useInvoiceStore.ts:220-226 | every collected suffix is the suffix of some stored number matching `/^INV-\d+$/i` |
| InvoiceNumbers.MaxOrZeroIsMax | store/useInvoiceStore.ts:228 | the result bounds every element; it is an element, or 0 for an empty list |
| InvoiceNumbers.NextInvoiceNumber | store/useInvoiceStore.ts:217-232 | the result starts "INV-" with at least three digits after it, matches `/^INV-\d+$/i`, and its suffix is the largest existing sequential suffix plus one |
| InvoiceNumbers.NextAboveAll | store/useInvoiceStore.ts:217-232 | the generated number matches `/^INV-\d+$/i`; its suffix is above every stored sequential suffix and is one more than one of them, or 1 when no stored number is sequential |
| InvoiceNumbers.FormatRoundTrip | store/useInvoiceStore.ts:231 | "INV-" + padded `n` matches the pattern and reads back as `n` |
| InvoiceNumbers.IsInvoiceNumberUnique | store/useInvoiceStore.ts:234-239 | true exactly when no invoice other than the excluded one carries the number, ignoring letter case |
| InvoiceNumbers.NextNumberIsUnique | store/useInvoiceStore.ts:217-239 | the generated number is never reported as taken, for every choice of excluded id |
| InvoiceNumbers.NextOnEmpty | __tests__/store/useInvoiceStore.test.ts:101-105 | an empty store yields INV-001 |
| InvoiceNumbers.NextAfterGap | __tests__/store/useInvoiceStore.test.ts:120-131 | INV-001 and INV-005 yield INV-006 |
| InvoiceNumbers.NextIgnoresForeignNumbers | __tests__/store/useInvoiceStore.test.ts:133-145 | CUSTOM-001 and ABC123 are ignored: INV-003 yields INV-004 |
| InvoiceNumbers.NextCaseInsensitive | __tests__/store/useInvoiceStore.test.ts:147-157 | inv-005 yields INV-006 |
| InvoiceNumbers.NextGrowsPastThreeDigits | store/useInvoiceStore.ts:230-231 | INV-999 yields INV-1000; nothing is truncated |
| InvoiceNumbers.IsInvoiceNumberUniqueExamples | __tests__/store/useInvoiceStore.test.ts:160-197 | the unique, taken, case-insensitive and excluded cases the store's tests check |
| InvoiceStore.ItemsFrom | store/useInvoiceStore.ts:94-100 | one line per input, same order, given ids, each subtotal quantity×price |
| InvoiceStore.FirstMatch | store/useInvoiceStore.ts:145-148 | the first line with the same description and price, or none when no line matches |
| InvoiceStore.ReusedIds | store/useInvoiceStore.ts:144-157 | for each edited item: when the first line with the same description and price has a non-empty id, that id; when no line matches or the match's id is empty, the fresh id |
| InvoiceStore.ReusedIdKeepsMatch | store/useInvoiceStore.ts:145-151 | an item that matches a line with a non-empty id keeps that id |
| InvoiceStore.ReusedIdWithoutMatch | store/useInvoiceStore.ts:145-151 | an item that matches no existing line gets the fresh id |
| InvoiceStore.ReusedIdOfEmptyId | store/useInvoiceStore.ts:145-151 | an item whose first match has an empty id gets the fresh id, as `\|\|` does |
| InvoiceStore.NewInvoice | store/useInvoiceStore.ts:91-120 | every field is taken from the input; no client id; createdAt = updatedAt = now; lines are consistent and totals equal `calculateInvoiceTotals` of them |
| InvoiceStore.MergeInvoice | store/useInvoiceStore.ts:140-178 | omitted fields keep their value; id, clientId and createdAt are kept; supplied items are rebuilt with reused ids; totals are recomputed from the merged values |
| InvoiceStore.FindIndex | store/useInvoiceStore.ts:133 | −1 exactly when no invoice has the id; otherwise the first position with it |
| InvoiceStore.RemoveById | store/useInvoiceStore.ts:189 | an invoice remains exactly when it was present and has another id |
| InvoiceStore.RemoveByIdAppend | store/useInvoiceStore.ts:189 | removal acts on each part separately, so the remaining order is kept |
| InvoiceStore.RemoveAbsentId | store/useInvoiceStore.ts:187-192 | deleting an unknown id leaves the collection unchanged |
| InvoiceStore.RemovedIdNotFound | store/useInvoiceStore.ts:187-196 | after a delete the id is not found |
| InvoiceStore.AppendedIsFound | store/useInvoiceStore.ts:122-124 | a newly added invoice with a new id is found at the end |
| InvoiceStore.SetFullInvoice | store/useInvoiceStore.ts:198-215 | item names become descriptions pointwise; missing items become []; a missing client name becomes ""; the other fields pass through |
| InvoiceStore.Loaded | store/useInvoiceStore.ts:52-61 | a saved collection is loaded as is; a missing or unreadable value gives [] |
| InvoiceStore.Store.constructor | store/useInvoiceStore.ts:45-47 | empty collection, not loading |
| InvoiceStore.Store.LoadInvoices | store/useInvoiceStore.ts:49-63 | the collection becomes `Loaded(storage)`; loading ends false; storage untouched |
| InvoiceStore.Store.SaveInvoices | store/useInvoiceStore.ts:65-72 | storage holds the whole collection |
| InvoiceStore.Store.AddInvoice | store/useInvoiceStore.ts:91-129 | the collection gains `NewInvoice(...)` at the end and is persisted |
| InvoiceStore.Store.UpdateInvoice | store/useInvoiceStore.ts:131-185 | an unknown id changes nothing; otherwise only the found entry is replaced by `MergeInvoice`, and the collection is persisted |
| InvoiceStore.Store.DeleteInvoice | store/useInvoiceStore.ts:187-192 | the collection becomes `RemoveById` of itself and is persisted |
| InvoiceStore.Store.GetInvoice | store/useInvoiceStore.ts:194-196 | none exactly when no invoice has the id; otherwise the first invoice with it |
| InvoiceStore.Store.GenerateNextInvoiceNumber | store/useInvoiceStore.ts:217-232 | over the stored collection: a number matching `/^INV-\d+$/i` whose suffix is above every stored sequential suffix and one more than one of them (1 when there is none), and which no stored invoice carries, whatever is excluded |
| InvoiceStore.Store.IsNumberUnique | store/useInvoiceStore.ts:234-239 | true exactly when no stored invoice other than the excluded one carries the number up to letter case; the number the store generates always passes |
| InvoiceStore.SaveThenLoad | store/useInvoiceStore.ts:49-72 | saving then loading gives back the saved collection |
| InvoiceStore.NewInvoiceNonNegative | store/useInvoiceStore.ts:74-103 | lines with no negative quantity or price, a non-negative tax rate and a discount of at most the whole give a new invoice a non-negative subtotal, tax and total |
| InvoiceStore.NewInvoiceExample | __tests__/store/useInvoiceStore.test.ts:201-229 | lines 200 and 50 at 10% tax give 250, 25, 275 |
| InvoiceStore.MergeItemsExample | __tests__/store/useInvoiceStore.test.ts:271-293 | doubling a line's quantity gives 200, 20, 220 and keeps the line id |
| AiResponse.RemoveMatches | services/aiService.ts:56-58 | `replace(/pat/g, '')` never lengthens the text and only keeps characters of it |
| AiResponse.RemoveMatchesKeepsPlainPrefix | services/aiService.ts:56-58 | text without a backtick passes through fence removal unchanged |
| AiResponse.RemoveMatchesDropsMatch | services/aiService.ts:56-58 | a match at the start is removed |
| AiResponse.BareFenceNotTagged | services/aiService.ts:57 | a bare fence not followed by `json` (in any case) survives the case-insensitive tagged-fence removal |
| AiResponse.CleanKeepsAbsent | services/aiService.ts:56-59 | cleaning introduces no character that the reply lacked |
| AiResponse.CleanTrimmed | services/aiService.ts:56-59 | the cleaned reply is no longer than the reply and has no whitespace at either end |
| AiResponse.RemovalLeavesNoFence | services/aiService.ts:58 | after `replace(/```/g, '')` no three backticks remain anywhere |
| AiResponse.CleanHasNoFence | services/aiService.ts:56-59 | the cleaned reply holds ```` ``` ```` at no position |
| AiResponse.TaggedFenceRemoved | services/aiService.ts:56-57 | in prose, a ```` ```json ```` fence, brace-free text, an object, brace-free text and a closing fence, removing tagged fences deletes the opening fence, leaves the prose, the text and the object as they were, and leaves brace-free text after the object |
| AiResponse.TaggedPass | services/aiService.ts:56-57 | in a reply with a plain fence round an object and text on either side of it, removing tagged fences keeps everything up to the closing fence |
| AiResponse.BareFencesRemoved | services/aiService.ts:56-58 | both removals applied to a plain-fenced reply leave the prose, the text before the object, the object and brace-free text after it |
| AiResponse.IndexOf | services/aiService.ts:66 | −1 exactly when the character is absent; otherwise its first position |
| AiResponse.LastIndexOf | services/aiService.ts:67 | −1 exactly when the character is absent; otherwise its last position |
| AiResponse.RegexMatch | services/aiService.ts:61 | the match of `\{[\s\S]*\}` is the leftmost brace span, and the longest from there; none when no span exists |
| AiResponse.RegexMatchIsFirstToLast | services/aiService.ts:61-64 | the match exists exactly when the first `{` is before the last `}`, and it runs between them |
| AiResponse.FallbackNeverRecovers | services/aiService.ts:65-72 | when the regular expression fails, the fallback's guard always throws |
| AiResponse.Substring | services/aiService.ts:74 | within bounds `substring` is the slice |
| AiResponse.Candidate | services/aiService.ts:61-75 | a candidate exists exactly when the first `{` precedes the last `}`; it is that span, opening and closing with a brace |
| AiResponse.CandidateBetweenProse | __tests__/services/aiService.test.ts:63-77 | an object between brace-free text is cut out exactly |
| AiResponse.CandidateSpansAllObjects | __tests__/services/aiService.test.ts:165-184 | with several objects the candidate runs from the first object's `{` to the last one's `}` |
| AiResponse.ParseReply | services/aiService.ts:24-86 | token missing, empty reply, JSON not found, invalid JSON and success each hold exactly under their conditions, checked in that order; a success is `parse` of the candidate |
| AiResponse.NoObjectNotFound | services/aiService.ts:69-72 | a reply without `{` is rejected as JSON not found |
| AiResponse.BlankReplyRejected | __tests__/services/aiService.test.ts:149-152 | an empty or whitespace-only reply is an error |
| AiResponse.TrimmedBetweenProse | services/aiService.ts:59-64 | after trimming, an object between brace-free text is the candidate |
| AiResponse.TaggedFenceReply | __tests__/services/aiService.test.ts:42-51 | prose, a ```` ```json ```` fence round an object with brace-free text (a line break, say) on either side, and more brace-free text give the object |
| AiResponse.BareFenceReply | __tests__/services/aiService.test.ts:53-61 | an object in a plain ```` ``` ```` fence, with brace-free text on either side of it inside the fence, gives the object, as long as the text before the object does not begin with `json` (which would make the fence a tagged one) |
| AiResponse.PlainReply | __tests__/services/aiService.test.ts:35-77 | an object with prefix or suffix prose gives the object |
| AiResponse.ReplyOfObject | services/aiService.ts:79-86 | once the candidate is cut out, the outcome is `parse` of it or invalid JSON |
| AiResponse.TaggedFenceReplyParsed | __tests__/services/aiService.test.ts:42-51 | end to end, a reply with a tagged fence round an object succeeds exactly when the object parses |
| AiResponse.LineBrokenTaggedFence | __tests__/services/aiService.test.ts:42-51 | prose, then ```` ```json ```` and a line break, the object, and a line break and ```` ``` ````, gives the object |
| AiResponse.LineBrokenBareFence | __tests__/services/aiService.test.ts:53-61 | ```` ``` ```` and a line break, the object, and a line break and ```` ``` ````, gives the object |
| DatePicker.MonthLength | components/DatePicker.tsx:49-51 | Gregorian lengths: 28..31, 28 exactly for February of a common year, 29 exactly for February of a leap year |
| DatePicker.DaysInMonth | components/DatePicker.tsx:49-51 | `new Date(y, m+1, 0).getDate()` is 28..31 and, for m in 0..11, the Gregorian length (years 0..99 read as 1900..1999) |
| DatePicker.DaysInMonthExamples | components/DatePicker.tsx:49-51 | 2024 February has 29 days, 2026 February 28, 1900 February 28, 2000 February 29 |
| DatePicker.PrevMonth | components/DatePicker.tsx:145-152 | the month before: January steps back to December of the previous year |
| DatePicker.NextMonth | components/DatePicker.tsx:165-172 | the month after: December steps on to January of the next year |
| DatePicker.PrevNextInverse | components/DatePicker.tsx:145-172 | the two arrows undo each other |
| DatePicker.TwelveStepsIsAYear | components/DatePicker.tsx:165-172 | twelve "next" presses reach the same month a year later |
| DatePicker.Grid | components/DatePicker.tsx:129-137 | `firstDay` empty cells, then day `d` at position `firstDay + d − 1` |
| DatePicker.BuildGrid | components/DatePicker.tsx:129-137 | the two push loops build exactly `Grid(blanks, days)` |
| DatePicker.HeadingAsWritten | components/DatePicker.tsx:131-139 | with Sunday-based blanks under Monday-first headings, each day stands under the following weekday's heading |
| DatePicker.HeadingOfMondayStart | components/DatePicker.tsx:131-139 | a month starting on Monday shows day 1 under "Tue" |
| DatePicker.HeadingCorrected | components/DatePicker.tsx:131-139 | with `(getDay()+6) % 7` blanks every day stands under its own weekday |
| DatePicker.ConfirmedDate | components/DatePicker.tsx:105 | a day within the month is kept; a day past its end runs on into the next month |
| DatePicker.FormatDateRoundTrip | components/DatePicker.tsx:106 | for a four-digit year, the text has the `YYYY-MM-DD` shape and its parts read back as year, month + 1 and day |
| DatePicker.Calendar.constructor | components/DatePicker.tsx:37-39 | the picker opens on the given year, month and day |
| DatePicker.Calendar.GoToPreviousMonth | components/DatePicker.tsx:145-152 | the shown month becomes `PrevMonth` of it; the day is kept |
| DatePicker.Calendar.GoToNextMonth | components/DatePicker.tsx:165-172 | the shown month becomes `NextMonth` of it; the day is kept |
| DatePicker.Calendar.SelectDay | components/DatePicker.tsx:207 | the selected day becomes the pressed one |
| DatePicker.Calendar.RenderCalendar | components/DatePicker.tsx:126-137 | the cells are `Grid(firstDay, daysInMonth)` |
| DatePicker.Calendar.RenderCalendarMondayFirst | components/DatePicker.tsx:126-139 | the corrected grid, with Monday-first blanks |
| DatePicker.Calendar.Confirm | components/DatePicker.tsx:104-106 | for a shown year from 1000 to 9998 the confirmed text has the form's `YYYY-MM-DD` shape; when the selected day lies in the shown month of a four-digit year, the text's year, month and day read back as the selected ones |
| DatePicker.ConfirmInMonth | components/DatePicker.tsx:104-109 | a day of the shown month is confirmed as exactly that date, in the form's date shape |
| DatePicker.ConfirmRunsOn | components/DatePicker.tsx:104-106 | day 31 kept into February 2026 confirms as 3 March |
| InvoiceForm.ValidateNumber | app/create.tsx:33-38 | accepted exactly when a number, at least `min` and, when given, at most `max` |
| InvoiceForm.ValidateDate | app/create.tsx:25-31 | accepted exactly when of the shape `YYYY-MM-DD` and a date the calendar accepts |
| InvoiceForm.ValidateField | app/create.tsx:133-164 | no message exactly when the field rule accepts; otherwise that field's message (for the number: "required" when blank, "already in use" otherwise) |
| InvoiceForm.OwnNumberAllowedWhenEditing | app/create.tsx:138-143 | the edited invoice's own number is not reported as taken |
| InvoiceForm.TakenNumberRejected | app/create.tsx:138-143 | a number another invoice carries, up to case and surrounding spaces, is rejected as in use |
| InvoiceForm.HeaderErrorsEmptyIffAccepted | app/create.tsx:221-239 | no header error exactly when all six header fields are accepted |
| InvoiceForm.ItemEntriesEmptyIffValid | app/create.tsx:246-255 | an item gives no error exactly when its description is not blank, its quantity ≥ 0.01 and its price ≥ 0 |
| InvoiceForm.ItemErrorsEmptyIffValid | app/create.tsx:246-255 | no item error exactly when every item is valid |
| InvoiceForm.ItemErrorKeys | app/create.tsx:246-255 | every item error is keyed by an existing item position |
| InvoiceForm.ApplyChange | app/create.tsx:176 | only the named field of the item changes |
| InvoiceForm.WithoutIndex | app/create.tsx:207 | an index in range drops exactly that item and keeps the others in order; any other index changes nothing |
| InvoiceForm.BeforeT | app/create.tsx:92-93 | the longest prefix of the text without a `T` |
| InvoiceForm.NormalizeDiscount | app/create.tsx:97-102 | a legacy amount discount above 1 becomes its share of the subtotal, capped at 1; any other discount is kept |
| InvoiceForm.EditableItems | app/create.tsx:94 | the lines with id and subtotal dropped, pointwise |
| InvoiceForm.SaveInput | app/create.tsx:264-273 | names trimmed; an empty due date and blank notes become absent; notes trimmed |
| InvoiceForm.PatchOf | app/create.tsx:275-276 | every field is supplied, except an absent due date or notes |
| InvoiceForm.EditCannotClearDueDateOrNotes | app/create.tsx:264-276 | as written, an edit whose due date or notes are absent keeps the old value |
| InvoiceForm.ClearedNotesSurvive | app/create.tsx:264-276 | an invoice whose notes are cleared in an edit still has them after saving |
| InvoiceForm.MergeFormInput | app/create.tsx:264-276 | corrected: an edit stores exactly the form's values, including cleared notes or an absent due date, with consistent totals |
| InvoiceForm.ExcludedId | app/create.tsx:140 | the edited invoice's id when editing, otherwise none |
| InvoiceForm.Form.constructor | app/create.tsx:58-65 | empty form with today's date and the suggested number |
| InvoiceForm.Form.LoadInvoice | app/create.tsx:88-106 | the fields of the edited invoice, dates before `T`, items without ids, discount normalised |
| InvoiceForm.Form.AddItem | app/create.tsx:200-204 | one item with quantity 1 and price 0 is appended |
| InvoiceForm.Form.DeleteItem | app/create.tsx:206-210 | the items become `WithoutIndex` of them |
| InvoiceForm.Form.UpdateItem | app/create.tsx:170-178 | only the item at the position changes, and only its named field; an empty slot just past the end is first filled with a blank item |
| InvoiceForm.Form.CollectErrors | app/create.tsx:221-255 | the loop collects exactly the header errors followed by each item's errors in order |
| InvoiceForm.Form.HandleSave | app/create.tsx:220-287 | no items: nothing happens; errors: they are shown, the first is the message, and nothing is stored; otherwise a new invoice is added or the edited one is updated, and storage holds the new collection; an edit of an unknown id changes neither the collection nor storage |
| InvoiceForm.NoItemsWinsOverErrors | app/create.tsx:221-244 | a save of a form with header errors but no items ends with the missing-items outcome; the errors shown and the store are unchanged |
| InvoiceForm.AcceptedHeader | app/create.tsx:221-239 | accepted headers mean non-blank names, rates in [0, 1] and date shapes |
| InvoiceForm.NoErrorsMeansAccepted | app/create.tsx:221-262 | a save goes through only when every header field is accepted and every item is valid |
| AdMobPlugin.ToolsNamespaced | plugins/withAdMobAppId.js:3-7 | `xmlns:tools` is present; an existing non-empty value is kept, otherwise it is the tools URI; other attributes are unchanged |
| AdMobPlugin.ToolsNamespacedIdempotent | plugins/withAdMobAppId.js:3-7 | declaring the namespace twice is the same as once |
| AdMobPlugin.AppIdEntry | plugins/withAdMobAppId.js:22-28 | the new entry's name is the APPLICATION_ID key, its value is the id, and `tools:replace` is `android:value` |
| AdMobPlugin.WithoutAppId | plugins/withAdMobAppId.js:17-19 | every APPLICATION_ID entry goes and every other entry stays |
| AdMobPlugin.WithoutAppIdAppend | plugins/withAdMobAppId.js:17-19 | the filter keeps the order of the remaining entries |
| AdMobPlugin.WithoutAppIdKeepsOthers | plugins/withAdMobAppId.js:17-19 | a list without APPLICATION_ID entries is unchanged |
| AdMobPlugin.WithAppId | plugins/withAdMobAppId.js:14-28 | exactly one APPLICATION_ID entry, the last, holding the id; before it the other entries in order |
| AdMobPlugin.WithAppIdIdempotent | plugins/withAdMobAppId.js:17-28 | patching twice with the same id is the same as once |
| AdMobPlugin.WithAppIdReplaces | plugins/withAdMobAppId.js:17-28 | patching with a new id replaces the old entry and leaves the others as they were |
| AdMobPlugin.EnsureToolsNamespace | plugins/withAdMobAppId.js:3-8 | the manifest attributes become `ToolsNamespaced` of them |
| AdMobPlugin.SetAndroidAdMobAppId | plugins/withAdMobAppId.js:10-31 | without a first application nothing changes; otherwise its meta-data becomes `WithAppId` of it (an empty list if it had none) |
| AdMobPlugin.WithAdMobAppId | plugins/withAdMobAppId.js:33-54 | fails with nothing changed exactly when either id is missing or empty; otherwise namespace, meta-data entry and `GADApplicationIdentifier` are set |
| AdMobPlugin.ApplyTwice | plugins/withAdMobAppId.js:33-54 | running the plugin twice leaves what one run leaves |

## Left out

- The hosted-model call and the network are not modelled: the reply text is a parameter of `AiResponse.ParseReply`, and the prompt text and model options are not represented.
- `process.env` and console logging are not modelled: the token is a parameter.
- `JSON.parse` and `JSON.stringify` are not reimplemented: parsing is a parameter, and storage keeps invoices as values, so an exact serialisation round trip is assumed.
- The parsed JSON's shape is not checked, because the source does not check it either.
- AsyncStorage is modelled as a field, synchronously. The promise of `saveInvoices` and its swallowed write failure are not modelled.
- A stored value that parses to something other than an invoice array is not represented.
- `generateId`, `Date.now`, `Math.random` and `toISOString` are not modelled: identifiers and timestamps are parameters.
- IEEE-754 floating point is not modelled: amounts are exact reals, so float artefacts such as `0.1 + 0.2` do not arise.
- Case folding is ASCII-only, which is exact for the `i`-flag patterns. For `toLowerCase` on non-ASCII letters in `isInvoiceNumberUnique`, the model differs from JavaScript.
- `parseFloat` of typed text is not modelled. The form holds numbers, so its tax rate, discount, quantity and price are always finite; `InvoiceForm.ValidateNumber` still models the not-a-number case.
- `new Date(text)` validity behind `validateDate` is the parameter `calendarValid`.
- `getDay()` of the first of the month is the parameter `firstDay`.
- `DatePicker.Calendar.Confirm` states the `YYYY-MM-DD` shape only for four-digit years: other years print with another number of digits, and a day run on from December 9999 lands in year 10000.
- `DatePicker.ConfirmedDate` covers days up to 31, which is all the picker can hold. Wider `Date` overflow arithmetic is not modelled.
- `InvoiceForm.Form.UpdateItem` requires the position to be at most the number of items. A write further out would leave holes in a JavaScript array, and sparse arrays are not modelled.
- The `default` branch of `validateField` is not modelled: every field the screen passes has a case.
- The delayed per-keystroke validation in `handleItemUpdate` and `clearError` is not modelled: it runs on timers and only redraws messages. That also covers the `item${Field}` key mapping.
- The error messages are a datatype whose texts are given by `InvoiceForm.MessageText`.
- `InvoiceForm.Form.HandleSave` leaves `errors` unchanged on a successful save, as the source does.
- A due date cannot be cleared through the screen, because the date picker (components/DatePicker.tsx:104-108) only ever reports a full date. The same `dueDate || undefined` and `??` pair would keep an old due date, as `InvoiceForm.EditCannotClearDueDateOrNotes` states, but the finding on edits is about notes only.
- The modals, navigation, analytics events and PDF export are not modelled.
- `withAndroidManifest` and `withInfoPlist` are not modelled: the plugin's callbacks are applied directly to the manifest and the plist.
- In the plugin, attribute values are strings and plist entries are string-valued. An `Error` becomes the outcome `MissingAppIds`.
- Screens, components, styles and animations are out of scope, as are the analytics and ads SDK wrappers and `services/pdfService.ts`.

## Findings

| source | as written | input that shows it | evidently intended | confidence | as-written member | corrected member |
|---|---|---|---|---|---|---|
| components/DatePicker.tsx:131-139 | the grid starts with `getDay()` blank cells, counted from Sunday, under headings that start with Monday | a month whose first day is a Monday (`getDay()` = 1): day 1 appears in the second column, under "Tue" | `(getDay() + 6) % 7` blank cells, so that each day stands under its own weekday | high, not executed | DatePicker.HeadingOfMondayStart | DatePicker.HeadingCorrected |
| app/create.tsx:268-276 | an edit sends blank notes as `undefined`, and `updateInvoice` (store/useInvoiceStore.ts:176) treats `undefined` as "keep the old value" | an invoice with notes "Net 30", edited with the notes cleared, keeps "Net 30" | cleared notes are stored as cleared | medium, not executed | InvoiceForm.ClearedNotesSurvive | InvoiceForm.MergeFormInput |
