# Jewellery-shop dashboard: the rules behind the screens

This project models, in Dafny, the rules inside the components of a client-side jewellery-shop
dashboard, and proves properties of them. It covers these parts:

- the karigar (artisan) material ledger;
- the stock list;
- harvest plans (twelve-month savings plans) and their lucky draw;
- the lucky-draw wheel;
- the canned-response console;
- the transaction manager;
- client reminders;
- the three edit modals;
- the karigar screen;
- the issue and receive forms;
- the mock query layer.

Each source file is one module:

| module | file | models |
|---|---|---|
| `KarigarLedger` | `ledger.dfy` | `calculateTotals`, the shown entries, the issue/receive columns, the labels and the labour split |
| `StockManagement` | `stock.dfy` | search and type filters, type tabs, summary counters, and a `StockManager` class for edit/save/delete |
| `HarvestPlans` | `harvest.dfy` | plan creation, search, paid count, lucky-draw participants, winner lookup, next group number, and classes for the draw state and the create-plan modal |
| `LuckyDrawWheel` | `wheel.dfy` | the wheel's numbers, the winner→angle mapping, and a `Wheel` class for the spin state machine |
| `AiConsole` | `console.dfy` | the first-match keyword table, and a `Console` class for the message list |
| `TransactionManager` | `transactions.dfy` | search and tab partitions, account masking, and a `TransactionForm` class for bank accounts and submit/cancel |
| `ClientManagement` | `clients.dfy` | client search, the reminder list (mark done and delete), the balance line and the contact lookup |
| `EditModals` | `edit_modals.dfy` | draft initialisation with fallbacks and the spread merge on submit, over JavaScript objects |
| `KarigarManagement` | `karigars.dfy` | karigar search, the active/history order tabs, and the schedule dialog |
| `ReceiveJewelry` | `receive.dfy` | the two-step wizard and the received record with its charges and estimate |
| `IssueGold` | `issue_gold.dfy` | the value effect, the required-field check and the balance warning |
| `IssueDiamonds` | `issue_diamonds.dfy` | the rounded weight deviation, its classification, and the issued record |
| `MockDatabase` | `mockdb.dfy` | table-name extraction and the mock rows |

Four helper modules support them:

- `Wrappers`: `Option`.
- `Seqs`: filter, count and sum, and their algebra.
- `Text`: ASCII lower-casing, `includes`, `trim`, `padStart`, decimal digits and `slice(-n)`.
- `JsObject`: JavaScript values and objects, truthiness, `a || b` and `{...a, ...b}`.

How the source's runtime pieces are represented:

- **State.** Where a component keeps state that its handlers update, the model is a class whose methods change the fields. A method's `ensures` states the whole new state in terms of the old one.
- **Pure expressions.** Where the source computes a value from its inputs (a filter, a reduce, a decision table), the model is a function, with lemmas relating it to an independent description.
- **Inputs from the environment.** Randomness (`Math.floor(Math.random() * 75)`), clock readings and `Date.now()` are parameters. The answers to `confirm` and `prompt` are `bool` and `Option<string>` parameters.
- **Timers.** Each `setTimeout` continuation is a second method: `Wheel.Reveal`, `Console.DeliverReply` and `LuckyDrawState.AnnounceWinner`.
- **Numbers.** Stock money and plan amounts are integers. Weights and charges, which the source multiplies or sums as JavaScript numbers, are exact `real`s.

Behaviours of the code that the model keeps as they are:

- **Ledger.** With a karigar selected, the shown entries are those whose reference mentions "KO" or "GI". The karigar's id plays no part.
- **Harvest plans.** A plan's payment slots all carry the start year, even past December. By contrast, the end date's year is advanced.
- **Stock edits.** Saving an edit updates every item carrying the edited id.
- **Console.** The Enter key is not guarded by `isProcessing`. Several replies can therefore be pending, so the model queues the pending queries first in, first out.
- **Client search.** The phone number is matched case-sensitively, as a raw substring.
- **Client edit modal.** No input edits the bracelet size. It keeps the value it was initialised with (`EditModal.Valid`).
- **Group number.** `Math.max` over an empty plan list is `-Infinity`. The next group number is therefore `None` for an empty list.

## Model

| member | source | states |
|---|---|---|
| Text.Lower | components/stock-management.tsx:128 | `toLowerCase` keeps the length and maps each character through ASCII lower-casing |
| Text.Contains | components/stock-management.tsx:128 | `includes` holds iff the pattern occurs at some offset |
| Text.Trim | components/ai-console.tsx:67 | `trim` returns a slice of the input; everything cut off is white space, and the result does not start or end with white space |
| Text.TrimEmptyIffBlank | components/ai-console.tsx:67 | `!input.trim()` holds iff every character is white space |
| Text.ContainsTrim | lib/db.ts:78 | a pattern with no white space at either end occurs in the trimmed text iff it occurs in the text |
| Text.PadStart | components/harvest-plan.tsx:315 | `padStart` returns the string preceded by exactly enough fill characters to reach the width |
| Text.PadStartValue | components/harvest-plan.tsx:315 | a zero-padded decimal still reads back as the same number |
| Text.Last | components/transaction-manager.tsx:1136 | `slice(-n)` returns the last n characters, or the whole string when it is shorter, and is a suffix of it |
| KarigarLedger.FilteredEntries | components/karigar-ledger.tsx:134-136 | the list is empty with no karigar selected; otherwise it is a subsequence holding exactly the entries whose reference contains "KO" or "GI" |
| KarigarLedger.CalculateTotals | components/karigar-ledger.tsx:159-183 | goldBalance, diamondBalance and totalLabour are sums of per-entry contributions over the shown entries |
| KarigarLedger.GoldTotal | components/karigar-ledger.tsx:160-179 | Σ weight of gold issues − Σ weight of gold receives, a missing weight counting 0, equals the per-entry gold sum |
| KarigarLedger.DiamondTotal | components/karigar-ledger.tsx:167-180 | the same for diamond weights of diamond entries |
| KarigarLedger.LabourTotal | components/karigar-ledger.tsx:174-181 | Σ labour of received labour lines equals the per-entry labour sum; issues and other categories add nothing |
| KarigarLedger.TotalsWithoutSelection | components/karigar-ledger.tsx:134-183 | with no karigar selected all three totals are 0 |
| KarigarLedger.TotalsConcat | components/karigar-ledger.tsx:159-183 | the totals of two ledgers put together are the sums of their totals |
| KarigarLedger.TotalsPermutation | components/karigar-ledger.tsx:159-183 | reordering the entries does not change the totals |
| KarigarLedger.TotalsIgnoreOthers | components/karigar-ledger.tsx:159-183 | an "other" entry or an issued labour entry leaves the totals unchanged |
| KarigarLedger.IssueReceivePartition | components/karigar-ledger.tsx:289-337 | the issue column and the receive column split the shown entries (lengths add up; multisets add up) |
| KarigarLedger.StatusLabel | components/karigar-ledger.tsx:245-250 | "With Karigar" iff the balance is positive, "Returned" iff it is ≤ 0 |
| KarigarLedger.LabourSplit | components/karigar-ledger.tsx:464-468 | paid (80%) plus pending (20%) is the total, and pending ≤ paid for a non-negative total |
| StockManagement.FilteredItems | components/stock-management.tsx:126-132 | order-preserving subsequence holding exactly the items matching the search (name/tag, ignoring case) and the type selector |
| StockManagement.EmptySearchMatchesAll | components/stock-management.tsx:466-473 | the empty search term matches every item |
| StockManagement.TabItems | components/stock-management.tsx:466-473 | an order-preserving subsequence holding exactly the items of the tab's type that match the search, every item of that type when the search is empty |
| StockManagement.TabIsFilteredList | components/stock-management.tsx:466-473 | a type tab's list equals the filtered list for that type |
| StockManagement.TabWithEmptySearch | components/stock-management.tsx:466-473 | with an empty search a tab shows exactly the items of its type |
| StockManagement.StatusCountsBound | components/stock-management.tsx:208-216 | lowStock + withKarigar + onApproval ≤ number of items |
| StockManagement.TotalValueNonNegative | components/stock-management.tsx:208-211 | with non-negative values the total value is non-negative |
| StockManagement.DynamicStockSummary | components/stock-management.tsx:208-216 | totalItems is the length, the three counters fit within it, lowStock is 0 iff no in-stock item is under 50000, and the value is non-negative for non-negative prices |
| StockManagement.SummaryEmpty | components/stock-management.tsx:208-216 | an empty stock list sums to all zeros |
| StockManagement.SummarySingleton | components/stock-management.tsx:208-216 | one item counts once, contributes its current value, and is counted as low, with a karigar or on approval exactly when its status and value say so |
| StockManagement.SummaryConcat | components/stock-management.tsx:208-216 | the summary of two lists put together is the field-wise sum of their summaries, so every field is the count or total of its own items |
| StockManagement.DraftOf | components/stock-management.tsx:162-177 | opening the editor copies every editable field, so saving the draft unchanged at the item's own timestamp gives the item back |
| StockManagement.ApplyDraft | components/stock-management.tsx:185-200 | saving keeps the item's id and QR code and stamps lastUpdated with the save time |
| StockManagement.DraftReadBack | components/stock-management.tsx:180-206 | reopening the editor on a saved item shows exactly the draft that was saved |
| StockManagement.LastSaveWins | components/stock-management.tsx:180-206 | saving twice is the same as saving only the second draft at the second time |
| StockManagement.UneditedSave | components/stock-management.tsx:162-200 | saving a just-opened draft yields the item with only lastUpdated changed |
| StockManagement.UpdateById | components/stock-management.tsx:180-203 | same length; ids and qrCodes kept; items with another id unchanged; items with the id get the draft |
| StockManagement.UpdateChangesOneItem | components/stock-management.tsx:180-203 | with unique ids at most one item changes and ids stay unique |
| StockManagement.RemoveById | components/stock-management.tsx:218-223 | subsequence holding exactly the items with another id; its length drops by the number of items with that id |
| StockManagement.RemoveAbsentId | components/stock-management.tsx:218-223 | deleting an absent id changes nothing |
| StockManagement.StockManager.constructor | components/stock-management.tsx:126 | the manager starts with the given list, nothing edited and the modal closed |
| StockManagement.StockManager.OpenEditModal | components/stock-management.tsx:162-177 | remembers the item, copies its fields into the draft and opens the modal; the list is unchanged |
| StockManagement.StockManager.SaveEdit | components/stock-management.tsx:180-206 | without an edited item nothing is saved and the modal is left as it was; otherwise the list becomes UpdateById with the draft and the modal closes; either way no item is being edited afterwards |
| StockManagement.StockManager.DeleteItem | components/stock-management.tsx:218-223 | when confirmed the list becomes RemoveById; when declined it is unchanged |
| HarvestPlans.NumberedIdReadBack | components/harvest-plan.tsx:315-316 | an id is the prefix followed by at least three digits that read back as the number |
| HarvestPlans.NumberedIdsDistinct | components/harvest-plan.tsx:315-316 | different numbers give different ids |
| HarvestPlans.CreatePlan | components/harvest-plan.tsx:313-341 | "HP"/"CL" ids from the plan count + 1; copied form fields; registration number in 1..75; active; totalPaid 0; remaining = 12 × monthly; 12 pending cash payments of the monthly amount; start date on the 1st of the start month |
| HarvestPlans.PaymentMonthsCoverAYear | components/harvest-plan.tsx:325-334 | slot i is for month index (startMonth − 1 + i) mod 12 of the start year and has no payment date; so slot 0 is the start month and the twelve slots have twelve distinct month indices in 0..11 |
| HarvestPlans.EndDateIsLastSlotMonth | components/harvest-plan.tsx:320-330 | the end date is the 1st of month index (startMonth + 10) mod 12 in year startYear + (startMonth > 1 ? 1 : 0); the end month is the last slot's month; the end year is the year that month really falls in; every slot keeps the start year, so for a start after January the last slot's year differs from the end year |
| HarvestPlans.FilteredPlans | components/harvest-plan.tsx:351-355 | subsequence holding exactly the plans whose client name or id contains the search, ignoring case |
| HarvestPlans.EmptySearchShowsAll | components/harvest-plan.tsx:351-355 | the empty search shows every plan |
| HarvestPlans.PaidCount | components/harvest-plan.tsx:706 | at most the number of payments, 0 iff every payment is pending, and paid plus pending is the number of payments |
| HarvestPlans.PaidCountSingleton | components/harvest-plan.tsx:706 | one payment counts 1 when paid and 0 when pending |
| HarvestPlans.PaidCountConcat | components/harvest-plan.tsx:706 | the paid count of two payment lists put together is the sum of their paid counts |
| HarvestPlans.NewPlanUnpaid | components/harvest-plan.tsx:313-336 | a new plan shows 0 paid months |
| HarvestPlans.ExtraNumbers | components/harvest-plan.tsx:480-482 | every additional number is in 1..75 and is not a diamond plan's number |
| HarvestPlans.RollToNumber | components/harvest-plan.tsx:480 | a roll below 75 becomes a number in 1..75 |
| HarvestPlans.ExtraNumbersAreDrawn | components/harvest-plan.tsx:480-482 | the additional numbers are the drawn numbers in draw order with the diamond plans' numbers removed: each appears as often as it was drawn unless it is a plan number, which never appears |
| HarvestPlans.FirstTwenty | components/harvest-plan.tsx:484 | the first list followed by the second, cut at 20: its length is the smaller of 20 and the combined length, the first list comes first and each later position holds the matching element of the second list |
| HarvestPlans.Participants | components/harvest-plan.tsx:474-484 | at most 20 numbers; the active diamond plans' numbers come first; every other number is in 1..75 and not among them |
| HarvestPlans.ParticipantsFill | components/harvest-plan.tsx:474-484 | the wheel holds the smaller of 20 and the plan numbers plus additional numbers, and after the plan numbers come the additional numbers in draw order |
| HarvestPlans.ActiveDiamondPlanParticipates | components/harvest-plan.tsx:474-484 | each of the first 20 active diamond plans' numbers is a participant |
| HarvestPlans.FindByRegistration | components/harvest-plan.tsx:489 | None iff no plan has that number; otherwise the first plan with it |
| HarvestPlans.WinnerOf | components/harvest-plan.tsx:489-490 | the winner, if any, is the first plan in the list carrying the drawn number; none iff no plan carries it |
| HarvestPlans.NextGroupNo | components/harvest-plan.tsx:1052 | None iff there are no plans; otherwise greater than every groupNo and one more than some groupNo |
| HarvestPlans.MaxGroupNo | components/harvest-plan.tsx:1052 | of a non-empty plan list, a groupNo at least every plan's groupNo and carried by some plan |
| HarvestPlans.LuckyDrawState.constructor | components/harvest-plan.tsx:170-173 | no winner and no announcement at first |
| HarvestPlans.LuckyDrawState.WinnerSelected | components/harvest-plan.tsx:486-491 | records the drawn number and the matching plan, if any; the announcement is not yet shown |
| HarvestPlans.LuckyDrawState.AnnounceWinner | components/harvest-plan.tsx:494-496 | the delayed step shows the announcement |
| HarvestPlans.DefaultForm | components/harvest-plan.tsx:47-69 | an empty client name, diamond, group 1, 25000 a month, starting in the current month and year |
| HarvestPlans.CreatePlanModal.constructor | components/harvest-plan.tsx:47-54 | the modal's form starts at the defaults |
| HarvestPlans.CreatePlanModal.SetStartMonth | components/harvest-plan.tsx:129 | only the start month changes |
| HarvestPlans.CreatePlanModal.SetDetails | components/harvest-plan.tsx:84-146 | sets the client name, type, group, monthly amount and start year; the start month is kept |
| HarvestPlans.CreatePlanModal.Submit | components/harvest-plan.tsx:58-70 | calls onCreatePlan with the filled form, then onClose, and resets the form to the defaults |
| LuckyDrawWheel.AllNumbers | components/lucky-draw-wheel.tsx:19 | 75 numbers, the i-th being i + 1 |
| LuckyDrawWheel.WheelNumbers | components/lucky-draw-wheel.tsx:19 | a number is on the wheel iff it is in 1..75 |
| LuckyDrawWheel.SpinAngle | components/lucky-draw-wheel.tsx:20-34 | the final rotation lies in (7200, 7560] |
| LuckyDrawWheel.SpinAngleRoundTrip | components/lucky-draw-wheel.tsx:29-36 | the segment under the pointer at the final rotation is the winner's index |
| LuckyDrawWheel.ParticipantNote | components/lucky-draw-wheel.tsx:143-145 | the "active participant" message iff the winner is a participant, the other text otherwise |
| LuckyDrawWheel.Wheel.constructor | components/lucky-draw-wheel.tsx:13-15 | not spinning, no winner, rotation 0 |
| LuckyDrawWheel.Wheel.Spin | components/lucky-draw-wheel.tsx:22-37 | a spin while spinning changes nothing; otherwise spinning, winner cleared, draw roll + 1 pending, rotation at its angle |
| LuckyDrawWheel.Wheel.Reveal | components/lucky-draw-wheel.tsx:39-43 | spinning stops and the shown winner is the pending draw, the same number that is reported to the parent |
| AiConsole.MentionsPair | components/ai-console.tsx:95-104 | a rule with two keywords fires iff the text contains one of them |
| AiConsole.ChooseReply | components/ai-console.tsx:89-110 | the if/else chain gives the first matching rule of the ordered table (sales/revenue, stock/inventory, client/customer, theft/missing) on the lower-cased query, and the fallback when none matches |
| AiConsole.ChooseReplyIgnoresCase | components/ai-console.tsx:90 | lower-casing the query first does not change the reply |
| AiConsole.ReplyText | components/ai-console.tsx:96-108 | each reply opens with its own badge (chart, package, people, siren, robot), and the fallback quotes the original query right after its introduction |
| AiConsole.ReplyTextsDistinct | components/ai-console.tsx:96-108 | two different replies never produce the same text, whatever the queries |
| AiConsole.GenerateResponse | components/ai-console.tsx:89-119 | an AI message carrying the given id and timestamp, whose content is the reply text of the first matching rule and whose category comes from that rule and is never "query"; the fallback embeds the original query |
| AiConsole.SendButtonEnabled | components/ai-console.tsx:251 | enabled iff not processing and the input has a non-white-space character |
| AiConsole.Console.constructor | components/ai-console.tsx:20-39 | the given welcome messages, empty input, not processing, nothing queued |
| AiConsole.Console.SetInput | components/ai-console.tsx:238 | only the input changes |
| AiConsole.Console.SendMessage | components/ai-console.tsx:66-80 | blank input changes nothing; otherwise exactly one user message with the input is appended, the input is queued and cleared, and processing is on |
| AiConsole.Console.DeliverReply | components/ai-console.tsx:82-86 | exactly one AI reply to the oldest queued query is appended, that query is dequeued, and processing is off |
| TransactionManager.Searched | components/transaction-manager.tsx:138-143 | subsequence holding exactly the transactions whose description, party or id contains the search, ignoring case |
| TransactionManager.Filtered | components/transaction-manager.tsx:145-148 | subsequence of the searched list holding exactly those of the selected type, or all |
| TransactionManager.ReceiptsPaymentsPartition | components/transaction-manager.tsx:150-151 | the receipt and payment lists split the searched list |
| TransactionManager.PendingAreSearched | components/transaction-manager.tsx:152 | the pending list is a subsequence of the searched list holding exactly its pending transactions |
| TransactionManager.FilterAgreesWithTabs | components/transaction-manager.tsx:145-151 | "all" is the searched list, and the receipt and payment filters equal the receipt and payment tabs |
| TransactionManager.MaskAccountNumber | components/transaction-manager.tsx:1136 | "****" followed by the last 4 characters, or the whole number when shorter |
| TransactionManager.NewAccountId | components/transaction-manager.tsx:1134 | "BA" followed by the last three characters of the decimal clock reading (all of it when shorter) |
| TransactionManager.RemoveAccount | components/transaction-manager.tsx:1114 | subsequence holding exactly the accounts with another id |
| TransactionManager.PartyName | components/transaction-manager.tsx:1567-1569 | a name iff the party type is known and a party with that id is registered under it, and then that party's name |
| TransactionManager.FindName | components/transaction-manager.tsx:1569 | a name iff a party with that id is in the list, and then its name |
| TransactionManager.TransactionForm.constructor | components/transaction-manager.tsx:43-56 | the given parties and accounts, form closed, no party selected |
| TransactionManager.TransactionForm.Open | components/transaction-manager.tsx:1020-1040 | the form opens for the chosen kind; nothing else changes |
| TransactionManager.TransactionForm.SelectParty | components/transaction-manager.tsx:1335-1349 | only the selected party type and party change |
| TransactionManager.TransactionForm.AddBankAccount | components/transaction-manager.tsx:1129-1141 | with both a name and a number, one account with balance 0 and the masked number is appended; otherwise nothing changes |
| TransactionManager.TransactionForm.DeleteBankAccount | components/transaction-manager.tsx:1113-1115 | when confirmed the accounts become RemoveAccount; when declined they are unchanged |
| TransactionManager.TransactionForm.Cancel | components/transaction-manager.tsx:1539-1543 | closes the form and clears the party selection |
| TransactionManager.TransactionForm.Submit | components/transaction-manager.tsx:1556-1595 | gold records and closes, keeping the selection; any other kind without a party and a party type is rejected and changes nothing; otherwise it records the party with its looked-up name, closes and clears the selection |
| ClientManagement.FilteredClients | components/client-management.tsx:166-171 | subsequence holding exactly the clients whose name or email contains the search ignoring case, or whose phone contains it as typed |
| ClientManagement.PhoneMatchIsCaseSensitive | components/client-management.tsx:169 | a phone containing "EXT" is not found by "ext", although the same text would be found in a name or an email |
| ClientManagement.MarkDone | components/client-management.tsx:197-202 | same length; each reminder with the id becomes completed; every other reminder is unchanged |
| ClientManagement.MarkDoneIdempotent | components/client-management.tsx:197-202 | marking done twice is the same as once |
| ClientManagement.MarkDoneChangesOnlyStatus | components/client-management.tsx:197-202 | only the status of a reminder can change, and it becomes "completed" for the id |
| ClientManagement.MarkDoneCommutes | components/client-management.tsx:197-202 | marking two reminders done in either order gives the same list |
| ClientManagement.RemoveReminder | components/client-management.tsx:544 | subsequence holding exactly the reminders with another id |
| ClientManagement.MarkDoneEnabled | components/client-management.tsx:520 | "Mark as Done" is enabled iff the reminder is not completed |
| ClientManagement.ReminderList.constructor | components/client-management.tsx:197-202 | the list starts as given |
| ClientManagement.ReminderList.MarkAsDone | components/client-management.tsx:197-202 | the list becomes MarkDone of the old list |
| ClientManagement.ReminderList.DeleteReminder | components/client-management.tsx:541-546 | when confirmed the list becomes RemoveReminder; when declined it is unchanged |
| ClientManagement.BalanceDisplay | components/client-management.tsx:382-388 | no line iff the balance is 0; otherwise its magnitude, labelled " (Credit)" iff positive and " (Due)" iff negative |
| ClientManagement.FindContact | components/client-management.tsx:529-533 | None iff no client has exactly that name; otherwise the first client with it |
| JsObject.Prop | components/edit-modals.tsx:21 | `o?.k` is the property's value, or undefined for a null record or a missing property |
| JsObject.PropOr | components/edit-modals.tsx:21 | `o?.k \|\| f` is the property when truthy and the fallback otherwise |
| JsObject.Spread | components/edit-modals.tsx:39 | `{...a, ...b}` has the keys of both, b's values on b's keys and a's values elsewhere |
| JsObject.With | components/edit-modals.tsx:61 | `{...o, k: v}` sets k to v and keeps every other property |
| JsObject.SpreadAgreeing | components/edit-modals.tsx:202 | merging a draft that agrees with the record gives the record back |
| EditModals.DraftFields | components/edit-modals.tsx:20-33 | each draft has at least five fields |
| EditModals.DraftFieldSizes | components/edit-modals.tsx:20-33 | a client draft has twelve distinct fields, a plan draft five and a transaction draft six |
| EditModals.EditableFields | components/edit-modals.tsx:61-155 | the fields with an input are draft fields |
| EditModals.DateField | components/edit-modals.tsx:26-27 | a truthy date becomes its ISO day string, anything else "" |
| EditModals.InitialDraft | components/edit-modals.tsx:20-33 | the draft has exactly the modal's fields; each copies the record's truthy value or takes the field's fallback; the client's dates become ISO day strings |
| EditModals.PlanFalsyDefaults | components/edit-modals.tsx:190-196 | falsy groupNo → 1, monthlyAmount → 25000, type → "diamond", status → "active" |
| EditModals.ClientFalsyDefaults | components/edit-modals.tsx:20-33 | a falsy client field becomes "", except vipStatus, which becomes "regular" |
| EditModals.UneditedSubmit | components/edit-modals.tsx:37-41 | an unedited submit keeps every property outside the draft and every truthy non-date one inside it |
| EditModals.UneditedPlanIsOriginal | components/edit-modals.tsx:190-204 | an unedited plan whose five fields are truthy is saved unchanged |
| EditModals.PlanEditKeeps | components/edit-modals.tsx:190-204 | a plan edit keeps id, payments, registrationNo, totalPaid, remaining amount and dates |
| EditModals.TransactionEditKeeps | components/edit-modals.tsx:300-315 | a transaction edit keeps id, type, date and reference |
| EditModals.ClientEditKeeps | components/edit-modals.tsx:20-41 | a client edit keeps id, purchase totals, balance and last purchase |
| EditModals.EditModal.constructor | components/edit-modals.tsx:20-33 | the draft starts as InitialDraft |
| EditModals.EditModal.Change | components/edit-modals.tsx:61-155 | a change handler sets one editable field and keeps the rest |
| EditModals.EditModal.Submit | components/edit-modals.tsx:37-41 | onSave with `{...record, ...draft}`, then onClose; draft values win on draft fields, record values elsewhere |
| EditModals.EditModal.Cancel | components/edit-modals.tsx:169 | onClose only, never onSave |
| KarigarManagement.FilteredKarigars | components/karigar-management.tsx:65-70 | subsequence holding exactly the karigars whose name, id or some specialisation contains the search, ignoring case |
| KarigarManagement.EmptySearchKeepsAll | components/karigar-management.tsx:65-70 | the empty search keeps every karigar |
| KarigarManagement.OrdersOf | components/karigar-management.tsx:197 | exactly the orders of that karigar |
| KarigarManagement.ActiveOrders | components/karigar-management.tsx:197-198 | subsequence holding exactly that karigar's orders not completed |
| KarigarManagement.OrderHistory | components/karigar-management.tsx:307-308 | subsequence holding exactly that karigar's completed orders |
| KarigarManagement.TabsPartitionOrders | components/karigar-management.tsx:197-308 | the two tabs split the karigar's orders (multisets and lengths add up) |
| KarigarManagement.ScheduleDialog.constructor | components/karigar-management.tsx:28-31 | closed, no date, empty notes, no order |
| KarigarManagement.ScheduleDialog.OpenScheduleModal | components/karigar-management.tsx:94-97 | selects the order and opens the dialog |
| KarigarManagement.ScheduleDialog.PickDate | components/karigar-management.tsx:29 | only the date changes |
| KarigarManagement.ScheduleDialog.SetNotes | components/karigar-management.tsx:30 | only the notes change |
| KarigarManagement.ScheduleDialog.ScheduleOrder | components/karigar-management.tsx:72-92 | nothing is sent and nothing changes without an order id and a date; otherwise the update carries id, date and notes, and on success the dialog closes with date, notes and order cleared; on failure it stays as it was |
| ReceiveJewelry.InitialForm | components/receive-jewelry-modal.tsx:22-47 | no type, no karigar, no item name at first |
| ReceiveJewelry.BuildRecord | components/receive-jewelry-modal.tsx:55-93 | the common fields with totalCharges; the gold fields exactly when the type is "gold", the diamond fields otherwise |
| ReceiveJewelry.EstimateIsMaterialPlusCharges | components/receive-jewelry-modal.tsx:67-89 | the estimate is the metal and stone value (6850 per gram × purity/100, or 6850 per gram + 50000 per carat) plus exactly the total charges shown |
| ReceiveJewelry.EstimateCoversCharges | components/receive-jewelry-modal.tsx:67-89 | with non-negative inputs 0 ≤ total charges ≤ estimate |
| ReceiveJewelry.ReceiveEnabled | components/receive-jewelry-modal.tsx:450 | enabled iff a karigar and an item name are given |
| ReceiveJewelry.ReceiveWizard.constructor | components/receive-jewelry-modal.tsx:22-47 | step 1 with the initial form |
| ReceiveJewelry.ReceiveWizard.ChooseType | components/receive-jewelry-modal.tsx:118-134 | sets the type to gold or diamond; the step is unchanged |
| ReceiveJewelry.ReceiveWizard.Edit | components/receive-jewelry-modal.tsx:23-47 | replaces the inputs other than the type |
| ReceiveJewelry.ReceiveWizard.Next | components/receive-jewelry-modal.tsx:49-53 | step 1 becomes step 2 only with a type chosen; otherwise nothing changes |
| ReceiveJewelry.ReceiveWizard.Back | components/receive-jewelry-modal.tsx:444 | back to step 1 |
| ReceiveJewelry.ReceiveWizard.Receive | components/receive-jewelry-modal.tsx:55-95 | onReceive once with the built record, then onClose |
| IssueGold.FindKarigar | components/issue-gold-modal.tsx:52 | None iff no karigar has the id; otherwise the first with it |
| IssueGold.BalanceWarning | components/issue-gold-modal.tsx:82 | shown iff the selected karigar exists and its goldBalance > 0 |
| IssueGold.IssueGoldForm.constructor | components/issue-gold-modal.tsx:21-27 | empty inputs, rate 6850, value 0 |
| IssueGold.IssueGoldForm.SetGoldWeight | components/issue-gold-modal.tsx:29-31 | the weight changes and the value becomes weight × rate |
| IssueGold.IssueGoldForm.SetGoldRate | components/issue-gold-modal.tsx:29-31 | the rate changes and the value becomes weight × rate |
| IssueGold.IssueGoldForm.SetDetails | components/issue-gold-modal.tsx:21-26 | only karigar, karat, purpose and notes change |
| IssueGold.IssueGoldForm.Issue | components/issue-gold-modal.tsx:33-50 | an alert and nothing else iff karigar, weight or karat is missing; otherwise onIssue with the inputs and value = weight × rate, then onClose |
| IssueDiamonds.RoundCents | components/issue-diamonds-modal.tsx:36 | `Number(x.toFixed(2))`: a whole number of hundredths within 0.005 of x, with its sign, and 0 iff \|x\| < 0.005 |
| IssueDiamonds.RoundCentsOdd | components/issue-diamonds-modal.tsx:36 | rounding is symmetric in the sign |
| IssueDiamonds.RoundCentsKeepsCents | components/issue-diamonds-modal.tsx:36 | a value already in hundredths is unchanged |
| IssueDiamonds.Severity | components/issue-diamonds-modal.tsx:41-55 | "error" iff \|diff\| > 10% of the required weight, else "warning" |
| IssueDiamonds.AlertShownIff | components/issue-diamonds-modal.tsx:36-39 | the alert is shown iff the weights differ by at least 0.005 |
| IssueDiamonds.SeverityBounds | components/issue-diamonds-modal.tsx:36-55 | within 10% less the rounding it is a warning; beyond 10% plus the rounding it is an error |
| IssueDiamonds.IssueDiamondsForm.constructor | components/issue-diamonds-modal.tsx:28-33 | the actual weight starts at the required weight, so the difference is 0 and no alert is shown |
| IssueDiamonds.IssueDiamondsForm.SetActualWeight | components/issue-diamonds-modal.tsx:35-60 | the difference is the rounded deviation; the alert is shown iff it is non-zero, with the severity and message for it; a zero difference keeps the last type and text |
| IssueDiamonds.IssueDiamondsForm.SetQuality | components/issue-diamonds-modal.tsx:29 | only the quality changes |
| IssueDiamonds.IssueDiamondsForm.Issue | components/issue-diamonds-modal.tsx:62-71 | onIssue with orderId, actual weight, quality and the rounded difference, then onClose |
| MockDatabase.Hits | lib/db.ts:242-247 | one test per table, in test order, each `includes` of that table's "from" clause |
| MockDatabase.ExtractTable | lib/db.ts:242-247 | a named table's clause occurs in the text |
| MockDatabase.ChooseIsFirstHit | lib/db.ts:242-247 | the chain picks the first successful test, and no table iff none succeeds |
| MockDatabase.ExtractTableIsFirstMatch | lib/db.ts:238-247 | the table is the first of karigars, karigar_orders, clients, inventory, transactions, harvest_plans whose clause occurs; no table iff none does |
| MockDatabase.DbTable | lib/db.ts:78-91 | the hosted path names a table only for a query starting with "select" |
| MockDatabase.PathsAgreeOnSelect | lib/db.ts:78-91 | on a select query both paths name the same table |
| MockDatabase.TrimDoesNotMatter | lib/db.ts:78 | trimming never changes the table chosen |
| MockDatabase.OrdersQueryClassified | lib/db.ts:242-243 | "select * from karigar_orders" names karigar_orders, not karigars |
| MockDatabase.MockRows | lib/db.ts:129-236 | no rows iff no table is named |
| MockDatabase.QueryMockData | lib/db.ts:249-254 | the named table's rows, with rowCount their number |
| MockDatabase.QueryRowsIffTableNamed | lib/db.ts:238-254 | rowCount is 0 iff no table clause occurs in the normalised text |

## Left out

- Hosted-database access is not modelled: the Supabase query with its where-clauses, the error fallbacks, the `get*`/`update*`/`create*` helpers and `initDatabase`. This is network I/O. Only the table-name choice of the select path is modelled (`MockDatabase.DbTable`).
- The karigar screen's initial fetch and its realtime subscription are asynchronous I/O. The karigar and order lists are parameters.
- `KarigarManagement.ScheduleDialog.ScheduleOrder`: the date is sent as a day number, not formatted as "yyyy-MM-dd". `updateOk` stands for the awaited update succeeding.
- IEEE floating point is not modelled. Weights and charges are exact reals, `toFixed(2)` is rounding of the exact value, NaN from `parseInt`/`Number` is not represented, and the wheel segment is exactly 24/5 degrees.
- Number and date formatting (`toLocaleString`, `toFixed(1)` in messages, month names, ISO strings) is left out. `EditModals.DateField` takes the ISO conversion as a parameter.
- `IssueDiamonds.IssueDiamondsForm.SetActualWeight`: the alert message keeps its numbers (carats off, percentage off) but not its wording.
- Lower-casing is ASCII only, with no Unicode case mapping.
- React rendering and batching are left out. So is the stale-closure behaviour of the quick-command buttons, which call `handleSendMessage` right after `setInput`.
- Effects run together with the state change that triggers them. For example, `IssueGold.IssueGoldForm.SetGoldWeight` recomputes the value at once rather than after the next render.
- `StockManagement.StockManager.OpenEditModal`: the 12 separate draft fields are held as one `Draft` record, which is assigned in one step.
- `HarvestPlans.CreatePlanModal.SetStartMonth`: the month select offers only 1..12, so the model requires that range. `HarvestPlans.CreatePlanModal.SetDetails` takes the parsed numbers; a NaN from `parseInt` is not modelled.
- CSV report and HTML card downloads, `alert` texts apart from the required-field check, and all layout, styling and icons are left out.
- The hard-coded statistics objects and the initial sample data are left out. Initial lists are constructor parameters.
- `TransactionManager.PartyName` looks a party up by the selected party-type key. Known party types are whatever keys the registered map has.
- `MockDatabase.QueryMockData` ignores the query parameters, as the mock path does.
- `ClientManagement.FindContact` returns the client found by the contact button. The follow-up `handleContactClient` only logs, and is not modelled.
