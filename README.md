# Receipt assistant: split calculator, monthly aggregator and draft/history state

This project models the bookkeeping core of the receipt assistant, a two-person
expense tracker for 桓 (Huan) and 妍 (Yan). The core is the `App` component in
`App.tsx`. Receipt lines are kept as a draft per calendar day. Each line is
assigned to 桓, to 妍, or to 平分 (split). The day's totals are computed from the
draft. Settling a day turns the draft into a history record, and the month
view adds up the stored totals of that month's records.

Modules, in dependency order:

- `Types` (types.dfy): the records of `types.ts`. Also the three-way
  `CalculationResult` and its left fold `Sum`, with lemmas for concatenation,
  balance and order-independence.
- `Seqs` (seqs.dfy): the JavaScript operations the core uses:
  `filter`, `startsWith`, `substring(0, n)` and `split`. Comes with lemmas.
- `Calculator` (calculator.dfy): the `totals` computation. `Totals` is the
  specification. `ComputeTotals` is the imperative `forEach` loop, proved
  equal to `Totals`.
- `History` (history.dfy): `selectedHistoryRecords`, `isHistoryMode`,
  `monthlyTotals`, and the filter that deleting a record applies.
- `Drafts` (drafts.dfy): the value-level edits to a day's item list. These are
  appending extracted items, `updateItem`'s map and `removeItem`'s filter.
- `App` (app.dfy): the class `AppState`, holding `selectedDate`, `drafts`,
  `history` and the error banner. Each user action is a method.
  `SettleCoffeeAndSnack` is a client that walks through one settlement.

Outside calls are parameters of the methods:

- the receipt extractor's result is an `Option` of (name, amount) lines;
- the history store's save and delete are `bool` outcomes, and its fetch is an
  `Option`;
- the `confirm()` dialogs are `bool`s;
- `crypto.randomUUID()` is a fresh id the caller supplies.

### Where the code differs from what its types and its UI suggest

- Payer tags. `Payer` is the closed union `'桓' | '妍' | '平分'` (types.ts:2),
  but the `totals` code sends any payer other than 桓 or 妍 to the split branch.
  Here `Payer` is a closed type of three values, so the `else` branch is reached
  exactly by `Split`.
- The month key. `selectedHistoryRecords` and `isHistoryMode` use
  `selectedDate.substring(0, 7)`. `monthlyTotals` rebuilds the key from
  `selectedDate.split('-')` instead. `History.MonthPrefixOfIsoDate` proves that
  both keys are the first seven characters of any YYYY-MM-DD date. For some
  other strings they differ. `History.EmptyDateKeys` shows this for the empty string:
  `substring` gives "", which every record matches, while the split gives
  "-undefined".
- Read-only dates. When `isHistoryMode` holds, the inquiry tab shows the banner
  唯讀模式 (read-only mode, App.tsx:349-356). The code only gates `updateItem` and `removeItem`, and it gates them by month:
  any record in the selected month blocks both. Appending extracted items,
  clearing and settling are never gated.
- Snapshot isolation. The record snapshot is `[...items]`, a shallow copy.
  Edits replace item objects rather than mutate them. Here items are values, so
  a record can never change when the draft changes later.

## Model

| member | source | states |
|---|---|---|
| `Calculator.CeilHalf` | App.tsx:109 | `Math.ceil(a/2)` is the least c with a <= 2c, for every integer a |
| `Calculator.FloorHalf` | App.tsx:110 | `Math.floor(a/2)` is the greatest f with 2f <= a |
| `Calculator.HalvesSplitExactly` | App.tsx:109-112 | the two halves add up to the amount; 桓's half exceeds 妍's by a % 2, so the odd unit goes to 桓; both are non-negative for non-negative amounts |
| `Calculator.Share` | App.tsx:103-113 | one item adds its amount to the grand total. The two shares sum to the amount. 妍 gets nothing from a 桓 item and 桓 nothing from a 妍 item. A split gives 桓 at most one unit more than 妍 |
| `Calculator.Totals` | App.tsx:97-117 | the fold of `Share` over the items from first to last; no contract of its own: its meaning is stated by `Calculator.ComputeTotals` and the `Calculator.Totals…` lemmas below |
| `Calculator.ComputeTotals` | App.tsx:97-117 | the accumulating loop returns exactly `Totals(items)`, and its two shares add up to its total |
| `Calculator.TotalsEmpty` | App.tsx:98-100 | an empty list yields {0, 0, 0} |
| `Calculator.TotalsBalanced` | App.tsx:98-116 | for every item list, huanTotal + yanTotal == total |
| `Calculator.TotalsAppend` | App.tsx:102-114 | totals of a concatenation are the componentwise sum of the parts' totals |
| `Calculator.TotalsGrandIsSumOfAmounts` | App.tsx:103 | the grand total is the sum of all amounts, whatever the payers |
| `Calculator.TotalsOrderIrrelevant` | App.tsx:102-114 | any permutation of the items has the same totals |
| `Calculator.TotalsAllHuan` | App.tsx:104-105 | when 桓 pays every item, 桓's total is the full sum and 妍's is 0 |
| `Calculator.SplitExamples` | App.tsx:109-112 | a split 101 gives (51, 50); a split 100 gives (50, 50) |
| `Calculator.TotalsOfPair` | App.tsx:102-114 | a two-item list's totals are the two items' shares added up |
| `Calculator.CoffeeAndSnackExample` | App.tsx:97-117 | coffee 150 paid by 桓 plus a split snack of 101 gives 201 / 50 / 251 |
| `Seqs.Filter` | App.tsx:90 | `filter` keeps exactly the elements satisfying the predicate and never lengthens the list |
| `Seqs.FilterMultiset` | App.tsx:90 | filtering keeps every copy of a kept element and no copy of a dropped one |
| `Seqs.FilterConcat` | App.tsx:90 | filtering distributes over concatenation, so relative order is kept |
| `Seqs.FilterPermutation` | App.tsx:123 | filtering permuted inputs gives permuted outputs |
| `Seqs.FilterKeepsNone` | App.tsx:123 | when no element passes, the filter returns the empty list |
| `Seqs.FilterKeepsAll` | App.tsx:90 | when every element passes, the filter returns its input |
| `Seqs.StartsWith` | App.tsx:90 | `s.startsWith(p)` holds exactly when `p` is a prefix of `s`; it never holds for a prefix longer than the string |
| `Seqs.StartsWithPrefix` | App.tsx:90 | every string `p + t` starts with `p`, and every string starts with the empty prefix |
| `Seqs.Take` | App.tsx:90 | `substring(0, n)` returns the first n characters, or the whole string when it is shorter |
| `Seqs.SplitOn` | App.tsx:120 | `split(sep)` returns at least one part and no part contains the separator |
| `Seqs.JoinSplitOn` | App.tsx:120 | joining the parts of a split with the separator gives back the string |
| `Seqs.SplitOnAtSeparator` | App.tsx:120 | the text before the first separator is the first part |
| `History.MonthKey` | App.tsx:90 | the history-mode month key is the first seven characters of the date, or the whole date when it is shorter |
| `History.MonthPrefix` | App.tsx:120-121 | the key `monthlyTotals` rebuilds from `split('-')`; no contract of its own: `History.MonthPrefixOfIsoDate` shows it is the first seven characters of a YYYY-MM-DD date, and `History.EmptyDateKeys` that it is "-undefined" for the empty date |
| `History.MonthRecords` | App.tsx:123 | the records `monthlyTotals` adds up are exactly the history records whose date starts with the split-based month prefix |
| `History.MonthlyTotals` | App.tsx:119-130 | the `reduce` of the month records' stored totals; no contract of its own: its meaning is stated by `History.MonthlyTotalsIsMaskedSum`, `History.MonthlyTotalsNoMatch`, `History.MonthlyTotalsOrderIrrelevant` and `History.MonthlyTotalsBalanced` |
| `History.SelectedHistoryRecords` | App.tsx:89-91 | the selected records are exactly the history records whose date starts with the month key |
| `History.IsHistoryMode` | App.tsx:230 | history mode holds exactly when some record's date starts with the month key |
| `History.MonthlyTotalsIsMaskedSum` | App.tsx:119-130 | monthly totals are the componentwise sum of the stored huan/yan/grand totals of exactly the records dated in the month prefix; records of other months contribute nothing |
| `History.MonthlyTotalsNoMatch` | App.tsx:123-129 | a month without matching records has totals {0, 0, 0} |
| `History.MonthlyTotalsOrderIrrelevant` | App.tsx:123-129 | reordering the history does not change the monthly totals |
| `History.MonthlyTotalsBalanced` | App.tsx:125-129 | if every record of the month stores balanced totals, the month's totals balance |
| `History.MonthPrefixOfIsoDate` | App.tsx:90-121 | for a YYYY-MM-DD date the split-based prefix and the substring key are both its first seven characters |
| `History.SelectedAreMonthRecords` | App.tsx:89-123 | for a YYYY-MM-DD date, the records shown are the records summed |
| `History.EmptyDateKeys` | App.tsx:90-121 | for the empty date the substring key is "" and the split-based prefix is "-undefined" |
| `History.MarchExample` | App.tsx:119-123 | with reference date 2024-03-15, records dated 2024-03-01 and 2024-03-31 are summed in order and one dated 2024-02-28 is not |
| `History.WithoutRecord` | App.tsx:219 | after a delete, the history holds exactly the old records whose id differs |
| `History.WithoutRecordCounts` | App.tsx:219 | deleting removes every copy of a record with the id and keeps every copy of the others |
| `History.WithoutRecordKeepsOrder` | App.tsx:219 | deleting keeps the order of the remaining records and leaves a history without that id unchanged |
| `Drafts.NewItems` | App.tsx:146-151 | the extracted lines become items one for one, in extraction order, each with its fresh id, its name and amount, and payer 桓 |
| `Drafts.AppendedTotals` | App.tsx:146-152 | appending extracted items adds their whole sum to 桓's total and to the grand total, and nothing to 妍's |
| `Drafts.ItemsFor` | App.tsx:39 | the draft stored for a date, and `[]` for a date without one; a lookup with no contract of its own |
| `Drafts.Patched` | App.tsx:166 | `{ ...item, ...updates }`: every field the patch carries takes the patched value; every other field is kept, so the empty patch leaves the item as it is |
| `Drafts.PatchedIdempotent` | App.tsx:166 | applying the same patch twice is the same as applying it once |
| `Drafts.UpdateById` | App.tsx:166 | the list keeps its length and order; an item whose id matches is patched field by field and every other item is unchanged |
| `Drafts.UpdateByIdNoMatch` | App.tsx:166 | an id no item carries leaves the list as it is |
| `Drafts.UpdatePayerKeepsGrandTotal` | App.tsx:164-166 | changing an item's payer never changes the grand total |
| `Drafts.SameAmountsSameSum` | App.tsx:103 | two lists whose amounts agree position by position have the same amount sum |
| `Drafts.WithoutItem` | App.tsx:171 | after removal the draft holds exactly the old items whose id differs |
| `Drafts.WithoutItemCounts` | App.tsx:171 | removal drops every copy of an item with the id and keeps every copy of the others |
| `Drafts.WithoutItemKeepsOrder` | App.tsx:171 | removal keeps the remaining items in order and leaves a list without that id unchanged |
| `App.AppState.constructor` | App.tsx:34-53 | the state starts from the cached drafts and history, each empty when nothing was cached, with no error |
| `App.AppState.Items` | App.tsx:39 | the selected day's draft, `ItemsFor(drafts, selectedDate)`; no contract of its own |
| `App.AppState.HistoryMode` | App.tsx:230 | the state is in history mode exactly when some stored record's date starts with the selected date's month key |
| `App.AppState.MonthTotals` | App.tsx:119-130 | the month view's totals are the masked sum of the stored totals of the records dated in the selected month's prefix |
| `App.AppState.DayTotals` | App.tsx:93-117 | the day view's totals always balance |
| `App.AppState.SelectDate` | App.tsx:267 | picking a date changes only the selected date |
| `App.AppState.SyncHistory` | App.tsx:71-81 | a fetched history replaces the cache; a failed fetch leaves it; nothing else changes |
| `App.AppState.SetItems` | App.tsx:40-48 | only the selected date's draft is replaced; every other date's draft, the history and the error are unchanged |
| `App.AppState.UploadReceipt` | App.tsx:132-160 | with no file nothing changes. Otherwise the error is cleared. On success the new items follow the existing draft. On failure the draft is unchanged and an analysis error is shown |
| `App.AppState.UpdateItem` | App.tsx:164-167 | in history mode the drafts are unchanged; otherwise only the selected draft is replaced by its patched version |
| `App.AppState.RemoveItem` | App.tsx:169-172 | in history mode the drafts are unchanged; otherwise only the selected draft loses the items with that id |
| `App.AppState.ClearItems` | App.tsx:174-180 | a non-empty draft becomes empty when the user confirms; otherwise the drafts are unchanged |
| `App.AppState.CompleteSettlement` | App.tsx:182-212 | see the note below the table |
| `App.AppState.DeleteHistoryRecord` | App.tsx:214-228 | unconfirmed: the history is unchanged. Confirmed and deleted: the history loses every record with the id. Failed: the history is unchanged and a delete error is shown. No element of the component's JSX calls `deleteHistoryRecord`, so the shipped UI cannot reach it |
| `App.SettleCoffeeAndSnack` | App.tsx:182-212 | settling coffee 150 for 桓 plus a split snack of 101 puts one record in front of the history, storing 201 / 50 / 251 and both items; a receipt uploaded afterwards fills the emptied draft and the stored record stays as saved |

`App.AppState.CompleteSettlement` covers three cases:

- An empty draft or a declined confirm changes nothing.
- When the save succeeds, a record goes in front of the history. Its date is
  the selected date. Its stored totals are `Totals(items)` and balance. Its
  item count is the draft's length, and its items are the draft. Then the
  day's draft becomes empty.
- When the save fails, the drafts and the history are unchanged and a save
  error is shown.

## Left out

- The JSX rendering, icons, CSS and tab switching are UI, so they are left out.
  The model takes `totals` over the draft items. The settle button exists only
  on the register tab, and there the component's `displayItems` are the draft
  items.
- The `localStorage` effects are browser I/O and are left out. The cached
  drafts and history are only the constructor's inputs. Nothing is written
  back, because the cache mirrors the in-memory state.
- Stepping the date by a day or a month, and computing today's date, rely on JS
  `Date` and time-zone semantics. They are left out; `SelectDate` takes any
  string, and the constructor takes today's date as a parameter.
- `supabase.ts` is not part of this model. The history store's save, fetch and
  delete are success/failure parameters. Its two-step insert is not atomic;
  that is the store's concern.
- `ollamaService.ts` is not part of this model. It is an HTTP call plus parsing
  of the model's reply. Its result is an arbitrary list of (name, amount) lines,
  or a failure.
- `server.js` and `vite.config.ts` are proxy and build configuration, so they are
  left out.
- Amounts are integers. The non-integer or `NaN` amounts that
  `Number(e.target.value)` can produce are floating point and are not modelled.
  Neither is the limit of exact integers in a JS number.
- `async`/`await` interleaving, the `isAnalyzing` flag, `previewImage`, the
  `alert` texts and the wording of error messages are concurrency and UI. Each
  action is one atomic step. The error banner is modelled only by its cause.
- `Seqs.Take` counts Unicode scalar values, while JavaScript's `substring` counts
  UTF-16 code units. The two agree on the ASCII dates the date input produces;
  strings with characters outside the Basic Multilingual Plane are not modelled.
- Fresh ids stand for `crypto.randomUUID()` and are fresh by assumption. The
  model neither checks nor relies on their uniqueness, just as the source does
  not.
