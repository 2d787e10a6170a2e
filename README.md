# my-finances-web: optimistic debt cache, cell edit state and form checks

This project models, in Dafny, the logic the authors of the my-finances-web client wrote
themselves around their libraries:

- the query cache entries `['debts', { period }]`, held as a class `DebtsQueryCache` whose
  field maps a period id to its cached `seq<Debit>` (plus the set of invalidated periods);
- the `useDebitCache` hook (`updateCache` merges a partial record into the entry with a
  matching id, `revertCache` writes back the snapshot taken when the hook ran);
- the "new debt" dialog: its form schema, the optimistic append of a pending debt, the
  rollback when the server refuses it, and the form reset after success;
- the table cell: `updateDebitSchema`, double-click entry, the blur that validates and then
  hides the input and issues an update, and the update's optimistic `onMutate`;
- the jotai atoms: `periodIdAtom` and `cellAtomFamily` with its partial-merge writer,
  held as a class `Store`;
- the "new period" dialog's end-after-start rule and its calendar range selection;
- the CSV import dialog's file checks, its early return and its invalidation on success;
- `isUnauthorizedError` (401 Unauthorized and 403 Forbidden, sections 15.5.2 and 15.5.4
  of RFC 9110) and `setCookies`.

Modules follow the source files: `Debts` (the record and the merge-by-id list update),
`QueryCache`, `UseDebitCache`, `TableStore`, `TableCell`, `CreateDebitDialog`,
`CreatePeriodDialog`, `ImportCsvDialog`, `Axios`, and `Wrappers` for `Option`/`Result`.

Modelling choices:

- Dates are integer timestamps; amounts are integers. Form amounts are whole currency units
  and the stored amount is units × 100 (cents).
- The cache's `setQueryData` follows the query library: a value of `undefined` (an absent
  list, or an updater returning `undefined`) leaves the entry as it is, and a write clears
  the entry's invalidation. `invalidateQueries` marks the period stale and keeps its data;
  the refetch itself is a network call.
- Generated ids (`Math.random()`), `new Date()` and the server's answer (`serverAccepts`)
  are parameters. The new debt's `createdAt` and `updatedAt` come from two separate clock
  reads, so they are two parameters and may differ.
- A description's length is JavaScript's `.length`, counted in UTF-16 code units: a
  character outside the Basic Multilingual Plane counts twice.
- `z.coerce.number()` on a cell's text is modelled for integer notation: the empty text is
  0, an optional sign may precede one or more digits, anything else is NaN.
- Optimistic writes are meant to be rolled back when the server refuses the mutation, but
  the inline edit's mutation has no error handler: a refused update leaves the optimistic
  value in the cache. The model follows the code; only the new-debt dialog rolls back.
- A refused debt creation is meant to leave the cache exactly as before. The code does not
  when nothing was cached for the period (see Findings); `CreateDebitDialog.Submit` uses the
  corrected rollback, and `ImportCsvDialog.Submit` the corrected file check.

## Model

| member | source | states |
|---|---|---|
| `Debts.Merge` | src/components/payment-table/use-debit-cache.ts:19-24 | `{...item, ...data}`: every field present in the patch is taken, every absent field is kept, and the id is never changed |
| `Debts.MergeIdempotent` | src/components/payment-table/use-debit-cache.ts:20-23 | spreading the same patch twice equals spreading it once |
| `Debts.UpdateById` | src/components/payment-table/use-debit-cache.ts:18-27 | the list `map` keeps the list's length |
| `Debts.UpdateByIdAt` | src/components/payment-table/use-debit-cache.ts:18-27 | at each position the entry with the matching id is merged with the patch and every other entry is returned unchanged |
| `Debts.UpdateByIdSpec` | src/components/payment-table/use-debit-cache.ts:18-27 | same length and order, same ids, entries with another id unchanged, matching entries merged |
| `Debts.UpdateByIdAbsent` | src/components/payment-table/use-debit-cache.ts:18-27 | when no entry has the id, the list comes back unchanged |
| `Debts.UpdateByIdIdempotent` | src/components/payment-table/use-debit-cache.ts:18-27 | applying the same update twice gives the list one application gives |
| `QueryCache.DebtsQueryCache.SetQueryData` | src/components/payment-table/use-debit-cache.ts:17-28 | a present value replaces the key's list and clears its invalidation; an absent value changes nothing; other keys are untouched |
| `QueryCache.DebtsQueryCache.InvalidateQueries` | src/components/import-csv-dialog.tsx:61-63 | the key is marked stale and no cached list changes |
| `UseDebitCache.DebitCacheHook.constructor` | src/components/payment-table/use-debit-cache.ts:7-12 | the hook is bound to the current period's key and snapshots the list cached under it |
| `UseDebitCache.DebitCacheHook.UpdateCache` | src/components/payment-table/use-debit-cache.ts:14-31 | returns the list as it was before the write; stores the list with the matching entry merged; without a cached list nothing is stored; other keys untouched |
| `UseDebitCache.DebitCacheHook.RevertCache` | src/components/payment-table/use-debit-cache.ts:33-35 | a present snapshot is the key's list afterwards, whatever was written in between; an absent snapshot changes nothing |
| `UseDebitCache.EditThenRevert` | src/components/payment-table/use-debit-cache.ts:12-35 | during an update the list keeps its length and every entry with another id; after the revert the key holds the snapshot again |
| `TableStore.InitialCell` | src/store/table.ts:16-20 | a fresh cell state is `{id: cellId, showInput: false, inputState: ''}` |
| `TableStore.MergeCell` | src/store/table.ts:21-25 | fields present in the partial take its values, absent fields keep the stored ones |
| `TableStore.MergeCellTwice` | src/store/table.ts:21-25 | two writes in a row equal one write of their combination, the later write winning per field |
| `TableStore.Store.constructor` | src/store/table.ts:12-20 | `periodIdAtom` starts as the empty string and every cell reads as its initial state |
| `TableStore.Store.SetPeriodId` | src/components/payment-table/index.tsx:101-103 | the selected period changes and no cell state does |
| `TableStore.Store.WriteCell` | src/store/table.ts:14-26 | the written cell becomes its stored state merged with the partial; every other cell id and the period id are unchanged |
| `TableCell.EditableColumn` | src/components/payment-table/table-cell.tsx:32 | exactly the columns `amount` and `description` are editable |
| `TableCell.ShowsInput` | src/components/payment-table/table-cell.tsx:105 | the input is shown if and only if `showInput` is set and the column is editable |
| `TableCell.CoerceNumberToString` | src/components/payment-table/table-cell.tsx:23-24 | coercing the text of an integer gives that integer back |
| `TableCell.Utf16Length` | src/components/payment-table/table-cell.tsx:28 | JavaScript's `.length`: between one and two code units per character |
| `TableCell.Utf16LengthBmp` | src/components/payment-table/table-cell.tsx:28 | a text of Basic Multilingual Plane characters has as many code units as characters |
| `TableCell.ParseUpdate` | src/components/payment-table/table-cell.tsx:21-29 | a description is accepted if and only if it has at least 3 UTF-16 code units; an amount if and only if it coerces to a number that is not negative, and it is then stored ×100; the id is carried over; a negative amount is refused as such |
| `TableCell.SurrogatePairCountsTwice` | src/components/payment-table/table-cell.tsx:28 | a letter followed by an emoji is long enough to be accepted as a description |
| `TableCell.EditedAmountRoundTrip` | src/components/payment-table/table-cell.tsx:23-27 | an amount in whole units, shown as text and parsed back unedited, stores the same cents |
| `TableCell.SpreadIsMerge` | src/components/payment-table/table-cell.tsx:58-63 | on the matched entry, `{...debit, ...data}` (which also copies `data.id`) is the merge of the update's fields |
| `TableCell.OnMutate` | src/components/payment-table/table-cell.tsx:48-70 | without a cached list nothing changes; otherwise the matching entry gets the edited field and the other entries and the length stay |
| `TableCell.DoubleClick` | src/components/payment-table/table-cell.tsx:103 | sets `showInput` on this cell only |
| `TableCell.ChangeInput` | src/components/payment-table/table-cell.tsx:111-115 | stores the typed text in this cell only |
| `TableCell.HandleBlur` | src/components/payment-table/table-cell.tsx:75-92 | invalid text is reported and changes no state, `showInput` included, and issues nothing; valid text clears `showInput`, issues exactly one update with the parsed data and applies it optimistically to the current period's list, leaving every other period's list alone |
| `CreateDebitDialog.ValidateForm` | src/components/create-debit-dialog.tsx:28-35 | accepted if and only if the description is not empty and the amount is not negative; each failing field is reported; an accepted amount is ×100 |
| `CreateDebitDialog.PendingDebit` | src/components/create-debit-dialog.tsx:60-69 | the synthesised debt is pending, without expiry, in the current period, with the submitted amount and description; its two dates are the two clock reads |
| `CreateDebitDialog.AppendPending` | src/components/create-debit-dialog.tsx:71-74 | one entry longer, the new debt last, the old list as the prefix; an absent list gives a one-element list |
| `CreateDebitDialog.UpdateDebitCache` | src/components/create-debit-dialog.tsx:52-77 | returns the old list and stores it with the pending debt appended |
| `CreateDebitDialog.OnMutate` | src/components/create-debit-dialog.tsx:82-89 | performs the append and keeps the pre-write list as the context |
| `CreateDebitDialog.OnError` | src/components/create-debit-dialog.tsx:91-96 | a present snapshot is written back under the same key; an absent one changes nothing |
| `CreateDebitDialog.FailedCreateKeepsOptimisticRow` | src/components/create-debit-dialog.tsx:82-96 | with nothing cached, a refused create leaves a one-element list behind |
| `CreateDebitDialog.RestoreSnapshot` | src/components/create-debit-dialog.tsx:91-96 | the corrected rollback: afterwards the key reads exactly as the snapshot, absent or not |
| `CreateDebitDialog.Submit` | src/components/create-debit-dialog.tsx:99-112 | (corrected: uses `RestoreSnapshot`) invalid input issues nothing; success keeps the appended debt and resets the form to amount 0 and an empty description, which is refused if submitted again; failure restores the cache as it was |
| `CreatePeriodDialog.ValidatePeriod` | src/components/create-period-dialog.tsx:37-56 | valid if and only if the end is strictly after the start; otherwise exactly one custom issue with the message "A data final deve ser depois da data inicial" |
| `CreatePeriodDialog.SelectRange` | src/components/create-period-dialog.tsx:135-141 | a missing `from` keeps the previous start, a missing `to` the previous end; present ends replace them |
| `CreatePeriodDialog.SelectRangeIdempotent` | src/components/create-period-dialog.tsx:135-141 | reporting the same selection twice changes nothing more |
| `CreatePeriodDialog.StartOnlySelectionPastEndIsRefused` | src/components/create-period-dialog.tsx:44-56 | choosing only a start at or after the current end makes the period invalid |
| `ImportCsvDialog.CheckFileAsWritten` | src/components/import-csv-dialog.tsx:26-37 | a missing file fails both checks, "Informe um arquivo válido" first; a first entry of another type fails with "O arquivo deve ser do tipo csv"; an empty list throws |
| `ImportCsvDialog.CheckFile` | src/components/import-csv-dialog.tsx:26-37 | the corrected check never throws, accepts exactly a first entry of type `text/csv`, and agrees with the written one on non-empty lists |
| `ImportCsvDialog.EmptySelectionThrows` | src/components/import-csv-dialog.tsx:34-36 | the empty list throws as written and is refused as not CSV by the corrected check |
| `ImportCsvDialog.OnSubmit` | src/components/import-csv-dialog.tsx:69-80 | no file means no import; otherwise the field `csv` is the first selected file, for the current period |
| `ImportCsvDialog.Submit` | src/components/import-csv-dialog.tsx:57-88 | (corrected: uses `CheckFile`) a refused file sends nothing; a successful import only invalidates the current period's debts and writes no rows; no path changes a cached list |
| `Axios.IsUnauthorizedError` | src/lib/axios.ts:8-9 | true if and only if there is a response with status 401 or 403; false without a response |
| `Axios.SetCookies` | src/lib/axios.ts:12-16 | sets `Cookie` to the given string on the same object, returns that object, and leaves every other field unchanged |

## Findings

| source | as written | input that shows it | evidently intended | confidence | as-written member | corrected member |
|---|---|---|---|---|---|---|
| src/components/create-debit-dialog.tsx:91-96 | `onError` writes the snapshot back with `setQueryData`, which ignores `undefined` | no debts cached for the period, then a create the server refuses | the cache afterwards equals the pre-mutation snapshot | medium, not executed (rests on the query library ignoring `undefined`) | `CreateDebitDialog.FailedCreateKeepsOptimisticRow` | `CreateDebitDialog.RestoreSnapshot` |
| src/components/import-csv-dialog.tsx:34 | `value?.[0].type` reads `.type` of `undefined` when the list is empty and throws | an empty file list (a cancelled file picker) | a validation message, no exception | medium, not executed | `ImportCsvDialog.EmptySelectionThrows` | `ImportCsvDialog.CheckFile` |

## Left out

- The HTTP calls in src/api/: each is one request. The server's answer is the `serverAccepts` parameter.
- The response interceptor that redirects to sign-in, the session provider and the app layout: framework wiring and routing.
- The URL query-string hook, the number-input wrapper, the table's sorting, filtering, pagination and column visibility, and the server-rendered payments page: library behaviour and rendering.
- Floating-point amount scaling (`toFixed(2)`, `/ 100`, `parseFloat`, `Intl`): amounts are integers; form amounts are whole units.
- TableCell.ParseUpdate: its text coercion reads fractions, exponents, surrounding whitespace, hexadecimal and `Infinity` as NaN, while JavaScript's `Number` accepts them.
- The cell's `useEffect` that fills `inputState` with `String` of the displayed value: that value is a floating-point quotient.
- Races between overlapping optimistic mutations on the same key: they come from asynchronous interleaving, which the code does not coordinate.
- Toasts, `revalidatePath`, the dialogs' open/close state, form-library reset mechanics beyond the reset values, and default dates taken from the current time.
- A status toggle guarded against double submission and a check for overlapping periods are not part of this revision of the code, so neither is modelled.
