# gofinance: registration and monthly category summary

A Dafny model of the two pieces of data logic in the gofinance mobile app.

- **Record store** (`record_store.dfy`). Each user's transactions live under the storage key
  `"@gofinances:transactions_user:" + userId`. A missing key reads as an empty list. Saving
  writes back the current list with the new record added at the end.
- **Monthly category summary** (`resume.dfy`, the "Resumo por Categoria" screen). `loadData`
  is meant to keep the stored records that are expenses (`negative`) of the selected month and
  year, and total them (line 76 calls `.fiter` instead of `filter`; see Findings). It then walks the fixed category list in order. For each category it adds up
  that category's expenses and emits a row (key, name, color, total, percent) when the sum is
  positive. The previous/next buttons move the selected month by one.
- **Transaction registration** (`register.dfy`, the "Cadastro" screen). The form schema
  requires a name and a numeric, strictly positive amount. `handleRegister` refuses the
  attempt when no type has been chosen; its category guard is meant to refuse an unchosen
  category but does not (see Findings). Otherwise it builds the record, appends
  it to the user's list and resets the type and category to their placeholders.

`finance.dfy` holds the shared data model.

- Amounts are whole numbers of cents (`nat`).
- A record's timestamp is kept as its `(month, year)` pair. Months are numbered 0 to 11, as
  `Date.getMonth` numbers them.
- Storage is a `map` from key to the already-parsed list of records.

`ResumeScreen` and `RegisterScreen` are classes holding each screen's state fields. Their
methods update those fields in place. The per-category pass is a method with the source's two
nested loops. It is proved equal to the function `TotalByCategory`, and the summary's
properties are proved about that function.

The storage key is `@gofinances:transactions_user:` followed by the user id, for both reading
and writing.

The source's category guard compares the category's name with `'category'`, so it never refuses
the unchosen placeholder. `Register.NewRecordAsWritten` models that guard as written. The
registration screen (`RegisterScreen`) uses the corrected guard `Register.NewRecord`, which
compares the key. See Findings below.

## Model

| member | source | states |
|---|---|---|
| `Finance.SumAppend` | src/screens/Resume/index.tsx:82-85 | The expense total (a left fold of the amounts) of a concatenation is the sum of the parts' totals. |
| `Finance.Sum` | src/screens/Resume/index.tsx:82-85 | The `reduce` total of the month's expenses: 0 for no records, and at least every single record's amount. |
| `RecordStore.DataKey` | src/screens/Register/index.tsx:103 | The key is the `@gofinances:transactions_user:` prefix followed by exactly the user id. |
| `RecordStore.DataKeyInjective` | src/screens/Register/index.tsx:103 | Different users get different keys, so a user's list is namespaced away from every other user's. |
| `RecordStore.Load` | src/screens/Resume/index.tsx:70-72 | The list stored under the user's key; an absent key reads as the empty list. |
| `RecordStore.Append` | src/screens/Register/index.tsx:105-113 | After saving, the user's key is present, no other key appears, and every other key keeps its list. |
| `RecordStore.AppendExtends` | src/screens/Register/index.tsx:108-111 | After saving, the user's list is one longer, its prefix is the old list unchanged and in order, and its last element is the new record; a missing key counts as empty. |
| `RecordStore.AppendIsolated` | src/screens/Register/index.tsx:103-113 | Saving for one user leaves what any other user loads unchanged. |
| `Resume.AddMonth` | src/screens/Resume/index.tsx:60-61 | The next month is exactly one month later in absolute month count (December goes to January of the next year). |
| `Resume.SubMonth` | src/screens/Resume/index.tsx:62-63 | The previous month is exactly one month earlier in absolute month count. |
| `Resume.NavigationRoundTrip` | src/screens/Resume/index.tsx:58-65 | `next` then `prev`, and `prev` then `next`, return the same (month, year). |
| `Resume.DecemberWraps` | src/screens/Resume/index.tsx:60-61 | `next` from December is January of the following year, and `prev` undoes it. |
| `Resume.Expenses` | src/screens/Resume/index.tsx:75-80 | A record is kept iff it is in the stored list, has type `negative`, and has the selected month and year; the result is no longer than the input. |
| `Resume.ExpensesAppend` | src/screens/Resume/index.tsx:75-80 | Filtering distributes over concatenation, so kept records stay in their original order. |
| `Resume.ExpensesSingle` | src/screens/Resume/index.tsx:76-79 | A single record is kept exactly when it is an expense of the selected month. |
| `Resume.ExpensesAsWritten` | src/screens/Resume/index.tsx:75-76 | The `.fiter` call as written always throws a TypeError, whatever is stored. |
| `Resume.FiterAbortsLoad` | src/screens/Resume/index.tsx:75-80 | As written even an empty store yields no expense list, where the intended `filter` yields `[]`. |
| `Resume.SpendIn` | src/screens/Resume/index.tsx:92-96 | The spend filed under a set of keys is at most the expense total, and equals it when every expense's key is in the set. |
| `Resume.CategorySpend` | src/screens/Resume/index.tsx:90-96 | The `categotySum` accumulator: at most the expense total, all of it when every expense has this key, and 0 when none has it. |
| `Resume.SpendSplit` | src/screens/Resume/index.tsx:89-96 | The spend over a key set plus one new key is the old spend plus that key's category sum. |
| `Resume.Percent` | src/screens/Resume/index.tsx:105 | The percent is the share of the total, rounded to nearest with halves up: `(2p-1)·total <= 200·part < (2p+1)·total`; it is at most 100 when part <= total. |
| `Resume.TotalByCategory` | src/screens/Resume/index.tsx:87-116 | At most one row per category; every row's total is positive, equals the spend on its key, and is at most the expense total; its percent is the rounded share; any row implies a positive expense total (no division by zero). |
| `Resume.ComputeTotalByCategory` | src/screens/Resume/index.tsx:87-116 | The nested `forEach` passes with the accumulator and `push` compute exactly `TotalByCategory`. |
| `Resume.RowsFollowCategories` | src/screens/Resume/index.tsx:89-114 | Rows copy key, name and color from categories at strictly increasing positions, so rows follow the category order, at most one per category; every category with positive spend has a row. |
| `Resume.RowsTotalIsKnownSpend` | src/screens/Resume/index.tsx:87-116 | With distinct category keys, the row totals add up to the spend over the known keys. |
| `Resume.RowsTotalBounded` | src/screens/Resume/index.tsx:87-116 | With distinct category keys, the row totals are at most the expense total, and equal it when every expense's category is a known key. |
| `Resume.PercentBounds` | src/screens/Resume/index.tsx:105 | Summed over the rows, each percent is within half a point of the exact share. |
| `Resume.PercentsNearHundred` | src/screens/Resume/index.tsx:105 | When every expense has a known (distinct) key and there are rows, the percents sum to 100 within half a point per row. |
| `Resume.Summary` | src/screens/Resume/index.tsx:74-116 | The whole `loadData` pipeline on a stored list: an empty list gives no rows; there are no more rows than categories; each row's total is positive, equals its key's spend among the month's expenses, and is at most their total. |
| `Resume.NoExpensesNoRows` | src/screens/Resume/index.tsx:98 | With no expenses no category reaches a positive sum, so there are no rows. |
| `Resume.MissingDataYieldsNoRows` | src/screens/Resume/index.tsx:70-72 | A user with nothing stored sees an empty breakdown. |
| `Resume.RegisteredRecordInSummary` | src/screens/Register/index.tsx:108-111 | After a save, the user's month expenses are the old ones plus the new record at the end iff it is an expense of that month; other users' lists are unchanged. |
| `Resume.FoodExpenses` | src/screens/Resume/index.tsx:74-85 | In the worked example the month's expenses are the two "food" records, in stored order, totalling 40. |
| `Resume.FoodScenario` | src/screens/Resume/index.tsx:74-116 | Expenses of 10 and 30 under "food" next to an income of 1000 give a total of 40 and the single row food/40/100%. |
| `Resume.ResumeScreen.constructor` | src/screens/Resume/index.tsx:50-52 | The screen starts on the given current month, not loading, with no rows. |
| `Resume.ResumeScreen.HandleDateChange` | src/screens/Resume/index.tsx:58-65 | `next` sets the selection to the following month and `prev` to the previous one; nothing else changes. |
| `Resume.ResumeScreen.LoadData` | src/screens/Resume/index.tsx:67-120 | The rows become the breakdown of the selected month's expenses from the user's stored list; loading ends false and the selection is unchanged. |
| `Register.Validate` | src/screens/Register/index.tsx:37-47 | A form is accepted iff the name is non-empty and the amount is numeric and strictly positive; a rejection names every failing field: name required; amount required, not numeric, or not positive. |
| `Register.NewTransaction` | src/screens/Register/index.tsx:92-99 | The record carries the form's name and amount, the chosen type, the category's key (not its name), and the supplied id and date. |
| `Register.NewRecordAsWritten` | src/screens/Register/index.tsx:84-99 | As written, the attempt fails without a type, and the category guard fails only for a category whose name is `category`. |
| `Register.PlaceholderPassesGuardAsWritten` | src/screens/Register/index.tsx:88-90 | As written, the unchosen placeholder `{key:'category', name:'Categoria'}` passes the guard and is saved under key `category`; the corrected guard refuses it. |
| `Register.NewRecord` | src/screens/Register/index.tsx:84-99 | An empty type is refused with the type alert, the placeholder category with the category alert; otherwise the record is built from the form. |
| `Register.SavedRecordWellFormed` | src/screens/Register/index.tsx:92-111 | A record that passes the guards has a positive amount and a chosen category, so saving keeps such a list in that shape. |
| `Register.RegisterScreen.constructor` | src/screens/Register/index.tsx:50-58 | A new form has no type and the placeholder category. |
| `Register.RegisterScreen.EditName` | src/screens/Register/index.tsx:139-146 | Typing a name changes only the name field. |
| `Register.RegisterScreen.EditAmount` | src/screens/Register/index.tsx:148-155 | Typing an amount changes only the amount field. |
| `Register.RegisterScreen.HandleTransactionsTypesSelect` | src/screens/Register/index.tsx:71-73 | Choosing a type sets it and changes nothing else. |
| `Register.RegisterScreen.SetCategory` | src/screens/Register/index.tsx:185-189 | The picker's callback sets the category and changes nothing else. |
| `Register.RegisterScreen.HandleRegister` | src/screens/Register/index.tsx:83-128 | A refused attempt reports its alert and changes nothing. A save appends the record to the user's list, clears the fields, and resets the type to empty and the category to the placeholder. Well-formed stored lists stay well formed. |
| `Register.RegisterScreen.Submit` | src/screens/Register/index.tsx:176-181 | The schema runs first: invalid fields change nothing. A valid form then goes through `HandleRegister`'s guards. A refusal reports its alert and changes nothing. A save appends the record (the form's name and amount, the type, the chosen key) to the user's list and resets the fields, type and category. |

## Left out

- AsyncStorage I/O, JSON parse/stringify and the un-awaited `setItem` are not modelled. Storage is a map of parsed lists, and a save takes effect at once. The `catch` branch is unreachable in the model: "Não foi possível salvar." can never be raised.
- Overlapping loads under quick month navigation are not modelled. That race is about async ordering, and each load here runs to completion.
- `Register.RegisterScreen.HandleRegister` uses the corrected category guard (`Register.NewRecord`, testing the key) rather than the name test the source has. A form whose category was never chosen is therefore refused here, where the source saves it under `'category'`. The ensures that stored lists stay well formed (no record under the placeholder key) holds only because of that correction; the same applies to `Register.RegisterScreen.Submit` and `Register.SavedRecordWellFormed`.
- `Resume.ResumeScreen.HandleDateChange` only moves the selection. The reload that `useFocusEffect` triggers on every change of `selectedDate` is wiring left to the caller, who calls `Resume.ResumeScreen.LoadData` next.
- `Resume.ResumeScreen.LoadData` does not model the `isLoading` spinner as seen during the await. Only its final value, `false`, is modelled.
- `Number(...)` on strings and floating-point division are not modelled. Amounts are integer cents. The percent is the exact rounded share, without the floating-point error of `toFixed(0)`.
- The `' NN%'` percent string and the BRL `toLocaleString` total are presentation and are not modelled.
- Dates are not modelled through date-fns or `Date`. A date is a (month, year) pair, so day clamping in `addMonths`/`subMonths`, time zones and month-name formatting are absent.
- `uuid.v4()` ids, `new Date()` timestamps and the signed-in user are parameters.
- The fixed category list (`src/utils/categories`) is not part of this model. It is a parameter. Properties that depend on its keys being distinct require `DistinctKeys`.
- The form-library internals are not modelled: `react-hook-form`'s `reset` and Yup's messages and casting beyond the name/amount rule. Amounts reach the schema already cast to `NotNumeric` or a number of cents, and whitespace-only names are accepted.
- Alerts are not shown as dialogs. Each becomes the returned message.
- Navigation to 'Listagem' is not modelled.
- The category modal's open/close flags are not modelled.
- The Dashboard's entries/expenses/net highlight aggregation is not modelled: that screen renders a hard-coded list. The sign-in screen, the highlight card, the app wiring, and the chart and history-card rendering are not modelled either.

## Findings

| source | as written | input that shows it | evidently intended | confidence | as-written member | corrected member |
|---|---|---|---|---|---|---|
| src/screens/Register/index.tsx:88 | `category.name === 'category'`; the placeholder's name is `'Categoria'` | type chosen, category never chosen: the record is saved with category `'category'` | compare the placeholder's key, `category.key === 'category'` | high, not executed | `Register.NewRecordAsWritten` (shown by `Register.PlaceholderPassesGuardAsWritten`) | `Register.NewRecord` |
| src/screens/Resume/index.tsx:76 | `responseFormatted.fiter(...)`: arrays have no `fiter`, so the call throws and `loadData` never finishes (the spinner stays on) | any stored list, including none (shown by `Resume.FiterAbortsLoad`) | `filter` | high, not executed | `Resume.ExpensesAsWritten` | `Resume.Expenses` |
