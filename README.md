# Expense tracker: store, dashboard and editors, in Dafny

This project models the client-side core of a personal expense tracker
(a Next.js application). The model covers these parts:

- the persisted store (`app/store/useStore.ts`), with its three fields
  `transactions`, `categories` and `settings` and its six actions;
- the domain types (`app/types/index.ts`);
- the background-image registry (`app/utils/backgroundImages.ts`);
- the home page's filter, totals, year list and add-transaction form
  (`app/page.tsx`);
- the transaction editor dialog (`app/components/TransactionModal.tsx`);
- the categories page's two forms (`app/categories/page.tsx`);
- the currency-symbol and sign rules of the details dialog
  (`app/components/TransactionDetailsModal.tsx`).

## Layout

| file | module | models |
|---|---|---|
| `seqs.dfy` | `Seqs` | `Option`, plus `filter` and `find` as functions over sequences, with their order and membership lemmas |
| `numbers.dfy` | `JsNumbers` | JavaScript numbers as `Finite(real)` or `NaN`, `+`, and `parseFloat` on decimal text |
| `types.dfy` | `Types` | `TxType` (the source's `TransactionType`), `Category`, `Date`, `Transaction`, `Currency`, `Language`, `AppSettings`, and category lookup by id |
| `background_images.dfy` | `BackgroundImages` | the four-entry registry and its three lookups |
| `store.dfy` | `Store` | the `Store` class with its six actions, and the pure map and filter they apply |
| `dashboard.dfy` | `Dashboard` | the filter, the totals, the year list, and the `HomePage` class holding the add-transaction draft |
| `transaction_editor.dfy` | `TransactionEditor` | the amount-text check, the save decision, and the `TransactionEditor` class holding the dialog's draft |
| `categories_page.dfy` | `CategoriesPage` | the `CategoriesPage` class with its new-category and editing drafts |
| `transaction_details.dfy` | `TransactionDetails` | `getCurrencySymbol` and the amount sign |

Mutable state takes the form of classes whose methods state the new state
exactly:

- the store object;
- the home page's `newTransaction` draft;
- the editor's `transaction` draft;
- the categories page's `newCategory` and `editingCategory`.

The values those methods compute come from pure functions, and the
properties are proved about those functions as lemmas.

Some things become parameters of the methods:

- a freshly generated id from `uuidv4()`;
- today's date from `new Date()`;
- the user's answer to `window.confirm`;
- the text of `String(amount)` when the editor opens on an existing
  transaction.

Alerts and snackbar notices become return values.

Transaction dates are `(year, month, day)` triples. The month is 1-based,
and `getMonth()` is modelled as `month - 1`. Amounts are JavaScript
numbers modelled as exact reals or NaN.

## What the code does not have

The model covers only what the code does. The code does not have any of
the following:

- The store has exactly six actions. It has no `updateTransaction`,
  `deleteTransaction`, `clearAllData` or loading state, although the
  editor dialog calls `updateTransaction`.
- The store starts with no categories, not a seeded set.
- There is no settings migration. `importData` stores its argument
  verbatim, with no defaulting.
- `AppSettings` has no background field.
- A category's `description` is required.
- A `Transaction` has no `notes` field.

## Model

| member | source | states |
|---|---|---|
| `Store.DefaultSettings` | app/store/useStore.ts:35-39 | The initial settings are currency USD, user name "User" and language English. |
| `Store.Store.constructor` | app/store/useStore.ts:33-39 | A new store has no transactions, no categories, and the default settings. |
| `Store.Store.AddTransaction` | app/store/useStore.ts:40-43 | Appends the transaction at the end, with no check that its id is new. Categories and settings do not change. |
| `Store.Store.AddCategory` | app/store/useStore.ts:44-47 | Appends the category at the end. Transactions and settings do not change. |
| `Store.ReplaceById` | app/store/useStore.ts:50-52 | The mapped list has the same length as the input. |
| `Store.ReplaceByIdAt` | app/store/useStore.ts:50-52 | At every position, an entry with the updated id becomes the update (duplicates included), and any other entry is kept in place. |
| `Store.ReplaceByIdNoMatch` | app/store/useStore.ts:48-53 | When no category has the id, the update changes nothing. |
| `Store.ReplaceByIdIdempotent` | app/store/useStore.ts:48-53 | Applying the same update twice equals applying it once. |
| `Store.Store.UpdateCategory` | app/store/useStore.ts:48-53 | The categories become the by-id replacement of the old list. Transactions and settings do not change. |
| `Store.RemoveById` | app/store/useStore.ts:56 | No remaining category has the id. Every remaining entry was in the list. Every entry with another id remains, as many times as it occurred, and every entry with the id is dropped. |
| `Store.RemoveByIdKeepsOrder` | app/store/useStore.ts:54-57 | The remaining categories are an order-preserving subsequence of the old ones. |
| `Store.RemoveByIdAbsent` | app/store/useStore.ts:54-57 | Deleting an id that no category has changes nothing. |
| `Store.RemoveByIdIdempotent` | app/store/useStore.ts:54-57 | Deleting the same id twice equals deleting it once. |
| `Store.Store.DeleteCategory` | app/store/useStore.ts:54-57 | The categories become the filtered list. Transactions are untouched, including those whose embedded category has the deleted id. Settings are untouched. |
| `Store.Store.UpdateSettings` | app/store/useStore.ts:58 | The settings are replaced wholesale. Both lists do not change. |
| `Store.Store.ImportData` | app/store/useStore.ts:59 | All three fields become the document's fields verbatim. Importing the current snapshot therefore leaves the store unchanged. |
| `Types.TxTypeText` | app/types/index.ts:1 | The two kinds are the strings "income" and "expense", one each. |
| `Types.CurrencyText` | app/types/index.ts:18-24 | Each currency value is a three-letter upper-case code, one space, then a non-space sign. |
| `Types.CurrencyTextInjective` | app/types/index.ts:18-24 | The five currency values are pairwise distinct. |
| `Types.LanguageText` | app/types/index.ts:26-33 | Each language value is a non-empty name. |
| `Types.LanguageTextInjective` | app/types/index.ts:26-33 | The six language values are pairwise distinct. |
| `Types.FindCategory` | app/components/TransactionModal.tsx:131 | The lookup returns the first category with the id. It returns nothing exactly when no category has that id. |
| `BackgroundImages.ConfigShape` | app/utils/backgroundImages.ts:6-31 | The registry has four entries with pairwise-distinct ids, in the order paper-desktop, green-bg, dark-studio, dark-studio-2. |
| `BackgroundImages.AllBackgroundImages` | app/utils/backgroundImages.ts:34-36 | Returns the configured table, entry by entry, in order. |
| `BackgroundImages.BackgroundImageInfoOf` | app/utils/backgroundImages.ts:39-41 | A returned entry is registered and has the requested id. Nothing is returned exactly when no entry has that id. |
| `BackgroundImages.LookupRegistered` | app/utils/backgroundImages.ts:39-41 | Looking up a registered entry's id returns that entry. |
| `BackgroundImages.BackgroundImagePath` | app/utils/backgroundImages.ts:45 | Null, undefined and the empty string give the paper fallback path. |
| `BackgroundImages.PathOfIdentifier` | app/utils/backgroundImages.ts:47-48 | A registered id gives its entry's image path. An unregistered id gives the fallback. |
| `BackgroundImages.PathIsRegistered` | app/utils/backgroundImages.ts:44-49 | For every argument, the path is one of the registered image paths. This holds because the fallback is the first entry's path. |
| `Dashboard.InDateRange` | app/page.tsx:95-101 | The range applies only when both ends are set. A range whose end precedes its start keeps nothing. |
| `Dashboard.InMonth` | app/page.tsx:104-109 | Comparing the 0-based `getMonth()` with the selected month minus one keeps exactly the dates in the selected month. With no month selected, every date passes. |
| `Dashboard.InYear` | app/page.tsx:112-116 | A selected year text keeps only dates in the year whose digits it spells. With no year selected, every date passes. |
| `Dashboard.Passes` | app/page.tsx:91-119 | A passing transaction lies in the selected month, in the selected year and inside a set range. With no filter set, every transaction passes. |
| `Dashboard.Filtered` | app/page.tsx:91-119 | A transaction is kept exactly when it passes the filters, and as many times as it occurs in the list. |
| `Dashboard.FilteredKeepsOrder` | app/page.tsx:91-119 | The filtered list is an order-preserving subsequence of the transactions. |
| `Dashboard.NoFiltersKeepAll` | app/page.tsx:91-119 | With all four filter fields empty, the filtered list equals the transactions, in the same order. |
| `Dashboard.DateRangeInclusive` | app/page.tsx:95-101 | The range applies only when both ends are set, and both ends are inclusive. |
| `Dashboard.SumAmounts` | app/page.tsx:121-122 | The `reduce` sum is finite exactly when every summed amount is finite, so one NaN amount makes it NaN. |
| `Dashboard.TotalIncome` | app/page.tsx:121 | Total income is NaN exactly when some income transaction that passes the filters has a NaN amount. |
| `Dashboard.TotalExpenses` | app/page.tsx:122 | Total expenses is NaN exactly when some expense transaction that passes the filters has a NaN amount. |
| `Dashboard.SelectedSumNaN` | app/page.tsx:121-122 | For either kind, the sum over the filtered transactions of that kind is NaN exactly when one of them has a NaN amount. |
| `Dashboard.KindsPartition` | app/page.tsx:121-122 | Every transaction is either income or expense. The two counts add up to the list's length, and the two sums add up to the list's sum. |
| `Dashboard.TotalsCoverFiltered` | app/page.tsx:121-122 | Total income plus total expenses equals the sum over all filtered transactions. |
| `Dashboard.DecimalText` | app/page.tsx:113 | A year's `toString()` is a non-empty string of digits. |
| `Dashboard.DecimalTextRoundTrip` | app/page.tsx:113 | Reading a year's decimal text back gives the year. |
| `Dashboard.DecimalTextInjective` | app/page.tsx:124 | Distinct years have distinct texts. |
| `Dashboard.Distinct` | app/page.tsx:124 | `Array.from(new Set(...))` has no duplicates and holds exactly the input's values. |
| `Dashboard.SortStringsSorted` | app/page.tsx:124 | `.sort()` on a list without duplicates gives a strictly increasing list in string order. |
| `Dashboard.Years` | app/page.tsx:124 | `years` holds the text of each year of any transaction exactly once, strictly increasing in string order (so "2024" comes before "999"), with filters ignored. |
| `Dashboard.StartingDraft` | app/page.tsx:47-52 | An edit starts from the current draft. With no draft, it starts from today, amount 0, kind expense, and the first category or the "Uncategorized" default. |
| `Dashboard.HomePage.constructor` | app/page.tsx:34 | The page starts with no draft. |
| `Dashboard.HomePage.InputChange` | app/page.tsx:44-61 | The amount field stores `parseFloat` of the text, NaN and negative values included. The date field is copied. Nothing else in the draft changes. |
| `Dashboard.HomePage.SelectChange` | app/page.tsx:63-80 | An unknown category id keeps the current category. Choosing a kind changes only the kind. |
| `Dashboard.HomePage.AddTransaction` | app/page.tsx:82-89 | With a draft, it adds one transaction under the fresh id and clears the draft. Without one, it alerts, and the store and draft do not change. |
| `Dashboard.EmptiedAmountReachesStore` | app/page.tsx:55-56 | An emptied amount field yields a NaN amount. The add button stores it, and the sum over the stored transactions is then NaN. |
| `JsNumbers.Add` | app/page.tsx:121-122 | `+` is NaN exactly when an operand is NaN, and otherwise adds the values. |
| `JsNumbers.ParseFloat` | app/components/TransactionModal.tsx:142 | `parseFloat` reads a leading `[sign] digits [. digits] [exponent]` literal. It is NaN exactly when the mantissa after the sign holds no digit. Text starting with '-' gives a value of at most zero, and any other text gives a value of at least zero. |
| `JsNumbers.ParseFloatOfDigits` | app/components/TransactionModal.tsx:142 | Text made only of digits parses to its decimal value. |
| `JsNumbers.ParseFloatOfNegative` | app/page.tsx:56 | A leading '-' negates the value of the rest, so "-3" gives -3. |
| `JsNumbers.ParseFloatScientific` | app/page.tsx:56 | Digits, 'e', digits is the mantissa times that power of ten, so "1e3" gives 1000. |
| `TransactionEditor.IsAmountText` | app/components/TransactionModal.tsx:116 | The amount check accepts exactly the texts made of digits with at most one '.'. |
| `TransactionEditor.RecogniserMatchesPattern` | app/components/TransactionModal.tsx:116 | The recogniser accepts exactly what `/^[0-9]*\.?[0-9]*$/` matches: digits only, or digits, one '.', then digits. |
| `TransactionEditor.RecogniserShape` | app/components/TransactionModal.tsx:116 | The recogniser accepts exactly the strings made of digits and at most one '.'. |
| `TransactionEditor.AcceptedAmountParses` | app/components/TransactionModal.tsx:142-146 | Among accepted texts, `parseFloat` fails exactly on "" and ".". |
| `TransactionEditor.SaveDecision` | app/components/TransactionModal.tsx:140-169 | With no draft or no category, save is rejected with severity info if there are no categories, else error. An unparseable amount gives "Invalid amount". Otherwise a draft with a non-empty id goes to update, and one without goes to add under the fresh id. A saved transaction never has a NaN amount. |
| `TransactionEditor.SaveRefusesOnlyDigitlessAmounts` | app/components/TransactionModal.tsx:142-146 | For a draft with a category and a checked amount text, save is refused exactly when the text is "" or ".". |
| `TransactionEditor.SaveOfStoredNegativeAmount` | app/components/TransactionModal.tsx:142-155 | A draft reopened on a stored negative amount such as "-3" is not refused. It goes to update with that negative amount. |
| `TransactionEditor.TransactionEditor.constructor` | app/components/TransactionModal.tsx:63 | The dialog starts with no draft. |
| `TransactionEditor.TransactionEditor.Open` | app/components/TransactionModal.tsx:67-95 | Opening on a transaction copies it, with the amount as text and notes empty. Otherwise the draft gets the first category, its kind and amount "0". With no categories, it gets no category and kind expense. The kind matches the category when it should. |
| `TransactionEditor.TransactionEditor.AutoSelect` | app/components/TransactionModal.tsx:98-109 | A draft without a category gets the first category and that category's kind, when categories exist. Otherwise nothing changes. |
| `TransactionEditor.TransactionEditor.Edit` | app/components/TransactionModal.tsx:111-123 | An amount edit is taken exactly when the text is empty or passes the check, and a rejected edit leaves the draft as it was. Date and notes edits change only their field. Kind-category agreement and the amount's well-formedness are preserved. |
| `TransactionEditor.TransactionEditor.SelectCategory` | app/components/TransactionModal.tsx:125-138 | A known id sets the category and `kind := category.kind` together. An unknown id changes nothing. |
| `TransactionEditor.TransactionEditor.Save` | app/components/TransactionModal.tsx:140-169 | Applies the save decision. An add appends the transaction and closes the dialog. An update calls the undefined `updateTransaction`, which throws: the store is unchanged and the dialog stays open. A rejection changes nothing and keeps the dialog open. |
| `CategoriesPage.CategoriesPage.constructor` | app/categories/page.tsx:28-29 | Both drafts start empty, so at most one form is in use. |
| `CategoriesPage.CategoriesPage.InputChange` | app/categories/page.tsx:32-49 | In edit mode, only the edited category's named field changes. Otherwise only the new-category draft's named field changes, starting from an empty draft. The other draft is untouched. |
| `CategoriesPage.CategoriesPage.SelectKind` | app/categories/page.tsx:51-68 | The kind select is routed to the active draft the same way. |
| `CategoriesPage.CategoriesPage.AddCategory` | app/categories/page.tsx:70-77 | A draft with non-empty name and description is added under the fresh id, and the draft is cleared. Otherwise the user is alerted and nothing changes. |
| `CategoriesPage.CategoriesPage.UpdateCategory` | app/categories/page.tsx:79-86 | A filled-in edit replaces the categories with its id and leaves edit mode. Otherwise the page stays in edit mode and the store does not change. |
| `CategoriesPage.CategoriesPage.DeleteCategory` | app/categories/page.tsx:88-92 | The category is deleted only when the confirmation is accepted. |
| `CategoriesPage.CategoriesPage.EditClick` | app/categories/page.tsx:94-97 | The chosen category becomes the edit draft, and the new-category draft is cleared. |
| `CategoriesPage.CategoriesPage.CancelEdit` | app/categories/page.tsx:99-101 | The edit draft is cleared. The new-category draft does not change. |
| `TransactionDetails.CurrencySymbol` | app/components/TransactionDetailsModal.tsx:25-28 | The result is a space-free suffix of the input, preceded by a space unless it is the whole input. |
| `TransactionDetails.AfterLastSpace` | app/components/TransactionDetailsModal.tsx:25-28 | The symbol is exactly the text after the last space. |
| `TransactionDetails.NoSpaceIsWhole` | app/components/TransactionDetailsModal.tsx:26-27 | A currency text without a space yields the whole text. |
| `TransactionDetails.SymbolOfCurrency` | app/components/TransactionDetailsModal.tsx:25-28 | For every currency, the symbol is the text after its code. For example, "USD $" gives "$". |
| `TransactionDetails.AmountSign` | app/components/TransactionDetailsModal.tsx:91 | The amount prefix is "+" for income and "-" for expense. |

## Left out

- Persistence is not modelled: localStorage reads and writes, `JSON.parse` and `JSON.stringify`, and the persist middleware. These are browser I/O. The store is its in-memory state.
- The settings page's export and import plumbing is not modelled: Blob, object URLs, FileReader, and the `JSON.parse` try/catch. Its only store effect is the `importData` call, which is modelled. A parse failure never reaches the store.
- Floating point is not modelled. Amounts are exact reals or NaN, with no rounding, no infinities and no `toFixed(2)` formatting.
- JsNumbers.ParseFloat does not skip leading whitespace and does not read "Infinity". Neither reaches it: the home page's number field yields "" or a valid floating-point number, the editor's checked text is digits and '.', and `String(amount)` of a finite amount has no space. Exponents too large for a double are read as exact reals, without overflow to Infinity.
- Date text parsing and time zones are not modelled. `new Date(text)`, `getMonth` and `getFullYear` work on UTC `(year, month, day)` triples. Invalid dates are not represented, and years are non-negative.
- The month filter's `parseInt` is not modelled. The select offers only "1" to "12", so the filter holds the parsed number.
- TransactionEditor.TransactionEditor.Save models the update path as written. The store does not define `updateTransaction`, so the call throws a TypeError before the success notice and `onClose`. What React then does with the error is not modelled.
- GlobalLoader's loading flag is not modelled, because the store defines none.
- TransactionEditor.TransactionEditor.Save drops the draft's `notes` from the saved object. At run time the spread copies `notes` into it, but `Transaction` has no such field.
- TransactionEditor.TransactionEditor.Edit covers only the dialog's three text fields. The handler's generic `[name]: value` update for other field names is not modelled, because no other field calls it.
- React's scheduling is not modelled. Effects and handlers are methods that the caller invokes in order. Batched and deferred state updates are not represented.
- Translated texts are represented by their translation keys. `useTranslation`'s asynchronous loading is not modelled.
- Dashboard.HomePage.AddTransaction does not model the source's `newTransaction.category` test separately. A draft always carries a category object, so that test never fails on its own.
- Types.LanguageText states only that each value is non-empty. Distinctness is a separate lemma.
- String comparison in `.sort()` is modelled by character code. The source compares UTF-16 code units, which agree for the digit strings sorted here.
- Presentation is not modelled: layout, navigation, loaders, charts and Material-UI rendering.
