# Expense tracker core, modelled in Dafny

The app keeps an in-memory list of expenses for the session. A form screen
adds an expense or edits one, and a light/dark theme flag is shared by every
screen. This project models the logic behind those screens:

- the `Expense` record and the store that holds the list (`ExpenseContext`, in `expense_context.dfy`);
- the add/edit form (`AddExpense`, in `add_expense.dfy`). It holds eight state cells. The amount and
  reference inputs pass through a digit filter. The edit effect prefills the cells from the record being
  edited. The submit handler checks its guard, builds the record, and either appends it or replaces
  every entry carrying the target id;
- the text conversions the form relies on (`DigitText`, in `digit_text.dfy`): the digit filter, and
  `parseInt`/`Number`/`toString` between digit strings and whole numbers;
- the theme flag and its toggle (`ThemeContext`, in `theme_context.dfy`);
- `Option` and `Result` (`Wrappers`, in `wrappers.dfy`). `Result.Err` stands for a thrown `Error`.

State that the source updates in place is modelled as classes:
`ExpenseStore.expenses`, the form's cells in `ExpenseForm`, and `ThemeStore.isDarkMode`.
The list updates, the guard and the record construction are pure functions, as they are in the source.
`ExpenseForm.Submit` is tied to the specification function `Submitted`, and the lemmas state what
`Submitted` does.

Four behaviours of the code are easy to miss, and the model keeps each of them:

- An edit whose target id is missing gives no "not found" signal. The list is simply unchanged.
- The guard `parseInt(amount) <= 0 || name === ""` lets an empty amount through, because NaN compares
  false. The record is then saved with amount `Number("") = 0`. The model keeps this behaviour.
- Nothing in the code guarantees unique ids. `SubmitKeepsIdsUnique` proves they stay unique when the
  fresh id is unused and a record reaches the form only together with edit mode.
- An edit replaces every entry that carries the target id, not just the first one.

`ZeroAmountNotResavable` shows one consequence of the guard. A record saved with an empty amount has
amount 0. Opening it for editing prefills "0", and saving it unchanged is then refused.

## Model

| member | source | states |
|---|---|---|
| `DigitText.DigitFilter` | app/components/AddExpense.tsx:70 | the filtered text has only the digits '0'-'9' and is no longer than the input |
| `DigitText.DigitFilterAppend` | app/components/AddExpense.tsx:70 | filtering a concatenation gives the filtered parts concatenated, so digits keep their original order |
| `DigitText.DigitFilterCounts` | app/components/AddExpense.tsx:70 | each digit is kept as often as it occurs in the input; every other character is dropped |
| `DigitText.DigitFilterKeepsDigits` | app/components/AddExpense.tsx:70 | an input made only of digits comes back unchanged |
| `DigitText.DigitFilterIdempotent` | app/components/AddExpense.tsx:170 | filtering twice gives the same text as filtering once |
| `DigitText.NatToString` | app/components/AddExpense.tsx:42 | `toString` of a whole number is a non-empty digit string with no leading zero, and it starts with '0' only for 0 |
| `DigitText.ParsePrinted` | app/components/AddExpense.tsx:42 | reading back the text `toString` wrote gives the same number |
| `DigitText.PrintParsed` | app/components/AddExpense.tsx:199 | `toString` of the value of a canonical digit string gives that string back |
| `DigitText.ValueZeroIff` | app/components/AddExpense.tsx:191-192 | a digit string is worth 0 exactly when every digit in it is '0' |
| `ExpenseContext.ReplaceById` | app/components/AddExpense.tsx:209-213 | the edit updater keeps the length, puts the new record wherever the id matches, and leaves every other entry at its position |
| `ExpenseContext.ReplaceAbsent` | app/components/AddExpense.tsx:209-213 | replacing an id that no entry carries leaves the list unchanged |
| `ExpenseContext.ReplaceIdempotent` | app/components/AddExpense.tsx:209-213 | replacing twice with the same id and record gives the same list as replacing once |
| `ExpenseContext.ReplaceBySelf` | app/components/AddExpense.tsx:209-213 | when every entry carrying the id already equals the record, replacing leaves the list unchanged |
| `ExpenseContext.ReplaceKeepsIdsUnique` | app/components/AddExpense.tsx:197-212 | unique ids stay unique when the new record reuses the replaced id or brings an unused one |
| `ExpenseContext.ExpenseStore.constructor` | app/components/ExpenseContext.tsx:28 | a new provider holds the empty list |
| `ExpenseContext.ExpenseStore.SetExpenses` | app/components/ExpenseContext.tsx:28-31 | the setter replaces the whole list |
| `ExpenseContext.ExpenseStore.Insert` | app/components/AddExpense.tsx:215 | the list grows by exactly the new record at the end, and earlier entries are unchanged and in order |
| `ExpenseContext.ExpenseStore.Update` | app/components/AddExpense.tsx:209-213 | the list becomes the replace-by-id of the old list |
| `ExpenseContext.UseExpenseContext` | app/components/ExpenseContext.tsx:37-42 | outside a provider the reader throws the missing-provider error; inside one it returns the provider's own store, with its list and setter |
| `AddExpense.SubmitValidation` | app/components/AddExpense.tsx:191-195 | a submission is refused exactly when the name is empty or the amount is a non-empty string of zeros, and a refused one leaves the list unchanged |
| `AddExpense.EmptyAmountSavedAsZero` | app/components/AddExpense.tsx:191-199 | a named submission with an empty amount is accepted, and its record has amount 0 |
| `AddExpense.ZeroAmountNotResavable` | app/components/AddExpense.tsx:42-192 | a record with amount 0, once prefilled, is refused on submit |
| `AddExpense.CreateAppends` | app/components/AddExpense.tsx:214-215 | an accepted create grows the list by one; the new record is last and earlier entries are unchanged and in order |
| `AddExpense.EditReplaces` | app/components/AddExpense.tsx:208-213 | an accepted edit keeps the length, puts the new record wherever the target id occurs, and leaves every other entry at its position |
| `AddExpense.EditAbsentTarget` | app/components/AddExpense.tsx:209-213 | an edit whose target id is not in the list leaves the list unchanged |
| `AddExpense.CreateRecord` | app/components/AddExpense.tsx:196-207 | with no record to edit, the saved record carries the fresh id and the current time, and every other field comes from the form |
| `AddExpense.EditKeepsIdAndDate` | app/components/AddExpense.tsx:196-207 | the saved record keeps the target's id and date when they are non-empty, takes the fresh id or the current time when they are empty, and every other field comes from the form |
| `AddExpense.RefChequeSavedAsEntered` | app/components/AddExpense.tsx:204 | the reference number is saved as exactly the text in the form |
| `AddExpense.AmountLosesLeadingZeros` | app/components/AddExpense.tsx:42-199 | an amount typed with a leading zero is saved as a number that the edit form shows as a different, canonical digit string |
| `AddExpense.LeadingZerosKeptOnlyInRefCheque` | app/components/AddExpense.tsx:199-204 | "007" is saved as reference "007" but as amount 7, which the edit form shows as "7" |
| `AddExpense.EditIdempotent` | app/components/AddExpense.tsx:209-213 | submitting the same edit twice gives the same list as submitting it once |
| `AddExpense.SubmitKeepsIdsUnique` | app/components/AddExpense.tsx:196-215 | unique ids stay unique through a submission when the fresh id is unused and a record reaches the form only in edit mode |
| `AddExpense.PrefillSaveRoundTrip` | app/components/AddExpense.tsx:191-207 | the prefilled values of a record with a name, a positive amount, an id and a date pass the guard and rebuild exactly that record |
| `AddExpense.PrefillSaveKeepsList` | app/components/AddExpense.tsx:208-213 | saving an unchanged edit of an entry of a list with unique ids leaves the list unchanged |
| `AddExpense.ExpenseForm.constructor` | app/components/AddExpense.tsx:28-35 | the form opens with empty text cells and with Food, Credit Card and Cleared selected |
| `AddExpense.ExpenseForm.OnNameChange` | app/components/AddExpense.tsx:60 | typing a name sets the name cell only |
| `AddExpense.ExpenseForm.OnAmountChange` | app/components/AddExpense.tsx:70 | typing an amount stores the filtered digits only, so the amount cell stays digit-only |
| `AddExpense.ExpenseForm.OnPayeeChange` | app/components/AddExpense.tsx:103 | typing a payee sets the payee cell only |
| `AddExpense.ExpenseForm.OnCategoryChange` | app/components/AddExpense.tsx:89-91 | picking one of the four categories sets the category cell only |
| `AddExpense.ExpenseForm.OnPaymentMethodChange` | app/components/AddExpense.tsx:122 | picking a payment method sets that cell only |
| `AddExpense.ExpenseForm.OnStatusChange` | app/components/AddExpense.tsx:153 | picking a status sets that cell only |
| `AddExpense.ExpenseForm.OnRefChequeChange` | app/components/AddExpense.tsx:170 | typing a reference stores the filtered digits, as text |
| `AddExpense.ExpenseForm.OnDescriptionChange` | app/components/AddExpense.tsx:179 | typing a description sets that cell only |
| `AddExpense.ExpenseForm.Prefill` | app/components/AddExpense.tsx:39-50 | in edit mode with a record, every cell is filled from that record, with the amount written by `toString`; otherwise nothing changes |
| `AddExpense.ExpenseForm.Submit` | app/components/AddExpense.tsx:190-218 | reports whether the guard let the submission through, and leaves the list as `Submitted` describes |
| `ThemeContext.Toggled` | app/components/ThemeContext.tsx:17 | the toggle updater always changes the flag |
| `ThemeContext.ToggleTwice` | app/components/ThemeContext.tsx:17 | two toggles restore the flag |
| `ThemeContext.ToggledTimesParity` | app/components/ThemeContext.tsx:15-17 | after n toggles the flag is flipped exactly when n is odd |
| `ThemeContext.ThemeStore.constructor` | app/components/ThemeContext.tsx:15 | the theme starts light |
| `ThemeContext.ThemeStore.ToggleTheme` | app/components/ThemeContext.tsx:17 | the flag flips, and the toggle count goes up by one |
| `ThemeContext.ThemeStore.IsDarkMode` | app/components/ThemeContext.tsx:15-20 | dark mode is on exactly when the theme has been toggled an odd number of times |
| `ThemeContext.UseTheme` | app/components/ThemeContext.tsx:26-31 | outside a provider the reader throws the missing-provider error; inside one it returns the provider's own store |

## Left out

- Rendering is not modelled: layout, class strings, colours, the pickers' and inputs' widgets, and app/index.tsx (screens, navigation stack, status bar, theme switch).
- Navigation back to the list and the alert on a refused submission are not modelled. `ExpenseForm.Submit` reports `saved` instead.
- `Math.random().toString()` and `new Date().toISOString()` are not modelled. They are the `freshId` and `now` parameters.
- `parseInt` and `Number` are modelled only on digit strings. The form keeps the amount digit-only (`ExpenseForm.Valid`).
- Amounts are unbounded whole numbers. Floating-point precision loss above 2^53 and the exponent form of `toString` are not modelled.
- React's state scheduling, effect re-runs and provider nesting are not modelled. Each handler is one atomic state change.
- The picker setters accept only the values their pickers offer, which is why they have a precondition.
- app/components/ExpenseComponent.tsx is not part of this model. It receives the list and its setter from the list screen.
