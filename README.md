# Cart store and form state machine, modelled in Dafny

This project models the two small state machines of a React demo application:

* **The cart store** (`src/store/cartSlice.ts`). The cart is an ordered list of line items
  (id, name, price, quantity) plus a stored `total`. It has three reducers, `addItem`,
  `removeItem` and `clearCart`, and three selectors. The reducers update the draft state
  in place, so the store is the class `Cart.CartSlice`, with the fields `items: seq<CartItem>`
  and `total: int`. Each method's `ensures` ties the new items to a function of the old ones
  (`AddedItems`, `RemovedItems`). The methods also say that `total` is recomputed, and that
  the invariant `Valid()` is kept: ids are unique, every quantity is at least 1, and `total`
  is the sum of price × quantity. Lemmas about `AddedItems` and `RemovedItems` state what
  each reducer does to one line and to the rest of the cart, and how the total and the item
  count move.
* **The form** (`src/components/Form/DynamicForm.tsx`). `formReducer` is the pure function
  `Form.Reduce` over the five actions. Its contract says which single component of the
  state each action changes. The three `validationRules` are the functions of module
  `Validation`. The unanchored email regex `\S+@\S+\.\S+` is the predicate
  `ContainsEmailPattern`. A lemma proves it equivalent to a second reading of the regex: some
  slice of the text is exactly `x@y.z`, made of non-whitespace characters. The component's
  driver is the class `Form.DynamicForm`, whose one field is the reducer state. It has two
  parts:
  * the effect that re-validates every field after the first render and after each change
    of the values (a loop dispatching `SET_FIELD_ERROR`). The mounted form has therefore
    already run it once: its three errors say "... is required", and a submit is blocked
    until the fields are filled in. The invariant `Valid()` says that every error is what
    its rule says of the current value; mounting, editing and submitting keep it;
  * the submit handler, whose guard is followed by a fixed sequence of dispatches.

  The host's asynchronous `onSubmit` becomes a boolean parameter that says whether it
  succeeded.

Prices and totals are whole numbers (cents). The record shapes of `src/types/index.ts` are
the datatypes of module `Types`. A form field's error is `Option<string>`, with `None` for
`null`, stored in a map whose missing keys are the source's absent keys. The touched flags
are a set of fields, because the source only ever stores `true`.

Where the behaviour described for the form and the code differ, the model follows the code:

* `handleSubmit` has no guard on `isSubmitting`. Only the disabled button stops a second
  submit. Edits are not ignored while a submit is pending either.
* After a successful submit, `RESET_FORM` returns the module-level `initialState` itself.
  Its values object differs from the one built by the last `SET_FIELD_VALUE` spread, so the
  effect runs again. Every field then reports "... is required", and the next submit is
  blocked until the fields are filled in (`Form.ResetThenRevalidateBlocksSubmit`). The state
  the handler's own dispatches leave is exactly the initial state; the state after the
  effect is the initial state with those three errors.
* The cart's `removeItem` deletes a last unit with `filter`, which drops every line with that
  id, and `find` picks the first match. The functions model both literally. The lemmas show
  that, with unique ids, this is "delete that one line, keep the rest in order".

## Model

| member | source | states |
|---|---|---|
| `Types.With` | src/components/Form/DynamicForm.tsx:32-35 | the spread `{...values, [field]: value}` changes the named field to the value and leaves the other two fields as they were |
| `Validation.ValidateName` | src/components/Form/DynamicForm.tsx:68-72 | empty gives "Name is required", length 1 gives "Name must be at least 2 characters", and length ≥ 2 (and only that) gives null |
| `Validation.ValidateEmail` | src/components/Form/DynamicForm.tsx:73-77 | empty gives "Email is required"; otherwise "Email is invalid" exactly when the pattern occurs nowhere; null exactly when it occurs |
| `Validation.ValidatePassword` | src/components/Form/DynamicForm.tsx:78-83 | in check order: empty gives "required", 1–5 characters give "at least 6 characters", 6 or more without a digit give "at least one number", and null exactly when the length is ≥ 6 and there is a digit |
| `Validation.Validate` | src/components/Form/DynamicForm.tsx:89-92 | every field has a rule; the result is null exactly when that field's condition holds, and every message is a non-empty (truthy) string |
| `Validation.EmailSearchFindsShapedSlice` | src/components/Form/DynamicForm.tsx:75 | `ContainsEmailPattern` (some `@` position and a later `.` with `EmailAt`: non-whitespace before the `@`, between the two and after the `.`), the unanchored search for `\S+@\S+\.\S+`, succeeds exactly when some slice of the text is a whitespace-free `x@y.z` with `x`, `y`, `z` non-empty (both directions) |
| `Validation.EmailSearchIgnoresSurroundings` | src/components/Form/DynamicForm.tsx:75 | the regex is unanchored: text added before or after a matching string cannot make it fail |
| `Validation.EmailExamples` | src/components/Form/DynamicForm.tsx:73-77 | "a@b.co" is valid; "not-an-email" and "a @b.co" are invalid; "" is required |
| `Validation.PasswordExamples` | src/components/Form/DynamicForm.tsx:78-83 | "abc123" is valid, "abc12" is too short, "abcdef" lacks a number |
| `Form.Reduce` | src/components/Form/DynamicForm.tsx:16-65 | SET_FIELD_VALUE changes only that field's value; SET_FIELD_ERROR only that field's error (other errors and keys kept); SET_TOUCHED only adds the field to touched; SET_SUBMITTING only sets the flag; RESET_FORM gives `initialState`: empty values, no errors, nothing touched, not submitting; every action but RESET_FORM keeps the touched set growing |
| `Form.SetTouchedIdempotent` | src/components/Form/DynamicForm.tsx:47-54 | touching a field twice is the same as once, and the field is then touched |
| `Form.Revalidated` | src/components/Form/DynamicForm.tsx:111-121 | after the effect, every field's error is its rule applied to its current value; values, touched and isSubmitting are unchanged |
| `Form.GuardReadsTruthiness` | src/components/Form/DynamicForm.tsx:126 | `HasErrors`, the guard `Object.values(errors).some(error => error)`, reads only truthiness (`Truthy`): a null or "" entry never blocks, a non-empty message always does, and otherwise the other entries decide (both directions) |
| `Form.SubmitGuardMatchesRules` | src/components/Form/DynamicForm.tsx:126-127 | with errors consistent with the values, the guard `some(error => error)` blocks exactly when some field fails its rule (both directions) |
| `Form.ResetThenRevalidateBlocksSubmit` | src/components/Form/DynamicForm.tsx:111-137 | after the reset of a successful submit, the effect sets all three "required" errors, so the next submit is blocked |
| `Form.RejectedSubmitExample` | src/components/Form/DynamicForm.tsx:111-127 | with name "A", email "bad", password "abc123": name and email errors are set, the password error is null, and submit is blocked |
| `Form.ValidValuesExample` | src/components/Form/DynamicForm.tsx:67-84 | "Ada", "a@b.co", "abc123" pass all three rules |
| `Form.DynamicForm.constructor` | src/components/Form/DynamicForm.tsx:87-121 | the mounted form is `initialState` (empty values, no errors, nothing touched, not submitting) after the effect's first run: every error agrees with its rule (`Valid()`), and the three "required" errors block a submit |
| `Form.DynamicForm.Dispatch` | src/components/Form/DynamicForm.tsx:87 | dispatching replaces the state by the reducer's result |
| `Form.DynamicForm.Revalidate` | src/components/Form/DynamicForm.tsx:111-121 | the loop over the fields in key order leaves exactly the re-validated state |
| `Form.DynamicForm.Edit` | src/components/Form/DynamicForm.tsx:94-121 | an edit sets the field's value, and the effect it triggers leaves every error consistent with the new values (`Valid()`) |
| `Form.DynamicForm.HandleSubmit` | src/components/Form/DynamicForm.tsx:111-139 | with a truthy error: nothing is sent and the state is unchanged; otherwise the current values are sent once, and from a `Valid()` form they pass every rule; while they are awaited the state is the old one with isSubmitting true; on success the handler's dispatches leave exactly `initialState` and the effect then re-validates it (three "required" errors); on failure values, errors and touched are kept and isSubmitting ends false; `Valid()` is kept |
| `Cart.IndexOf` | src/store/cartSlice.ts:14 | `find` gives the first line with the id, and none exactly when no line has it |
| `Cart.WithoutId` | src/store/cartSlice.ts:28 | a line is in the filtered list exactly when it is in the old list and its id differs (both directions), and the list never grows |
| `Cart.WithoutAbsentId` | src/store/cartSlice.ts:28 | filtering an id no line has returns the list unchanged |
| `Cart.WithoutUniqueId` | src/store/cartSlice.ts:28 | with unique ids, the filter deletes exactly the matching line and keeps the others in order |
| `Cart.TotalNonNegative` | src/store/cartSlice.ts:20-22 | the recomputed total is not negative when no price or quantity is |
| `Cart.CountCoversLines` | src/store/cartSlice.ts:50-51 | for any list, if every quantity is ≥ 1 then `Count`, the sum of quantities, is at least the number of lines |
| `Cart.TotalConcat` | src/store/cartSlice.ts:20-22 | `Total`, the left-to-right `reduce` of price × quantity from 0, of a concatenation is the sum of the parts' totals |
| `Cart.CountConcat` | src/store/cartSlice.ts:50-51 | `Count`, the `reduce` of quantities from 0, of a concatenation is the sum of the parts' counts |
| `Cart.TotalSplit` | src/store/cartSlice.ts:20-22 | the total is the total before a line, plus that line's price × quantity, plus the total after it |
| `Cart.CountSplit` | src/store/cartSlice.ts:50-51 | the count is the count before a line, plus its quantity, plus the count after it |
| `Cart.UpdateLine` | src/store/cartSlice.ts:32-34 | replacing one line changes the recomputed total and the count by that line's difference alone |
| `Cart.DeleteLine` | src/store/cartSlice.ts:32-34 | deleting one line lowers the recomputed total by its price × quantity and the count by its quantity |
| `Cart.LineTotalShift` | src/store/cartSlice.ts:21 | changing a line's quantity by d changes its price × quantity by d × price |
| `Cart.AddExisting` | src/store/cartSlice.ts:14-16 | `AddedItems`, the items after `addItem`: adding a present id raises that line's quantity by exactly 1, keeps its id, name and price (the payload's are ignored), and leaves every other line and the order unchanged |
| `Cart.AddNew` | src/store/cartSlice.ts:17-18 | `AddedItems`: adding an absent id appends one line at the end with the payload's id, name and price and quantity 1, whatever the payload's quantity |
| `Cart.AddTotals` | src/store/cartSlice.ts:13-22 | `addItem` raises the count by 1 and the total by the stored line's price (present id) or the payload's price (new id) |
| `Cart.AddPreservesWellFormed` | src/store/cartSlice.ts:13-23 | `addItem` keeps ids unique and quantities ≥ 1 |
| `Cart.AddRepeated` | src/store/cartSlice.ts:13-19 | adding the same new id N ≥ 1 times gives a single line, at the end, with quantity N |
| `Cart.RemoveAbsent` | src/store/cartSlice.ts:24-26 | `RemovedItems`, the items after `removeItem`: removing an absent id leaves the items unchanged |
| `Cart.RemoveLastUnit` | src/store/cartSlice.ts:27-28 | `RemovedItems`: removing a line with quantity 1 deletes it; the remaining lines keep their order and contents, and the id is gone |
| `Cart.RemoveOneUnit` | src/store/cartSlice.ts:29-30 | `RemovedItems`: removing from a line whose quantity is not 1 lowers it by exactly 1 and changes nothing else |
| `Cart.RemoveTotals` | src/store/cartSlice.ts:24-35 | removing a present id lowers the count by 1 and the total by that line's price |
| `Cart.DeletePreservesWellFormed` | src/store/cartSlice.ts:27-28 | deleting one line of a cart with unique ids and quantities ≥ 1 keeps both |
| `Cart.RemovePreservesWellFormed` | src/store/cartSlice.ts:24-36 | `removeItem` keeps ids unique and quantities ≥ 1 |
| `Cart.RemoveThenAdd` | src/store/cartSlice.ts:13-36 | remove then add of the same id restores a line with quantity > 1 exactly, and re-creates a quantity-1 line at the end from the payload |
| `Cart.AddTwiceExample` | src/store/cartSlice.ts:13-22 | adding ("x", "Widget", 999) twice to an empty cart gives one line with quantity 2 and total 1998 |
| `Cart.SelectCartItems` | src/store/cartSlice.ts:48 | in a consistent state the items read have unique ids, quantities ≥ 1 and sum to the stored total |
| `Cart.SelectCartTotal` | src/store/cartSlice.ts:49 | in a consistent state the stored total is the sum of price × quantity |
| `Cart.SelectCartItemCount` | src/store/cartSlice.ts:50-51 | in a consistent state the count is at least the number of lines and is zero exactly when the cart is empty |
| `Cart.CartSlice.constructor` | src/store/cartSlice.ts:4-7 | the store starts with no items and total 0, which satisfies the invariant |
| `Cart.CartSlice.AddItem` | src/store/cartSlice.ts:13-23 | the new items are `AddedItems` of the old ones, the total is recomputed as their sum, and the invariant is kept |
| `Cart.CartSlice.RemoveItem` | src/store/cartSlice.ts:24-36 | the new items are `RemovedItems` of the old ones; for a present id the total is recomputed; for an absent id items and total are unchanged; the invariant is kept |
| `Cart.CartSlice.ClearCart` | src/store/cartSlice.ts:37-40 | from any state: no items and total 0, so clearing twice is the same as clearing once |

## Left out

- Floating-point prices and totals: prices are whole cents, so IEEE rounding (9.99 × 2) and the
  `toFixed(2)` display rounding are not modelled.
- React scheduling: the timing of `useReducer` and `useEffect`, memoisation, Immer drafts,
  and the Redux store, `Provider` and subscriptions are not modelled. The effect is modelled
  as running once after each change of the values, on the values of that render. Whatever
  runs between the dispatches of a pending submit is not modelled.
- The asynchrony of `await onSubmit(...)`: its outcome is the parameter `submitSucceeds`. The
  state while the callback is pending is a ghost result of `Form.DynamicForm.HandleSubmit`. A
  submit that never settles is not modelled. The `console.error` of a failed submit is
  output only.
- `Validation.IsWhitespace`: JavaScript `\s` also matches non-ASCII spaces; the model uses the
  six ASCII whitespace characters.
- `Validation.ValidateName`, `Validation.ValidatePassword`: JavaScript `length` counts UTF-16
  code units; the model counts characters.
- The reducer's `default` branch: it cannot be reached with the five typed actions.
- `handleBlur` and `handleChange` by themselves only forward a `SET_TOUCHED` or
  `SET_FIELD_VALUE` dispatch (`Form.DynamicForm.Dispatch`, `Form.DynamicForm.Edit`). The
  JSX, including showing an error only for a touched field, is presentation.
- src/components/common/Modal.tsx, src/components/common/Button.tsx,
  src/components/Cart/ShoppingCart.tsx, src/App.tsx (including its `Math.random` id
  generator) and tailwind.config.js are not part of this model. They are presentation,
  DOM focus handling, wiring and styling.
