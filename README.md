# Order form line-item arithmetic of the POS back-office

This project models the one piece of behaviour in the back-office's order
admin form (`app/Filament/Resources/OrderResource.php`): how the form keeps
an order's lines and its read-only total.

- **Lines.** Each row of the `items` repeater holds a product id, a unit
  price and a quantity. Any of the three may be empty while the form is edited.
  A new row starts with quantity 1.
- **Price capture.** Choosing a row's product looks the product up. If it is
  found, the row takes the product's current price. If it is not found, the
  row keeps the price it had.
- **Quantity edit.** Editing a row's quantity sets the row's price again to
  its own value. The only effect is that an empty price becomes 0.
- **Total.** Whenever the list of rows changes, a loop sums price times
  quantity over the rows and writes the sum into `total_price`. An empty price
  counts as 0 and an empty quantity as 1. The total field cannot be edited,
  but it is submitted with the form, so the stored total is the last sum
  written.
- **Options.** The payment method (cash, card, online) and the status (new,
  processing, shipped, cancelled) are closed option sets. The orders table
  colours the payment badge by key, with a fallback colour for any other
  value.
- **Saving.** The form declares these rules: a customer, a payment method
  and a status are required, and each line needs a product, a price and a
  quantity of at least 1. A form that passes them becomes a stored order.

Money is held in integer cents, so every total is exact.

Files:
- `wrappers.dfy`: `Option` and `Result`.
- `order_options.dfy`: the option sets and the badge colour.
- `order_totals.dfy`: lines, the total and its laws, and the summing loop.
- `order_submission.dfy`: the save rules and the stored order.
- `order_form.dfy`: the `OrderForm` class with the form's callbacks, and an
  example session (12.50 × 2 gives 25.00, then adding 7.25 × 1 gives 32.25).

The specification of the system describes two behaviours differently from
the code. This model follows the code in both cases.
- For a product id that does not resolve, the specification asks for a
  NotFound error. The code silently keeps the line's old price.
- The specification sketches status transitions. The code lets any status
  be chosen from any other, so the model has no transition table.

## Model

| member | source | states |
|---|---|---|
| `OrderOptions.PaymentKey` | app/Filament/Resources/OrderResource.php:43-47 | every payment method is stored under one of the three offered keys |
| `OrderOptions.ParsePaymentMethod` | app/Filament/Resources/OrderResource.php:41-48 | a submitted key selects a payment method exactly when it is one of cash, card, online, and that method's key is the submitted key |
| `OrderOptions.PaymentKeyRoundTrip` | app/Filament/Resources/OrderResource.php:43-47 | storing a payment method and reading its key back gives the same method |
| `OrderOptions.StatusKey` | app/Filament/Resources/OrderResource.php:52-57 | every status is stored under one of the four offered keys |
| `OrderOptions.ParseStatus` | app/Filament/Resources/OrderResource.php:50-58 | a submitted key selects a status exactly when it is one of new, processing, shipped, cancelled, and that status's key is the submitted key |
| `OrderOptions.StatusKeyRoundTrip` | app/Filament/Resources/OrderResource.php:52-57 | storing a status and reading its key back gives the same status |
| `OrderOptions.PaymentBadgeColor` | app/Filament/Resources/OrderResource.php:154-159 | the fallback colour is given exactly to values that are not a payment option; cash, card and online get success, info and primary |
| `OrderTotals.LineAmount` | app/Filament/Resources/OrderResource.php:127 | a line without a price adds 0; a line without a quantity adds its price once; otherwise it adds price times quantity; a well-formed line never adds a negative amount |
| `OrderTotals.Total` | app/Filament/Resources/OrderResource.php:125-128 | lines that carry no price (including an empty list) total 0; well-formed lines never total less than 0 |
| `OrderTotals.TotalConcat` | app/Filament/Resources/OrderResource.php:126-128 | the total of two lists of lines placed one after the other is the sum of their totals |
| `OrderTotals.TotalAppend` | app/Filament/Resources/OrderResource.php:126-128 | appending one line raises the total by exactly that line's price times quantity |
| `OrderTotals.TotalGrowsOnAppend` | app/Filament/Resources/OrderResource.php:126-128 | appending a line with a non-negative price and a quantity of at least 1 never lowers the total |
| `OrderTotals.TotalUpdate` | app/Filament/Resources/OrderResource.php:126-128 | replacing one line (after a product choice or a quantity edit) changes the recomputed total by the new line's amount minus the old one's |
| `OrderTotals.TotalRemove` | app/Filament/Resources/OrderResource.php:126-128 | deleting one line lowers the total by exactly that line's amount |
| `OrderTotals.TotalPermutation` | app/Filament/Resources/OrderResource.php:126-128 | any reordering of the lines leaves the total unchanged |
| `OrderTotals.ComputeTotal` | app/Filament/Resources/OrderResource.php:125-128 | the accumulating loop, starting from 0, returns exactly the recursive total of the lines |
| `OrderSubmission.SubmitLine` | app/Filament/Resources/OrderResource.php:86-119 | a line is accepted exactly when it has a product, a price and a quantity of at least 1; the stored item keeps the line's product, price and quantity; the below-minimum error is raised exactly for a chosen product with a quantity under 1 |
| `OrderSubmission.SubmitLines` | app/Filament/Resources/OrderResource.php:80-121 | the lines are accepted exactly when every line is complete, and then each is stored in its position; otherwise the error names the first incomplete line |
| `OrderSubmission.Submit` | app/Filament/Resources/OrderResource.php:35-121 | a form is stored exactly when customer, payment method and status are chosen from their options and every line is complete; the order keeps those choices, one item per line, and the total field's value; every stored quantity is at least 1 |
| `OrderSubmission.StoredItemsKeepTotal` | app/Filament/Resources/OrderResource.php:126-127 | lines and the items stored from them have the same sum of price times quantity |
| `OrderSubmission.SavedTotalIsItemSum` | app/Filament/Resources/OrderResource.php:65-66 | a form saved with the total its lines give stores an order whose total is the sum over its own items |
| `OrderForms.FindPrice` | app/Filament/Resources/OrderResource.php:93 | the lookup finds a price exactly when a product is chosen and exists in the catalog, and then it is that product's price |
| `OrderForms.OrderForm.constructor` | app/Filament/Resources/OrderResource.php:60-67 | a new form has nothing chosen, fresh lines of quantity 1, and total 0, which is what those lines add up to |
| `OrderForms.OrderForm.RecomputeTotal` | app/Filament/Resources/OrderResource.php:124-130 | after the items callback the total field equals the sum over all lines of price times quantity; the lines are unchanged |
| `OrderForms.OrderForm.SelectProduct` | app/Filament/Resources/OrderResource.php:92-97 | the line takes the chosen product; a found product sets its price to the catalog price; an unknown one leaves the price as it was; no other line, no quantity and not the total changes |
| `OrderForms.OrderForm.SetQuantity` | app/Filament/Resources/OrderResource.php:106-109 | the line takes the new quantity; its price keeps its value, except that an empty price becomes 0; no other line and not the total changes |
| `OrderForms.OrderForm.AddLine` | app/Filament/Resources/OrderResource.php:122-130 | a new line of quantity 1 and no price is appended, and the recomputed total equals the total of the earlier lines |
| `OrderForms.OrderForm.RemoveLine` | app/Filament/Resources/OrderResource.php:124-130 | the line is removed and the recomputed total is the old total of the lines less that line's amount |
| `OrderForms.OrderForm.Save` | app/Filament/Resources/OrderResource.php:65-66 | the stored total is the total field as it stands; when that field agrees with the lines, it is the sum over the stored items |

## Left out

- The PHP `(float)` and `(int)` casts and `number_format` rounding to two decimals are not modelled. Money is exact integer cents, and a quantity is an integer.
- `OrderSubmission.Submit` reports only the first rule that fails. The framework's validator collects every failure.
- The model does not say whether the framework runs the items callback after an edit inside a line. The product and quantity callbacks never write the total themselves, so the model leaves the total unchanged after them. `TotalUpdate` gives the effect of running the items callback afterwards.
- Reordering lines is not a method. `TotalPermutation` shows that the recomputed total does not depend on the order of the lines.
- The framework's lookups and checks are not modelled. This covers the customer lookup, whether a chosen product id exists when the form is saved, and validation of the disabled total field. Product lookup is a `map` passed in as the catalog.
- Persistence is not modelled: the repeater's relationship writes and the transaction around a save.
- These parts have no logic beyond declarations and are not modelled: soft delete, restore and force delete, the date-range and status filters, the table columns and the status badge colours, and global search.
- Concurrent edits of one order are not modelled. Each request is treated as running alone.
- The model files, the product and category resources and the dashboard widgets are not part of this model. They are ORM declarations, form schemas and database counts.
