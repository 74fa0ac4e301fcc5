# Sale composer of the Rico Encanto sales page

This project models the "Nueva Venta" form of the sales page
(`src/pages/Sales.jsx`): the draft sale a user builds before it is sent to
the sales endpoint. The draft holds a client (`cliente`, `clienteId`), an
ordered list of lines (`productos`) and a status (`estado`). The product
picker adds its own scratch state: the selected product and the requested
quantity (`selectedProduct`, `quantity`).

- `order_lines.dfy` (module `OrderLines`) holds the value side. It has the
  catalog entries and lines as datatypes and the list operations the page
  uses: `find`, `filter`, the `map` that merges a repeated product, append,
  and the `reduce` that totals the lines. It also has the lemmas about them.
- `sale_form.dfy` (module `SaleFormModel`) holds the page state as the class
  `SaleForm`. Each handler is a method that reassigns the fields, as the
  page's state setters do. `Valid()` is the invariant every handler keeps:
  at most one line per product, every line with at least one unit, and the
  picker offering only `Disponible` products.
- `status_badge.dfy` (module `StatusBadge`) holds `getStatusClass`, the
  case-insensitive lookup that picks a status badge's CSS class.

Prices are Colombian pesos shown without decimals. Prices, quantities and
totals are therefore unbounded integers.

The stock check is modelled as the code has it. An add request is compared
with the product's stock on its own, and the units already in the draft are
not counted. So adds of 2, 3 and 6 units of a product with 10 in stock are
all accepted, and they leave one line of 11 units (`StockCheckIgnoresDraft`).
A check that counted the units already in the draft would refuse the third
add with 5 available; the page does not make that check.

A merged line keeps the unit price it copied when it was created. An add
therefore raises the total by the requested units times that line's price
(`TotalAfterAdd`). This equals the units times the catalog price only while
the copied price still matches the catalog.

## Model

| member | source | states |
|---|---|---|
| OrderLines.Find | src/pages/Sales.jsx:69 | `find` by id: nothing is found exactly when no element has the id; otherwise the result is the first element with that id |
| OrderLines.Filter | src/pages/Sales.jsx:48 | `filter`: the result is no longer than the input and holds exactly the input's elements the predicate accepts |
| OrderLines.AvailableProducts | src/pages/Sales.jsx:48 | the picker's catalog holds exactly the products of the response whose `estado` is `Disponible` |
| OrderLines.AvailableProductsKeepsOrder | src/pages/Sales.jsx:48 | the catalog filter distributes over concatenation, so the picker keeps the response's order, which decides the entry `find` picks when two products share an id |
| OrderLines.ValidateAdd | src/pages/Sales.jsx:63-75 | the checks of an add, in order: no selection or quantity < 1 is refused first; a selection with no catalog entry is refused next; a quantity above the first matching entry's stock is refused with that stock; otherwise the add is accepted for that entry with 1 <= quantity <= stock. The draft is not an input |
| OrderLines.HasLine | src/pages/Sales.jsx:77-79 | a product has a line exactly when some index of the lines holds that product's id |
| OrderLines.HasLineIsFind | src/pages/Sales.jsx:77-79 | the test on the `find` result over the lines is true exactly when a line for the product exists |
| OrderLines.NewLine | src/pages/Sales.jsx:95-100 | a new line carries the product's id, name and price as they are in the catalog at that moment and the requested quantity, so its subtotal is quantity times the catalog price |
| OrderLines.MergeQuantity | src/pages/Sales.jsx:83-87 | the merging `map` keeps the length and every line's product id; lines of other products are unchanged; each line of the product keeps its name and price and gains exactly the requested quantity |
| OrderLines.AddLine | src/pages/Sales.jsx:77-103 | a product without a line gets a new line at the end with the catalog's name and price and the requested quantity; a product with a line keeps the list length; lines of other products stay where and as they were; the product has a line afterwards; one line per product with at least one unit is preserved |
| OrderLines.MergeUpdatesOneLine | src/pages/Sales.jsx:83-87 | in a draft with one line per product, the merging `map` changes only that product's line, and only its quantity, which grows by the requested amount |
| OrderLines.AddToExistingLine | src/pages/Sales.jsx:77-88 | adding to a product that has a line equals updating that one line's quantity by exactly the requested units |
| OrderLines.AddLineTwice | src/pages/Sales.jsx:77-102 | two accepted adds of the same product equal one add of the summed quantity, so repeated adds make one line holding the sum |
| OrderLines.RemoveLines | src/pages/Sales.jsx:109-114 | after removal no line has the id, and a line remains exactly when it was there and is for another product |
| OrderLines.RemoveAbsent | src/pages/Sales.jsx:112 | removing a product that has no line leaves the lines unchanged |
| OrderLines.RemoveIdempotent | src/pages/Sales.jsx:112 | removing the same product twice equals removing it once |
| OrderLines.RemoveKeepsOrder | src/pages/Sales.jsx:112 | removal distributes over concatenation, so the lines kept stay in their relative order |
| OrderLines.RemovePreservesWellFormed | src/pages/Sales.jsx:109-114 | removal keeps one line per product, each with at least one unit |
| OrderLines.RemoveOneLine | src/pages/Sales.jsx:112 | with one line per product, removing a product's line leaves the lines before it followed by the lines after it |
| OrderLines.Subtotal | src/pages/Sales.jsx:117 | a line's contribution is never negative when its quantity and price are not, and is 0 when either is 0 |
| OrderLines.Total | src/pages/Sales.jsx:116-118 | `calculateTotal`: the total of no lines is 0 and of one line is its subtotal; how it adds up over longer lists is stated by the `Total…` lemmas below |
| OrderLines.TotalNonNegative | src/pages/Sales.jsx:116-118 | with no negative quantity or price the total is at least 0 |
| OrderLines.TotalConcat | src/pages/Sales.jsx:116-118 | the total of two runs of lines is the sum of their totals |
| OrderLines.TotalAround | src/pages/Sales.jsx:116-118 | the total is the lines before a line, plus that line's subtotal, plus the lines after it |
| OrderLines.TotalUpdate | src/pages/Sales.jsx:116-118 | replacing one line changes the total by the difference of the two subtotals |
| OrderLines.TotalPermutation | src/pages/Sales.jsx:116-118 | the total does not depend on the order of the lines |
| OrderLines.TotalGrowLine | src/pages/Sales.jsx:83-87 | raising one line's quantity by q raises the total by q times that line's unit price |
| OrderLines.TotalAfterMerge | src/pages/Sales.jsx:77-88 | merging q units into a product's existing line raises the total by q times that line's copied unit price |
| OrderLines.TotalAfterAdd | src/pages/Sales.jsx:77-118 | an add raises the total by q times the catalog price for a new line, or by q times the existing line's copied price; the two agree when the copy matches the catalog |
| OrderLines.TotalAfterRemove | src/pages/Sales.jsx:109-118 | with one line per product, removing a product lowers the total by its line's subtotal |
| OrderLines.StockCheckIgnoresDraft | src/pages/Sales.jsx:72-102 | with 10 in stock, adds of 2, 3 and 6 units are all accepted; they give one line of 2, then 5, then 11 units, totals 10000, 25000 and 55000, and the last line exceeds the stock |
| StatusBadge.LowerChar | src/pages/Sales.jsx:173 | an ASCII capital becomes the letter 32 code points above it, any other character is kept, and the result is never an ASCII capital |
| StatusBadge.ToLower | src/pages/Sales.jsx:173 | lower-casing keeps the length and lower-cases each character |
| StatusBadge.ToLowerIdempotent | src/pages/Sales.jsx:173 | lower-casing twice equals lower-casing once |
| StatusBadge.StatusClass | src/pages/Sales.jsx:172-183 | the class is one of `completada`, `pendiente`, `cancelada` or empty; a non-empty class is the lower-cased status; it is empty exactly when the lower-cased status is none of the three |
| StatusBadge.StatusClassIgnoresCase | src/pages/Sales.jsx:172-183 | a status and its lower-cased form get the same class |
| StatusBadge.StatusClassOfCompletada | src/pages/Sales.jsx:174-175 | `Completada` gets the class `completada` |
| StatusBadge.StatusClassOfPendiente | src/pages/Sales.jsx:176-177 | `Pendiente` gets the class `pendiente` |
| StatusBadge.StatusClassOfUpperCancelada | src/pages/Sales.jsx:178-179 | `CANCELADA` gets the class `cancelada` |
| StatusBadge.StatusClassOfUnknown | src/pages/Sales.jsx:180-181 | `Anulada` gets the empty class |
| SaleFormModel.SaleForm.constructor | src/pages/Sales.jsx:12-21 | the form starts as an empty `Pendiente` draft with no client, nothing selected, quantity 1 and no catalog |
| SaleFormModel.SaleForm.LoadProducts | src/pages/Sales.jsx:45-52 | the picker's catalog becomes the `Disponible` products of the response; nothing else changes |
| SaleFormModel.SaleForm.LoadClients | src/pages/Sales.jsx:54-61 | the client list becomes the response; nothing else changes |
| SaleFormModel.SaleForm.SelectClient | src/pages/Sales.jsx:261-269 | the chosen id is recorded; the client name becomes the name of the first client with that id, or empty when none has it; nothing else changes |
| SaleFormModel.SaleForm.SelectProduct | src/pages/Sales.jsx:286-289 | the selection becomes the chosen product; nothing else changes |
| SaleFormModel.SaleForm.SetQuantity | src/pages/Sales.jsx:305 | the parsed value or else 1: an unparsable entry or 0 gives 1, any other number, negatives included, is kept; nothing else changes |
| SaleFormModel.SaleForm.SetEstado | src/pages/Sales.jsx:370 | the status becomes the chosen one; nothing else changes |
| SaleFormModel.SaleForm.AddProduct | src/pages/Sales.jsx:63-107 | the outcome is `ValidateAdd` on the catalog, selection and quantity; a refused add changes nothing; an accepted add sets the lines to `AddLine` of the old lines, clears the selection and resets the quantity to 1; the client, status and catalogs never change; `Valid()` is kept |
| SaleFormModel.SaleForm.RemoveProduct | src/pages/Sales.jsx:109-114 | the lines become `RemoveLines` of the old lines; nothing else changes; `Valid()` is kept |
| SaleFormModel.SaleForm.Submit | src/pages/Sales.jsx:120-131 | an empty draft is refused with `EmptyOrder` whatever the client; a non-empty draft with an empty client name is refused with `MissingClient`, even when a client id is set; only a non-empty draft with a client name is `Ready`; nothing changes |
| SaleFormModel.SaleForm.ResetForm | src/pages/Sales.jsx:144-153 | the draft becomes empty, `Pendiente` and without a client, with total 0, nothing selected and quantity 1; the catalogs are kept |

## Left out

- The HTTP client, its token header and the redirect on 401/403 (`src/services/api.js`) are network and browser I/O. The endpoints' responses are parameters of `LoadProducts` and `LoadClients`.
- The `salesAPI.create` call of a submit, and what follows it: closing the modal, resetting the form and reloading the sales list (`src/pages/Sales.jsx:133-141`). These are I/O. `Submit` models only the validation; `ResetForm` is modelled on its own.
- Loading the sales list with its search text and loading flag (`src/pages/Sales.jsx:34-43`) is fetch-and-display.
- `formatCurrency` and `formatDate` depend on the locale formatting of the runtime, which is not part of this model.
- JSX rendering, the modal's open and close, and the `alert` messages. Each refusal an alert reports is an outcome value instead (`AddOutcome`, `SubmitOutcome`); the unknown-product case, which the page drops without an alert, is `UnknownProduct`.
- The browser's validation of the client picker's `required` attribute (`src/pages/Sales.jsx:270`), which on the page blocks a submit without a chosen client before the handler runs. `Submit` models the handler alone, so it also covers drafts without a client that the page would stop earlier.
- `parseInt` of the form's strings. The selected product and the client id are `Option<int>`, with `None` for the empty choice. The quantity input passes the parsed number, with `None` standing for `NaN`.
- StatusBadge.ToLower: lower-cases only the ASCII letters A-Z. The runtime's `toLowerCase` also maps other Unicode letters, and some of them change the length (`İ` becomes `i` followed by a combining dot). No string containing a non-ASCII character lower-cases to one of the three names, so the class is the same either way.
- JavaScript numbers are doubles; the model's integers are unbounded. Totals above 2^53 pesos, where doubles lose precision, are not modelled.
- The other pages (inventory, clients, dashboard, reports, login), the layout and the routing are CRUD and display code with no logic of their own.
