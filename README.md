# Sales cart and stock intake — a verified model

This project models the two stateful pages of a small inventory front end.

- **Sales** (`app/vendas/page.tsx`) is the point-of-sale page, written in Dafny as the class `Sales.SalesPage`. Its state:
  - a cart of lines;
  - an entry form (product id, product name, quantity, unit price);
  - the last product catalog fetched.

  Its handlers become methods:
  - add a line from the form;
  - remove every line with a product id;
  - fill the form by selecting a product by name;
  - check out.

  The cart total is a function that is recomputed from the lines on every read. Checkout works like this:
  - It refuses an empty cart.
  - It scans the lines in cart order. Each line is checked against the first catalog product with the line's id; lines with no catalog match are skipped. The first line that asks for more than that product's stock stops checkout.
  - Otherwise it builds a body with one entry per line and sends it. The cart is cleared only when the order service accepts.
- **Stock intake** (`app/entrada-estoque/page.tsx`) is the page that records goods arriving, written as the class `StockIntake.StockIntakePage`.
  - A pure filter lists the products whose lowercased name contains the lowercased search text.
  - Selecting a product stores its id as text in the form and clears the search.
  - Submitting refuses a blank or non-numeric product without sending anything. Otherwise it sends the id and quantity as numbers. It resets the form only on success, and `isLoading` is false at the end either way.

Supporting modules:
- `Wrappers`: the `Option` type.
- `Seqs`: `Array.prototype.find` as `FindIndex`/`Find`, and the subsequence relation.
- `Catalog`: the product record and lookups by id and by name.
- `Text`: ASCII lowercasing, `String.prototype.includes`, and the decimal integer forms of `String(n)` and `Number(s)`.

Modelling choices:
- **Inputs taken as parameters.**
  - Calls to remote services are parameters. A catalog fetch is the sequence handed to `CatalogLoaded`. A POST is the boolean `submitOk` given to `Checkout`/`Submit`.
  - Each outcome datatype says what the user is told, and which body was sent.
- **Money** is integer cents, and stock is a unit count.
- **Sales-form fields.**
  - Each numeric field is `None` while its input is empty, and otherwise holds the number its text parses to.
  - The product name is a string, and `""` counts as empty, as JavaScript truthiness does.
  - A missing product id becomes 0, as `Number("")` does. `Valid()` keeps a non-empty name paired with an id, so this fallback never reaches a line.
- **Intake-form fields** are raw strings, because that form's validation is about whether the text is numeric.

Two details of the code that the model keeps:
- The insufficient-stock message names the cart line's own name snapshot, and the catalog product's stock figure.
- That line quantities are positive is not established by the code. Only the browser's `min="1"`/`required` constraint checks it, and that is not modelled, so the model allows any integer quantity.

## Model

| member | source | states |
|---|---|---|
| Sales.SalesPage.Total | app/vendas/page.tsx:62 | an empty cart totals 0; when every line's subtotal is quantity × price, the total is the sum of quantity × price over the lines |
| Sales.TotalIsLineValue | app/vendas/page.tsx:62 | the left fold of stored subtotals equals the independent right-fold sum of quantity × unit price, for a cart whose subtotals are consistent |
| Sales.TotalOfConcat | app/vendas/page.tsx:62 | the total of two carts placed end to end is the sum of their totals |
| Sales.NewLine | app/vendas/page.tsx:82-90 | a line built from a filled form has subtotal = quantity × unit price |
| Sales.AddRaisesTotal | app/vendas/page.tsx:82-92 | appending the new line raises the total by exactly quantity × unit price |
| Sales.SalesPage.AddItem | app/vendas/page.tsx:71-106 | adds exactly when name, quantity and price are filled; then one line goes at the end (earlier lines untouched, no merging), its id is the form's product id, and the form is blanked; otherwise cart and form are unchanged |
| Sales.WithoutIdMembers | app/vendas/page.tsx:108-109 | a line survives removal of id k exactly when it was in the cart and its id is not k |
| Sales.WithoutIdConcat | app/vendas/page.tsx:108-109 | removal acts line by line: it distributes over concatenation |
| Sales.WithoutAbsentId | app/vendas/page.tsx:108-109 | removing an id no line carries leaves the cart as it was |
| Sales.WithoutIdIsSubsequence | app/vendas/page.tsx:108-109 | the kept lines are a subsequence of the cart, in their original order |
| Sales.RemovalSplitsTotal | app/vendas/page.tsx:108-109 | the old total is the total of what stays plus the total of the removed lines |
| Sales.SalesPage.RemoveItem | app/vendas/page.tsx:108-114 | the cart becomes the cart without every line carrying the id; form and catalog unchanged |
| Seqs.FindIndex | app/vendas/page.tsx:125 | the result is the first position satisfying the predicate, or none when no element does |
| Seqs.Find | app/vendas/page.tsx:163 | returns nothing exactly when no element matches, and otherwise the element at the first matching position |
| Sales.Selected | app/vendas/page.tsx:162-173 | the quantity is kept; an unknown name leaves the form unchanged; otherwise id, name and unit price come from the first catalog product with that name |
| Sales.SelectThenAdd | app/vendas/page.tsx:162-171 | after selecting the first catalog product with a given non-empty name and entering a quantity, the form can be added, and the line carries that product's id, name and catalog price |
| Sales.SalesPage.SelectProduct | app/vendas/page.tsx:162-173 | the form becomes exactly `Selected` of the old form; cart and catalog unchanged |
| Sales.PayloadOf | app/vendas/page.tsx:138-144 | one entry per cart line, in cart order, each carrying the line's id, quantity and unit price |
| Sales.CheckoutOutcomeOf | app/vendas/page.tsx:116-160 | empty cart exactly when the outcome is EmptyCart; a stock refusal names the first short line in cart order and its product's stock; any short line forces a refusal; a submission carries the payload and no line exceeds its stock; success reports the pre-submit total and happens only when the service accepts |
| Sales.SubmittedWithinStock | app/vendas/page.tsx:124-135 | in a submitted order, every line whose product the catalog lists asks for at most that product's stock |
| Sales.SalesPage.Checkout | app/vendas/page.tsx:116-160 | the outcome is `CheckoutOutcomeOf` of the cart before the call; the cart is emptied only on a successful submission and is otherwise exactly as before; the loop checks lines in order and stops at the first short one |
| Sales.SalesPage.constructor | app/vendas/page.tsx:46-60 | the page starts with an empty cart, a blank form and an empty catalog |
| Sales.SalesPage.CatalogLoaded | app/vendas/page.tsx:64-69 | the catalog becomes the fetched products; cart and form unchanged |
| Sales.SalesPage.EditQuantity | app/vendas/page.tsx:259-261 | only the form's quantity changes |
| Sales.SalesPage.EditUnitPrice | app/vendas/page.tsx:276-281 | only the form's unit price changes |
| Text.IncludesIff | app/entrada-estoque/page.tsx:42 | the left-to-right `includes` scan succeeds exactly when the needle occurs at some position of the text |
| Text.NumberValue | app/entrada-estoque/page.tsx:57 | the result is NaN (`None`) exactly for non-empty, non-numeric text |
| Text.IntToTextRoundTrip | app/entrada-estoque/page.tsx:143 | the text of an id is non-empty and numeric, and reading it back as a number gives the id |
| StockIntake.FilterMembers | app/entrada-estoque/page.tsx:39-45 | a product is listed exactly when it is in the catalog and the lowercased search occurs in its lowercased name |
| StockIntake.FilterIsSubsequence | app/entrada-estoque/page.tsx:39-45 | the listed products are a subsequence of the catalog, in catalog order |
| StockIntake.EmptySearchKeepsAll | app/entrada-estoque/page.tsx:41-43 | an empty search lists the whole catalog |
| StockIntake.FilterIgnoresCase | app/entrada-estoque/page.tsx:41-43 | two searches with the same lowercase form list the same products |
| StockIntake.LowercasedSearchSameList | app/entrada-estoque/page.tsx:41-43 | lowercasing the search beforehand does not change the list |
| StockIntake.StockIntakePage.Listed | app/entrada-estoque/page.tsx:39-45 | with an empty search the selector lists the whole catalog |
| StockIntake.IntakeOutcomeOf | app/entrada-estoque/page.tsx:54-94 | refused exactly when the product text is empty or NaN; otherwise the body carries the numeric values of both fields; recorded exactly when not refused and the service accepts |
| StockIntake.SelectedProductIsSent | app/entrada-estoque/page.tsx:140-147 | a product field filled by selection is never refused, and the request names exactly the selected product's id |
| StockIntake.RefusedOnlyWhenBlank | app/entrada-estoque/page.tsx:57-63 | when the product field holds only "" or numeric text, a refusal happens exactly when it is blank |
| StockIntake.StockIntakePage.constructor | app/entrada-estoque/page.tsx:28-37 | blank form, empty catalog and search, not loading |
| StockIntake.StockIntakePage.CatalogLoaded | app/entrada-estoque/page.tsx:47-52 | the catalog becomes the fetched products; nothing else changes |
| StockIntake.StockIntakePage.EditSearch | app/entrada-estoque/page.tsx:130-134 | only the search text changes |
| StockIntake.StockIntakePage.EditQuantity | app/entrada-estoque/page.tsx:167-169 | only the form's quantity text changes |
| StockIntake.StockIntakePage.SelectProduct | app/entrada-estoque/page.tsx:140-147 | the product field becomes the product id's text, the quantity is kept, and the search is cleared |
| StockIntake.StockIntakePage.Submit | app/entrada-estoque/page.tsx:54-94 | the outcome is `IntakeOutcomeOf` of the old form; the form is blanked only on success, and is unchanged on refusal or failure; `isLoading` is false afterwards |
| Sales.TotalOf | app/vendas/page.tsx:62 | the `reduce` over the line subtotals, folded from the left starting at 0; no contract of its own, described by the rows for Sales.SalesPage.Total, Sales.TotalIsLineValue, Sales.TotalOfConcat, Sales.AddRaisesTotal and Sales.RemovalSplitsTotal |
| Sales.CanAdd | app/vendas/page.tsx:74 | the add guard: product name, quantity and unit price are all filled; no contract of its own, described by the row for Sales.SalesPage.AddItem |
| Sales.WithoutId | app/vendas/page.tsx:109 | the `filter` keeping lines whose id differs; no contract of its own, described by the rows for Sales.WithoutIdMembers, Sales.WithoutIdConcat, Sales.WithoutAbsentId, Sales.WithoutIdIsSubsequence and Sales.RemovalSplitsTotal |
| Sales.Short | app/vendas/page.tsx:125-128 | a line asks for more than the stock of the first catalog product with its id, and a line with no match is never short; no contract of its own, described by the rows for Sales.CheckoutOutcomeOf, Sales.SubmittedWithinStock and Sales.SalesPage.Checkout |
| Sales.Available | app/vendas/page.tsx:131 | the stock figure reported for a short line; no contract of its own, described by the row for Sales.CheckoutOutcomeOf |
| Catalog.ProductById | app/vendas/page.tsx:125 | the `find` by product id; no contract of its own, described by the row for Seqs.Find |
| Catalog.ProductByName | app/vendas/page.tsx:163 | the `find` by product name; no contract of its own, described by the rows for Seqs.Find and Sales.Selected |
| StockIntake.Matches | app/entrada-estoque/page.tsx:41-43 | the filter's test on one product; no contract of its own, described by the rows for StockIntake.FilterMembers and StockIntake.FilterIgnoresCase |
| StockIntake.FilterByName | app/entrada-estoque/page.tsx:41-43 | the `filter` of the catalog by Matches; no contract of its own, described by the rows for StockIntake.FilterMembers, StockIntake.FilterIsSubsequence, StockIntake.EmptySearchKeepsAll, StockIntake.FilterIgnoresCase and StockIntake.LowercasedSearchSameList |
| Text.Lower | app/entrada-estoque/page.tsx:42 | ASCII `toLowerCase`; no contract of its own, described by the rows for StockIntake.FilterIgnoresCase and StockIntake.LowercasedSearchSameList |
| Text.Includes | app/entrada-estoque/page.tsx:42 | `includes` as a left-to-right scan; no contract of its own, described by the rows for Text.IncludesIff and StockIntake.EmptySearchKeepsAll |
| Text.IntToText | app/entrada-estoque/page.tsx:143 | `String` of a product id; no contract of its own, described by the rows for Text.IntToTextRoundTrip and StockIntake.SelectedProductIsSent |

## Left out

- HTTP requests: the catalog fetch is the argument of `CatalogLoaded`, and each POST is the `submitOk` argument. Response bodies, the error values raised and retries are not modelled.
- Toasts, the `console.log`/`console.error` logging of the intake page, JSX rendering, opening and closing the popovers (`setOpen`), the command palette and `useEffect` scheduling are UI code. The popovers' `open` flag (app/vendas/page.tsx:45, app/entrada-estoque/page.tsx:35) is not a field of either class, so the handlers' `setOpen(false)` is not modelled either.
- Concurrency is not modelled: a catalog arriving after the user has started, and a second checkout or submit while a request is in flight. Each handler runs to completion.
- StockIntake.StockIntakePage.Submit: the request is collapsed into one step, so the moment when `isLoading` is true, with the button disabled, is not observable in the model.
- JavaScript floating point in prices, in `parseFloat`, in the float product `quantity * price` and in `toFixed(2)` is not modelled. Money is exact integer cents.
- Sales form fields: text that is filled in but parses to NaN in `parseInt`/`parseFloat` is not modelled. A filled numeric field holds the number it parses to.
- Text.NumberValue: it recognises only an optional `-` followed by decimal digits. Other forms JavaScript's `Number` accepts (surrounding spaces, decimals, exponents, hexadecimal) are treated as NaN. The product field only ever holds "" or `String(id)`, which the model covers exactly. For the quantity field this is a real difference: a number input can hold text such as "1e3" or "2.0". JavaScript sends `Number("1e3")`, which is 1000, but `StockIntake.IntakeOutcomeOf` puts `None` (null) in the body.
- Text.Lower: lowercases ASCII `A`–`Z` only; Unicode case mapping is not modelled.
- `app/adicionar-produto/page.tsx`, the dashboard components and `services/entradaEstoque.ts` are not part of this model: they are a single POST or markup.
