# Comanda: table orders and bill close-out

A restaurant order ("comanda") prototype keeps, for each table (mesa), the open
order's lines and closes out the bill with an optional discount. The same
bookkeeping lives on both sides of an HTTP boundary:

- the Flask server (`app.py`) holds the catalog (cardápio) and the map from table
  id to order lines (`MESAS`), and its routes append a line, filter lines out,
  patch a unit price, and close a table (subtotal, discount, total, then an empty
  order);
- the browser controller (`scripts.js`) holds the selected table, a copy of its
  order, the subtotal, the applied discount, the total and the line the edit modal
  is open on, and its handlers update these after each request.

This project models both in Dafny.

- `comanda.dfy` (module `Comanda`) holds what the two sides compute alike:
  - the order line;
  - the subtotal (Σ unit price × quantity);
  - the filter that removes lines by id;
  - the search for the first line with an id;
  - the unit-price patch;
  - the discount chosen by kind: `"R$"` is a fixed amount capped at the subtotal,
    `"%"` is a percentage, and any other kind gives none.
- `server.dfy` (module `Server`) has the class `OrderStore`, whose field
  `tables: map<TableId, seq<Line>>` stands for `MESAS`. Each route that changes
  the store is a method that returns a status (`Ok`, `BadRequest`, `NotFound` for
  200, 400, 404) and the route's payload. The read-only `GET /mesa/<id>` is the
  function `GetTable`, whose `None` stands for the 404 answer.
- `client.dfy` (module `Client`) has the class `OrderView`, whose fields are the
  script's globals. There is one method per handler. Values read from the page and
  the outcome of each request (a success flag plus the returned line or price) are
  parameters. Each handler that guards its request returns whether it would have sent it;
  `LoadTable` has no guard and returns nothing.
- `agreement.dfy` (module `Agreement`) compares the browser's preview of the bill
  with the server's bill.

Prices are exact `real`s. The browser floors its total at zero and reads a negative
or non-numeric discount as zero. The server does neither of these. For a well-formed
order and a non-negative value, the preview and the bill agree exactly when the kind
is not `"%"`, the percentage is at most 100, or the subtotal is zero. On a positive
subtotal, a negative fixed or percentage value makes the server bill more than the
preview showed.

Three behaviours of the code that are easy to miss; the model follows the code in
each:

- Rendering an empty order zeroes the subtotal and returns before the discount is
  re-applied. `descontoAplicado` and `totalFinal` keep their previous values. The
  object invariant `Valid()` therefore ties the total to the subtotal only for a
  non-empty order.
- The quantity guard of `addItem` is `quantidade < 1`. A quantity that did not
  parse (NaN) fails that comparison, so the request is still sent.
- The server accepts any quantity and any new price. Only the browser checks them.

## Model

| member | source | states |
|---|---|---|
| `Comanda.RemoveLines` | GerenciadorComandas/app.py:76 | a line is kept exactly when it was in the order and its id differs from the given one |
| `Comanda.RemoveLinesConcat` | GerenciadorComandas/static/js/scripts.js:151 | removal distributes over concatenation, so the kept lines stay in their original order |
| `Comanda.RemoveLinesUnchanged` | GerenciadorComandas/app.py:76-78 | removing leaves the order unchanged if and only if no line carries the id (an absent id is a successful no-op) |
| `Comanda.RemoveLinesIdempotent` | GerenciadorComandas/app.py:76 | removing an id twice gives the same order as removing it once |
| `Comanda.FindLine` | GerenciadorComandas/static/js/scripts.js:180 | returns the index of the first line with the id, or nothing exactly when no line has it |
| `Comanda.PatchPrice` | GerenciadorComandas/static/js/scripts.js:180-183 | same length; only unit prices change; lines with another id are untouched; the first line with the id gets the new price; later duplicates are untouched; no match leaves the order as it was |
| `Comanda.SubtotalAppend` | GerenciadorComandas/static/js/scripts.js:60-63 | the subtotal of two orders joined is the sum of their subtotals (an appended line adds its price × quantity) |
| `Comanda.LineTotal` | GerenciadorComandas/static/js/scripts.js:62 | no contract of its own: price × quantity of one line; `Comanda.LineTotalAfterPrice` states how it moves with the price |
| `Comanda.Subtotal` | GerenciadorComandas/app.py:108 | no contract of its own: the sum over the lines, folded from first to last like `subtotal +=` at scripts.js:60-63; `Comanda.SubtotalAppend`, `Comanda.SubtotalNonNegative`, `Comanda.SubtotalReplaceAt` and `Comanda.SubtotalAfterPatch` state its properties, and `Client.OrderView.Render` is proved against it |
| `Comanda.SubtotalNonNegative` | GerenciadorComandas/app.py:108 | an order with no negative price or quantity has a non-negative subtotal |
| `Comanda.SubtotalReplaceAt` | GerenciadorComandas/static/js/scripts.js:182 | replacing one line moves the subtotal by the difference of the two line totals |
| `Comanda.LineTotalAfterPrice` | GerenciadorComandas/static/js/scripts.js:62 | a new unit price moves a line's total by the price difference × quantity |
| `Comanda.SubtotalAfterPatch` | GerenciadorComandas/static/js/scripts.js:180-184 | a price edit moves the subtotal by (new − old price) × quantity of the first matching line, and leaves it unchanged when no line matches |
| `Comanda.Discount` | GerenciadorComandas/app.py:109-114 | `"R$"`: the smaller of value and subtotal; `"%"`: discount × 100 = subtotal × value; any other kind: zero |
| `Comanda.DiscountBounds` | GerenciadorComandas/app.py:111-114 | for a non-negative subtotal and value, the discount is non-negative and exceeds the subtotal if and only if the kind is `"%"`, the value is above 100 and the subtotal is positive |
| `Comanda.PercentBounds` | GerenciadorComandas/app.py:113-114 | a percentage discount on a non-negative subtotal and value is non-negative, and at most the subtotal if and only if the value is at most 100 or the subtotal is zero |
| `Server.Menu` | GerenciadorComandas/app.py:8-14 | the five catalog entries with their names and prices; every price is positive |
| `Server.CloseOut` | GerenciadorComandas/app.py:107-116 | no contract of its own: the bill of the lines (subtotal, discount by kind, unfloored difference, the lines themselves); `Server.FixedBillNotNegative`, `Server.PercentBillCanGoNegative`, `Server.BillWithinSubtotal` and `Agreement.PreviewMatchesBill` state its properties |
| `Server.FixedBillNotNegative` | GerenciadorComandas/app.py:111-116 | a `"R$"` bill never discounts more than its subtotal and its total is never negative |
| `Server.PercentBillCanGoNegative` | GerenciadorComandas/app.py:113-116 | a `"%"` value above 100 on a positive subtotal gives a negative total, because the server has no floor |
| `Server.BillWithinSubtotal` | GerenciadorComandas/app.py:108-116 | for a well-formed order and a non-negative value (a percentage at most 100), the total lies between zero and the subtotal |
| `Server.OrderStore.constructor` | GerenciadorComandas/app.py:17-22 | tables "1" to "4" exist, each with an empty order |
| `Server.OrderStore.GetTable` | GerenciadorComandas/app.py:39-43 | returns the table's lines if the table exists, and nothing (404) otherwise |
| `Server.OrderStore.AddItem` | GerenciadorComandas/app.py:46-64 | 400 if and only if the table or the catalog id is unknown, and then no table changes; otherwise exactly one line is appended to that table; it carries the catalog name and price and the given id and quantity; the set of tables is unchanged |
| `Server.OrderStore.RemoveItem` | GerenciadorComandas/app.py:67-78 | 404 if and only if the table is unknown, and then nothing changes; otherwise that table keeps exactly the lines with another id, in order, and no other table changes |
| `Server.OrderStore.EditValue` | GerenciadorComandas/app.py:81-95 | 404 if and only if the table is unknown or none of its lines has the id, and then nothing changes; otherwise only the unit price of the first matching line changes, and the edited line is returned |
| `Server.OrderStore.CloseBill` | GerenciadorComandas/app.py:98-128 | 404 if and only if the table is unknown; otherwise returns the bill of the lines as they were and leaves the table existing with an empty order |
| `Client.Sanitize` | GerenciadorComandas/static/js/scripts.js:197-198 | the value used is never negative: a parsed non-negative input is kept, and a non-numeric or negative input becomes zero |
| `Client.Floored` | GerenciadorComandas/static/js/scripts.js:209-211 | the total is non-negative, at least the difference, and equal to the difference or zero |
| `Client.ClientDiscount` | GerenciadorComandas/static/js/scripts.js:197-207 | no contract of its own: the shared discount applied to the sanitised input; `Client.FixedDiscountClamped`, `Client.InvalidInputIsZero` and `Client.ClientFiguresBounded` state its properties |
| `Client.ClientTotal` | GerenciadorComandas/static/js/scripts.js:209-211 | no contract of its own: the floored difference of subtotal and discount; `Client.Floored`, `Client.ClientFiguresBounded` and `Agreement.PreviewMatchesBill` state its properties |
| `Client.FixedDiscountClamped` | GerenciadorComandas/static/js/scripts.js:203-204 | a fixed discount above the subtotal is clamped to the subtotal and the total is zero |
| `Client.InvalidInputIsZero` | GerenciadorComandas/static/js/scripts.js:197-207 | a non-numeric or negative input gives no discount and a total equal to the subtotal, whatever the kind |
| `Client.ClientFiguresBounded` | GerenciadorComandas/static/js/scripts.js:200-211 | on a non-negative subtotal the shown discount is non-negative, a non-percentage discount is at most the subtotal, and the shown total is between zero and the subtotal |
| `Client.OrderView.constructor` | GerenciadorComandas/static/js/scripts.js:1-9 | no table, an empty order, zero figures, an empty modal |
| `Client.OrderView.Valid` | GerenciadorComandas/static/js/scripts.js:48-76 | the invariant every handler keeps: the subtotal is the sum over the order, the total is never negative, and for a non-empty order the total is the floored difference of subtotal and discount |
| `Client.OrderView.RenderedFigures` | GerenciadorComandas/static/js/scripts.js:53-57 | the discount and total a render leaves: the previous ones for an empty order (the early return), otherwise the calculator's figures for the new subtotal (scripts.js:75) |
| `Client.OrderView.ApplyDiscount` | GerenciadorComandas/static/js/scripts.js:196-217 | sets the discount and the floored total from the current subtotal and the raw input, keeps the invariant, and changes nothing else |
| `Client.OrderView.Render` | GerenciadorComandas/static/js/scripts.js:48-76 | the subtotal becomes the sum over the order; for an empty order the discount and total keep their old values, otherwise they are recomputed; the object invariant holds afterwards |
| `Client.OrderView.ShowTable` | GerenciadorComandas/static/js/scripts.js:21-22 | the given table becomes the selected one and nothing else changes |
| `Client.OrderView.LoadTable` | GerenciadorComandas/static/js/scripts.js:88-99 | the order becomes the fetched lines, or the empty order when the request fails; the discount and total are the rendered figures (kept for an empty order) |
| `Client.OrderView.AddItem` | GerenciadorComandas/static/js/scripts.js:102-134 | sends if and only if a table and a catalog item are selected and the quantity is not below one; on success the returned line is appended at the end and the discount and total are recomputed; otherwise nothing changes |
| `Client.OrderView.RemoveItem` | GerenciadorComandas/static/js/scripts.js:137-160 | sends if and only if a table is selected and the id is not falsy; on success the order keeps exactly the lines with another id, in order, the discount and total are the rendered figures (kept if the order became empty), and the modal is emptied; on failure nothing changes |
| `Client.OrderView.EditItemValue` | GerenciadorComandas/static/js/scripts.js:163-192 | sends if and only if a table is selected, the id is not falsy and the price is positive; on success only the unit price of the first matching line becomes the returned price, the discount and total are recomputed, and the modal is emptied; on failure nothing changes |
| `Client.OrderView.CloseBill` | GerenciadorComandas/static/js/scripts.js:220-261 | sends if and only if a table is selected, the order is non-empty and the user confirms; on success the order is empty, the subtotal is zero and no table is selected; on failure nothing changes |
| `Client.OrderView.OpenModal` | GerenciadorComandas/static/js/scripts.js:267-268 | the modal holds exactly the given line, replacing any previous one; the invariant is kept |
| `Client.OrderView.CloseModal` | GerenciadorComandas/static/js/scripts.js:275-278 | the modal holds nothing, the invariant is kept, and no other state changes |
| `Client.OrderView.RemoveHeld` | GerenciadorComandas/static/js/scripts.js:319-323 | sends if and only if the modal holds a line, the user confirms, a table is selected and the held id is not falsy; on success that line's id is removed, the figures are re-rendered and the modal is emptied; otherwise the order, the figures and the modal are unchanged |
| `Client.OrderView.SaveHeld` | GerenciadorComandas/static/js/scripts.js:325-332 | sends if and only if the modal holds a line, the new price parsed and is positive, a table is selected and the held id is not falsy; on success that line's price is patched, the figures are re-rendered and the modal is emptied; otherwise the order, the figures and the modal are unchanged |
| `Agreement.PreviewMatchesBill` | GerenciadorComandas/static/js/scripts.js:200-211 | for a well-formed order and a non-negative value, the preview discount equals the server's discount (app.py:109-114); the preview total equals the server total if and only if the kind is not `"%"`, the value is at most 100, or the subtotal is zero |
| `Agreement.NegativeValueBillsMore` | GerenciadorComandas/app.py:102-116 | with a negative fixed or percentage value on a positive subtotal, the browser previews the plain subtotal and the server bills more than it |

## Left out

- HTTP plumbing is not modelled: Flask routing, `request.json`, `jsonify`, `render_template`, the `/` route, `fetch`, `async`/`await` and JSON encoding. Each request's outcome is a parameter of the client method. A transport error caught by `try`/`catch` has the same effect as a failed response, so `ok == false` covers both.
- DOM work is not modelled: element look-ups, `innerHTML`, class toggling, event-listener wiring, `updateResumo`, the rendering in `showComanda` and `preencherCardapio`, the quantity reset (scripts.js:127) and the discount-field reset (scripts.js:249-250). The discount input and the kind selector are parameters of `Render` and of the handlers that re-render.
- The dialogs are not modelled. `alert` is dropped. `confirm` becomes the boolean `confirmed`.
- `formatarMoeda` and `toFixed(2)` are locale formatting and are not modelled.
- IEEE floating-point rounding is not modelled. Prices and discounts are exact reals.
- `parseInt` and `parseFloat` are replaced by their results, given as `Option` (None for NaN). The server's `int(...)` and `float(...)` conversions are not modelled: on null input they raise, and Flask answers 500. This also covers a NaN quantity or discount, which the browser sends as JSON null.
- `Server.OrderStore.AddItem` takes the quantity as already converted. The default of 1 when the request has no `quantidade` key (app.py:50) is part of that conversion and is not modelled.
- `Client.OrderView.AddItem` leaves out the line id the browser generates with `Date.now()` (scripts.js:109). The browser sends that id to the server, but only the line the server returns enters the browser's state.
- The `cardapio` global and `get_cardapio` are not modelled as state. The catalog is the fixed map `Server.Menu`.
- `Client.OrderView.RemoveItem` and `Client.OrderView.EditItemValue` treat only the id 0 as falsy. NaN and undefined are not modelled as ids.
- Aliasing is not modelled. The modal slot holds a copy of a line. In the script it is the same object as the order entry that `editItemValue` patches (scripts.js:182). The modal is emptied right after that patch, so the difference is not observable.
- The race between switching tables and a request still in flight is concurrency and is not modelled.
