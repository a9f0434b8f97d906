# Sales app model

This project models the business rules of a small Django sales application.
The app keeps a product catalog (`Producto`) and a sales table (`Venta`), and its views do five things:
- record a sale (`agregar_venta`);
- list sales through a read-through cache (`lista_ventas`);
- filter sales by optional criteria and sum their totals (`ventas_filtradas`);
- total sales per month and per quarter (`estadisticas_ventas`);
- rank products by quantity sold (`productos_mas_vendidos`).

The database is an in-memory value `Store`. It holds a map of products by primary key and a sequence of sales in table order. The cache is a class with one key, `ventas_list`. Money is kept in integer cents, which is exact for `DecimalField(max_digits=10, decimal_places=2)`.

Modules:
- `Dates`: calendar dates, `TruncMonth` and `TruncQuarter`.
- `Sequences`: order-preserving `Filter`, the shape of a queryset `.filter`.
- `Models`: the two records, the status choices and the cascade delete.
- `Forms`: `ProductoForm`, `VentaForm` and `FiltroVentasForm` as cleaning functions. A field is blank, given, or unparseable.
- `Grouping`: a generic group-by-and-sum and a descending sort on the sums.
- `Queries`: the filter view, the period statistics and the top-products query.
- `Views`: the cache class, the app class with the state-changing views, and two concrete scenarios.

The code enforces less than a reader might expect:
- `cantidad` is a `PositiveIntegerField`, which admits 0. No minimum of one unit is enforced.
- Neither `precio` nor `total` is required to be non-negative.
- The period totals are grouped but not ordered. The model states nothing about their order.
- An empty query string makes `FiltroVentasForm(request.GET or None)` unbound. An unbound form is never valid, so the view lists all sales through its invalid-form path. A submitted form with every criterion blank is valid and also lists all sales. Both cases are proved (`Queries.EmptyCriteriaListAll`).
- Only the sale write path deletes the cached listing. A listing read after a sale is written shows the new sale. A product deletion also removes sales, through the cascade, but it leaves the cached listing in place, so a later read can show sales that no longer exist (`Views.CascadeKeepsCachedListing`).

## Model

| member | source | states |
|---|---|---|
| Dates.DaysInMonth | ventas/models.py:19 | a month has 28 to 31 days; it has 29 exactly in February of a leap year |
| Dates.TruncMonth | ventas/views.py:91 | the month bucket has the date's year and month and day 1; for a valid date it is a valid date on or before it, and the earliest valid date of that month |
| Dates.TruncQuarter | ventas/views.py:92 | the quarter bucket has the date's year and day 1; for a valid date it is a valid date on or before the date, starts in January, April, July or October, lies in the same quarter, and is the earliest valid date of that quarter |
| Dates.SameMonthBucket | ventas/views.py:91 | two valid dates share a month bucket if and only if they have the same year and month |
| Dates.SameQuarterBucket | ventas/views.py:92 | two valid dates share a quarter bucket if and only if they have the same year and quarter |
| Dates.QuarterOfMonthStart | ventas/views.py:91-92 | monthly buckets nest inside quarterly ones |
| Dates.TruncIdempotent | ventas/views.py:91-92 | a bucket key is its own bucket |
| Sequences.Filter | ventas/views.py:118-128 | the result holds exactly the elements that satisfy the lookup, and is no longer than the input |
| Sequences.FilterIsSubsequence | ventas/views.py:118-128 | a filtered queryset keeps the original row order |
| Sequences.FilterExt | ventas/views.py:118-128 | lookups that agree on every row select the same rows |
| Sequences.FilterCompose | ventas/views.py:118-128 | two chained filters equal one filter by the conjunction |
| Sequences.FilterKeepsAll | ventas/views.py:105 | a filter that every row passes leaves the queryset unchanged |
| Models.ParseEstado | ventas/models.py:11-15 | a stored status string reads back as the choice whose code it is, and only the three codes are recognised |
| Models.ParseCode | ventas/models.py:11-21 | every status is stored as one of `completada`, `pendiente`, `cancelada` and reads back as itself |
| Models.NewVenta | ventas/models.py:21 | a sale created without an explicit status is `pendiente`; with one, it keeps the given status |
| Models.DeleteProducto | ventas/models.py:17 | the cascade removes the product and exactly the sales that reference it; other products are unchanged, the surviving sales keep their order, and database validity is preserved |
| Models.CascadeRemovesExactly | ventas/models.py:17 | a sale survives the deletion of a product if and only if it does not reference it; the database stays valid and the product is gone |
| Forms.Cents | ventas/models.py:5 | a decimal with at most two places has an exact value in cents |
| Forms.ThreePlacesRefused | ventas_analisis/ventas/forms.py:19-20 | a decimal with three places is refused even when its value fits; two places are accepted |
| Forms.LargestDecimal | ventas/models.py:5 | 99999999.99 is accepted and 100000000 is refused (ten digits, two after the point) |
| Forms.CleanProducto | ventas_analisis/ventas/forms.py:4-7 | the product form is valid if and only if `nombre` has 1 to 100 characters and no NUL character, and `precio` is a valid decimal; the saved product keeps the name, and its price in cents equals the submitted decimal |
| Forms.CleanVenta | ventas_analisis/ventas/forms.py:9-12 | the sale form is valid if and only if the product exists, the quantity is an integer from 0 to 2^63 - 1 (the backend's range), the date is a real date and the total is a valid decimal; the cleaned data carries the submitted product, quantity and date |
| Forms.Unsaved | ventas/views.py:39 | the unsaved instance carries the submitted fields and the default status `pendiente`, because the form has no `estado` field |
| Forms.ZeroQuantityAccepted | ventas/models.py:18 | a quantity of 0 passes validation |
| Forms.FormRangeRefused | ventas/models.py:18 | a quantity above the backend's integer range is refused, and so is a product name containing a NUL character |
| Forms.OptionalCents | ventas_analisis/ventas/forms.py:19-20 | an optional bound is present if and only if it was given; when present it fits the field and equals the submitted decimal in cents |
| Forms.CleanFiltro | ventas_analisis/ventas/forms.py:15-24 | an unbound form is never valid; a bound form is valid if and only if every criterion is blank or acceptable; every cleaned criterion obeys its field's rule, is present exactly when it was given, and then holds the submitted product id, the submitted date, or the submitted decimal in cents; the status is the submitted one, "" or one of the three codes |
| Forms.BlankFiltroValid | ventas_analisis/ventas/forms.py:15-24 | a submitted form with every criterion blank is valid and has no criteria |
| Forms.FiltroRejects | ventas_analisis/ventas/forms.py:16-24 | a status outside the choices, or a product missing from the catalog, makes the form invalid |
| Grouping.Accumulate | ventas/views.py:91-92 | adding one row adds its key to the keys, keeps keys distinct, adds its amount to its own key's sum only, and adds it to the total |
| Grouping.GroupSum | ventas/views.py:91-92 | the grouping has one entry per distinct key of the rows, each key's sum equals the sum of that key's row amounts, and the grand total is preserved |
| Grouping.GroupSumAt | ventas/views.py:91-92 | each group's value is the sum of the amounts of the rows with its key |
| Grouping.ExactlyOneGroup | ventas/views.py:91-92 | every row falls into exactly one group |
| Grouping.Insert | ventas/views.py:182 | inserting into a list sorted largest-first keeps it sorted, is a permutation with the new entry added, and keeps keys distinct |
| Grouping.SortBySumDesc | ventas/views.py:182 | `order_by('-total_vendido')` yields a permutation of the groups with non-increasing sums and the same distinct keys |
| Grouping.SortKeepsGroups | ventas/views.py:182 | sorting keeps exactly the same groups |
| Queries.SelectExtends | ventas/views.py:117-128 | chaining one more `.filter` adds its lookup to the conjunction |
| Queries.FilteredNone | ventas/views.py:105 | with no lookup the queryset is all sales |
| Queries.ActiveMatches | ventas/views.py:117-128 | the conditional chain of lookups accepts a sale if and only if the sale meets every present criterion: product, dates and status only when truthy, the bounds whenever not `None`, and the bounds compared against `total` |
| Queries.FiltroResultadoExactly | ventas/views.py:104-128 | a valid form lists exactly the sales that match its criteria: the result equals filtering the table by the per-criterion meaning, so order and repeated rows are kept; an invalid or unbound form lists all sales |
| Queries.EmptyCriteriaListAll | ventas/views.py:104-128 | an empty query string and an all-blank form both list every sale |
| Queries.AggregateSum | ventas/views.py:131 | SQL `SUM` is NULL exactly over no rows |
| Queries.VentasFiltradas | ventas/views.py:103-131 | the rebinding chain of `.filter` calls yields the filter's result, and `total_ventas` is the sum of its totals, which is 0 when nothing matches |
| Queries.ZeroBoundStillFilters | ventas/views.py:123-126 | a minimum of 0 still excludes a negative total, and a maximum of 0 admits one |
| Queries.BoundsInclusive | ventas/views.py:119-126 | the date bounds and the total bounds are inclusive |
| Queries.PeriodRows | ventas/views.py:91-92 | one (period, total) row per sale |
| Queries.PeriodRowsAgree | ventas/views.py:91-92 | the rows carry every sale's truncated date; their per-period sums equal the reference per-period total; their keys are the periods of the sales; their grand total is the sum of all totals |
| Queries.TotalesPorPeriodo | ventas/views.py:91-92 | there is one entry per distinct period the sales fall in, each entry holds that period's total, and the entries add up to the sum of all totals |
| Queries.ExactlyOnePeriod | ventas/views.py:91-92 | every sale falls into exactly one period entry, the one for its truncated date |
| Queries.EstadisticasVentas | ventas/views.py:87-92 | each table has one entry per distinct period of the sales, each entry holds that period's total, and each table adds up to the sum of all totals; monthly keys are valid first days of a month, quarterly keys are valid first days of January, April, July or October |
| Queries.PeriodKeysAreStarts | ventas/views.py:91-92 | every period key starts its month or quarter; over real sale dates it is a real date, and a quarter key falls in January, April, July or October |
| Queries.JanuaryExample | ventas/views.py:91 | sales on 2024-01-05 and 2024-01-28 give one January entry with their summed total |
| Queries.NameRows | ventas/views.py:182 | one (product name, quantity) row per sale |
| Queries.NameRowsAgree | ventas/views.py:182 | the rows' per-name sums equal the quantity sold under that name, and their keys are the names of the products sold |
| Queries.ProductosMasVendidos | ventas/views.py:182 | one entry per distinct product name, whose value is the summed `cantidad` over all sales of products with that name, with entries in non-increasing order |
| Queries.TopProductsExample | ventas/views.py:182 | two products that share a name share an entry: "A" with 3 + 5 ranks before "B" with 2 |
| Views.ListingCache.constructor | ventas/views.py:238 | the cache starts with the key absent |
| Views.ListingCache.Get | ventas/views.py:238 | a read returns the stored entry, or nothing on a miss |
| Views.ListingCache.Set | ventas/views.py:243 | a write stores the listing under the key |
| Views.ListingCache.Delete | ventas/views.py:44 | a delete leaves the key absent |
| Views.ReadHit | ventas/views.py:238-239 | a non-empty cached listing is served unchanged and the cache is not modified, even when the table has changed |
| Views.ReadMiss | ventas/views.py:239-243 | a miss, or a cached empty list, recomputes the listing from all sales and stores it |
| Views.ReadIdempotent | ventas/views.py:238-243 | a second read with no write in between shows the same listing and changes nothing |
| Views.ReadCoherent | ventas/views.py:238-243 | when the key is absent or holds the current table, the read shows the current table |
| Views.SaleFromForm | ventas/views.py:37-42 | a sale is saved if and only if the form is valid; it references an existing product, its total is the product's price times the quantity, its status is `pendiente`, its key is the next one, and it keeps the submitted product, quantity and date |
| Views.SubmittedTotalIgnored | ventas/views.py:39-41 | any valid submitted total yields the same saved sale |
| Views.VentasApp.constructor | ventas/models.py:3-21 | the app starts with an empty, valid database and an empty cache |
| Views.VentasApp.AgregarProducto | ventas/views.py:22-30 | a valid product form adds the product under the next key, and an invalid one changes nothing; validity and the listing's coherence are preserved |
| Views.VentasApp.AgregarVenta | ventas/views.py:35-49 | after a valid form the sale is appended to the table and the listing key is deleted. After an invalid form, neither the table nor the cache changes. The database stays valid, and after a save the next read shows the current table |
| Views.VentasApp.ListaVentas | ventas/views.py:236-243 | the read is the read-through step on the cache entry; an absent or current entry shows the current table and leaves the entry current |
| Views.VentasApp.ExpireCache | ventas/views.py:243 | expiry of the timeout leaves the key absent |
| Views.VentasApp.EliminarProducto | ventas/models.py:17 | the database cascades and stays valid, while the cache entry is untouched |
| Views.CascadeKeepsCachedListing | ventas/views.py:238-239 | after a cascading delete, a cached listing still shows the deleted sale |
| Views.WidgetScenario | ventas/views.py:35-45 | a product at 19.99 sold three times with a bogus submitted total is saved with total 59.97 and status `pendiente`; a sale made while the listing is cached appears on the next read |

## Left out

- Chart and statistics rendering (`graficos_ventas`, `graficos_interactivos`, the chart half of `productos_mas_vendidos`, `estadisticas_avanzadas`): these are plotting and dataframe library calls over floats. `estadisticas_avanzadas` only repeats the period bucketing.
- `exportar_ventas_excel`: spreadsheet serialisation into a byte stream.
- Pagination in `lista_ventas`: page clamping is library behaviour. The model stops at the listing handed to the paginator.
- The 15-minute cache timeout: real time is not modelled. Expiry is the explicit event `ExpireCache`.
- Authentication, registration, login and logout, the home page and `lista_productos`: these are pass-throughs to the framework and templates.
- Settings, URL routing and the test suite: they contain no business logic.
- The ORM, SQL generation, persistence, request concurrency and shared-cache races: the database is one in-memory value and the cache is one single-threaded object.
- Views.VentasApp.AgregarVenta: the stored `total` is `precio × cantidad` unbounded. Neither the `max_digits=10` limit on save nor the database backend's handling of an over-wide value is modelled.
- Rendering: `__str__` of both models, templates, redirects, and the HTTP method dispatch between GET and POST.
- Text normalisation: whitespace stripping of `CharField` input and any character encoding. A name is a sequence of characters.
- Forms.CleanVenta: the upper bound on `cantidad` is SQLite's signed 64-bit range. Backends and framework versions with a 32-bit range refuse more.
- Date parsing: a date field's text input is either a real date or unparseable. Input formats are not modelled.
- The order of equal sums in `Queries.ProductosMasVendidos`: the database promises none, and the model keeps the order in which the names first appear.
