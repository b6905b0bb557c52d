# Auto-parts business API: order workflow, reports and route policy

This project models, in Dafny, the core of the back end of a used-auto-parts business. The business
buys vehicles in Japan, ships them to Dubai in containers, dismantles them into parts and sells the
parts to customers. The model covers three pieces of the Express/Sequelize API.

- **The order workflow** (`Orders`, with `Containers.AddVehicle` and `Payroll.AddExpense`). Each
  operation is a transition over an abstract store (`Tables.Store`: maps from ids to customers,
  parts, orders, order items, ledger entries, vehicles, containers, employees and expenses). It
  returns `Ok(store, value)` or `Err(kind)`. An `Err` carries no store, so the caller keeps the store
  it had: this is the database transaction rolling back (`Tables.After`). The kinds are:
  - `NotFound`: a 404;
  - `InsufficientStock`: the stock check;
  - `NotPending`: the delete guard;
  - `Rejected`: an insert, update or delete the database refuses (an enum label outside the
    column's list, a NULL in a NOT NULL column, a row still referenced by a foreign key), which
    lands in the handler's catch-and-rollback.
- **The report aggregations** (`Reports`, `Ledger`, `Stock`, `Customers`, `Payroll`, `Properties`).
  Each is a pure fold over record sequences that were already fetched. They are built from the
  generic `Folds` module:
  - `Sum`, `Filter`, `Tally` (the per-key accumulator the handlers build with `acc[k] = (acc[k] || 0) + x`);
  - `SumAt`, the per-key reference sum;
  - `Spread`, a map's entries summed over a key list.

  Lemmas state that sums are linear, that filters and buckets partition, that per-key maps add up
  to their totals, and that the running total is the prefix sum.
- **The route access policy of the API router** (`Access`). An unauthenticated request is refused
  with a 401. A route that names roles lets a user through exactly when the user's role is listed
  (403 otherwise). Every other registered route is open to any authenticated user.

Modelling conventions:
- Money is `int` (cents). Dates are `int` day numbers. A month or year window is an inclusive pair of
  day numbers supplied by the caller.
- Nullable columns without a default are `Option`; a column with a default is a plain value. `Wrappers.OrZero` is `x || 0` on a fetched decimal.
  `Wrappers.OrElse` is `a || b` on JSON numbers, where 0 also falls back.
- The ids the database draws (UUIDs) are inputs, required to be unused. The same holds for today's
  date and, for the cash flow, the first day of each month of the year (`Ledger.ValidCalendar`).

## Model

| member | source | states |
|---|---|---|
| Orders.Take | api/src/controllers/orderController.js:116-120 | Reserving q units lowers the part's quantity by exactly q. The part becomes `sold` exactly when nothing is left and otherwise keeps its status. No other field changes. |
| Orders.PriceLinesPass | api/src/controllers/orderController.js:92-105 | The line loop passes exactly when every line names an existing part holding at least the requested quantity. Every priced line then has a price exactly when each line gets one from the request or from the part. |
| Orders.PriceLinesDrafts | api/src/controllers/orderController.js:92-114 | When every line passes, the loop yields one priced line per request line, in order. Each is priced from the part row as committed, and the subtotal grows by the sum of the line totals. |
| Orders.PriceLinesStock | api/src/controllers/orderController.js:92-121 | For distinct passing lines, the loop's inventory holds every named part reserved against its committed row. Every other row is unchanged. |
| Orders.PriceLinesFirstFailure | api/src/controllers/orderController.js:92-101 | The first failing line decides the error: `NotFound` for a missing part, `InsufficientStock` for a short one. Later lines are not looked at. |
| Orders.Create | api/src/controllers/orderController.js:75-165 | A missing customer gives `NotFound`. The create succeeds exactly when the customer exists, every line passes the stock check, the order table accepts the payment method and every line has a price. On success only the inventory, the orders and the order items change, and the new order sits under its id. |
| Orders.CreateRejectsFirstBadLine | api/src/controllers/orderController.js:81-101 | With the customer present, the first missing or short line gives `NotFound` or `InsufficientStock`, and the store is left unchanged (rollback). |
| Orders.CreateReserves | api/src/controllers/orderController.js:116-120 | After a create, each named part has lost exactly the requested quantity, and it is `sold` exactly when its quantity is 0 (otherwise it keeps its status). Unnamed parts are untouched. |
| Orders.CreateKeepsStockNonNegative | api/src/controllers/orderController.js:98-120 | Whatever the outcome, non-negative stock stays non-negative. |
| Orders.AddItemsRows | api/src/controllers/orderController.js:139-145 | The item loop writes row i under id i, with the order id and the priced line's fields, and keeps every older row. |
| Orders.CreateBuildsOrder | api/src/controllers/orderController.js:79-145 | The new order is `pending` and `unpaid` with nothing paid. Its subtotal is the sum of the line totals, and its total is subtotal − discount + tax + shipping, each defaulting to 0. There is one item per line: its price is the request's non-zero price or else the part's selling price, its discount defaults to 0, and its total is price·qty − discount. The item totals add up to the subtotal. |
| Orders.ItemRowsSum | api/src/controllers/orderController.js:103-145 | The written item rows' totals add up to the sum of the lines' totals. |
| Orders.StatusForPaidCases | api/src/controllers/orderController.js:220-222 | The status is `paid` iff paid ≥ total, `partial` iff 0 < paid < total, and `unpaid` iff paid ≤ 0 and paid < total. A total ≤ 0 is therefore `paid` at once. |
| Orders.RecordPayment | api/src/controllers/orderController.js:208-256 | A missing order gives `NotFound`. The payment succeeds exactly when the order exists and both tables accept the payment method. The new paid amount is old + amount, with the amount unvalidated. The balance returned is total − new paid. The payment method is replaced only when one is given, and nothing else in the order changes. |
| Orders.PaymentEffects | api/src/controllers/orderController.js:224-242 | A payment updates only the paid order and appends exactly one ledger entry: income, category sales, the amount, the order's currency and location, the order's id, no account, completed, dated today. Everything else is unchanged. |
| Orders.PaymentStatusRule | api/src/controllers/orderController.js:220-249 | The stored status is the three-way rule applied to the new paid amount and the total. It is `paid` exactly when the returned balance is ≤ 0. |
| Orders.PayingBalanceSettles | api/src/controllers/orderController.js:220-249 | Paying exactly the outstanding balance succeeds and leaves the order `paid` with balance 0. |
| Orders.PaymentsCompose | api/src/controllers/orderController.js:220-228 | Paying a and then b leaves the same order and balance as paying a + b at once. |
| Orders.Delete | api/src/controllers/orderController.js:258-277 | Deletion succeeds exactly for an existing `pending` order that no ledger entry references. Any other status gives `NotPending`, and a missing order gives `NotFound`. A pending order with a ledger entry gives `Rejected`: the ledger's plain foreign key makes the database refuse the destroy, the handler answers 500, and nothing is deleted. |
| Orders.DeleteEffects | api/src/controllers/orderController.js:262-270 | A delete removes that order and exactly its items. Every other order, every other item, the inventory (reserved stock is not returned) and the ledger are unchanged, and no ledger entry is left pointing at the removed order. |
| Orders.PaidOrderCannotBeDeleted | api/src/controllers/orderController.js:228-242 | After a payment is recorded against an order, deleting that order fails, whatever its status: the payment's ledger entry references it. |
| Orders.MonthlySales | api/src/controllers/orderController.js:279-315 | The order count is the number of orders in the month window, not cancelled, at the location when one is given. Every order status and every payment status that occurs among those orders has an entry holding how many of them have it, and no other status has an entry. The revenue, paid and pending amounts are the sums of total, paid and total − paid over those orders. |
| Orders.MonthlySalesConsistent | api/src/controllers/orderController.js:285-308 | The pending amount is revenue − paid. The status and payment-status counts each add up to the order count, and cancelled orders never appear. |
| Containers.AddVehicle | api/src/controllers/containerController.js:105-129 | The call succeeds exactly when both the container and the vehicle exist; otherwise it gives `NotFound`. Only that vehicle's container reference changes, to this container. |
| Containers.AddVehicleIdempotent | api/src/controllers/containerController.js:119 | Attaching a vehicle twice equals attaching it once. |
| Containers.AddVehicleLastWins | api/src/controllers/containerController.js:119 | Moving a vehicle to a second container leaves the store as attaching it there directly. |
| Containers.PartsWhereSum | api/src/controllers/containerController.js:153-162 | A sum over the flattened, filtered parts is the sum of each vehicle's share. |
| Containers.SoldUnsoldBound | api/src/controllers/containerController.js:179-181 | The sold and in-stock part lists are disjoint filters, so together they hold at most every part. |
| Containers.ProfitLoss | api/src/controllers/containerController.js:131-187 | A missing container gives `NotFound`. The container cost is the stored container total (0 when NULL) and the vehicle cost the sum of the purchase prices; the total cost is their sum. Revenue is the vehicles' sold-part shares and the unsold value their in-stock-part shares. Realized = revenue − cost and projected − realized = unsold value. The sold and unsold part counts are the lengths of the sold and in-stock part lists, and together they are at most all parts. |
| Containers.LoadingVehicleShifts | api/src/controllers/containerController.js:148-177 | One more vehicle moves the cost by its purchase price, the revenue and unsold value by its own parts, and the realized figure by its revenue less its price. |
| Containers.FiguresNonNegative | api/src/controllers/containerController.js:153-162 | With non-negative prices and quantities, revenue and unsold value are non-negative. |
| Reports.DashboardMonth | api/src/controllers/reportController.js:20-32 | The dashboard counts at most the orders given. |
| Reports.DashboardMonthGrows | api/src/controllers/reportController.js:20-32 | An empty table gives zero revenue and zero orders. Adding one order adds its total and 1 exactly when it is dated on or after the first of the month at the chosen location, whatever its status; otherwise nothing changes. |
| Reports.InventoryValueByLocation | api/src/controllers/reportController.js:35-40 | The unfiltered inventory value (cost·qty over in-stock parts) is the Japan value plus the Dubai value. |
| Reports.DashboardCountsCancelled | api/src/controllers/reportController.js:24-32 | When no order is dated after the month's end, the dashboard's revenue and count exceed the monthly-sales figures by exactly the month's cancelled orders. |
| Reports.SoldOutPartEarnsNothing | api/src/controllers/reportController.js:90-98 | A part an order sells out is `sold` with quantity 0, so both profit-and-loss screens credit it with no revenue. |
| Reports.ContainerReport | api/src/controllers/reportController.js:60-139 | There is one row per container arrived in the window (all containers without one), in order. A row's container cost is the five components (0 when NULL), its vehicle cost the purchase prices, its total cost their sum and its vehicle count the number of vehicles. Its revenue and unsold value are the vehicles' shares, realized = revenue − cost and projected = realized + unsold. The summary counts the rows, each summary total is the sum of that column over the rows, and the summary balances the same way. |
| Reports.RowsAreShares | api/src/controllers/reportController.js:90-102 | Each row's revenue and unsold value are the sums of its vehicles' sold and in-stock shares. |
| Reports.SummaryBalances | api/src/controllers/reportController.js:125-132 | Summed columns keep the row identities: realized = revenue − cost and projected = realized + unsold. |
| Reports.ReportSplits | api/src/controllers/reportController.js:125-132 | Reporting on two batches of containers at once gives the field-wise sum of their summaries. |
| Reports.SummarizeSplit | api/src/controllers/reportController.js:125-132 | Splitting the containers by a test and its negation splits every summary field. |
| Reports.WindowPartitions | api/src/controllers/reportController.js:64-67 | The unwindowed summary is the windowed summary plus that of the containers the window leaves out. |
| Reports.ReportVersusDetail | api/src/controllers/reportController.js:79-84 | The report row and the single-container screen agree on vehicle costs, revenue, unsold value and vehicle count. Their costs differ by the component sum minus the stored total, so they agree on profit exactly when the two are equal. |
| Reports.Receivables | api/src/controllers/reportController.js:142-185 | There is one row per order not marked `paid` (refunded ones included), in order, and every such order has a row. A row's balance is total − paid and its age is today − order date. The total is the sum of the balances. Each aging bucket is the sum of the balances of the rows in its day range, and the four buckets add up to the total. |
| Reports.AgingCoversAll | api/src/controllers/reportController.js:172-177 | The ≤30, 31–60, 61–90 and >90 buckets partition the rows, so their sums add up to the total balance. |
| Reports.ReceivablesGrowByUnsettled | api/src/controllers/reportController.js:144-168 | One more order adds a row and its balance exactly when it is not `paid`. |
| Reports.Payables | api/src/controllers/reportController.js:188-223 | Only pending expenses count. The count is the number of pending expenses and the total their amount. Every type with one has an entry holding that type's sum, and the entries add up to the total. |
| Ledger.FinancialSummary | api/src/controllers/transactionController.js:120-192 | Only completed entries in the window (and at the location when one is given) count. Income and expense are those rows' income and expense amounts, with transfers in neither, and net = income − expense = the signed sum. Each category entry exists exactly for the categories of the income (or expense) rows and holds the sum of their amounts. The location entries exist exactly for the rows' locations and hold each location's income and expense. The account entries exist exactly for the accounts of the rows that carry one and hold each account's income and expense. |
| Ledger.CategoriesAddUp | api/src/controllers/transactionController.js:156-162 | The income and expense category entries add up to their totals. |
| Ledger.LocationsAddUp | api/src/controllers/transactionController.js:175-182 | The location entries add up to the income and expense totals. |
| Ledger.AccountsAddUp | api/src/controllers/transactionController.js:164-173 | The account entries add up to the totals minus the income and expense booked to no account. |
| Ledger.IncomeEntryCounts | api/src/controllers/transactionController.js:149-162 | One more completed income entry in the period raises the income total, its category and its location by its amount and leaves the expense side unchanged. |
| Ledger.MonthOfSpec | api/src/controllers/transactionController.js:217 | A day falls in month k exactly when it lies between the first of k and the first of the next month. |
| Ledger.CashFlow | api/src/controllers/transactionController.js:194-243 | Exactly 12 months, numbered 1 to 12. Each holds the income and expense of the year's completed entries in that month, with net = income − expense. The running total adds each month's net to the previous one, and month 12's running total is the year's signed sum. |
| Ledger.CashFlowMatchesSummary | api/src/controllers/transactionController.js:211-226 | A cash-flow month's income and expense equal the financial summary's totals for that month. |
| Ledger.AccountBalances | api/src/controllers/transactionController.js:245-279 | There are exactly four accounts. Each holds its completed income minus its completed expense, with transfers and entries without an account ignored. The total is the sum of the four. |
| Ledger.UnbookedEntryLeavesBalances | api/src/controllers/transactionController.js:262 | An entry without an account changes no balance. |
| Ledger.PaymentsBypassAccounts | api/src/controllers/transactionController.js:262-268 | The ledger entry an order payment writes changes no account balance. |
| Stock.GetValuation | api/src/controllers/inventoryController.js:129-161 | Only in-stock parts count (at the location when one is given). The cost total is the sum of cost·qty and equals the dashboard's inventory value. The sell total uses the selling price, or the cost price when it is NULL. Each category with a part has an entry holding its sums, and each breakdown column adds up to its total. With nothing in stock the result is zeros and an empty map. |
| Stock.ZeroPriceIsNotAbsent | api/src/controllers/inventoryController.js:140 | A stored selling price of 0 values the part at 0, not at its cost. |
| Stock.ValuationGrows | api/src/controllers/inventoryController.js:138-154 | One more part moves each total by its own figures, and only when it is counted. |
| Stock.InsertPermutes | api/src/controllers/inventoryController.js:170 | Inserting a part adds exactly that part (as a multiset). |
| Stock.InsertSorted | api/src/controllers/inventoryController.js:170 | Inserting into a list ordered by quantity keeps it ordered. |
| Stock.SortByQuantity | api/src/controllers/inventoryController.js:170 | The result is ordered by quantity, ascending, and is a permutation of the input. |
| Stock.LowStock | api/src/controllers/inventoryController.js:163-178 | Exactly the in-stock parts with quantity ≤ 2, each as often as it occurs, ordered by quantity ascending. |
| Stock.LowStockBounded | api/src/controllers/inventoryController.js:165-169 | Every listed part has at most 2 units, and the list is no longer than the input. |
| Stock.PageCount | api/src/controllers/inventoryController.js:28 | For a positive limit, the page count is the least number of pages that holds every row: count ≤ pages·limit < count + limit. |
| Stock.RowHasPage | api/src/controllers/inventoryController.js:13-28 | Row i lies on a page between 1 and the page count, inside that page's offset range. |
| Customers.ActiveFilter | api/src/controllers/customerController.js:10 | An absent parameter gives no filter. A present one filters, and selects active customers exactly when it is the string "true". |
| Customers.Listed | api/src/controllers/customerController.js:8-10 | A customer is listed exactly when it is in the table and passes the filter. |
| Customers.ActiveFilterSplits | api/src/controllers/customerController.js:10 | Without the parameter every customer is listed. The listing for "true" holds the active customers and the listing for any other string the inactive ones, and together they count every customer. |
| Customers.GetBalance | api/src/controllers/customerController.js:125-160 | A missing customer gives `NotFound`. Otherwise the outstanding orders are exactly the customer's orders not marked `paid`, with their count, the sum of total − paid over them, and available credit = credit limit − that sum. |
| Customers.BalancesAddUpToReceivables | api/src/controllers/customerController.js:127-143 | Over a list holding each customer once, the outstanding totals add up to the receivables report's total. |
| Payroll.AddExpense | api/src/controllers/employeeController.js:106-127 | A missing employee gives `NotFound`. Otherwise the request's expense is stored under the new key with its employee set to the path's employee, and nothing else changes. |
| Payroll.AddExpenseAttributes | api/src/controllers/employeeController.js:114-117 | The employee's expenses become the old ones plus the new one, whatever employee the body named. Every other employee's expenses are unchanged. |
| Payroll.RowBalances | api/src/controllers/employeeController.js:151-173 | An employee's cost is salary + extras. The breakdown has one entry per counted type and adds up to the extras. |
| Payroll.Summarize | api/src/controllers/employeeController.js:176-200 | The count and the salary, extras and cost totals are the row count and row sums. There is one department group per department among the rows and one location group per location; each holds the number of its rows and their total cost. The groups' counts and costs add up to the count and the total cost. |
| Payroll.GetExpenseReport | api/src/controllers/employeeController.js:129-207 | There is one line per employee at the location, none dropped for lacking expenses. Extras are the paid expenses in the month of every type, cost = salary + extras, the breakdown adds up to the extras, and the summary is that of the lines, with total cost = total salary + total extras. |
| Payroll.ExpenseRaisesCost | api/src/controllers/employeeController.js:143-153 | A counted expense of any type, a deduction included, raises the employee's cost by its amount. An unpaid or out-of-month one changes nothing. |
| Properties.RowArithmetic | api/src/controllers/propertyController.js:144-148 | Net = income − expenses. Expected rent is the monthly rent or 0, and variance = income − expected rent. |
| Properties.Summarize | api/src/controllers/propertyController.js:152-178 | The count and the income, expense and net totals are the row count and row sums. There is one type group per property type among the rows and one location group per location; each holds the number of its rows and their income and expenses. The groups' counts, income and expenses add up to the totals. |
| Properties.GetIncomeReport | api/src/controllers/propertyController.js:104-185 | There is one line per active property at the location. Income and expenses are the month's income and expense entries, whatever their status, with transfers in neither, and net = income − expenses. The summary is that of the lines. |
| Properties.SummaryNetBalances | api/src/controllers/propertyController.js:152-156 | The report's net income is its total income less its total expenses. |
| Properties.NetIsSignedSum | api/src/controllers/propertyController.js:126-146 | A line's net is the signed sum of the month's entries. |
| Properties.TransferChangesNothing | api/src/controllers/propertyController.js:127-132 | A transfer entry changes neither a property's income nor its expenses. |
| Access.Decide | api/src/routes/api.js:15-94 | Requests without a user are refused. A request is handled exactly when a user calls a registered route that is open or lists the user's role, and it is "no route" exactly when a user calls an unregistered one. |
| Access.TableFollowsRules | api/src/routes/api.js:17-94 | Every registered route demands exactly the roles the rules name: admin for deleting employees and properties; admin or manager for other deletes and for writing employees and properties; nothing more for the rest. |
| Access.UnauthenticatedAlwaysRefused | api/src/routes/api.js:15 | No request without an authenticated user reaches a handler. |
| Access.DeletionNeedsManager | api/src/routes/api.js:23-88 | Deleting a vehicle, container, part, customer, order or ledger entry is handled for admin and manager and forbidden for staff. |
| Access.SensitiveDeletionNeedsAdmin | api/src/routes/api.js:70-78 | Deleting an employee or a property is handled for admin only. |
| Access.SensitiveWritesNeedManager | api/src/routes/api.js:67-77 | Creating or updating an employee or a property is handled for admin and manager and forbidden for staff. |
| Access.OtherRoutesOpen | api/src/routes/api.js:17-94 | Every other registered route, including order status changes, payments, expenses and ledger writes, is handled for any authenticated role. |
| Access.RolesAreOrdered | api/src/routes/api.js:17-94 | Whatever staff may do a manager may do, whatever a manager may do an admin may do, and an admin may use every registered route. |

## Left out

- Database and ORM:
  - the queries themselves, `include` loading and ordering clauses other than the low-stock sort;
  - Sequelize setup and connection handling;
  - isolation levels.
- Concurrency: the stock check and the decrement are not atomic (the part is read outside the
  database transaction and not locked). The model runs each request alone. `Orders.Create` requires
  distinct part ids across the lines, because repeated ids have no clean sequential meaning here.
- The order delete relies on the order-to-items association (api/src/models/index.js:49-50)
  cascading to the items. The ledger's reference to orders (api/src/models/Transaction.js:62-68)
  has no delete action, so an order with a
  ledger entry is refused (`Rejected`) rather than deleted.
- The clock, randomness and id generation:
  - `new Date()` becomes a `today` input;
  - the order and transaction numbers (`Math.random`, `Date.now()`) are not modelled;
  - row ids are inputs required fresh;
  - the month and year windows built with `new Date(year, month, 0)` are inputs. So are the first days
    of the months for the cash flow (`getMonth()` in local time) and days outstanding (today − order
    date), including the time-of-day and time-zone effects of comparing timestamps with whole days.
- Floating point: amounts are exact integers. Not modelled:
  - `parseFloat` rounding;
  - the container report's `margin` (`toFixed`);
  - the receivables' `averageOutstandingDays` (`Math.round`).
- Reports.DashboardMonth: only the month-to-date part and the inventory value of the dashboard
  (reportController.js:5-57) are modelled. The vehicle, container, customer and stock counts and the
  recent-orders list are plain count queries. Its own contract only bounds the count; the revenue and
  count are fixed, table by table, by `Reports.DashboardMonthGrows`.
- Request bodies are taken as typed: amounts are numbers or absent. JavaScript's string
  concatenation for amounts sent as strings (for example `subtotal - discount + tax`) is not
  modelled.
- Payroll.AddExpense: the expense body is taken as a well-formed row. An insert the database refuses
  (an enum label outside the column's list, a missing NOT NULL field) is not modelled, so the only
  error is `NotFound`.
- Prices read from the database are decimals that the Postgres driver hands over as strings. A
  stored 0 is therefore the truthy string "0.00". In the valuation, `sellingPrice || costPrice`
  falls back only on NULL (`Stock.SellOf`), not on "absent or 0". In the order line, `unitPrice`
  comes from the JSON body, so a 0 there does fall back (`Wrappers.OrElse`).
- Every nullable column with a default is taken as never NULL and is a plain value in the model.
  Among the columns the model reads, this covers:
  - a customer's `isActive`, `creditLimit` and `currentBalance`;
  - an order's `status`, `paymentStatus`, `paidAmount`, `discount`, `tax` and `shippingCost`;
  - the `status` column of vehicles, containers, parts, employees, expenses, properties and ledger
    entries.

  A create or update body that writes an explicit NULL there is not modelled. Such a customer would match neither `isActive` filter, and such an
  order's payment would compute NaN.
- A vehicle's purchase price and a part's cost price are NOT NULL columns. The `|| 0` guards on them
  in the profit-and-loss code never fire and are not modelled.
- Stock.PageCount: a limit of 0 or less has no page count (`None`). The JSON `null` that `Infinity`
  or `NaN` becomes is not modelled, and neither is the database's refusal of a negative limit. Only
  the page arithmetic of `getAll` is modelled, not the query.
- Stock.SortByQuantity: the order among parts of equal quantity is whatever the database returns.
  The insertion sort fixes one order, and the contracts promise only "ascending by quantity, same
  parts".
- Customers.Listed: the `type` filter and the paging of the customer list are not modelled. A query
  parameter given twice (an array) is not modelled either.
- Pass-through CRUD, search and status endpoints are not modelled:
  - `getAll`, `getById`, `create`, `update` and `delete` other than the order delete;
  - `search` (`iLike` queries);
  - `orderController.update`;
  - `updateStatus`, which writes the requested status without a transition check;
  - `vehicleController.js` as a whole.
- Authentication: the authentication and role middleware (api/src/middleware/auth.js) is not part
  of this model, and neither is `authController.js` (JWT signing, password hashing). `Access.Decide`
  assumes that a restricted route admits exactly the listed roles.
- Route matching by HTTP method and path pattern is abstracted to (resource, action) pairs. In the
  router, every literal path (`/search`, `/valuation`, `/expense-report`, …) is registered before
  the `/:id` pattern it would otherwise match.
- The UI (`src/`) is not modelled.
