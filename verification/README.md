# waitr-api order core in Dafny

A model of two small pure pieces of logic in the waitr restaurant-ordering API. The
pieces sit inside otherwise I/O-heavy Express routes.

- **Order assembly** (`assembly.dfy`). `assignItemsToOrder` and the inline loop of
  `/getAllLive` attach the rows of an order-items query to the order headers fetched
  separately. They match on `orderId` and project each row to `{itemId, name, price}`
  or to `{itemId, name}`.
- **The order-read routes** (`retrieval.dfy`). These are `/getAllLive/:restaurantId`,
  `/list/:restaurantId`, `/live/:orderId`, `/history` and `/historyV2`. Each is a pure
  function of the request, the store's answers and the authorisation predicates. It
  returns the route's result together with the trace of store queries it made. Each
  route runs the same guard chain before it queries anything further:
  1. role check;
  2. required-parameter check;
  3. existence lookup;
  4. ownership check.
  After the guards, the route fetches orders and assembles them with the explicit
  empty shapes `{}` and `{data: {}}`.
- **The refund flow** (`refund.dfy`, the `/refund` route). It is a pure function of
  the payment lookup, the payment processor, the refund record store and the
  processor-error helpers. It returns the reply, or the error handed on, plus the
  trace of external calls.
- **The error table and the terminal error handler** (`errors.dfy`). The handler
  answers a recognised error with its table status and the error object as body.
  Anything else becomes a 500 with the generic internal-error entry.

`basics.dfy` holds the shared `Option`, `Result`, `Id` and the opaque `Fault` that
stands for collaborators' errors.

Inputs, not modelled:
- the relational store's answers (`Retrieval.Store`, `Refund.Services`);
- the payment processor's answers and its error helpers `isStripeError` and
  `setStripeMsg` (`Refund.Services`);
- `Auth.userHasRequiredRole` and `Auth.userHasAccessRights` (`Retrieval.Auth`);
- `p.paramsMissing` (`Retrieval.Request.paramsMissing`).

None of these are visible in the source. They are function-typed fields, so every
property holds for every behaviour they might have.

What the code does, and does not do:
- The refund flow checks only `paid === 1` on the first payment row. It does not check
  that a charge id exists, and it has no "already refunded" check.
- A refund that was made but not recorded is answered directly with status 400 and
  the store's error. It is not handed to the error handler.
- Several error identities the order routes raise are not entries of the table in
  `helpers/error.js`: `insufficientRolePrivileges`, `orderNotFound`,
  `chargeNotFound`, `cannotRefundUnpaidOrder` and `stripeError`. The model keeps them
  as abstract `RouteError` constructors. `Errors.TableKey` gives them no table key, so
  nothing is claimed about how the handler answers them.
- Two of the routes' premises do not hold of the code as written; "## Left out" names
  both and what the code does instead.

## Model

| member | source | states |
|---|---|---|
| Errors.TableKeysMatch | helpers/error.js:10-142 | every table entry's `errorKey` equals the key it is stored under |
| Errors.TableStatusesAllowed | helpers/error.js:14-141 | every table status is one of 400, 401, 403, 404, 409, 500 |
| Errors.ErrorHandler | helpers/error.js:144-155 | a known key gets its table status (not the error's own) and the unchanged error as body; any other error gets 500 and the internal-error entry; the status always comes from the table |
| Errors.StatusDependsOnlyOnKey | helpers/error.js:148-149 | two errors with the same key get the same status, whatever else they carry |
| Errors.UnknownErrorsIndistinguishable | helpers/error.js:152-154 | any two unrecognised errors get identical replies, so nothing of them leaks |
| Errors.TableBackedRouteErrors | controllers/OrderController.js:23-31 | the table errors the routes throw are answered with 400 (missing params), 403 (ownership), 404 (restaurant or user missing), 500 (internal) |
| Assembly.Project | controllers/OrderController.js:248 | a projected item carries the row's `itemId` and `name`, and a price (the row's) exactly in the priced view; the live path (line 55) uses the unpriced view |
| Assembly.ResetItems | controllers/OrderController.js:37-43 | every order starts with empty items; id and header columns are untouched |
| Assembly.AddItem | controllers/OrderController.js:249-254 | one row is appended, projected, to exactly the orders whose id equals its `orderId`; every other order is unchanged |
| Assembly.AssignItems | controllers/OrderController.js:246-256 | the orders keep their number, their order, their ids and headers |
| Assembly.AssignItemsContents | controllers/OrderController.js:247-254 | each order's items become its previous items followed by the projections of exactly the rows carrying its id, in arrival order |
| Assembly.AssignItemsCharacterized | controllers/OrderController.js:246-256 | assembly equals the orders with items extended by the reference `ItemsFor` |
| Assembly.AssignItemsArrivalIndependent | controllers/OrderController.js:247-255 | two item fetches that agree order by order (per-order row sequence) assemble identically, however they interleave |
| Assembly.UnmatchedItemIgnored | controllers/OrderController.js:251-252 | a row whose `orderId` names no order is added nowhere: dropping it changes nothing |
| Assembly.AssignItemsTotal | controllers/OrderController.js:247-255 | the number of added items is the sum over rows of the number of orders carrying the row's id |
| Assembly.AssignItemsPlacesEachMatchedRowOnce | controllers/OrderController.js:247-255 | with unique order ids, the number of added items equals the number of rows that name some order |
| Assembly.MatchedRowLandsInOneOrder | controllers/OrderController.js:249-252 | with unique order ids, a row that names an order is among the rows assembled into that order and among those of no other order |
| Assembly.AddItemUniqueTarget | controllers/OrderController.js:249-253 | with unique order ids, a row grows exactly the one order with its id and leaves all others equal |
| Retrieval.Guard | controllers/OrderController.js:12-32 | a role failure comes first with no store access; then missing params, still with no store access; then the lookup; an empty lookup gives not-found whatever the access rights; a failed ownership check stops after the lookup; it passes iff all guards pass |
| Retrieval.Handle | controllers/OrderController.js:12-244 | a route queries past the existence lookup iff every guard passes, then first with the route's fetch; it answers only then; otherwise it raises the guard's error |
| Retrieval.Fetch | controllers/OrderController.js:32-63 | after the guards, each route's exact answer and query sequence: a failed first fetch is handed on; `/getAllLive` answers `{data: {}}` without an items query for no live orders, else `LiveBody` of its orders and items; `/list` and `/historyV2` always query items and answer `ListBody`; `/history` answers the fetched rows; `/live/:orderId` goes on with the fetched rows; an items-query failure is handed on |
| Retrieval.ForbiddenLeaksNothing | controllers/OrderController.js:125-130 | a requester who passes role and parameter checks but lacks access rights to an existing resource gets `insufficientPermissions` from every route, and the lookup is the only store access |
| Retrieval.HistoryOwnerChosen | controllers/OrderController.js:184-192 | the history routes look up, check and read the `userId` query value if present and non-empty, else the requester's own id |
| Retrieval.ListBody | controllers/OrderController.js:94-105 | `{}` for no orders; otherwise every order in fetch order, with items exactly its own priced rows in arrival order |
| Retrieval.LiveBody | controllers/OrderController.js:37-63 | `{data: orders}` with every order carrying exactly its own unpriced rows in arrival order |
| Retrieval.EmptyResultShapes | controllers/OrderController.js:94-103 | with no orders, `/list` and `/historyV2` answer 200 `{}`, and `/getAllLive` answers 200 `{data: {}}` without fetching items |
| Retrieval.NoItemsGiveEmptyItems | controllers/OrderController.js:101-103 | with no item rows, every returned order has empty items |
| Retrieval.EmptyItemsShortcutAgrees | controllers/OrderController.js:101-105 | the early return for an empty item fetch answers what full assembly answers |
| Refund.ClassifyGatewayFault | controllers/OrderController.js:274-281 | a non-processor error becomes `internalServerError`; a processor error keeps the processor status, takes the rephrased user message and the code-and-trace developer message |
| Refund.RefundOrder | controllers/OrderController.js:262-292 | lookup error handed on unchanged, no row gives `chargeNotFound`, `paid !== 1` gives `cannotRefundUnpaidOrder`, with no further call; the processor is called iff the payment is found and paid, with the first row's charge and amount; the refund is recorded iff the processor confirmed, with its id, charge and amount; a record failure gives 400 with the store error, success gives 200 with the confirmation |
| Refund.UnpaidOrMissingNeverRefunded | controllers/OrderController.js:264-267 | a missing or unpaid payment never reaches the processor and ends in an error |
| Refund.UnrecordedRefundReported | controllers/OrderController.js:284-290 | a refund the processor made but the store did not record is answered with 400, and the processor call did happen |
| Refund.ClassifiersOnlyOnFailure | controllers/OrderController.js:273-281 | the processor-error helpers influence the outcome only after a processor failure |

## Left out

- SQL queries and payment-processor SDK calls (`models/Payment.js`) are not modelled. Their answers are the function-typed inputs `Retrieval.Store` and `Refund.Services`. The `affectedRows < 1` rejections are part of whatever failure those inputs return.
- The payment-processor async wrappers, `Payment.isStripeError`, `Payment.setStripeMsg`, `Auth.userHasRequiredRole`, `Auth.userHasAccessRights` and the parameter helper are not part of this model. They are uninterpreted inputs.
- `/live/:orderId` after the `getLiveOrder` fetch (controllers/OrderController.js:134-159) is not modelled: the items copy, the restaurant-name lookup and the reply. That code sets `items` only when items exist, and it continues after a missing live order. The model stops at `Answer.Continues` with the fetched rows, so it claims nothing about that reply.
- The refund route's hard-coded `orderId` is a parameter of `Refund.RefundOrder`.
- Retrieval.Guard: assumes the role constants `roles.restaurateur`, `roles.waitrAdmin` and `roles.diner` exist. As written, controllers/OrderController.js:6 reads `.roles` from models/UserRoles.js, which exports only `roleIDs` (with `waiterAdmin`, not `waitrAdmin`). So building `allowedRoles` (controllers/OrderController.js:15, 73, 115, 169, 206) throws a TypeError on every request before the role check. Express hands that error on, and the error handler answers 500. The model runs the role check the routes evidently intend.
- Refund.RefundOrder: assumes a `stripeError` error object exists. As written, `e.stripeError` is undefined (helpers/error.js:10-142), so assigning its `statusCode` (controllers/OrderController.js:278) throws a TypeError. The async handler's rejected promise is dropped by the route at controllers/OrderController.js:261, and no reply is sent. The model hands on the intended fresh `StripeError` value instead.
- The handling of an `undefined` error is not modelled. `next(undefined)` happens when a route raises one of the identities missing from the table.
- `JSON.parse(JSON.stringify(...))` copies are treated as the identity. Values are immutable here, and the columns are strings and integers.
- Order ids are compared with JavaScript loose equality `==`. They are modelled as strings compared with string equality.
- Promise sequencing is modelled as sequential composition. Logging, the HTTP framework and the `/refund` router glue are not modelled.
- The payment and restaurant controllers, sockets, user roles, routing and the response helpers are left out. They are store or processor plumbing with no logic of their own.
