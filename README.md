# Store backend core and route guard, in Dafny

This project models the core of a small store application. The backend is a NestJS service over Sequelize, and the frontend is a Next.js app. Five parts are modelled:

- **Products and the stock ledger** (`ProductService`, product_service.dfy):
  - keyed lookup, creation, partial update and deletion of products;
  - the read-only check `verificarEstoque`, which asks whether a product holds enough stock;
  - `atualizarEstoque`, which credits or debits a product's stock and refuses a debit the stock cannot cover.
- **Orders** (`OrderService`, order_service.dfy):
  - `create` checks each requested item against the product's current stock and snapshots its price into the order line. It sums the subtotals into the order total, writes the order and its lines, and completes the order straight away when asked to.
  - `updateOrderStatus` overwrites the status. When the new status is Concluído, it debits every line's quantity from its product.
  - Either operation runs in a transaction: if any step fails, none of its writes remain.
- **Users** (`UserService`, user_service.dfy):
  - keyed CRUD under the rule that no two users share an email. Emails are matched as the database matches them: under the email column's collation (MySQL's default collation ignores case). The model treats the collation as a key function `collate`.
  - `update` probes the database only when the new email differs, as an exact string, from the stored one. Changing one's own email only in case is therefore refused with Conflict, because the probe finds the user's own row (`UserService.RespellingOwnEmailConflicts`);
  - passwords stored only as their hash;
  - the password left out of everything returned to callers.
- **Credential check** (`AuthService`, auth_service.dfy): `validateUser` and `login`. An unknown email and a wrong password give the same failure. A successful login returns the user without the password, plus a token signed over `{email, sub: id, role}`.
- **Frontend route guard** (`RouteGuard`, route_guard.dfy): the Next.js `middleware`. For each request it decides, from the path, the `token` cookie and the role in the `user` cookie, whether to let the request through or to redirect it. It matches routes by plain string prefix.

Representation:
- Each database table is a class whose fields the service methods reassign: `ProductTable`, `OrderTables` and `UserTable`.
  - A table holds a `map` from id to row, or a `seq` of rows for `order_items`, which keeps insertion order.
  - Each table also holds the next auto-increment id.
  - `Valid()` ties every row to its key and says that every key is positive and lies below the next id. For `order_items`, which is a sequence, it says that every item's id is positive, lies below the next item id, and increases in insertion order, so ids are unique and newly written ones are fresh. The user table's `Valid()` also requires that no two emails match under the collation. The order tables' `Valid()` also says that every order line belongs to an existing order.
- Each read is a function over the table's map.
- Each write is a method that states the table's whole new state.
- Failures are `Result` values, carrying the exception class (`BadRequest`, `NotFound`, `Conflict`, `Unauthorized`) and the message's subject.
- A transaction is modelled by restoring the tables on the failure path, and the contracts say that a failing call leaves every table as it was.
- bcrypt's hash and compare and the JWT signer are function-valued parameters.

The order service is modelled as `backend/src/order/order.service.ts` is written. Its tests, in `backend/src/order/order.service.spec.ts`, describe a different version, which this model does not follow:

- `findOne` and a missing product or order raise BadRequest, not NotFound.
- The status is saved even when it does not change.
- Completing an order debits stock with no sufficiency check, so stock can go negative. `OrderService.PerItemCheckAllowsOverselling` gives an example: stock 3 and two lines of 2 each both pass creation, and completion leaves −1.
- Nothing is credited back when an order is cancelled.
- Completing an order that is already Concluído debits its stock a second time (`OrderService.RepeatedCompletionDebitsTwice`).
- The order service reads and writes the products table directly. It does not go through `verificarEstoque`/`atualizarEstoque`.

## Model

| member | source | states |
|---|---|---|
| ProductService.FindOne | backend/src/product/product.service.ts:23-33 | Succeeds exactly when the id is in the table, with that row; otherwise NotFound naming the id. |
| ProductService.VerificarEstoque | backend/src/product/product.service.ts:83-97 | Succeeds, with the stored product, exactly when the product exists and its stock is at least the requested quantity. Otherwise NotFound for a missing product, or BadRequest carrying the product's name and available stock. Reading never changes the table. |
| ProductService.Patch | backend/src/product/product.service.ts:60-62 | The updated row keeps its id. Each field the dto carries replaces the stored one, and every other field keeps its old value. |
| ProductService.Create | backend/src/product/product.service.ts:35-46 | Inserts the dto's fields under the next auto-increment id, which was not in use. Returns that row and advances the counter. |
| ProductService.Update | backend/src/product/product.service.ts:48-71 | NotFound, changing nothing, for an unknown id. Otherwise only that row changes, to the patched row, which is returned. |
| ProductService.Remove | backend/src/product/product.service.ts:73-81 | Deletes exactly that id. NotFound, changing nothing, when no row was deleted. |
| ProductService.AtualizarEstoque | backend/src/product/product.service.ts:99-122 | NotFound for a missing product. A debit larger than the stock fails with BadRequest and leaves the table as it was. A credit adds the quantity. A covered debit subtracts it and leaves a stock of zero or more. Only that product's stock field changes. |
| OrderService.ItemsOf | backend/src/order/order.service.ts:34-41 | An order's items are exactly the stored items that carry its id. |
| OrderService.FindOne | backend/src/order/order.service.ts:33-48 | Succeeds exactly when the order exists, with the order and its items; otherwise BadRequest naming the id. |
| OrderService.CheckItem | backend/src/order/order.service.ts:62-77 | An item passes exactly when its product exists and the current stock covers its quantity. Otherwise it fails with the "product not found" or the "insufficient stock" BadRequest. |
| OrderService.PriceItems | backend/src/order/order.service.ts:62-88 | Succeeds exactly when every item passes its check. It then gives one line per item, in order, with the product's current price and price × quantity as subtotal. |
| OrderService.PriceItemsFirstFailure | backend/src/order/order.service.ts:62-77 | When items fail, the error reported is the one of the first failing item. |
| OrderService.CollectItems | backend/src/order/order.service.ts:54-88 | The first loop of create computes exactly PriceItems and accumulates the sum of the lines' subtotals. |
| OrderService.TotalAppend | backend/src/order/order.service.ts:79-80 | Adding a line adds its subtotal to the running total. |
| OrderService.InsertItems | backend/src/order/order.service.ts:98-106 | The second loop appends one row per line under the new order, with consecutive ids, and changes no order. |
| OrderService.RowsPreserveTotal | backend/src/order/order.service.ts:79-106 | The stored rows' subtotals add up to the order's total. |
| OrderService.CreatedRowsSnapshotPrices | backend/src/order/order.service.ts:79-106 | The rows create writes have one row per requested item, in order. Each names the new order, the requested product and quantity, the product's price at creation time, and a subtotal of price × quantity. |
| OrderService.NewOrderItems | backend/src/order/order.service.ts:98-114 | The items read back for the new order are exactly the rows written for it. |
| OrderService.PricedItemsCanBeDebited | backend/src/order/order.service.ts:108-110 | Every priced line names an existing product, so completing a newly created order cannot fail. |
| OrderService.DebitAll | backend/src/order/order.service.ts:143-157 | The completion loop succeeds exactly when every line's product exists. It keeps the set of products and lowers each product's stock by the total quantity its lines take, with no lower bound. It fails with the "not found during stock update" BadRequest for a missing product. |
| OrderService.RepeatedCompletionDebitsTwice | backend/src/order/order.service.ts:140-157 | Completing the same order twice debits twice its quantities. |
| OrderService.PerItemCheckAllowsOverselling | backend/src/order/order.service.ts:73-80 | Two lines of 2 against a stock of 3 both pass creation, and completion leaves the stock at −1. |
| OrderService.UpdateOrderStatus | backend/src/order/order.service.ts:121-168 | A missing order gives BadRequest and changes nothing. Otherwise the status is overwritten and nothing else in the order changes. For Concluído the products become DebitAll of the order's items; if a product is missing, both tables are restored and the error is returned. |
| OrderService.Create | backend/src/order/order.service.ts:50-119 | If any item fails its check, that error is returned and no table changes. Otherwise one order is written under the next id, with total = the sum of the subtotals and status Concluído if requested, else Pendente. Its rows are appended, the stock is debited exactly when the order completes, and the order is returned with its items. An empty item list is accepted and gives an order with total 0 and no items. |
| UserService.FindOne | backend/src/user/user.service.ts:26-36 | Succeeds exactly when the id exists, with the user's view (no password); otherwise NotFound. |
| UserService.FindByEmail | backend/src/user/user.service.ts:38-48 | Succeeds exactly when some user's email matches under the collation, with the unique stored user holding it; otherwise NotFound naming the email. |
| UserService.RespellingOwnEmailConflicts | backend/src/user/user.service.ts:86-94 | An update to a different spelling of the user's own email that the collation does not tell apart (such as a change of case) is a Conflict. |
| UserService.HashPassword | backend/src/user/user.service.ts:96-98 | A given, non-empty password is replaced by its hash. With no password, or an empty one, the password field is left as given. The other fields are untouched. |
| UserService.Apply | backend/src/user/user.service.ts:100 | The updated row keeps its id. Each field the dto carries replaces the stored one, and every absent field keeps its old value. |
| UserService.CreateKeepsEmailsUnique | backend/src/user/user.service.ts:50-62 | Inserting a user whose email nobody has keeps emails unique. |
| UserService.UpdateKeepsEmailsUnique | backend/src/user/user.service.ts:86-100 | An update that passes the email check keeps emails unique. |
| UserService.Create | backend/src/user/user.service.ts:50-76 | Conflict, changing nothing, when some user's email matches under the collation. Otherwise exactly one new user is added under the next id, with the hashed password and role defaulting to user. The returned view has no password. Emails stay unique. |
| UserService.Update | backend/src/user/user.service.ts:78-124 | NotFound for a missing id. Conflict exactly when the dto gives an email that is not the stored string and that some user's email matches under the collation. Otherwise the row takes the dto's fields. A given password is stored as its hash, and without one the stored hash is kept. The view is returned. Failures change nothing, and emails stay unique. |
| UserService.Remove | backend/src/user/user.service.ts:126-134 | Deletes exactly that id. NotFound, changing nothing, when no row was deleted. |
| AuthService.ValidateUser | backend/src/auth/auth.service.ts:13-35 | Returns a user exactly when a stored user's email matches under the collation and the password checks against its hash. That stored user is returned; an unknown email gives None. |
| AuthService.Login | backend/src/auth/auth.service.ts:37-64 | Unauthorized exactly when the credentials do not match. Otherwise the matching stored user's view and the token signed over its stored email, its id (as sub) and its role. |
| AuthService.LoginFailuresIndistinguishable | backend/src/auth/auth.service.ts:17-45 | An unknown email and a wrong password give the same Unauthorized response. |
| RouteGuard.SomePrefix | frontend/src/middleware.ts:7-9 | True exactly when one of the routes is a prefix of the path. |
| RouteGuard.IsPublicRoute | frontend/src/middleware.ts:5-9 | Public exactly when the path starts with /login or /register. |
| RouteGuard.IsAdminRoute | frontend/src/middleware.ts:11-13 | The two startsWith tests agree with SomePrefix over the admin route list (/users, /settings). |
| RouteGuard.Middleware | frontend/src/middleware.ts:15-44 | "/" always passes. A public route redirects a visitor with a token to "/" and lets one without a token through. Any other route without a token redirects to /login with the request URL as callbackUrl. An admin route with a token but without the admin role redirects to "/". Everything else passes. |
| RouteGuard.PublicAndAdminDisjoint | frontend/src/middleware.ts:5-13 | No path is both public and administrative. |
| RouteGuard.AdminRoutesNeedAdmin | frontend/src/middleware.ts:39-41 | An admin route passes only with a token and the admin role. |
| RouteGuard.ProtectedRoutesNeedToken | frontend/src/middleware.ts:33-37 | Apart from "/" and the public routes, nothing passes without a token. |
| RouteGuard.SignedInNeverSentToLogin | frontend/src/middleware.ts:26-43 | A request with a token either passes or is sent to "/", never to /login. |
| RouteGuard.RedirectTargetPasses | frontend/src/middleware.ts:18-41 | Following any redirect with the same cookies is let through, so redirects do not loop. |
| RouteGuard.PrefixMatchingIsLoose | frontend/src/middleware.ts:7-13 | /loginx counts as public and /usersettings as administrative; "/" is neither. |

## Left out

- `findAll` of each service: a plain read of the whole table.
- The `catch` blocks that re-wrap unexpected database errors as BadRequest in the product and user services. The model has no failing database, so those paths do not arise.
- OrderService.Create: the order's `userId` is never set by the source, and the schema declares it non-null. The model stores no user (None) rather than modelling the database's rejection.
- OrderService.FindOne: returns the order's items without the nested product rows that `include: [Product]` adds.
- Timestamps (`createdAt`, `updatedAt`) of every table.
- Prices are whole cents here; the source uses DECIMAL columns and JavaScript numbers, so floating-point rounding is not modelled.
- OrderService.Create, OrderService.UpdateOrderStatus and ProductService.AtualizarEstoque: integers are unbounded. The columns' ranges are not modelled: DECIMAL(10,2) for `preco`, `preco_unitario`, `subtotal` and `total_pedido` (at most 99,999,999.99), and 32-bit INTEGER for `quantidade_estoque` and `quantidade`. Nor is the database's refusal of an out-of-range value, with the rollback that follows. So an order whose total exceeds the DECIMAL range, or a debit that drives stock below −2^31, succeeds in the model, although the database would make it fail.
- Concurrency. Transactions are modelled as atomic. Two concurrent completions of the same order, and the isolation level, are not modelled.
- The email collation is a function parameter; which strings MySQL's collation identifies (case, trailing spaces, accents) is not spelled out.
- bcrypt and JWT are modelled as deterministic functions passed in. bcrypt's random salt, and the token's expiry and verification (the JWT strategy), are not modelled.
- UserService.FindByEmail, AuthService.ValidateUser and AuthService.Login require emails to be unique under the collation. The database's unique index guarantees this, and the model uses it to make the lookup's answer unique.
- UserService.Update: the dto validators (a well-formed email, a password of at least 6 characters) are preconditions. The model only demands that the email, when given, is non-empty.
- RouteGuard.Middleware: the `user` cookie is taken as already decoded. A cookie that fails `JSON.parse` (the source then throws) is not modelled. `encodeURI` of the callback URL is not modelled; the callbackUrl is the request URL as given. The Next.js `matcher` that excludes static assets is not modelled.
- Controllers, DTO decorators beyond the preconditions above, seeding, module wiring and all other frontend code are not modelled: they are routing, metadata, I/O or UI.
- backend/src/product/dto/update-product.dto.ts is not part of this model. The update dto is taken as the create dto with every field optional.
- The order items are read back in insertion order. The source's query sets no order.
- ProductService.Remove: deleting a product that order lines refer to fails in the database through its foreign key. The model has no foreign keys, so the product is removed.
