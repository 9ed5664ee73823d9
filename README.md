# Account CRUD application: gateway and console

This project models the two parts of a small financial-account application
that carry logic:

- **The account gateway** (`back/server.js`), an Express backend over one
  MySQL table `accounts(id, name, balance)`. Every `/api` request first
  passes a pool guard (503 when the connection pool was never created).
  Create and update then validate their input (`name` truthy, `balance`
  present and accepted by `parseFloat`); list, get-by-id and delete validate
  nothing. Each endpoint sends one statement to the store and maps the
  result to a status: the list answers 200 whatever the row count,
  get-by-id tests the row count, update and delete test `affectedRows`, and
  any store failure answers 500 with a fixed message.
  Module `Gateway` holds that logic. Class `Gateway.Gateway` owns the pool
  flag, the `parseFloat` stand-in, and an in-memory table. The table is a
  map from id to row plus the auto-increment counter. A ghost `log`
  records every statement the handlers send, so "no store access" can be
  stated.
- **The account console** (`front/src/app/account-list/account-list.component.ts`),
  the Angular list component. Its five fields are `accounts`, `newAccount`,
  `selectedAccount`, `showForm` and `isEditing`. Its methods move it between
  Browsing, Adding and Editing. Module `Console` models the component as
  class `AccountList` with one method per component method. `Step` is a pure
  function of the fields that the mutating methods are proved against. The
  invariant says two things: `isEditing` holds exactly when
  `selectedAccount` is set, and `isEditing` implies `showForm`. It is proved
  for every event and for every sequence of events from the initial fields.

Modelling choices:

- Balances have type `Decimal` (module `Decimals`), an abstract stand-in
  for the JavaScript number declared as `real`. The core does no arithmetic
  on balances.
- `parseFloat` followed by `isNaN` is a function value
  `parse: JsValue -> Option<Decimal>` given to the gateway's constructor.
  No property depends on how it parses.
- Request body fields are `JsValue`s (undefined, null, booleans, numbers,
  strings, arrays, objects), so `!name` is JavaScript truthiness on the values
  the model represents.
- Store assumptions (these are not code of the application):
  - an INSERT gets the counter's value as `insertId`;
  - the counter is positive and above every id in the table, so the new id
    is fresh and never reused after a delete;
  - `affectedRows` counts matched rows (the client library's default
    found-rows flag);
  - a failed statement has no effect on the table;
  - `SELECT *` returns the rows in ascending id order, so the list is a
    scan over ids from 1 up to (not including) the counter.
- Store failures are injected by the `fault: Option<string>` parameter of
  each handler. The string is the failure's detail, and the responses do
  not depend on it.
- HTTP calls of the console are split in two. The sending method returns the
  request (`SaveAccount`, `DeleteAccount`, `RefreshAccounts`). A completion
  method takes the result as input: `Success(data)` or `Failure`. `confirm()`
  is the boolean parameter `confirmed`.

Where the code behaves differently from what its names and messages
suggest, the model follows the code:

- Validation tests truthiness only. A name of `true` or `5` passes, and a
  balance of `null` reaches `parseFloat`.
- Get-by-id answers with the first row that the select returns.
- Update answers with the path id. It does not answer with a stored row.
- Editing an account that has no `id` and then saving sends a create of the
  new-account draft (`SaveAccount`). That draft is the empty one, because
  `editAccount` resets it.

## Model

| member | source | states |
|---|---|---|
| Gateway.Validate | ACT_1/fintech-solutions/back/server.js:102-107 | input is rejected iff `name` is falsy, `balance` is undefined or `parse` rejects it; otherwise the row carries the given name and the parsed balance |
| Gateway.StoreError | ACT_1/fintech-solutions/back/server.js:74-173 | a store failure answers 500 with a plain-text message that depends only on the endpoint |
| Gateway.ScanMembers | ACT_1/fintech-solutions/back/server.js:71-72 | an account is in the id scan of [lo, hi) iff its id lies in that range and it equals a row of the table field for field |
| Gateway.ScanAscending | ACT_1/fintech-solutions/back/server.js:71-72 | the scan lists ids in strictly ascending order, all at least lo, so no row appears twice |
| Gateway.Select | ACT_1/fintech-solutions/back/server.js:84-85 | the select returns exactly the table's rows (only those with the given id for a select by id), in ascending id order |
| Gateway.Gateway.constructor | ACT_1/fintech-solutions/back/server.js:24-33 | a gateway starts with the given pool flag, parser and table, and an empty statement log |
| Gateway.Gateway.Query | ACT_1/fintech-solutions/back/server.js:71-84 | a SELECT yields the selected rows, or the injected failure with its detail; it is logged and changes nothing else |
| Gateway.Gateway.Execute | ACT_1/fintech-solutions/back/server.js:110-161 | INSERT assigns the fresh counter id and adds the row; UPDATE overwrites only the row with that id; DELETE removes only that id; `affectedRows` is 1 iff the id was present; a failure leaves the table unchanged |
| Gateway.Gateway.Handle | ACT_1/fintech-solutions/back/server.js:57-63 | without a pool every request answers 503, the table is unchanged and no statement is sent; with a pool no request answers 503 and at most one statement is sent |
| Gateway.Gateway.ListAccounts | ACT_1/fintech-solutions/back/server.js:69-78 | answers 200 with a list containing exactly the table's rows, once each; a store failure answers 500 "Error fetching accounts"; the table is unchanged |
| Gateway.Gateway.GetAccount | ACT_1/fintech-solutions/back/server.js:81-96 | answers 200 with the row of that id iff the id is in the table, otherwise 404 "Account not found"; a store failure answers 500; the table is unchanged |
| Gateway.Gateway.CreateAccount | ACT_1/fintech-solutions/back/server.js:99-120 | invalid input answers 400 with no statement sent and the table unchanged; a valid create answers 201 with the fresh id, the given name and the parsed balance, and adds exactly that row; a store failure answers 500 with the table unchanged |
| Gateway.Gateway.UpdateAccount | ACT_1/fintech-solutions/back/server.js:123-151 | invalid input answers 400 with no statement sent; if the id is present, answers 200 with `{path id, name, parsed balance}` and overwrites only that row; otherwise 404 with the table unchanged; a store failure answers 500 with the table unchanged |
| Gateway.Gateway.DeleteAccount | ACT_1/fintech-solutions/back/server.js:154-174 | if the id is present, answers 200 with the confirmation text and removes exactly that row; otherwise 404 with the table unchanged; a store failure answers 500 with the table unchanged |
| GatewayProperties.CreateThenFetch | ACT_1/fintech-solutions/back/server.js:107-114 | a valid create followed by a get of the returned id answers 200 with the very object create returned; the id was not in the table before |
| GatewayProperties.DeleteTwice | ACT_1/fintech-solutions/back/server.js:158-169 | the first delete answers 200 iff the id was present; the second answers 404; afterwards the id is absent |
| GatewayProperties.UpdateMissing | ACT_1/fintech-solutions/back/server.js:132-146 | updating an absent id with a valid body answers 404 "Account not found", with an invalid body 400; the table is unchanged either way |
| GatewayProperties.Walkthrough | ACT_1/fintech-solutions/back/server.js:99-174 | on an empty table: create Alice with 100.5 gives 201 with id 1, get gives the same object, update to 200 gives 200, delete gives 200, and get afterwards gives 404 |
| GatewayProperties.WithoutPool | ACT_1/fintech-solutions/back/server.js:57-63 | a gateway whose pool was never created answers 503 to any request under any fault; its statement log stays empty and its table and counter are as given |
| Console.Step | ACT_1/fintech-solutions/front/src/app/account-list/account-list.component.ts:47-140 | every event preserves the invariant; only a refresh result changes the list; refresh and delete results change nothing but the list |
| Console.StepModes | ACT_1/fintech-solutions/front/src/app/account-list/account-list.component.ts:117-140 | opening the add form leads to Adding with a reset draft; editing leads to Editing with the account selected; cancel and a successful save lead to Browsing with both drafts reset; results that fail, and delete results, keep the mode |
| Console.CancelIdempotent | ACT_1/fintech-solutions/front/src/app/account-list/account-list.component.ts:134-140 | cancelling twice gives the same fields as cancelling once |
| Console.FailuresKeepForm | ACT_1/fintech-solutions/front/src/app/account-list/account-list.component.ts:52-111 | a failed save or refresh, and any delete result, leave all five fields as they were |
| Console.RunKeepsInv | ACT_1/fintech-solutions/front/src/app/account-list/account-list.component.ts:117-140 | any sequence of events from a state satisfying the invariant ends in a state satisfying it |
| Console.ReachableInv | ACT_1/fintech-solutions/front/src/app/account-list/account-list.component.ts:18-26 | every state reachable from the field initialisers satisfies the invariant |
| Console.RunKeepsListWithoutRefresh | ACT_1/fintech-solutions/front/src/app/account-list/account-list.component.ts:47-51 | the list changes only through a successful refresh: a run without one ends with the list it started with |
| Console.AccountList.constructor | ACT_1/fintech-solutions/front/src/app/account-list/account-list.component.ts:18-26 | the component starts with an empty list, the empty draft, nothing selected and the form hidden |
| Console.AccountList.OnInit | ACT_1/fintech-solutions/front/src/app/account-list/account-list.component.ts:34-36 | initialisation sends the list request |
| Console.AccountList.RefreshAccounts | ACT_1/fintech-solutions/front/src/app/account-list/account-list.component.ts:40-46 | a refresh sends the list request and changes nothing until its result arrives |
| Console.AccountList.RefreshCompleted | ACT_1/fintech-solutions/front/src/app/account-list/account-list.component.ts:47-57 | a successful refresh replaces the list wholesale with the server's data; a failed one keeps it; the form fields are untouched |
| Console.AccountList.SaveAccount | ACT_1/fintech-solutions/front/src/app/account-list/account-list.component.ts:60-95 | sends an update of the selected copy to its id iff editing, an account is selected and it has an id; otherwise a create of the new-account draft |
| Console.AccountList.SaveCompleted | ACT_1/fintech-solutions/front/src/app/account-list/account-list.component.ts:67-93 | a successful save sends a refresh and returns the form to the cancelled state; a failed one changes no field and sends nothing |
| Console.AccountList.DeleteAccount | ACT_1/fintech-solutions/front/src/app/account-list/account-list.component.ts:97-100 | a delete request for the id is sent iff the user confirms |
| Console.AccountList.DeleteCompleted | ACT_1/fintech-solutions/front/src/app/account-list/account-list.component.ts:102-111 | a successful delete sends a refresh and nothing else; no field changes either way |
| Console.AccountList.OpenAddForm | ACT_1/fintech-solutions/front/src/app/account-list/account-list.component.ts:117-123 | shows the form in Adding with the draft reset and nothing selected; the list is untouched |
| Console.AccountList.EditAccount | ACT_1/fintech-solutions/front/src/app/account-list/account-list.component.ts:125-132 | shows the form in Editing with a copy equal to the account selected and the new draft reset; the list is untouched |
| Console.AccountList.CancelForm | ACT_1/fintech-solutions/front/src/app/account-list/account-list.component.ts:134-140 | hides the form, clears the selection and resets the draft; the list is untouched |

## Left out

- Gateway.Gateway.Handle: with a pool, its contract states only that no request answers 503 and that at most one statement is sent. It calls each endpoint's handler, and each handler's own contract states that endpoint's full behaviour.
- Express setup, CORS, JSON body parsing, `app.listen` and the root liveness route (server.js:5-9, 176-183). These are framework plumbing.
- Pool configuration, the connection limit, the unbounded wait queue and the start-up test query (server.js:12-50). Connection management and concurrency are out of scope. Only "pool present" is modelled, and it is fixed at construction: the pool is assigned once, before the first request.
- Signal handling and `pool.end()` (server.js:185-202). This is process lifecycle.
- JavaScript `parseFloat`/`isNaN` and IEEE doubles. Parsing is an abstract function value. A JSON number is taken as the exact value written, so rounding when the body is read (a literal such as `1e-400` becoming 0, hence falsy as a `name`) is not modelled, nor are infinities.
- MySQL itself: SQL text, column types and conversions (such as DECIMAL returned as a string), and the coercion of string path ids. Path ids are integers in the model. The delete confirmation therefore shows the canonical decimal text of the id, and the update response carries the integer id, while the source echoes the raw path string in both.
- A store failure that happens after the statement took effect. The model's failures always leave the table unchanged.
- All `console.log`/`console.error` output, and `handleError` message formatting (component.ts:143-160). Their output only reaches the log.
- HttpClient and RxJS pipelines, overlapping requests that complete out of order, and the template bindings (the template is not part of this model). Completion methods may be called in any order, and no property depends on what the template writes into the drafts.
- `app.module.ts`, which holds only Angular module wiring.
