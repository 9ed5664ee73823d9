/**
 * The account gateway: the REST backend of the application (back/server.js).
 *
 * Every `/api` request first passes the pool guard. Create and update then
 * validate their input; each endpoint issues exactly one statement against
 * the `accounts` table and maps the store's result (rows, `affectedRows`, or
 * a failure) to an HTTP status and body.
 *
 * The MySQL store is replaced by an in-memory table: a map from id to row
 * together with the auto-increment counter. Store assumption (not code of
 * the application): an INSERT receives the counter's value as `insertId`,
 * and the counter is above every id in the table, so that id is fresh.
 */
module Gateway {
  import opened Wrappers
  import opened Decimals

  type Id = int


  /** A value carried by one field of a JSON request body; `Undefined` when the field is absent. */
  datatype JsValue = Undefined | Null | Bool(b: bool) | Num(n: Decimal) | Str(s: string) | Arr | Obj

  /** JavaScript truthiness, for the values a JSON body can carry (JSON has no NaN). */
  predicate Truthy(v: JsValue) {
    match v
    case Undefined => false
    case Null => false
    case Bool(b) => b
    case Num(n) => n != 0.0
    case Str(s) => s != ""
    case Arr => true
    case Obj => true
  }

  /** The two fields destructured from `req.body`. */
  datatype Body = Body(name: JsValue, balance: JsValue)

  /** One stored row, without its key. */
  datatype Row = Row(name: JsValue, balance: Decimal)

  /** A row as the store returns it and as the JSON responses carry it. */
  datatype Account = Account(id: Id, name: JsValue, balance: Decimal)

  function AccountOf(id: Id, row: Row): Account {
    Account(id, row.name, row.balance)
  }

  /** `a` is, field for field, one row of table `t`. */
  ghost predicate Holds(t: map<Id, Row>, a: Account) {
    a.id in t && t[a.id] == Row(a.name, a.balance)
  }

  datatype Request =
    | ListAll
    | GetById(id: Id)
    | Create(body: Body)
    | Update(id: Id, body: Body)
    | Delete(id: Id)

  datatype Payload = Text(text: string) | AccountJson(account: Account) | AccountsJson(accounts: seq<Account>)

  datatype Response = Response(status: int, payload: Payload)

  /** The statements the handlers send to the store. */
  datatype Query = SelectAll | SelectById(id: Id)
  datatype Write = Insert(row: Row) | UpdateRow(id: Id, row: Row) | DeleteRow(id: Id)
  datatype Statement = Read(query: Query) | Change(write: Write)

  /** The result header of a write statement. */
  datatype Header = Header(insertId: Id, affectedRows: nat)

  /** What a statement yields: its result, or the store's failure with its diagnostic detail. */
  datatype StoreResult<T> = Done(value: T) | Failed(detail: string)

  const UnavailableText := "Service Unavailable: Database pool not initialized."
  const NotFoundText := "Account not found"
  const InvalidInputText := "Invalid input: name and valid balance are required."

  /** The endpoints, to name their fixed failure messages. */
  datatype Endpoint = Listing | Fetching | Creating | Updating | Deleting

  function FailureText(e: Endpoint): string {
    match e
    case Listing => "Error fetching accounts"
    case Fetching => "Error fetching account"
    case Creating => "Error creating account"
    case Updating => "Error updating account"
    case Deleting => "Error deleting account"
  }

  /** The answer to a store failure: status 500 and the endpoint's fixed message, whatever the failure was. */
  function StoreError(e: Endpoint): (r: Response)
    ensures r.status == 500 && r.payload.Text?
  {
    Response(500, Text(FailureText(e)))
  }

  /** Decimal text of an id, as the delete confirmation interpolates it. */
  function DigitsText(n: nat): string
    decreases n
  {
    if n < 10 then [(48 + n) as char] else DigitsText(n / 10) + [(48 + n % 10) as char]
  }

  function IdText(id: Id): string {
    if id < 0 then "-" + DigitsText(-id) else DigitsText(id)
  }

  function DeletedText(id: Id): string {
    "Account with ID " + IdText(id) + " deleted successfully"
  }

  /**
   * The input check shared by create and update: `name` truthy, `balance`
   * present, and `parse` (the stand-in for `parseFloat` followed by `isNaN`)
   * accepting it. On success, the row to write.
   */
  function Validate(body: Body, parse: JsValue -> Option<Decimal>): (r: Option<Row>)
    ensures r.None? <==> !Truthy(body.name) || body.balance.Undefined? || parse(body.balance).None?
    ensures r.Some? ==> r.value.name == body.name && parse(body.balance) == Some(r.value.balance)
  {
    if !Truthy(body.name) || body.balance == Undefined then None
    else match parse(body.balance)
      case None => None
      case Some(d) => Some(Row(body.name, d))
  }

  /** The rows whose ids lie in [lo, hi), in ascending id order: the store's scan of its primary key. */
  function TableScan(t: map<Id, Row>, lo: Id, hi: Id): seq<Account>
    decreases hi - lo
  {
    if lo >= hi then []
    else (if lo in t then [AccountOf(lo, t[lo])] else []) + TableScan(t, lo + 1, hi)
  }

  ghost predicate Ascending(rows: seq<Account>) {
    forall i, j :: 0 <= i < j < |rows| ==> rows[i].id < rows[j].id
  }

  lemma {:induction false} ScanMembers(t: map<Id, Row>, lo: Id, hi: Id, a: Account)
    ensures a in TableScan(t, lo, hi) <==> lo <= a.id < hi && Holds(t, a)
    decreases hi - lo
  {
    if lo < hi {
      ScanMembers(t, lo + 1, hi, a);
    }
  }

  lemma {:induction false} ScanAscending(t: map<Id, Row>, lo: Id, hi: Id)
    ensures forall i :: 0 <= i < |TableScan(t, lo, hi)| ==> lo <= TableScan(t, lo, hi)[i].id
    ensures Ascending(TableScan(t, lo, hi))
    decreases hi - lo
  {
    if lo < hi {
      ScanAscending(t, lo + 1, hi);
    }
  }

  /** The rows a query returns from table `t` whose ids all lie below `nextId`. */
  function Select(t: map<Id, Row>, nextId: Id, q: Query): (rows: seq<Account>)
    requires forall id :: id in t ==> 0 < id < nextId
    ensures forall a :: a in rows <==> Holds(t, a) && (q.SelectById? ==> a.id == q.id)
    ensures Ascending(rows)
  {
    match q
    case SelectAll =>
      ScanAscending(t, 1, nextId);
      forall a ensures a in TableScan(t, 1, nextId) <==> Holds(t, a) {
        ScanMembers(t, 1, nextId, a);
      }
      TableScan(t, 1, nextId)
    case SelectById(id) =>
      if id in t then [AccountOf(id, t[id])] else []
  }

  /**
   * The gateway process: whether the pool exists, the `parseFloat` stand-in,
   * and the store's state (table and auto-increment counter). `log` records
   * every statement sent to the store.
   */
  class Gateway {
    const poolReady: bool
    const parse: JsValue -> Option<Decimal>
    var accounts: map<Id, Row>
    var nextId: Id
    ghost var log: seq<Statement>

    /** The auto-increment counter is positive, and every id is positive and below it. */
    ghost predicate Valid()
      reads this
    {
      0 < nextId && forall id :: id in accounts ==> 0 < id < nextId
    }

    constructor (poolReady: bool, parse: JsValue -> Option<Decimal>, rows: map<Id, Row>, nextId: Id)
      requires 0 < nextId && forall id :: id in rows ==> 0 < id < nextId
      ensures Valid()
      ensures this.poolReady == poolReady && this.parse == parse
      ensures accounts == rows && this.nextId == nextId && log == []
    {
      this.poolReady := poolReady;
      this.parse := parse;
      accounts := rows;
      this.nextId := nextId;
      log := [];
    }

    /** `pool.execute` of a SELECT: the matching rows, or the injected failure. */
    method Query(q: Query, fault: Option<string>) returns (r: StoreResult<seq<Account>>)
      requires Valid()
      modifies this`log
      ensures log == old(log) + [Read(q)]
      ensures fault.Some? ==> r == Failed(fault.value)
      ensures fault.None? ==> r == Done(Select(accounts, nextId, q))
    {
      log := log + [Read(q)];
      if fault.Some? {
        r := Failed(fault.value);
      } else {
        r := Done(Select(accounts, nextId, q));
      }
    }

    /**
     * `pool.execute` of an INSERT, UPDATE or DELETE with single-row semantics.
     * A failed statement leaves the table as it was. `affectedRows` counts the
     * matched rows.
     */
    method Execute(w: Write, fault: Option<string>) returns (r: StoreResult<Header>)
      requires Valid()
      modifies this
      ensures Valid() && log == old(log) + [Change(w)]
      ensures fault.Some? ==> r == Failed(fault.value) && accounts == old(accounts) && nextId == old(nextId)
      ensures fault.None? && w.Insert? ==>
        && old(nextId) !in old(accounts)
        && r == Done(Header(old(nextId), 1))
        && accounts == old(accounts)[old(nextId) := w.row]
        && nextId == old(nextId) + 1
      ensures fault.None? && w.UpdateRow? ==>
        && r == Done(Header(0, if w.id in old(accounts) then 1 else 0))
        && accounts == (if w.id in old(accounts) then old(accounts)[w.id := w.row] else old(accounts))
        && nextId == old(nextId)
      ensures fault.None? && w.DeleteRow? ==>
        && r == Done(Header(0, if w.id in old(accounts) then 1 else 0))
        && accounts == old(accounts) - {w.id}
        && nextId == old(nextId)
    {
      log := log + [Change(w)];
      if fault.Some? {
        r := Failed(fault.value);
      } else {
        match w
        case Insert(row) =>
          r := Done(Header(nextId, 1));
          accounts := accounts[nextId := row];
          nextId := nextId + 1;
        case UpdateRow(id, row) =>
          if id in accounts {
            accounts := accounts[id := row];
            r := Done(Header(0, 1));
          } else {
            r := Done(Header(0, 0));
          }
        case DeleteRow(id) =>
          if id in accounts {
            accounts := accounts - {id};
            r := Done(Header(0, 1));
          } else {
            r := Done(Header(0, 0));
          }
      }
    }

    /**
     * An `/api` request: the pool guard, then the endpoint's handler.
     * Without a pool every request answers 503 and no statement is sent.
     */
    method Handle(req: Request, fault: Option<string>) returns (resp: Response)
      requires Valid()
      modifies this
      ensures Valid()
      ensures !poolReady ==>
        && resp == Response(503, Text(UnavailableText))
        && accounts == old(accounts) && nextId == old(nextId) && log == old(log)
      ensures poolReady ==> resp.status != 503 && |old(log)| <= |log| <= |old(log)| + 1
    {
      if !poolReady {
        resp := Response(503, Text(UnavailableText));
        return;
      }
      match req
      case ListAll => resp := ListAccounts(fault);
      case GetById(id) => resp := GetAccount(id, fault);
      case Create(body) => resp := CreateAccount(body, fault);
      case Update(id, body) => resp := UpdateAccount(id, body, fault);
      case Delete(id) => resp := DeleteAccount(id, fault);
    }

    /** GET /api/accounts: every row of the table, each exactly once. */
    method ListAccounts(fault: Option<string>) returns (resp: Response)
      requires Valid() && poolReady
      modifies this`log
      ensures accounts == old(accounts) && nextId == old(nextId)
      ensures log == old(log) + [Read(SelectAll)]
      ensures fault.None? ==>
        && resp.status == 200 && resp.payload.AccountsJson?
        && (forall a :: a in resp.payload.accounts <==> Holds(accounts, a))
        && Ascending(resp.payload.accounts)
      ensures fault.Some? ==> resp == StoreError(Listing)
    {
      var r := Query(SelectAll, fault);
      match r
      case Failed(_) => resp := StoreError(Listing);
      case Done(rows) => resp := Response(200, AccountsJson(rows));
    }

    /** GET /api/accounts/:id: the first matching row, or 404. */
    method GetAccount(id: Id, fault: Option<string>) returns (resp: Response)
      requires Valid() && poolReady
      modifies this`log
      ensures accounts == old(accounts) && nextId == old(nextId)
      ensures log == old(log) + [Read(SelectById(id))]
      ensures fault.None? && id in accounts ==> resp == Response(200, AccountJson(AccountOf(id, accounts[id])))
      ensures fault.None? && id !in accounts ==> resp == Response(404, Text(NotFoundText))
      ensures fault.Some? ==> resp == StoreError(Fetching)
    {
      var r := Query(SelectById(id), fault);
      match r
      case Failed(_) => resp := StoreError(Fetching);
      case Done(rows) =>
        if |rows| > 0 {
          resp := Response(200, AccountJson(rows[0]));
        } else {
          resp := Response(404, Text(NotFoundText));
        }
    }

    /** POST /api/accounts: validate, insert, answer 201 with the assigned id. */
    method CreateAccount(body: Body, fault: Option<string>) returns (resp: Response)
      requires Valid() && poolReady
      modifies this
      ensures Valid()
      ensures Validate(body, parse).None? ==>
        && resp == Response(400, Text(InvalidInputText))
        && accounts == old(accounts) && nextId == old(nextId) && log == old(log)
      ensures Validate(body, parse).Some? ==> log == old(log) + [Change(Insert(Validate(body, parse).value))]
      ensures Validate(body, parse).Some? && fault.Some? ==>
        resp == StoreError(Creating) && accounts == old(accounts) && nextId == old(nextId)
      ensures Validate(body, parse).Some? && fault.None? ==>
        var row := Validate(body, parse).value;
        && old(nextId) !in old(accounts)
        && resp == Response(201, AccountJson(Account(old(nextId), body.name, row.balance)))
        && accounts == old(accounts)[old(nextId) := row]
    {
      var valid := Validate(body, parse);
      if valid.None? {
        resp := Response(400, Text(InvalidInputText));
        return;
      }
      var balance := valid.value.balance;
      var r := Execute(Insert(Row(body.name, balance)), fault);
      match r
      case Failed(_) => resp := StoreError(Creating);
      case Done(header) => resp := Response(201, AccountJson(Account(header.insertId, body.name, balance)));
    }

    /** PUT /api/accounts/:id: validate, update the row with that id, 404 when none matched. */
    method UpdateAccount(id: Id, body: Body, fault: Option<string>) returns (resp: Response)
      requires Valid() && poolReady
      modifies this
      ensures Valid() && nextId == old(nextId)
      ensures Validate(body, parse).None? ==>
        && resp == Response(400, Text(InvalidInputText))
        && accounts == old(accounts) && log == old(log)
      ensures Validate(body, parse).Some? ==> log == old(log) + [Change(UpdateRow(id, Validate(body, parse).value))]
      ensures Validate(body, parse).Some? && fault.Some? ==>
        resp == StoreError(Updating) && accounts == old(accounts)
      ensures Validate(body, parse).Some? && fault.None? && id in old(accounts) ==>
        var row := Validate(body, parse).value;
        && resp == Response(200, AccountJson(Account(id, body.name, row.balance)))
        && accounts == old(accounts)[id := row]
      ensures Validate(body, parse).Some? && fault.None? && id !in old(accounts) ==>
        resp == Response(404, Text(NotFoundText)) && accounts == old(accounts)
    {
      var valid := Validate(body, parse);
      if valid.None? {
        resp := Response(400, Text(InvalidInputText));
        return;
      }
      var balance := valid.value.balance;
      var r := Execute(UpdateRow(id, Row(body.name, balance)), fault);
      match r
      case Failed(_) => resp := StoreError(Updating);
      case Done(header) =>
        if header.affectedRows > 0 {
          resp := Response(200, AccountJson(Account(id, body.name, balance)));
        } else {
          resp := Response(404, Text(NotFoundText));
        }
    }

    /** DELETE /api/accounts/:id: remove the row with that id, 404 when none matched. */
    method DeleteAccount(id: Id, fault: Option<string>) returns (resp: Response)
      requires Valid() && poolReady
      modifies this
      ensures Valid() && nextId == old(nextId)
      ensures log == old(log) + [Change(DeleteRow(id))]
      ensures fault.None? && id in old(accounts) ==>
        resp == Response(200, Text(DeletedText(id))) && accounts == old(accounts) - {id}
      ensures fault.None? && id !in old(accounts) ==>
        resp == Response(404, Text(NotFoundText)) && accounts == old(accounts)
      ensures fault.Some? ==> resp == StoreError(Deleting) && accounts == old(accounts)
    {
      var r := Execute(DeleteRow(id), fault);
      match r
      case Failed(_) => resp := StoreError(Deleting);
      case Done(header) =>
        if header.affectedRows > 0 {
          resp := Response(200, Text(DeletedText(id)));
        } else {
          resp := Response(404, Text(NotFoundText));
        }
    }
  }
}
