/**
 * Request sequences against the gateway: the round trips and the
 * create/read/update/delete walkthrough, proved from the handlers'
 * contracts alone.
 */
module GatewayProperties {
  import opened Wrappers
  import opened Decimals
  import opened Gateway

  /** A valid create followed by a get of the id it returned answers 200 with the object create returned. */
  method CreateThenFetch(g: Gateway, body: Body) returns (created: Response, fetched: Response)
    requires g.Valid() && g.poolReady && Validate(body, g.parse).Some?
    modifies g
    ensures g.Valid()
    ensures created.status == 201 && created.payload.AccountJson?
    ensures created.payload.account.id !in old(g.accounts)
    ensures created.payload.account.name == body.name
    ensures g.parse(body.balance) == Some(created.payload.account.balance)
    ensures fetched == Response(200, created.payload)
  {
    created := g.CreateAccount(body, None);
    fetched := g.GetAccount(created.payload.account.id, None);
  }

  /** Deleting an id twice: the second delete answers 404 and the row is gone. */
  method DeleteTwice(g: Gateway, id: Id) returns (first: Response, second: Response)
    requires g.Valid() && g.poolReady
    modifies g
    ensures g.Valid() && id !in g.accounts
    ensures first.status == 200 <==> id in old(g.accounts)
    ensures second == Response(404, Text(NotFoundText))
  {
    first := g.DeleteAccount(id, None);
    second := g.DeleteAccount(id, None);
  }

  /** An update never creates a row: updating an absent id answers 404 (400 on invalid input) and the table stays as it was. */
  method UpdateMissing(g: Gateway, id: Id, body: Body) returns (resp: Response)
    requires g.Valid() && g.poolReady && id !in g.accounts
    modifies g
    ensures g.accounts == old(g.accounts)
    ensures Validate(body, g.parse).Some? ==> resp == Response(404, Text(NotFoundText))
    ensures Validate(body, g.parse).None? ==> resp == Response(400, Text(InvalidInputText))
  {
    resp := g.UpdateAccount(id, body, None);
  }

  /**
   * The walkthrough on an empty table: create Alice with 100.5, read her back,
   * set her balance to 200, delete her, and find her gone.
   */
  method Walkthrough(parse: JsValue -> Option<Decimal>)
    returns (created: Response, fetched: Response, updated: Response, deleted: Response, missing: Response)
    requires parse(Num(100.5)) == Some(100.5) && parse(Num(200.0)) == Some(200.0)
    ensures created == Response(201, AccountJson(Account(1, Str("Alice"), 100.5)))
    ensures fetched == created.(status := 200)
    ensures updated == Response(200, AccountJson(Account(1, Str("Alice"), 200.0)))
    ensures deleted == Response(200, Text(DeletedText(1)))
    ensures missing == Response(404, Text(NotFoundText))
  {
    var g := new Gateway(true, parse, map[], 1);
    created := g.CreateAccount(Body(Str("Alice"), Num(100.5)), None);
    fetched := g.GetAccount(1, None);
    updated := g.UpdateAccount(1, Body(Str("Alice"), Num(200.0)), None);
    deleted := g.DeleteAccount(1, None);
    missing := g.GetAccount(1, None);
  }

  /** Without a pool, any request answers 503, the store sees no statement and the table stays as it was. */
  method WithoutPool(parse: JsValue -> Option<Decimal>, rows: map<Id, Row>, nextId: Id, req: Request, fault: Option<string>)
    returns (g: Gateway, resp: Response)
    requires 0 < nextId && forall id :: id in rows ==> 0 < id < nextId
    ensures g.Valid() && !g.poolReady
    ensures resp == Response(503, Text(UnavailableText))
    ensures g.log == [] && g.accounts == rows && g.nextId == nextId
  {
    g := new Gateway(false, parse, rows, nextId);
    resp := g.Handle(req, fault);
  }
}
