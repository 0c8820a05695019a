/**
 * The middleware chains of the writing routes of routes/imoveis.js:
 * `autenticarToken`, then `validate(schema)` where the route has one, then
 * the handler. The two listing reads have no middleware and are the store's
 * `List` and `Find` as they are.
 */
module ListingRoutes {
  import opened Wrappers
  import opened Json
  import opened ObjectIds
  import opened ListingSchemas
  import opened ListingModel
  import opened ValidateGate
  import opened TokenAuth
  import opened ListingService

  /** A refusal of the token middleware is sent as `{ mensagem }` with its status. */
  function AuthReply(a: AuthOutcome): Reply
    requires a.Refuse?
  {
    Notice(a.status, a.mensagem)
  }

  /** `POST /imoveis`: token, create schema, `save()`. Only an authorized, accepted body changes the store. */
  method PostImovel(
    store: ListingStore, req: Request, jwt: Jwt, now: nat,
    body: Body, isUri: string -> bool, newId: ObjectId, storeUp: bool) returns (r: Reply)
    requires store.Valid()
    modifies store, req
    ensures store.Valid()
    ensures req.authorization == old(req.authorization)
    ensures var auth := Authorize(old(req.authorization), jwt, now);
      req.usuario == if auth.Proceed? then Some(auth.usuario) else old(req.usuario)
    ensures var auth := Authorize(old(req.authorization), jwt, now);
      if auth.Refuse? then
        r == AuthReply(auth) && unchanged(store)
      else if !Accepts(CreateSchema, body, isUri) then
        r == Refused(400, Messages(SchemaErrors(CreateSchema, body, isUri))) && unchanged(store)
      else
        Saved(old(store.docs), old(store.clock), body, newId, storeUp, r, store.docs, store.clock)
  {
    var auth := AutenticarToken(req, jwt, now);
    if auth.Refuse? {
      return AuthReply(auth);
    }
    var gate := Validate(CreateSchema, body, isUri);
    if gate.Reject? {
      return Refused(gate.status, gate.erros);
    }
    r := store.Create(body, isUri, newId, storeUp);
  }

  /** `PUT /imoveis/:id`: token, update schema, `findByIdAndUpdate`. */
  method PutImovel(
    store: ListingStore, req: Request, jwt: Jwt, now: nat,
    idText: string, body: Body, isUri: string -> bool, storeUp: bool) returns (r: Reply)
    requires store.Valid()
    modifies store, req
    ensures store.Valid()
    ensures req.authorization == old(req.authorization)
    ensures var auth := Authorize(old(req.authorization), jwt, now);
      req.usuario == if auth.Proceed? then Some(auth.usuario) else old(req.usuario)
    ensures var auth := Authorize(old(req.authorization), jwt, now);
      if auth.Refuse? then
        r == AuthReply(auth) && unchanged(store)
      else if !Accepts(UpdateSchema, body, isUri) then
        r == Refused(400, Messages(SchemaErrors(UpdateSchema, body, isUri))) && unchanged(store)
      else if CastObjectId(idText).None? then
        r == UpdateError(UpdateErrorText, CastFailure) && unchanged(store)
      else if !UpdateValidatorsPass(body) then
        r == UpdateError(UpdateErrorText, ValidationFailure) && unchanged(store)
      else if !storeUp then
        r == UpdateError(UpdateErrorText, StoreFailure) && unchanged(store)
      else
        var id := CastObjectId(idText).value;
        if id in old(store.docs) then
          var u := ApplyUpdate(old(store.docs)[id], body, old(store.clock));
          r == Updated(UpdatedNotice, u) && store.docs == old(store.docs)[id := u] && store.clock == old(store.clock) + 1
        else
          r == Notice(404, NotFound) && unchanged(store)
  {
    var auth := AutenticarToken(req, jwt, now);
    if auth.Refuse? {
      return AuthReply(auth);
    }
    var gate := Validate(UpdateSchema, body, isUri);
    if gate.Reject? {
      return Refused(gate.status, gate.erros);
    }
    r := store.Update(idText, body, isUri, storeUp);
  }

  /** `DELETE /imoveis/:id`: token, then `findByIdAndDelete`; there is no schema. */
  method DeleteImovel(
    store: ListingStore, req: Request, jwt: Jwt, now: nat, idText: string, storeUp: bool) returns (r: Reply)
    requires store.Valid()
    modifies store, req
    ensures store.Valid()
    ensures req.authorization == old(req.authorization)
    ensures var auth := Authorize(old(req.authorization), jwt, now);
      req.usuario == if auth.Proceed? then Some(auth.usuario) else old(req.usuario)
    ensures var auth := Authorize(old(req.authorization), jwt, now);
      if auth.Refuse? then
        r == AuthReply(auth) && unchanged(store)
      else if CastObjectId(idText).None? || !storeUp then
        r == Failure(500, DeleteError) && unchanged(store)
      else
        var id := CastObjectId(idText).value;
        if id in old(store.docs) then
          r == Notice(200, DeletedNotice) && store.docs == old(store.docs) - {id} && store.clock == old(store.clock)
        else
          r == Notice(404, NotFound) && unchanged(store)
  {
    var auth := AutenticarToken(req, jwt, now);
    if auth.Refuse? {
      return AuthReply(auth);
    }
    r := store.Delete(idText, storeUp);
  }
}
