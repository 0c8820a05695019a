/**
 * The five listing handlers of routes/imoveis.js over an in-memory
 * collection: the collection is a map from ObjectId to document, and a
 * clock gives the timestamps. `storeUp` stands for whether the database
 * answers; a false value is any failure of the store.
 */
module ListingService {
  import opened Wrappers
  import opened Json
  import opened ObjectIds
  import opened ListingFields
  import opened ListingSchemas
  import opened SchemaProperties
  import opened ListingModel
  import opened ModelProperties

  const ListError: string := "Erro ao buscar imóveis."
  const NotFound: string := "Imóvel não encontrado."
  const FindError: string := "Erro ao buscar imóvel por ID."
  const SaveError: string := "Erro ao salvar imóvel."
  const UpdatedNotice: string := "Imóvel atualizado com sucesso."
  const UpdateErrorText: string := "Erro ao atualizar imóvel."
  const DeletedNotice: string := "Imóvel excluído com sucesso."
  const DeleteError: string := "Erro ao excluir imóvel."

  /** Why `findByIdAndUpdate` threw (its `err.message` is sent as `detalhes`). */
  datatype UpdateFailure = CastFailure | ValidationFailure | StoreFailure

  /** A handler's answer: the status and the JSON body. */
  datatype Reply =
    | Listings(imoveis: seq<Listing>)                       // 200 { imoveis }
    | Document(status: nat, imovel: Listing)                // the document itself
    | Updated(mensagem: string, imovel: Listing)            // 200 { mensagem, imovel }
    | Notice(status: nat, mensagem: string)                 // { mensagem }
    | Failure(status: nat, erro: string)                    // { erro }
    | UpdateError(erro: string, detalhes: UpdateFailure)    // 400 { erro, detalhes }
    | Refused(status: nat, erros: seq<string>)              // the validation gate's 400

  function StatusOf(r: Reply): nat
  {
    match r
    case Listings(_) => 200
    case Document(s, _) => s
    case Updated(_, _) => 200
    case Notice(s, _) => s
    case Failure(s, _) => s
    case UpdateError(_, _) => 400
    case Refused(s, _) => s
  }

  /** No two documents were created at the same tick. */
  predicate DistinctCreation(m: map<ObjectId, Listing>)
  {
    forall a, b :: a in m && b in m && a != b ==> m[a].createdAt != m[b].createdAt
  }

  predicate IsNewest(m: map<ObjectId, Listing>, k: ObjectId)
  {
    k in m && forall k' :: k' in m ==> m[k'].createdAt <= m[k].createdAt
  }

  lemma NewestExists(m: map<ObjectId, Listing>)
    requires m != map[]
    ensures exists k :: IsNewest(m, k)
  {
    var k := NewestAmong(m, m.Keys);
    assert IsNewest(m, k);
  }

  /** Among a non-empty set of keys of `m`, one was created last. */
  lemma {:induction false} NewestAmong(m: map<ObjectId, Listing>, ks: set<ObjectId>) returns (k: ObjectId)
    requires ks != {} && ks <= m.Keys
    ensures k in ks && forall k' :: k' in ks ==> m[k'].createdAt <= m[k].createdAt
    decreases ks
  {
    var k0 :| k0 in ks;
    var rest := ks - {k0};
    assert forall k' :: k' in ks ==> k' == k0 || k' in rest;
    if rest == {} {
      k := k0;
    } else {
      var k1 := NewestAmong(m, rest);
      k := if m[k0].createdAt <= m[k1].createdAt then k1 else k0;
    }
  }

  /** With distinct ticks there is one newest document. */
  lemma NewestUnique(m: map<ObjectId, Listing>)
    requires DistinctCreation(m)
    ensures forall a, b :: IsNewest(m, a) && IsNewest(m, b) ==> a == b
  {
  }

  /** Taking the newest document out leaves the others, all older, still with distinct ticks. */
  lemma RemoveNewest(m: map<ObjectId, Listing>, k: ObjectId)
    requires DistinctCreation(m) && IsNewest(m, k)
    ensures DistinctCreation(m - {k})
    ensures |m - {k}| < |m|
    ensures forall l :: l in m.Values <==> l == m[k] || l in (m - {k}).Values
    ensures forall l :: l in (m - {k}).Values ==> l.createdAt < m[k].createdAt
  {
    var rest := m - {k};
    assert rest.Keys < m.Keys;
    forall l | l in rest.Values ensures l in m.Values && l.createdAt < m[k].createdAt {
      var k' :| k' in rest && rest[k'] == l;
      assert m[k'] == l;
    }
    forall l | l in m.Values ensures l == m[k] || l in rest.Values {
      var k' :| k' in m && m[k'] == l;
      if k' != k {
        assert k' in rest;
      }
    }
  }

  /** The key of the most recently created document. */
  function Newest(m: map<ObjectId, Listing>): (k: ObjectId)
    requires m != map[] && DistinctCreation(m)
    ensures IsNewest(m, k)
  {
    NewestExists(m);
    NewestUnique(m);
    var k :| IsNewest(m, k);
    k
  }

  /** `find().sort({ createdAt: -1 })`: every document once, newest first (see NewestFirstSorted). */
  function NewestFirst(m: map<ObjectId, Listing>): seq<Listing>
    requires DistinctCreation(m)
    decreases |m|
  {
    if m == map[] then []
    else
      var k := Newest(m);
      RemoveNewest(m, k);
      [m[k]] + NewestFirst(m - {k})
  }

  /** The listing holds every document of the collection and nothing else, one entry per document. */
  lemma {:induction false} NewestFirstMembers(m: map<ObjectId, Listing>)
    requires DistinctCreation(m)
    ensures |NewestFirst(m)| == |m|
    ensures forall l :: l in NewestFirst(m) <==> l in m.Values
    decreases |m|
  {
    if m != map[] {
      var k := Newest(m);
      RemoveNewest(m, k);
      NewestFirstMembers(m - {k});
      assert NewestFirst(m) == [m[k]] + NewestFirst(m - {k});
    }
  }

  /** Strictly decreasing creation ticks. */
  predicate Descending(s: seq<Listing>)
  {
    forall i, j :: 0 <= i < j < |s| ==> s[i].createdAt > s[j].createdAt
  }

  lemma PrependNewer(x: Listing, rest: seq<Listing>)
    requires Descending(rest)
    requires forall l :: l in rest ==> l.createdAt < x.createdAt
    ensures Descending([x] + rest)
  {
    var r := [x] + rest;
    forall i, j | 0 <= i < j < |r| ensures r[i].createdAt > r[j].createdAt {
      assert r[j] == rest[j - 1];
      if i > 0 {
        assert r[i] == rest[i - 1];
      } else {
        assert rest[j - 1] in rest;
      }
    }
  }

  /** The listing is in strictly decreasing creation order. */
  lemma {:induction false} NewestFirstSorted(m: map<ObjectId, Listing>)
    requires DistinctCreation(m)
    ensures Descending(NewestFirst(m))
    decreases |m|
  {
    if m != map[] {
      var k := Newest(m);
      RemoveNewest(m, k);
      NewestFirstSorted(m - {k});
      NewestFirstMembers(m - {k});
      PrependNewer(m[k], NewestFirst(m - {k}));
    }
  }

  /**
   * Every document sits under its own id, passed the model's validators,
   * has not been viewed, and carries timestamps from the past, with
   * `createdAt <= updatedAt` and no two creations at the same tick.
   */
  ghost predicate Consistent(docs: map<ObjectId, Listing>, clock: nat)
  {
    && (forall k :: k in docs ==>
          && docs[k].id == k
          && docs[k].createdAt <= docs[k].updatedAt < clock
          && ModelValid(docs[k])
          && docs[k].visualizacoes == 0.0)
    && DistinctCreation(docs)
  }

  /** Adding a fresh valid document created at the current tick keeps the collection consistent. */
  lemma InsertKeepsConsistent(docs: map<ObjectId, Listing>, clock: nat, l: Listing)
    requires Consistent(docs, clock) && l.id !in docs
    requires l.createdAt == l.updatedAt == clock && ModelValid(l) && l.visualizacoes == 0.0
    ensures Consistent(docs[l.id := l], clock + 1)
  {
    var d := docs[l.id := l];
    forall a, b | a in d && b in d && a != b ensures d[a].createdAt != d[b].createdAt {
      if a != l.id && b != l.id {
        assert d[a] == docs[a] && d[b] == docs[b];
      }
    }
  }

  /** Storing the document an accepted body builds, when the model's validators pass, keeps the collection consistent. */
  lemma CreationKeepsConsistent(docs: map<ObjectId, Listing>, clock: nat, body: Body, isUri: string -> bool, newId: ObjectId)
    requires Consistent(docs, clock) && Accepts(CreateSchema, body, isUri) && newId !in docs
    requires ModelValid(BuildListing(newId, body, clock))
    ensures Consistent(docs[newId := BuildListing(newId, body, clock)], clock + 1)
  {
    BuildDefaults(newId, body, clock);
    CreateSetsSupplied(newId, body, isUri, clock, Titulo);
    InsertKeepsConsistent(docs, clock, BuildListing(newId, body, clock));
  }

  /** Replacing a document by a valid one with the same id and creation tick, updated now, keeps it consistent. */
  lemma ReplaceKeepsConsistent(docs: map<ObjectId, Listing>, clock: nat, k: ObjectId, u: Listing)
    requires Consistent(docs, clock) && k in docs
    requires u.id == k && u.createdAt == docs[k].createdAt && u.updatedAt == clock
    requires ModelValid(u) && u.visualizacoes == 0.0
    ensures Consistent(docs[k := u], clock + 1)
  {
    var d := docs[k := u];
    forall a, b | a in d && b in d && a != b ensures d[a].createdAt != d[b].createdAt {
      assert d[a].createdAt == docs[a].createdAt && d[b].createdAt == docs[b].createdAt;
    }
  }

  /** Removing a document keeps the collection consistent. */
  lemma RemoveKeepsConsistent(docs: map<ObjectId, Listing>, clock: nat, k: ObjectId)
    requires Consistent(docs, clock)
    ensures Consistent(docs - {k}, clock)
  {
    var d := docs - {k};
    forall a, b | a in d && b in d && a != b ensures d[a].createdAt != d[b].createdAt {
      assert d[a] == docs[a] && d[b] == docs[b];
    }
  }

  /**
   * What `new Imovel(body).save()` does to a collection and its clock: the
   * built document is stored under the new id and answered with 201, or,
   * when the store is down, the id is in use or the model's validators
   * refuse the document, nothing changes and the answer is 500.
   */
  ghost predicate Saved(
    docs0: map<ObjectId, Listing>, clock0: nat, body: Body, newId: ObjectId, storeUp: bool,
    r: Reply, docs1: map<ObjectId, Listing>, clock1: nat)
  {
    var l := BuildListing(newId, body, clock0);
    if storeUp && newId !in docs0 && ModelValid(l) then
      r == Document(201, l) && docs1 == docs0[newId := l] && clock1 == clock0 + 1
    else
      r == Failure(500, SaveError) && docs1 == docs0 && clock1 == clock0
  }

  class ListingStore {
    var docs: map<ObjectId, Listing>
    var clock: nat

    ghost predicate Valid()
      reads this
    {
      Consistent(docs, clock)
    }

    constructor()
      ensures Valid() && docs == map[] && clock == 0
    {
      docs := map[];
      clock := 0;
    }

    /** GET /imoveis. */
    method List(storeUp: bool) returns (r: Reply)
      requires Valid()
      ensures r == if storeUp then Listings(NewestFirst(docs)) else Failure(500, ListError)
    {
      if !storeUp {
        return Failure(500, ListError);
      }
      r := Listings(NewestFirst(docs));
    }

    /** GET /imoveis/:id. A malformed id is a cast error, answered like a store failure. */
    method Find(idText: string, storeUp: bool) returns (r: Reply)
      requires Valid()
      ensures CastObjectId(idText).None? || !storeUp ==> r == Failure(500, FindError)
      ensures CastObjectId(idText).Some? && storeUp ==>
        var id := CastObjectId(idText).value;
        r == if id in docs then Document(200, docs[id]) else Notice(404, NotFound)
    {
      var id := CastObjectId(idText);
      if id.None? || !storeUp {
        return Failure(500, FindError);
      }
      if id.value !in docs {
        return Notice(404, NotFound);
      }
      r := Document(200, docs[id.value]);
    }

    /**
     * POST /imoveis after the gate: `new Imovel(req.body).save()`. `newId` is
     * the id the driver generates; an id already in use is a duplicate-key
     * failure.
     */
    method Create(body: Body, isUri: string -> bool, newId: ObjectId, storeUp: bool) returns (r: Reply)
      requires Valid() && Accepts(CreateSchema, body, isUri)
      modifies this
      ensures Valid()
      ensures Saved(old(docs), old(clock), body, newId, storeUp, r, docs, clock)
    {
      var l := BuildListing(newId, body, clock);
      if !storeUp || newId in docs {
        return Failure(500, SaveError);
      }
      if !ModelValid(l) {
        return Failure(500, SaveError);
      }
      CreationKeepsConsistent(docs, clock, body, isUri, newId);
      docs := docs[newId := l];
      clock := clock + 1;
      r := Document(201, l);
    }

    /**
     * PUT /imoveis/:id after the gate: `findByIdAndUpdate` with
     * `runValidators`. The cast and the update validators come before the
     * lookup, and every exception is answered with 400.
     */
    method Update(idText: string, body: Body, isUri: string -> bool, storeUp: bool) returns (r: Reply)
      requires Valid() && Accepts(UpdateSchema, body, isUri)
      modifies this
      ensures Valid()
      ensures CastObjectId(idText).None? ==>
        r == UpdateError(UpdateErrorText, CastFailure) && unchanged(this)
      ensures CastObjectId(idText).Some? && !UpdateValidatorsPass(body) ==>
        r == UpdateError(UpdateErrorText, ValidationFailure) && unchanged(this)
      ensures CastObjectId(idText).Some? && UpdateValidatorsPass(body) && !storeUp ==>
        r == UpdateError(UpdateErrorText, StoreFailure) && unchanged(this)
      ensures CastObjectId(idText).Some? && UpdateValidatorsPass(body) && storeUp ==>
        var id := CastObjectId(idText).value;
        if id in old(docs) then
          var u := ApplyUpdate(old(docs)[id], body, old(clock));
          r == Updated(UpdatedNotice, u) && docs == old(docs)[id := u] && clock == old(clock) + 1
        else
          r == Notice(404, NotFound) && unchanged(this)
    {
      var id := CastObjectId(idText);
      if id.None? {
        return UpdateError(UpdateErrorText, CastFailure);
      }
      if !UpdateValidatorsPass(body) {
        return UpdateError(UpdateErrorText, ValidationFailure);
      }
      if !storeUp {
        return UpdateError(UpdateErrorText, StoreFailure);
      }
      var k := id.value;
      if k !in docs {
        return Notice(404, NotFound);
      }
      var u := ApplyUpdate(docs[k], body, clock);
      UpdateKeepsModelValid(docs[k], body, isUri, clock);
      UpdateKeepsIdentity(docs[k], body, clock);
      ReplaceKeepsConsistent(docs, clock, k, u);
      docs := docs[k := u];
      clock := clock + 1;
      r := Updated(UpdatedNotice, u);
    }

    /** DELETE /imoveis/:id: `findByIdAndDelete`. */
    method Delete(idText: string, storeUp: bool) returns (r: Reply)
      requires Valid()
      modifies this
      ensures Valid()
      ensures CastObjectId(idText).None? || !storeUp ==>
        r == Failure(500, DeleteError) && unchanged(this)
      ensures CastObjectId(idText).Some? && storeUp ==>
        var id := CastObjectId(idText).value;
        if id in old(docs) then
          r == Notice(200, DeletedNotice) && docs == old(docs) - {id} && clock == old(clock)
        else
          r == Notice(404, NotFound) && unchanged(this)
    {
      var id := CastObjectId(idText);
      if id.None? || !storeUp {
        return Failure(500, DeleteError);
      }
      if id.value !in docs {
        return Notice(404, NotFound);
      }
      RemoveKeepsConsistent(docs, clock, id.value);
      docs := docs - {id.value};
      r := Notice(200, DeletedNotice);
    }
  }
}
