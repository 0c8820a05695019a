/**
 * How the route schemas and the listing model fit together: what a body
 * the schemas accept becomes in a document, and which of the model's
 * validators can still refuse it.
 */
module ModelProperties {
  import opened Wrappers
  import opened Json
  import opened Text
  import opened ObjectIds
  import opened ListingFields
  import opened ListingSchemas
  import opened SchemaProperties
  import opened ListingModel

  /** The model's enums are the ones the route schemas allow. */
  lemma EnumsAgree()
    ensures forall s :: s in Tipos <==> s in ModelTipos
    ensures forall s :: s in Finalidades <==> s in ModelFinalidades
  {
  }

  /** An accepted update names only paths of the model, never `visualizacoes`. */
  lemma AcceptedHasNoViews(schema: Schema, body: Body, isUri: string -> bool)
    requires schema == CreateSchema || schema == UpdateSchema
    requires Accepts(schema, body, isUri)
    ensures Get(body, "visualizacoes").None?
  {
    GetSpec(body, "visualizacoes");
    if Get(body, "visualizacoes").Some? {
      var i :| 0 <= i < |body| && body[i].0 == "visualizacoes";
      DeclaredKeys(schema, body[i].0);
      assert false;
    }
  }

  /** Every value an accepted update supplies has the type of its path. */
  lemma AcceptedConforming(body: Body, isUri: string -> bool, f: Field)
    requires Accepts(UpdateSchema, body, isUri) && Get(body, KeyOf(f)).Some?
    ensures Conforming(f, Get(body, KeyOf(f)).value)
  {
    UpdateSchemaIff(body, isUri);
    if f == Visualizacoes {
      AcceptedHasNoViews(UpdateSchema, body, isUri);
    } else if f == Imagens {
      var v := Get(body, "imagens").value;
      assert ImagesOk(v, isUri);
    }
  }

  /** An accepted update sets exactly the supplied paths, each to its supplied value (`titulo` trimmed). */
  lemma UpdateSetsSupplied(l: Listing, body: Body, isUri: string -> bool, now: nat, f: Field)
    requires Accepts(UpdateSchema, body, isUri)
    ensures Attr(ApplyUpdate(l, body, now), f) ==
      if Get(body, KeyOf(f)).Some? then Cast(f, Get(body, KeyOf(f)).value) else Attr(l, f)
  {
    assert Attr(ApplyUpdate(l, body, now), f) == Attr(SetPaths(l, body), f);
    if Get(body, KeyOf(f)).Some? {
      AcceptedConforming(body, isUri, f);
      SetPathValue(l, body, f);
    } else {
      SetPathsKeepsOthers(l, body, f);
    }
  }

  /**
   * A created document holds every supplied value (`titulo` trimmed, `preco`
   * as given) and the model's default on every other path; `visualizacoes`
   * is always 0.
   */
  lemma CreateSetsSupplied(id: ObjectId, body: Body, isUri: string -> bool, now: nat, f: Field)
    requires Accepts(CreateSchema, body, isUri)
    ensures Attr(BuildListing(id, body, now), f) ==
      if Get(body, KeyOf(f)).Some? then Cast(f, Get(body, KeyOf(f)).value) else Attr(Blank(id, now), f)
    ensures BuildListing(id, body, now).visualizacoes == 0.0
  {
    CreateAcceptsOnlyUpdatable(body, isUri);
    AcceptedHasNoViews(CreateSchema, body, isUri);
    if Get(body, KeyOf(f)).Some? {
      AcceptedConforming(body, isUri, f);
      SetPathValue(Blank(id, now), body, f);
    } else {
      SetPathsKeepsOthers(Blank(id, now), body, f);
    }
  }

  /** `preco` is stored exactly as the body gave it: a number stays a number, the sentinel stays a string. */
  lemma PriceKeptAsGiven(id: ObjectId, body: Body, isUri: string -> bool, now: nat)
    requires Accepts(CreateSchema, body, isUri)
    ensures Get(body, "preco").Some?
    ensures BuildListing(id, body, now).preco == Get(body, "preco").value
  {
    CreateSchemaIff(body, isUri);
  }

  /** The body sets `titulo` to a string of white space only. */
  predicate BlankTitle(body: Body)
  {
    Get(body, "titulo").Some? && Get(body, "titulo").value.Str? && AllSpace(Get(body, "titulo").value.s)
  }

  predicate TextPresent(body: Body, key: string)
  {
    Get(body, key).Some? && Get(body, key).value.Str? && Get(body, key).value.s != ""
  }

  /** What the create schema guarantees about the paths the model requires. */
  lemma CreateAcceptedRequired(body: Body, isUri: string -> bool)
    requires Accepts(CreateSchema, body, isUri)
    ensures TextPresent(body, "titulo") && TextPresent(body, "descricao")
    ensures TextPresent(body, "cidade") && TextPresent(body, "bairro")
    ensures Get(body, "tipo").Some? && Get(body, "tipo").value.Str? && Get(body, "tipo").value.s in ModelTipos
    ensures Get(body, "finalidade").Some? && Get(body, "finalidade").value.Str? && Get(body, "finalidade").value.s in ModelFinalidades
    ensures Get(body, "preco").Some? && !Get(body, "preco").value.Null?
  {
    CreateSchemaIff(body, isUri);
  }

  /**
   * `save()` refuses a document the create schema accepted exactly when its
   * title is white space only: the schema counts the untrimmed length, the
   * model's `required` sees the trimmed title.
   */
  lemma CreateAcceptedModelValid(id: ObjectId, body: Body, isUri: string -> bool, now: nat)
    requires Accepts(CreateSchema, body, isUri)
    ensures ModelValid(BuildListing(id, body, now)) <==> !BlankTitle(body)
  {
    CreateAcceptedRequired(body, isUri);
    TrimEmptyIff(Get(body, "titulo").value.s);
  }

  /** The update validators refuse an update the update schema accepted exactly when it sets a white-space title. */
  lemma UpdateAcceptedValidators(body: Body, isUri: string -> bool)
    requires Accepts(UpdateSchema, body, isUri)
    ensures UpdateValidatorsPass(body) <==> !BlankTitle(body)
  {
    UpdateSchemaIff(body, isUri);
    if Get(body, "titulo").Some? && Get(body, "titulo").value.Str? {
      TrimEmptyIff(Get(body, "titulo").value.s);
    }
  }

  /** An update that passed the schema and the update validators keeps a valid document valid. */
  lemma UpdateKeepsModelValid(l: Listing, body: Body, isUri: string -> bool, now: nat)
    requires ModelValid(l) && Accepts(UpdateSchema, body, isUri) && UpdateValidatorsPass(body)
    ensures ModelValid(ApplyUpdate(l, body, now))
    ensures ApplyUpdate(l, body, now).visualizacoes == l.visualizacoes
  {
    UpdateSchemaIff(body, isUri);
    AcceptedHasNoViews(UpdateSchema, body, isUri);
  }
}
