/**
 * What the two listing schemas accept, restated key by key without the
 * rule language, and the facts the routes rely on: the update schema is
 * the create schema with nothing required, the price is a number or the
 * sentinel in both modes, and every violation of every key is reported.
 */
module SchemaProperties {
  import opened Wrappers
  import opened Json
  import opened Text
  import opened ListingFields
  import opened ListingSchemas

  /** A key of the listing model other than the view counter, which no request may set. */
  predicate KnownKey(k: string)
  {
    FieldNamed(k).Some? && FieldNamed(k).value != Visualizacoes
  }

  /** A string whose JavaScript length, in UTF-16 code units, lies within the bounds. */
  predicate TextOk(v: Value, min: nat, max: nat)
  {
    v.Str? && min <= Utf16Length(v.s) <= max
  }

  /** A price: a non-negative (safe) number, or exactly the sentinel string. */
  predicate PriceOk(v: Value)
  {
    (v.Num? && 0.0 <= v.n <= MaxSafeInteger) || v == Str(Sentinel)
  }

  predicate AmountOk(v: Value)
  {
    v.Num? && 0.0 <= v.n <= MaxSafeInteger
  }

  predicate CountOk(v: Value)
  {
    AmountOk(v) && IsIntegral(v.n)
  }

  predicate ImagesOk(v: Value, isUri: string -> bool)
  {
    v.Arr? && |v.items| >= 1 && forall i :: 0 <= i < |v.items| ==> IsUriString(v.items[i], isUri)
  }

  /** Each key of the model, when present, holds a value of the right form. */
  predicate PatchValues(body: Body, isUri: string -> bool)
  {
    && (Get(body, "titulo").Some? ==> TextOk(Get(body, "titulo").value, 3, 100))
    && (Get(body, "descricao").Some? ==> TextOk(Get(body, "descricao").value, 10, 1000))
    && (Get(body, "preco").Some? ==> PriceOk(Get(body, "preco").value))
    && (Get(body, "cidade").Some? ==> TextOk(Get(body, "cidade").value, 2, 50))
    && (Get(body, "bairro").Some? ==> TextOk(Get(body, "bairro").value, 2, 50))
    && (Get(body, "tipo").Some? ==> Get(body, "tipo").value in {Str("casa"), Str("apartamento"), Str("terreno"), Str("comercial")})
    && (Get(body, "valorCondominio").Some? ==> (Get(body, "valorCondominio").value.Null? || AmountOk(Get(body, "valorCondominio").value)))
    && (Get(body, "dormitorios").Some? ==> CountOk(Get(body, "dormitorios").value))
    && (Get(body, "banheiros").Some? ==> CountOk(Get(body, "banheiros").value))
    && (Get(body, "piscina").Some? ==> Get(body, "piscina").value.Bool?)
    && (Get(body, "garagem").Some? ==> Get(body, "garagem").value.Bool?)
    && (Get(body, "area").Some? ==> AmountOk(Get(body, "area").value))
    && (Get(body, "imagens").Some? ==> ImagesOk(Get(body, "imagens").value, isUri))
    && (Get(body, "destaque").Some? ==> Get(body, "destaque").value.Bool?)
    && (Get(body, "finalidade").Some? ==> Get(body, "finalidade").value in {Str("venda"), Str("locacao")})
  }

  /** The keys creation cannot do without. */
  predicate RequiredPresent(body: Body)
  {
    && Get(body, "titulo").Some? && Get(body, "descricao").Some? && Get(body, "preco").Some?
    && Get(body, "cidade").Some? && Get(body, "bairro").Some? && Get(body, "tipo").Some?
    && Get(body, "dormitorios").Some? && Get(body, "banheiros").Some? && Get(body, "area").Some?
    && Get(body, "imagens").Some? && Get(body, "finalidade").Some?
  }

  /** A body the update schema should accept: known keys only, each present one well formed. */
  predicate ListingPatch(body: Body, isUri: string -> bool)
  {
    && (forall i :: 0 <= i < |body| ==> KnownKey(body[i].0))
    && PatchValues(body, isUri)
  }

  /** A body the create schema should accept: a patch that has every required key. */
  predicate ListingPayload(body: Body, isUri: string -> bool)
  {
    ListingPatch(body, isUri) && RequiredPresent(body)
  }

  // ---------------------------------------------------------------------

  /** Both schemas declare every path of the model except the view counter. */
  lemma SchemaFields(schema: Schema)
    requires schema == CreateSchema || schema == UpdateSchema
    ensures forall f :: f in FieldsOf(schema) <==> f != Visualizacoes
  {
    forall i | 0 <= i < |schema| ensures schema[i].field != Visualizacoes {
      assert i == 0 || i == 1 || i == 2 || i == 3 || i == 4 || i == 5 || i == 6 || i == 7
        || i == 8 || i == 9 || i == 10 || i == 11 || i == 12 || i == 13 || i == 14;
    }
    forall f | f != Visualizacoes ensures f in FieldsOf(schema) {
      var i := match f
        case Titulo => 0 case Descricao => 1 case Preco => 2 case Cidade => 3
        case Bairro => 4 case Tipo => 5 case ValorCondominio => 6 case Dormitorios => 7
        case Banheiros => 8 case Piscina => 9 case Garagem => 10 case Area => 11
        case Imagens => 12 case Destaque => 13 case Finalidade => 14 case Visualizacoes => 0;
      assert schema[i].field == f;
    }
  }

  /** Both schemas declare exactly the known keys. */
  lemma DeclaredKeys(schema: Schema, key: string)
    requires schema == CreateSchema || schema == UpdateSchema
    ensures Declares(schema, key) <==> KnownKey(key)
  {
    SchemaFields(schema);
    DeclaresIff(schema, key);
  }

  lemma AllFields(schema: Schema, body: Body, isUri: string -> bool)
    requires |schema| == 15
    ensures (forall i :: 0 <= i < |schema| ==> FieldAccepted(schema[i], body, isUri)) <==>
      && FieldAccepted(schema[0], body, isUri) && FieldAccepted(schema[1], body, isUri)
      && FieldAccepted(schema[2], body, isUri) && FieldAccepted(schema[3], body, isUri)
      && FieldAccepted(schema[4], body, isUri) && FieldAccepted(schema[5], body, isUri)
      && FieldAccepted(schema[6], body, isUri) && FieldAccepted(schema[7], body, isUri)
      && FieldAccepted(schema[8], body, isUri) && FieldAccepted(schema[9], body, isUri)
      && FieldAccepted(schema[10], body, isUri) && FieldAccepted(schema[11], body, isUri)
      && FieldAccepted(schema[12], body, isUri) && FieldAccepted(schema[13], body, isUri)
      && FieldAccepted(schema[14], body, isUri)
  {
    if FieldAccepted(schema[0], body, isUri) && FieldAccepted(schema[1], body, isUri)
      && FieldAccepted(schema[2], body, isUri) && FieldAccepted(schema[3], body, isUri)
      && FieldAccepted(schema[4], body, isUri) && FieldAccepted(schema[5], body, isUri)
      && FieldAccepted(schema[6], body, isUri) && FieldAccepted(schema[7], body, isUri)
      && FieldAccepted(schema[8], body, isUri) && FieldAccepted(schema[9], body, isUri)
      && FieldAccepted(schema[10], body, isUri) && FieldAccepted(schema[11], body, isUri)
      && FieldAccepted(schema[12], body, isUri) && FieldAccepted(schema[13], body, isUri)
      && FieldAccepted(schema[14], body, isUri)
    {
      forall i | 0 <= i < |schema| ensures FieldAccepted(schema[i], body, isUri) {
        assert i == 0 || i == 1 || i == 2 || i == 3 || i == 4 || i == 5 || i == 6 || i == 7
          || i == 8 || i == 9 || i == 10 || i == 11 || i == 12 || i == 13 || i == 14;
      }
    }
  }

  /** The price rule accepts a non-negative number or the exact sentinel, nothing else. */
  lemma PriceRuleIff(v: Value, isUri: string -> bool)
    ensures Conforms(PriceRule, v, isUri) <==> PriceOk(v)
  {
  }

  lemma UpdateFieldsA(body: Body, isUri: string -> bool)
    ensures FieldAccepted(UpdateSchema[0], body, isUri) <==> (Get(body, "titulo").Some? ==> TextOk(Get(body, "titulo").value, 3, 100))
    ensures FieldAccepted(UpdateSchema[1], body, isUri) <==> (Get(body, "descricao").Some? ==> TextOk(Get(body, "descricao").value, 10, 1000))
    ensures FieldAccepted(UpdateSchema[2], body, isUri) <==> (Get(body, "preco").Some? ==> PriceOk(Get(body, "preco").value))
  {
    if Get(body, "preco").Some? {
      PriceRuleIff(Get(body, "preco").value, isUri);
    }
  }

  lemma UpdateFieldsB(body: Body, isUri: string -> bool)
    ensures FieldAccepted(UpdateSchema[3], body, isUri) <==> (Get(body, "cidade").Some? ==> TextOk(Get(body, "cidade").value, 2, 50))
    ensures FieldAccepted(UpdateSchema[4], body, isUri) <==> (Get(body, "bairro").Some? ==> TextOk(Get(body, "bairro").value, 2, 50))
    ensures FieldAccepted(UpdateSchema[5], body, isUri) <==> (Get(body, "tipo").Some? ==> Get(body, "tipo").value in {Str("casa"), Str("apartamento"), Str("terreno"), Str("comercial")})
  {
  }

  lemma UpdateFieldsC(body: Body, isUri: string -> bool)
    ensures FieldAccepted(UpdateSchema[6], body, isUri) <==> (Get(body, "valorCondominio").Some? ==> (Get(body, "valorCondominio").value.Null? || AmountOk(Get(body, "valorCondominio").value)))
    ensures FieldAccepted(UpdateSchema[7], body, isUri) <==> (Get(body, "dormitorios").Some? ==> CountOk(Get(body, "dormitorios").value))
    ensures FieldAccepted(UpdateSchema[8], body, isUri) <==> (Get(body, "banheiros").Some? ==> CountOk(Get(body, "banheiros").value))
  {
  }

  lemma UpdateFieldsD(body: Body, isUri: string -> bool)
    ensures FieldAccepted(UpdateSchema[9], body, isUri) <==> (Get(body, "piscina").Some? ==> Get(body, "piscina").value.Bool?)
    ensures FieldAccepted(UpdateSchema[10], body, isUri) <==> (Get(body, "garagem").Some? ==> Get(body, "garagem").value.Bool?)
    ensures FieldAccepted(UpdateSchema[11], body, isUri) <==> (Get(body, "area").Some? ==> AmountOk(Get(body, "area").value))
  {
  }

  lemma UpdateFieldsE(body: Body, isUri: string -> bool)
    ensures FieldAccepted(UpdateSchema[12], body, isUri) <==> (Get(body, "imagens").Some? ==> ImagesOk(Get(body, "imagens").value, isUri))
    ensures FieldAccepted(UpdateSchema[13], body, isUri) <==> (Get(body, "destaque").Some? ==> Get(body, "destaque").value.Bool?)
    ensures FieldAccepted(UpdateSchema[14], body, isUri) <==> (Get(body, "finalidade").Some? ==> Get(body, "finalidade").value in {Str("venda"), Str("locacao")})
  {
  }

  /** The update schema's keys accept exactly the well-formed values. */
  lemma UpdateValuesIff(body: Body, isUri: string -> bool)
    ensures (forall i :: 0 <= i < |UpdateSchema| ==> FieldAccepted(UpdateSchema[i], body, isUri)) <==> PatchValues(body, isUri)
  {
    AllFields(UpdateSchema, body, isUri);
    UpdateFieldsA(body, isUri);
    UpdateFieldsB(body, isUri);
    UpdateFieldsC(body, isUri);
    UpdateFieldsD(body, isUri);
    UpdateFieldsE(body, isUri);
  }

  lemma CreateFieldsFirst(body: Body, isUri: string -> bool)
    ensures FieldAccepted(CreateSchema[0], body, isUri) <==> FieldAccepted(UpdateSchema[0], body, isUri) && Get(body, "titulo").Some?
    ensures FieldAccepted(CreateSchema[1], body, isUri) <==> FieldAccepted(UpdateSchema[1], body, isUri) && Get(body, "descricao").Some?
    ensures FieldAccepted(CreateSchema[2], body, isUri) <==> FieldAccepted(UpdateSchema[2], body, isUri) && Get(body, "preco").Some?
    ensures FieldAccepted(CreateSchema[3], body, isUri) <==> FieldAccepted(UpdateSchema[3], body, isUri) && Get(body, "cidade").Some?
    ensures FieldAccepted(CreateSchema[4], body, isUri) <==> FieldAccepted(UpdateSchema[4], body, isUri) && Get(body, "bairro").Some?
  {
  }

  lemma CreateFieldsMiddle(body: Body, isUri: string -> bool)
    ensures FieldAccepted(CreateSchema[5], body, isUri) <==> FieldAccepted(UpdateSchema[5], body, isUri) && Get(body, "tipo").Some?
    ensures FieldAccepted(CreateSchema[6], body, isUri) <==> FieldAccepted(UpdateSchema[6], body, isUri)
    ensures FieldAccepted(CreateSchema[7], body, isUri) <==> FieldAccepted(UpdateSchema[7], body, isUri) && Get(body, "dormitorios").Some?
    ensures FieldAccepted(CreateSchema[8], body, isUri) <==> FieldAccepted(UpdateSchema[8], body, isUri) && Get(body, "banheiros").Some?
    ensures FieldAccepted(CreateSchema[9], body, isUri) <==> FieldAccepted(UpdateSchema[9], body, isUri)
  {
  }

  lemma CreateFieldsLast(body: Body, isUri: string -> bool)
    ensures FieldAccepted(CreateSchema[10], body, isUri) <==> FieldAccepted(UpdateSchema[10], body, isUri)
    ensures FieldAccepted(CreateSchema[11], body, isUri) <==> FieldAccepted(UpdateSchema[11], body, isUri) && Get(body, "area").Some?
    ensures FieldAccepted(CreateSchema[12], body, isUri) <==> FieldAccepted(UpdateSchema[12], body, isUri) && Get(body, "imagens").Some?
    ensures FieldAccepted(CreateSchema[13], body, isUri) <==> FieldAccepted(UpdateSchema[13], body, isUri)
    ensures FieldAccepted(CreateSchema[14], body, isUri) <==> FieldAccepted(UpdateSchema[14], body, isUri) && Get(body, "finalidade").Some?
  {
  }

  /** The create schema's keys accept exactly the well-formed values with every required key present. */
  lemma CreateValuesIff(body: Body, isUri: string -> bool)
    ensures (forall i :: 0 <= i < |CreateSchema| ==> FieldAccepted(CreateSchema[i], body, isUri)) <==>
      PatchValues(body, isUri) && RequiredPresent(body)
  {
    AllFields(CreateSchema, body, isUri);
    UpdateValuesIff(body, isUri);
    AllFields(UpdateSchema, body, isUri);
    CreateFieldsFirst(body, isUri);
    CreateFieldsMiddle(body, isUri);
    CreateFieldsLast(body, isUri);
  }

  /** The update schema accepts exactly the patches. */
  lemma UpdateSchemaIff(body: Body, isUri: string -> bool)
    ensures Accepts(UpdateSchema, body, isUri) <==> ListingPatch(body, isUri)
  {
    UpdateValuesIff(body, isUri);
    forall k {
      DeclaredKeys(UpdateSchema, k);
    }
  }

  /** The create schema accepts exactly the payloads. */
  lemma CreateSchemaIff(body: Body, isUri: string -> bool)
    ensures Accepts(CreateSchema, body, isUri) <==> ListingPayload(body, isUri)
  {
    CreateValuesIff(body, isUri);
    forall k {
      DeclaredKeys(CreateSchema, k);
    }
  }

  /** Whatever the create schema accepts, the update schema accepts. */
  lemma CreateAcceptsOnlyUpdatable(body: Body, isUri: string -> bool)
    ensures Accepts(CreateSchema, body, isUri) ==> Accepts(UpdateSchema, body, isUri)
  {
    CreateSchemaIff(body, isUri);
    UpdateSchemaIff(body, isUri);
  }

  /** The two schemas declare the same keys with the same rules; only `required` differs. */
  lemma UpdateIsCreateWithNothingRequired()
    ensures |UpdateSchema| == |CreateSchema|
    ensures forall i :: 0 <= i < |CreateSchema| ==>
      UpdateSchema[i] == CreateSchema[i].(required := false)
  {
  }

  /** The empty body is a valid update and is refused for creation. */
  lemma EmptyBody(isUri: string -> bool)
    ensures Accepts(UpdateSchema, [], isUri)
    ensures !Accepts(CreateSchema, [], isUri)
  {
    forall i | 0 <= i < |UpdateSchema| ensures FieldAccepted(UpdateSchema[i], [], isUri) {
      UpdateIsCreateWithNothingRequired();
    }
    assert !FieldAccepted(CreateSchema[0], [], isUri);
  }

  /**
   * Lengths are JavaScript lengths: a title of two astral characters, such as
   * two emoji, is four code units long and passes the minimum of 3.
   */
  lemma AstralTitleAccepted(c: char, d: char, isUri: string -> bool)
    requires IsAstral(c) && IsAstral(d)
    ensures |[c, d]| < 3
    ensures Accepts(UpdateSchema, [("titulo", Str([c, d]))], isUri)
  {
    var s := [c, d];
    assert s[1..] == [d] && [d][1..] == [];
    assert Utf16Length(s) == 4;
    var body := [("titulo", Str(s))];
    assert body[1..] == [];
    forall i | 0 <= i < |UpdateSchema| ensures FieldAccepted(UpdateSchema[i], body, isUri) {
      if i > 0 {
        assert Get(body, KeyOf(UpdateSchema[i].field)) == Get(body[1..], KeyOf(UpdateSchema[i].field));
      }
    }
    assert KeyOf(UpdateSchema[0].field) == body[0].0;
  }

  /** A body whose price is neither a non-negative number nor the sentinel is refused in both modes. */
  lemma BadPriceRefused(body: Body, isUri: string -> bool)
    requires Get(body, "preco").Some? && !PriceOk(Get(body, "preco").value)
    ensures !Accepts(CreateSchema, body, isUri) && !Accepts(UpdateSchema, body, isUri)
  {
    CreateSchemaIff(body, isUri);
    UpdateSchemaIff(body, isUri);
  }

  // ---------------------------------------------------------------------
  // abortEarly: false -- nothing is left out of the report
  // ---------------------------------------------------------------------

  lemma {:induction false} ChildrenReported(schema: Schema, body: Body, isUri: string -> bool, i: nat)
    requires i < |schema|
    ensures forall d :: d in FieldErrors(schema[i], body, isUri) ==> d in ChildrenErrors(schema, body, isUri)
  {
    var head := FieldErrors(schema[0], body, isUri);
    var tail := ChildrenErrors(schema[1..], body, isUri);
    assert ChildrenErrors(schema, body, isUri) == head + tail;
    if i > 0 {
      ChildrenReported(schema[1..], body, isUri, i - 1);
      assert schema[1..][i - 1] == schema[i];
      forall d | d in FieldErrors(schema[i], body, isUri) ensures d in head + tail {
        assert d in tail;
      }
    } else {
      forall d | d in head ensures d in head + tail {
      }
    }
  }

  lemma {:induction false} UnknownReported(schema: Schema, members: seq<(string, Value)>, j: nat)
    requires j < |members| && !Declares(schema, members[j].0)
    ensures Detail([Member(members[j].0)], ObjectUnknown) in UnknownErrors(schema, members)
  {
    if j > 0 {
      UnknownReported(schema, members[1..], j - 1);
    }
  }

  /**
   * Every violation of every declared key, and every undeclared key, is in
   * the report: one key's failure does not hide another's.
   */
  lemma EveryViolationReported(schema: Schema, body: Body, isUri: string -> bool)
    ensures forall i, d :: 0 <= i < |schema| && d in FieldErrors(schema[i], body, isUri) ==>
      d in SchemaErrors(schema, body, isUri)
    ensures forall j :: 0 <= j < |body| && !Declares(schema, body[j].0) ==>
      Detail([Member(body[j].0)], ObjectUnknown) in SchemaErrors(schema, body, isUri)
    ensures forall i :: 0 <= i < |schema| && !FieldAccepted(schema[i], body, isUri) ==>
      exists d :: d in SchemaErrors(schema, body, isUri) && |d.path| >= 1 && d.path[0] == Member(KeyOf(schema[i].field))
  {
    var all := SchemaErrors(schema, body, isUri);
    assert forall d :: d in ChildrenErrors(schema, body, isUri) ==> d in all;
    assert forall d :: d in UnknownErrors(schema, body) ==> d in all;
    forall i, d | 0 <= i < |schema| && d in FieldErrors(schema[i], body, isUri) ensures d in all {
      ChildrenReported(schema, body, isUri, i);
    }
    forall i | 0 <= i < |schema| && !FieldAccepted(schema[i], body, isUri)
      ensures exists d :: d in all && |d.path| >= 1 && d.path[0] == Member(KeyOf(schema[i].field))
    {
      ChildrenReported(schema, body, isUri, i);
      FieldErrorsEmptyIff(schema[i], body, isUri);
      FieldErrorsPath(schema[i], body, isUri);
      var d := FieldErrors(schema[i], body, isUri)[0];
      assert d in all;
    }
    forall j | 0 <= j < |body| && !Declares(schema, body[j].0)
      ensures Detail([Member(body[j].0)], ObjectUnknown) in all
    {
      UnknownReported(schema, body, j);
    }
  }

  /** Each detail of a key names that key first. */
  lemma FieldErrorsPath(spec: FieldSpec, body: Body, isUri: string -> bool)
    ensures forall d :: d in FieldErrors(spec, body, isUri) ==> |d.path| >= 1 && d.path[0] == Member(KeyOf(spec.field))
  {
    var key := KeyOf(spec.field);
    if Get(body, key).Some? {
      RulePath([Member(key)], spec.rule, Get(body, key).value, isUri);
    }
  }

  lemma {:induction false} ItemsPath(path: seq<Segment>, items: seq<Value>, start: nat, isUri: string -> bool)
    ensures forall d :: d in ItemsErrors(path, items, start, isUri) ==> |d.path| > |path| && d.path[..|path|] == path
  {
    if items != [] {
      ItemsPath(path, items[1..], start + 1, isUri);
      assert (path + [Index(start)])[..|path|] == path;
    }
  }

  /** Every detail's path extends `path`. */
  predicate UnderPath(path: seq<Segment>, ds: seq<Detail>)
  {
    forall d :: d in ds ==> |d.path| >= |path| && d.path[..|path|] == path
  }

  lemma CombinePath(path: seq<Segment>, ea: seq<Detail>, eb: seq<Detail>)
    requires ea != [] && eb != [] && UnderPath(path, ea) && UnderPath(path, eb)
    ensures UnderPath(path, CombineAlternatives(path, ea, eb))
  {
    assert path[..|path|] == path;
  }

  lemma {:induction false} RulePath(path: seq<Segment>, rule: Rule, v: Value, isUri: string -> bool)
    requires |path| >= 1
    ensures UnderPath(path, RuleErrors(path, rule, v, isUri))
  {
    assert path[..|path|] == path;
    match rule
    case UriListRule(min) =>
      if v.Arr? {
        ItemsPath(path, v.items, 0, isUri);
      }
    case AlternativesRule(a, b) =>
      RulePath(path, a, v, isUri);
      RulePath(path, b, v, isUri);
      var ea := RuleErrors(path, a, v, isUri);
      var eb := RuleErrors(path, b, v, isUri);
      if ea != [] && eb != [] {
        CombinePath(path, ea, eb);
      }
    case _ =>
  }
}
