/**
 * The two request schemas of the listing routes, `createSchemaImovel` and
 * `updateSchemaImovel`, and the way the validator checks a body against
 * them with `abortEarly: false`: every declared key in declaration order,
 * then every undeclared key in body order, each violation reported as a
 * detail (a path and an error code).
 */
module ListingSchemas {
  import opened Wrappers
  import opened Json
  import opened Text
  import opened ListingFields

  /** The one string `preco` may hold instead of a number. */
  const Sentinel: string := "CONSULTAR VALOR"
  const Tipos: seq<string> := ["casa", "apartamento", "terreno", "comercial"]
  const Finalidades: seq<string> := ["venda", "locacao"]
  /** `Number.MAX_SAFE_INTEGER`: numbers beyond it are refused as unsafe. */
  const MaxSafeInteger: real := 9007199254740991.0

  /** One key's rule, as built by the schema-builder calls of the source. */
  datatype Rule =
    | StringRule(min: nat, max: nat)                   // string().min(min).max(max)
    | OnlyRule(valids: seq<string>)                    // string().valid(...valids)
    | NumberRule(integer: bool, min: nat, nullable: bool) // number()[.integer()].min(min)[.allow(null)]
    | BooleanRule                                      // boolean()
    | UriListRule(min: nat)                            // array().items(string().uri()).min(min)
    | AlternativesRule(first: Rule, second: Rule)      // alternatives().try(first, second)

  /** `preco`: a number at least 0, or the sentinel string. */
  const PriceRule: Rule := AlternativesRule(NumberRule(false, 0, false), OnlyRule([Sentinel]))

  datatype FieldSpec = FieldSpec(field: Field, rule: Rule, required: bool)
  type Schema = seq<FieldSpec>

  /** `createSchemaImovel`. */
  const CreateSchema: Schema := [
    FieldSpec(Titulo, StringRule(3, 100), true),
    FieldSpec(Descricao, StringRule(10, 1000), true),
    FieldSpec(Preco, PriceRule, true),
    FieldSpec(Cidade, StringRule(2, 50), true),
    FieldSpec(Bairro, StringRule(2, 50), true),
    FieldSpec(Tipo, OnlyRule(Tipos), true),
    FieldSpec(ValorCondominio, NumberRule(false, 0, true), false),
    FieldSpec(Dormitorios, NumberRule(true, 0, false), true),
    FieldSpec(Banheiros, NumberRule(true, 0, false), true),
    FieldSpec(Piscina, BooleanRule, false),
    FieldSpec(Garagem, BooleanRule, false),
    FieldSpec(Area, NumberRule(false, 0, false), true),
    FieldSpec(Imagens, UriListRule(1), true),
    FieldSpec(Destaque, BooleanRule, false),
    FieldSpec(Finalidade, OnlyRule(Finalidades), true)
  ]

  /** `updateSchemaImovel`. */
  const UpdateSchema: Schema := [
    FieldSpec(Titulo, StringRule(3, 100), false),
    FieldSpec(Descricao, StringRule(10, 1000), false),
    FieldSpec(Preco, PriceRule, false),
    FieldSpec(Cidade, StringRule(2, 50), false),
    FieldSpec(Bairro, StringRule(2, 50), false),
    FieldSpec(Tipo, OnlyRule(Tipos), false),
    FieldSpec(ValorCondominio, NumberRule(false, 0, true), false),
    FieldSpec(Dormitorios, NumberRule(true, 0, false), false),
    FieldSpec(Banheiros, NumberRule(true, 0, false), false),
    FieldSpec(Piscina, BooleanRule, false),
    FieldSpec(Garagem, BooleanRule, false),
    FieldSpec(Area, NumberRule(false, 0, false), false),
    FieldSpec(Imagens, UriListRule(1), false),
    FieldSpec(Destaque, BooleanRule, false),
    FieldSpec(Finalidade, OnlyRule(Finalidades), false)
  ]

  // ---------------------------------------------------------------------
  // What a rule accepts, stated directly
  // ---------------------------------------------------------------------

  predicate IsIntegral(r: real)
  {
    r == r.Floor as real
  }

  predicate IsSafe(r: real)
  {
    -MaxSafeInteger <= r <= MaxSafeInteger
  }

  predicate IsUriString(v: Value, isUri: string -> bool)
  {
    v.Str? && v.s != "" && isUri(v.s)
  }

  predicate Conforms(rule: Rule, v: Value, isUri: string -> bool)
  {
    match rule
    case StringRule(min, max) => v.Str? && v.s != "" && min <= Utf16Length(v.s) <= max
    case OnlyRule(valids) => v.Str? && v.s in valids
    case NumberRule(integer, min, nullable) =>
      || (nullable && v.Null?)
      || (v.Num? && IsSafe(v.n) && (integer ==> IsIntegral(v.n)) && v.n >= min as real)
    case BooleanRule => v.Bool?
    case UriListRule(min) =>
      v.Arr? && |v.items| >= min && forall i :: 0 <= i < |v.items| ==> IsUriString(v.items[i], isUri)
    case AlternativesRule(a, b) => Conforms(a, v, isUri) || Conforms(b, v, isUri)
  }

  predicate Declares(schema: Schema, key: string)
  {
    exists i :: 0 <= i < |schema| && KeyOf(schema[i].field) == key
  }

  /** The paths a schema declares. */
  function FieldsOf(schema: Schema): set<Field>
  {
    set i | 0 <= i < |schema| :: schema[i].field
  }

  /** A key is declared exactly when it names one of the declared paths. */
  lemma DeclaresIff(schema: Schema, key: string)
    ensures Declares(schema, key) <==> FieldNamed(key).Some? && FieldNamed(key).value in FieldsOf(schema)
  {
    if Declares(schema, key) {
      var i :| 0 <= i < |schema| && KeyOf(schema[i].field) == key;
      FieldNamedKeyOf(schema[i].field);
    }
    if FieldNamed(key).Some? && FieldNamed(key).value in FieldsOf(schema) {
      var i :| 0 <= i < |schema| && schema[i].field == FieldNamed(key).value;
      KeyOfNamed(key);
    }
  }

  predicate FieldAccepted(spec: FieldSpec, body: Body, isUri: string -> bool)
  {
    match Get(body, KeyOf(spec.field))
    case None => !spec.required
    case Some(v) => Conforms(spec.rule, v, isUri)
  }

  /** The body passes: no undeclared key, every required key present, every present key conforming. */
  predicate Accepts(schema: Schema, body: Body, isUri: string -> bool)
  {
    && (forall i :: 0 <= i < |schema| ==> FieldAccepted(schema[i], body, isUri))
    && (forall i :: 0 <= i < |body| ==> Declares(schema, body[i].0))
  }

  // ---------------------------------------------------------------------
  // The violations the validator reports
  // ---------------------------------------------------------------------

  datatype Segment = Member(key: string) | Index(i: nat)

  datatype Code =
    | AnyRequired | AnyOnly(valids: seq<string>) | ObjectUnknown
    | StringBase | StringEmpty | StringMin(limit: nat) | StringMax(limit: nat) | StringUri
    | NumberBase | NumberUnsafe | NumberInteger | NumberMin(limit: nat)
    | BooleanBase | ArrayBase | ArrayMin(limit: nat)
    | AlternativesTypes(types: seq<string>) | AlternativesMatch

  datatype Detail = Detail(path: seq<Segment>, code: Code)

  function StringErrors(path: seq<Segment>, v: Value, min: nat, max: nat): seq<Detail>
  {
    if !v.Str? then [Detail(path, StringBase)]
    else if v.s == "" then [Detail(path, StringEmpty)]
    else
      (if Utf16Length(v.s) < min then [Detail(path, StringMin(min))] else [])
      + (if Utf16Length(v.s) > max then [Detail(path, StringMax(max))] else [])
  }

  /** A value outside the allowed set is reported, and its base type is still checked. */
  function OnlyErrors(path: seq<Segment>, v: Value, valids: seq<string>): seq<Detail>
  {
    if v.Str? && v.s in valids then []
    else
      [Detail(path, AnyOnly(valids))]
      + (if !v.Str? then [Detail(path, StringBase)]
         else if v.s == "" then [Detail(path, StringEmpty)]
         else [])
  }

  /** A base-type error ends the checks; the rules after it are all run. */
  function NumberErrors(path: seq<Segment>, v: Value, integer: bool, min: nat, nullable: bool): seq<Detail>
  {
    if nullable && v.Null? then []
    else if !v.Num? then [Detail(path, NumberBase)]
    else if !IsSafe(v.n) then [Detail(path, NumberUnsafe)]
    else
      (if integer && !IsIntegral(v.n) then [Detail(path, NumberInteger)] else [])
      + (if v.n < min as real then [Detail(path, NumberMin(min))] else [])
  }

  function ItemErrors(path: seq<Segment>, v: Value, isUri: string -> bool): seq<Detail>
  {
    if !v.Str? then [Detail(path, StringBase)]
    else if v.s == "" then [Detail(path, StringEmpty)]
    else if !isUri(v.s) then [Detail(path, StringUri)]
    else []
  }

  /** The item errors of `items`, the first of them at index `start`. */
  function ItemsErrors(path: seq<Segment>, items: seq<Value>, start: nat, isUri: string -> bool): seq<Detail>
  {
    if items == [] then []
    else ItemErrors(path + [Index(start)], items[0], isUri) + ItemsErrors(path, items[1..], start + 1, isUri)
  }

  function UriListErrors(path: seq<Segment>, v: Value, min: nat, isUri: string -> bool): seq<Detail>
  {
    if !v.Arr? then [Detail(path, ArrayBase)]
    else ItemsErrors(path, v.items, 0, isUri) + (if |v.items| < min then [Detail(path, ArrayMin(min))] else [])
  }

  /** Why one alternative failed, as the alternatives type sorts it. */
  datatype Reason = Valids(names: seq<string>) | Complex(detail: Detail) | Unmatched

  function ReasonOf(path: seq<Segment>, reports: seq<Detail>): Reason
    requires |reports| >= 1
  {
    if |reports| > 1 then Unmatched
    else
      var d := reports[0];
      if |d.path| != |path| then Complex(d)
      else
        match d.code
        case AnyOnly(vs) => Valids(vs)
        case StringBase => Valids(["string"])
        case NumberBase => Valids(["number"])
        case BooleanBase => Valids(["boolean"])
        case ArrayBase => Valids(["array"])
        case _ => Complex(d)
  }

  /** `acc` followed by the members of `xs` it does not hold yet, in order (a JavaScript Set). */
  function AddAll(acc: seq<string>, xs: seq<string>): seq<string>
    decreases |xs|
  {
    if xs == [] then acc
    else AddAll(if xs[0] in acc then acc else acc + [xs[0]], xs[1..])
  }

  /** The report when both alternatives failed. */
  function CombineAlternatives(path: seq<Segment>, ea: seq<Detail>, eb: seq<Detail>): (r: seq<Detail>)
    requires ea != [] && eb != []
    ensures r != []
  {
    var ra, rb := ReasonOf(path, ea), ReasonOf(path, eb);
    if ra.Unmatched? || rb.Unmatched? then [Detail(path, AlternativesMatch)]
    else
      var complex := (if ra.Complex? then [ra.detail] else []) + (if rb.Complex? then [rb.detail] else []);
      if complex == [] then [Detail(path, AlternativesTypes(AddAll(AddAll([], ra.names), rb.names)))]
      else if |complex| == 1 then complex
      else [Detail(path, AlternativesMatch)]
  }

  function RuleErrors(path: seq<Segment>, rule: Rule, v: Value, isUri: string -> bool): seq<Detail>
  {
    match rule
    case StringRule(min, max) => StringErrors(path, v, min, max)
    case OnlyRule(valids) => OnlyErrors(path, v, valids)
    case NumberRule(integer, min, nullable) => NumberErrors(path, v, integer, min, nullable)
    case BooleanRule => if v.Bool? then [] else [Detail(path, BooleanBase)]
    case UriListRule(min) => UriListErrors(path, v, min, isUri)
    case AlternativesRule(a, b) =>
      var ea := RuleErrors(path, a, v, isUri);
      if ea == [] then []
      else
        var eb := RuleErrors(path, b, v, isUri);
        if eb == [] then [] else CombineAlternatives(path, ea, eb)
  }

  function FieldErrors(spec: FieldSpec, body: Body, isUri: string -> bool): seq<Detail>
  {
    var key := KeyOf(spec.field);
    match Get(body, key)
    case None => if spec.required then [Detail([Member(key)], AnyRequired)] else []
    case Some(v) => RuleErrors([Member(key)], spec.rule, v, isUri)
  }

  /** The declared keys, in declaration order. */
  function ChildrenErrors(schema: Schema, body: Body, isUri: string -> bool): seq<Detail>
  {
    if schema == [] then []
    else FieldErrors(schema[0], body, isUri) + ChildrenErrors(schema[1..], body, isUri)
  }

  /** The undeclared keys, in body order. */
  function UnknownErrors(schema: Schema, members: seq<(string, Value)>): seq<Detail>
  {
    if members == [] then []
    else
      (if Declares(schema, members[0].0) then [] else [Detail([Member(members[0].0)], ObjectUnknown)])
      + UnknownErrors(schema, members[1..])
  }

  /** `schema.validate(body, { abortEarly: false }).error.details`, empty when there is no error. */
  function SchemaErrors(schema: Schema, body: Body, isUri: string -> bool): seq<Detail>
  {
    ChildrenErrors(schema, body, isUri) + UnknownErrors(schema, body)
  }

  // ---------------------------------------------------------------------
  // The reported violations agree with the direct statement of the rules
  // ---------------------------------------------------------------------

  lemma {:induction false} ItemsErrorsEmptyIff(path: seq<Segment>, items: seq<Value>, start: nat, isUri: string -> bool)
    ensures ItemsErrors(path, items, start, isUri) == [] <==> forall i :: 0 <= i < |items| ==> IsUriString(items[i], isUri)
  {
    if items != [] {
      ItemsErrorsEmptyIff(path, items[1..], start + 1, isUri);
      assert forall i :: 1 <= i < |items| ==> items[i] == items[1..][i - 1];
    }
  }

  /** A rule reports nothing exactly when the value conforms to it. */
  lemma {:induction false} RuleErrorsEmptyIff(path: seq<Segment>, rule: Rule, v: Value, isUri: string -> bool)
    ensures RuleErrors(path, rule, v, isUri) == [] <==> Conforms(rule, v, isUri)
  {
    match rule
    case UriListRule(min) =>
      if v.Arr? {
        ItemsErrorsEmptyIff(path, v.items, 0, isUri);
      }
    case AlternativesRule(a, b) =>
      RuleErrorsEmptyIff(path, a, v, isUri);
      RuleErrorsEmptyIff(path, b, v, isUri);
    case _ =>
  }

  lemma FieldErrorsEmptyIff(spec: FieldSpec, body: Body, isUri: string -> bool)
    ensures FieldErrors(spec, body, isUri) == [] <==> FieldAccepted(spec, body, isUri)
  {
    var key := KeyOf(spec.field);
    if Get(body, key).Some? {
      RuleErrorsEmptyIff([Member(key)], spec.rule, Get(body, key).value, isUri);
    }
  }

  lemma {:induction false} ChildrenErrorsEmptyIff(schema: Schema, body: Body, isUri: string -> bool)
    ensures ChildrenErrors(schema, body, isUri) == [] <==> forall i :: 0 <= i < |schema| ==> FieldAccepted(schema[i], body, isUri)
  {
    if schema != [] {
      FieldErrorsEmptyIff(schema[0], body, isUri);
      ChildrenErrorsEmptyIff(schema[1..], body, isUri);
      assert forall i :: 1 <= i < |schema| ==> schema[i] == schema[1..][i - 1];
    }
  }

  lemma {:induction false} UnknownErrorsEmptyIff(schema: Schema, members: seq<(string, Value)>)
    ensures UnknownErrors(schema, members) == [] <==> forall i :: 0 <= i < |members| ==> Declares(schema, members[i].0)
  {
    if members != [] {
      UnknownErrorsEmptyIff(schema, members[1..]);
      assert forall i :: 1 <= i < |members| ==> members[i] == members[1..][i - 1];
    }
  }

  /** The validator reports no error exactly when the body is accepted. */
  lemma SchemaErrorsEmptyIff(schema: Schema, body: Body, isUri: string -> bool)
    ensures SchemaErrors(schema, body, isUri) == [] <==> Accepts(schema, body, isUri)
  {
    ChildrenErrorsEmptyIff(schema, body, isUri);
    UnknownErrorsEmptyIff(schema, body);
  }
}
