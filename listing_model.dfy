/**
 * The listing document of the listing model (models/Imovel.js): its typed
 * paths, the defaults a new document receives, the `trim` setter of
 * `titulo`, the validators that run when a document is saved or updated,
 * the plain object a document turns into, and `formatarImovel`.
 */
module ListingModel {
  import opened Wrappers
  import opened Json
  import opened Text
  import opened ObjectIds
  import opened ListingFields

  const ModelTipos: set<string> := {"casa", "apartamento", "terreno", "comercial"}
  const ModelFinalidades: set<string> := {"venda", "locacao"}

  /**
   * A stored listing. `preco` is a mixed path and keeps whatever JSON value
   * it was given; `valorCondominio` is None for null. The timestamps are
   * ticks of the store's clock; `version` is `__v`.
   */
  datatype Listing = Listing(
    id: ObjectId,
    titulo: string, descricao: string, cidade: string, bairro: string,
    tipo: string, finalidade: string,
    preco: Value,
    dormitorios: real, banheiros: real, area: real, visualizacoes: real,
    valorCondominio: Option<real>,
    piscina: bool, garagem: bool, destaque: bool,
    imagens: seq<string>,
    createdAt: nat, updatedAt: nat, version: nat)

  /** A path's value as the document shows it in JSON. */
  function Attr(l: Listing, f: Field): Value
  {
    match f
    case Titulo => Str(l.titulo)
    case Descricao => Str(l.descricao)
    case Cidade => Str(l.cidade)
    case Bairro => Str(l.bairro)
    case Tipo => Str(l.tipo)
    case Finalidade => Str(l.finalidade)
    case Preco => l.preco
    case Dormitorios => Num(l.dormitorios)
    case Banheiros => Num(l.banheiros)
    case Area => Num(l.area)
    case Visualizacoes => Num(l.visualizacoes)
    case ValorCondominio => if l.valorCondominio.Some? then Num(l.valorCondominio.value) else Null
    case Piscina => Bool(l.piscina)
    case Garagem => Bool(l.garagem)
    case Destaque => Bool(l.destaque)
    case Imagens => Arr(StrItems(l.imagens))
  }

  function StrItems(xs: seq<string>): seq<Value>
  {
    seq(|xs|, i requires 0 <= i < |xs| => Str(xs[i]))
  }

  // ---------------------------------------------------------------------
  // Setting paths from a request body
  // ---------------------------------------------------------------------

  /** Each setter takes the supplied value when it has the path's type, otherwise keeps `d`. */
  function TextOr(o: Option<Value>, d: string): string
  {
    if o.Some? && o.value.Str? then o.value.s else d
  }

  function NumOr(o: Option<Value>, d: real): real
  {
    if o.Some? && o.value.Num? then o.value.n else d
  }

  function BoolOr(o: Option<Value>, d: bool): bool
  {
    if o.Some? && o.value.Bool? then o.value.b else d
  }

  function NullableOr(o: Option<Value>, d: Option<real>): Option<real>
  {
    if o.Some? && o.value.Null? then None
    else if o.Some? && o.value.Num? then Some(o.value.n)
    else d
  }

  predicate AllStrings(items: seq<Value>)
  {
    forall i :: 0 <= i < |items| ==> items[i].Str?
  }

  function Strings(items: seq<Value>): seq<string>
    requires AllStrings(items)
  {
    seq(|items|, i requires 0 <= i < |items| => items[i].s)
  }

  /** A list of strings survives the trip through JSON items and back, and so does a list of JSON strings. */
  lemma StringsRoundTrip(xs: seq<string>, items: seq<Value>)
    requires AllStrings(items)
    ensures AllStrings(StrItems(xs)) && Strings(StrItems(xs)) == xs
    ensures StrItems(Strings(items)) == items
  {
    var ys := Strings(items);
    assert |StrItems(ys)| == |items|;
    forall i | 0 <= i < |items| ensures StrItems(ys)[i] == items[i] {
      assert ys[i] == items[i].s;
    }
  }

  function StringsOr(o: Option<Value>, d: seq<string>): seq<string>
  {
    if o.Some? && o.value.Arr? && AllStrings(o.value.items) then Strings(o.value.items) else d
  }

  /** The value a supplied JSON value becomes on a path: `titulo` is trimmed, the rest is kept. */
  function Cast(f: Field, v: Value): Value
  {
    if f == Titulo && v.Str? then Str(Trim(v.s)) else v
  }

  /**
   * Every path the body supplies is set, the others keep their values. The
   * timestamps and `__v` are not paths a body sets.
   */
  function SetPaths(l: Listing, body: Body): Listing
  {
    l.(
      titulo := if Get(body, "titulo").Some? && Get(body, "titulo").value.Str?
                then Trim(Get(body, "titulo").value.s) else l.titulo,
      descricao := TextOr(Get(body, "descricao"), l.descricao),
      cidade := TextOr(Get(body, "cidade"), l.cidade),
      bairro := TextOr(Get(body, "bairro"), l.bairro),
      tipo := TextOr(Get(body, "tipo"), l.tipo),
      finalidade := TextOr(Get(body, "finalidade"), l.finalidade),
      preco := if Get(body, "preco").Some? then Get(body, "preco").value else l.preco,
      dormitorios := NumOr(Get(body, "dormitorios"), l.dormitorios),
      banheiros := NumOr(Get(body, "banheiros"), l.banheiros),
      area := NumOr(Get(body, "area"), l.area),
      visualizacoes := NumOr(Get(body, "visualizacoes"), l.visualizacoes),
      valorCondominio := NullableOr(Get(body, "valorCondominio"), l.valorCondominio),
      piscina := BoolOr(Get(body, "piscina"), l.piscina),
      garagem := BoolOr(Get(body, "garagem"), l.garagem),
      destaque := BoolOr(Get(body, "destaque"), l.destaque),
      imagens := StringsOr(Get(body, "imagens"), l.imagens))
  }

  /**
   * A fresh document before the body is applied: the defaults of the model
   * (`visualizacoes`, `dormitorios`, `banheiros` 0, `valorCondominio` null,
   * the three flags false, `imagens` empty), no value on the paths without
   * a default, and both timestamps at `now`.
   */
  function Blank(id: ObjectId, now: nat): (l: Listing)
  {
    Listing(id, "", "", "", "", "", "", Null, 0.0, 0.0, 0.0, 0.0, None, false, false, false, [], now, now, 0)
  }

  /** `new Imovel(body)` at time `now`. */
  function BuildListing(id: ObjectId, body: Body, now: nat): Listing
  {
    SetPaths(Blank(id, now), body)
  }

  /** `findByIdAndUpdate(id, body)` on a stored document at time `now`. */
  function ApplyUpdate(l: Listing, body: Body, now: nat): Listing
  {
    SetPaths(l, body).(updatedAt := now)
  }

  // ---------------------------------------------------------------------
  // The model's validators
  // ---------------------------------------------------------------------

  /** What `save()` demands: the required paths hold a value and the enums hold. */
  predicate ModelValid(l: Listing)
  {
    && l.titulo != "" && l.descricao != "" && l.cidade != "" && l.bairro != ""
    && l.tipo in ModelTipos && l.finalidade in ModelFinalidades
    && !l.preco.Null?
  }

  /** A value the `required` validator of a string path lets through. */
  predicate RequiredPasses(o: Option<Value>, trim: bool)
  {
    o.Some? ==> o.value.Str? && (if trim then Trim(o.value.s) else o.value.s) != ""
  }

  /**
   * The update validators: they check only the paths the body sets, each
   * with its path's validators on the value after its setter ran.
   */
  predicate UpdateValidatorsPass(body: Body)
  {
    && RequiredPasses(Get(body, "titulo"), true)
    && RequiredPasses(Get(body, "descricao"), false)
    && RequiredPasses(Get(body, "cidade"), false)
    && RequiredPasses(Get(body, "bairro"), false)
    && (Get(body, "tipo").Some? ==> Get(body, "tipo").value.Str? && Get(body, "tipo").value.s in ModelTipos)
    && (Get(body, "finalidade").Some? ==> Get(body, "finalidade").value.Str? && Get(body, "finalidade").value.s in ModelFinalidades)
    && (Get(body, "preco").Some? ==> !Get(body, "preco").value.Null?)
  }

  // ---------------------------------------------------------------------
  // toObject() and formatarImovel
  // ---------------------------------------------------------------------

  /** A value of a plain document object: JSON, an ObjectId or a date. */
  datatype DocValue = Plain(v: Value) | Oid(oid: ObjectId) | Date(tick: nat)

  function PathMembers(l: Listing, fs: seq<Field>): seq<(string, DocValue)>
  {
    seq(|fs|, i requires 0 <= i < |fs| => (KeyOf(fs[i]), Plain(Attr(l, fs[i]))))
  }

  /** The paths and both timestamps of a document. */
  function Visible(l: Listing): seq<(string, DocValue)>
  {
    PathMembers(l, ModelPaths) + [("createdAt", Date(l.createdAt)), ("updatedAt", Date(l.updatedAt))]
  }

  /** `doc.toObject()`: `_id`, the paths, the timestamps and `__v`. */
  function ToObject(l: Listing): seq<(string, DocValue)>
  {
    [("_id", Oid(l.id))] + Visible(l) + [("__v", Plain(Num(l.version as real)))]
  }

  predicate Internal(key: string)
  {
    key == "_id" || key == "__v"
  }

  /** `const { _id, __v, ...resto } = obj`: the members other than `_id` and `__v`, in order. */
  function Rest(obj: seq<(string, DocValue)>): (r: seq<(string, DocValue)>)
    ensures forall p :: p in r <==> p in obj && !Internal(p.0)
    ensures |r| <= |obj|
  {
    if obj == [] then []
    else (if Internal(obj[0].0) then [] else [obj[0]]) + Rest(obj[1..])
  }

  /** `formatarImovel` (defined next to the listing routes, which never call it). */
  function FormatListing(l: Listing): seq<(string, DocValue)>
  {
    [("id", Plain(Str(IdText(l.id))))] + Rest(ToObject(l))
  }

  // ---------------------------------------------------------------------
  // Properties
  // ---------------------------------------------------------------------

  lemma {:induction false} RestAppend(a: seq<(string, DocValue)>, b: seq<(string, DocValue)>)
    ensures Rest(a + b) == Rest(a) + Rest(b)
  {
    if a == [] {
      assert a + b == b;
    } else {
      assert (a + b)[0] == a[0];
      assert (a + b)[1..] == a[1..] + b;
      RestAppend(a[1..], b);
    }
  }

  lemma {:induction false} RestKeepsPlain(obj: seq<(string, DocValue)>)
    requires forall i :: 0 <= i < |obj| ==> !Internal(obj[i].0)
    ensures Rest(obj) == obj
  {
    if obj != [] {
      RestKeepsPlain(obj[1..]);
      assert obj == [obj[0]] + obj[1..];
    }
  }

  lemma KeyNotInternal(f: Field)
    ensures !Internal(KeyOf(f))
  {
  }

  lemma VisibleIsPlain(l: Listing)
    ensures forall i :: 0 <= i < |Visible(l)| ==> !Internal(Visible(l)[i].0)
  {
    var vis := Visible(l);
    forall i | 0 <= i < |vis| ensures !Internal(vis[i].0) {
      if i < |ModelPaths| {
        KeyNotInternal(ModelPaths[i]);
      }
    }
  }

  /**
   * `formatarImovel` puts `id`, the text of `_id`, first; then every path
   * and both timestamps, unchanged and in order; `_id` and `__v` are gone.
   */
  lemma FormatShape(l: Listing)
    ensures FormatListing(l) == [("id", Plain(Str(IdText(l.id))))] + Visible(l)
  {
    VisibleIsPlain(l);
    RestOfObject(("_id", Oid(l.id)), Visible(l), ("__v", Plain(Num(l.version as real))));
  }

  /** Taking `_id` and `__v` off the two ends of an object with no other internal key. */
  lemma RestOfObject(first: (string, DocValue), vis: seq<(string, DocValue)>, last: (string, DocValue))
    requires first.0 == "_id" && last.0 == "__v"
    requires forall i :: 0 <= i < |vis| ==> !Internal(vis[i].0)
    ensures Rest([first] + vis + [last]) == vis
  {
    RestKeepsPlain(vis);
    RestAppend([first] + vis, [last]);
    RestAppend([first], vis);
    assert Rest([first]) == [] by {
      assert [first][1..] == [];
    }
    assert Rest([last]) == [] by {
      assert [last][1..] == [];
    }
  }

  /** The output has neither `_id` nor `__v`, and its `id` casts back to the document's id. */
  lemma FormatIdentity(l: Listing)
    ensures forall p :: p in FormatListing(l) ==> !Internal(p.0)
    ensures FormatListing(l)[0] == ("id", Plain(Str(IdText(l.id))))
    ensures CastObjectId(IdText(l.id)) == Some(l.id)
  {
    FormatShape(l);
    VisibleIsPlain(l);
    CastIdText(l.id);
  }

  /** A new document holds the model's defaults on every path the body leaves out. */
  lemma BuildDefaults(id: ObjectId, body: Body, now: nat)
    ensures var l := BuildListing(id, body, now);
      && (Get(body, "visualizacoes").None? ==> l.visualizacoes == 0.0)
      && (Get(body, "valorCondominio").None? ==> l.valorCondominio == None)
      && (Get(body, "piscina").None? ==> !l.piscina)
      && (Get(body, "garagem").None? ==> !l.garagem)
      && (Get(body, "destaque").None? ==> !l.destaque)
      && (Get(body, "dormitorios").None? ==> l.dormitorios == 0.0)
      && (Get(body, "banheiros").None? ==> l.banheiros == 0.0)
      && l.createdAt == now && l.updatedAt == now && l.id == id && l.version == 0
  {
  }

  /** `titulo` loses its surrounding white space; no other value is changed on the way in. */
  lemma SetPathValue(l: Listing, body: Body, f: Field)
    requires Get(body, KeyOf(f)).Some?
    requires Conforming(f, Get(body, KeyOf(f)).value)
    ensures Attr(SetPaths(l, body), f) == Cast(f, Get(body, KeyOf(f)).value)
  {
    var v := Get(body, KeyOf(f)).value;
    if f == Imagens {
      StringsRoundTrip([], v.items);
    }
  }

  /** A JSON value of the type a path holds. */
  predicate Conforming(f: Field, v: Value)
  {
    match f
    case Titulo => v.Str?
    case Descricao => v.Str?
    case Cidade => v.Str?
    case Bairro => v.Str?
    case Tipo => v.Str?
    case Finalidade => v.Str?
    case Preco => true
    case Dormitorios => v.Num?
    case Banheiros => v.Num?
    case Area => v.Num?
    case Visualizacoes => v.Num?
    case ValorCondominio => v.Null? || v.Num?
    case Piscina => v.Bool?
    case Garagem => v.Bool?
    case Destaque => v.Bool?
    case Imagens => v.Arr? && AllStrings(v.items)
  }

  /** Only the paths the body supplies change. */
  lemma SetPathsKeepsOthers(l: Listing, body: Body, f: Field)
    requires Get(body, KeyOf(f)).None?
    ensures Attr(SetPaths(l, body), f) == Attr(l, f)
  {
  }

  /** An update keeps the id, the creation time and `__v`, and stamps `updatedAt`. */
  lemma UpdateKeepsIdentity(l: Listing, body: Body, now: nat)
    ensures var u := ApplyUpdate(l, body, now);
      u.id == l.id && u.createdAt == l.createdAt && u.version == l.version && u.updatedAt == now
  {
  }

  /** A title of two spaces and a letter passes a length check of 3 and is stored as the letter alone. */
  lemma TrimmedTitleShorter(c: char)
    requires !IsJsSpace(c)
    ensures Utf16Length([' ', ' ', c]) >= 3 && Trim([' ', ' ', c]) == [c] && Utf16Length([c]) <= 2
  {
    var s := [' ', ' ', c];
    assert s[1..] == [' ', c];
    assert [' ', c][1..] == [c];
    assert TrimStart([c]) == [c];
    assert TrimStart(s) == [c];
    assert TrimEnd([c]) == [c];
  }
}
