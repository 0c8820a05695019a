/** The paths of a listing document, in the order the listing model declares them. */
module ListingFields {
  import opened Wrappers

  datatype Field =
    | Titulo | Descricao | Cidade | Bairro | Tipo | Finalidade
    | Preco | Dormitorios | Banheiros | Area | Visualizacoes
    | ValorCondominio | Piscina | Garagem | Destaque | Imagens

  /** The JSON key of a path. */
  function KeyOf(f: Field): (k: string)
    ensures k != ""
  {
    match f
    case Titulo => "titulo"
    case Descricao => "descricao"
    case Cidade => "cidade"
    case Bairro => "bairro"
    case Tipo => "tipo"
    case Finalidade => "finalidade"
    case Preco => "preco"
    case Dormitorios => "dormitorios"
    case Banheiros => "banheiros"
    case Area => "area"
    case Visualizacoes => "visualizacoes"
    case ValorCondominio => "valorCondominio"
    case Piscina => "piscina"
    case Garagem => "garagem"
    case Destaque => "destaque"
    case Imagens => "imagens"
  }

  /** The path a JSON key names, if any. */
  function FieldNamed(k: string): (r: Option<Field>)
  {
    if k == "titulo" then Some(Titulo)
    else if k == "descricao" then Some(Descricao)
    else if k == "cidade" then Some(Cidade)
    else if k == "bairro" then Some(Bairro)
    else if k == "tipo" then Some(Tipo)
    else if k == "finalidade" then Some(Finalidade)
    else if k == "preco" then Some(Preco)
    else if k == "dormitorios" then Some(Dormitorios)
    else if k == "banheiros" then Some(Banheiros)
    else if k == "area" then Some(Area)
    else if k == "visualizacoes" then Some(Visualizacoes)
    else if k == "valorCondominio" then Some(ValorCondominio)
    else if k == "piscina" then Some(Piscina)
    else if k == "garagem" then Some(Garagem)
    else if k == "destaque" then Some(Destaque)
    else if k == "imagens" then Some(Imagens)
    else None
  }

  lemma FieldNamedKeyOf(f: Field)
    ensures FieldNamed(KeyOf(f)) == Some(f)
  {
  }

  /** `FieldNamed` inverts `KeyOf`: a key names a path exactly when it is that path's key. */
  lemma FieldNamedIff(k: string, f: Field)
    ensures FieldNamed(k) == Some(f) <==> KeyOf(f) == k
  {
    FieldNamedKeyOf(f);
    if FieldNamed(k) == Some(f) {
      KeyOfNamed(k);
    }
  }

  lemma KeyOfNamed(k: string)
    requires FieldNamed(k).Some?
    ensures KeyOf(FieldNamed(k).value) == k
  {
    if k == "titulo" {} else if k == "descricao" {} else if k == "cidade" {}
    else if k == "bairro" {} else if k == "tipo" {} else if k == "finalidade" {}
    else if k == "preco" {} else if k == "dormitorios" {} else if k == "banheiros" {}
    else if k == "area" {} else if k == "visualizacoes" {} else if k == "valorCondominio" {}
    else if k == "piscina" {} else if k == "garagem" {} else if k == "destaque" {}
    else {}
  }

  /** The paths in declaration order. */
  const ModelPaths: seq<Field> := [
    Titulo, Descricao, Cidade, Bairro, Tipo, Finalidade,
    Preco, Dormitorios, Banheiros, Area, Visualizacoes,
    ValorCondominio, Piscina, Garagem, Destaque, Imagens
  ]
}
