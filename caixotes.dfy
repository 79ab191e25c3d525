/** The package manifest `caixote.pbr` (src/caixotes.rs): the `Manifesto`
    record, its line-oriented `chave = valor` format, the parser that reads
    it (`parse`, `definir_valor`) and the writer (`to_string`). */
module Caixotes {
  import opened Wrappers
  import opened Texto

  /** The main file a new manifest points at. */
  const PrincipalPadrao: string := "src/principal.pbr"

  /** The fields of a manifest, as one value. */
  datatype Dados = Dados(
    nome: string,
    versao: string,
    autores: seq<string>,
    descricao: string,
    principal: string,
    dependencias: map<string, string>,
    palavrasChave: seq<string>,
    licenca: string,
    repositorio: string)

  /** `Manifesto::novo`: the given name and version, the default main file,
      licence "MIT", everything else empty. */
  function DadosNovos(nome: string, versao: string): Dados {
    Dados(nome, versao, [], "", PrincipalPadrao, map[], [], "MIT", "")
  }

  // ---------------------------------------------------------------------
  // Writing

  /** `"x"`. */
  function Citar(x: string): string {
    "\"" + x + "\""
  }

  /** `chave = valor`. */
  function LinhaValor(chave: string, valor: string): string {
    chave + " = " + valor
  }

  /** `chave = "x"`. */
  function LinhaTexto(chave: string, x: string): string {
    LinhaValor(chave, Citar(x))
  }

  /** Each element quoted. */
  function Citados(xs: seq<string>): (r: seq<string>)
    ensures |r| == |xs|
    ensures forall i | 0 <= i < |xs| :: r[i] == Citar(xs[i])
  {
    if xs == [] then [] else Citados(xs[..|xs| - 1]) + [Citar(xs[|xs| - 1])]
  }

  /** `["a", "b"]`. */
  function Lista(xs: seq<string>): string {
    "[" + Juntar(Citados(xs), ", ") + "]"
  }

  /** One dependency line: `    "nome" = "versao"`. */
  function LinhaDependencia(nome: string, versao: string): string {
    "    " + LinhaValor(Citar(nome), Citar(versao))
  }

  /** The dependency lines in the order `ordem` visits the map. */
  function LinhasDependencias(dependencias: map<string, string>, ordem: seq<string>): (r: seq<string>)
    requires forall i | 0 <= i < |ordem| :: ordem[i] in dependencias
    ensures |r| == |ordem|
  {
    if ordem == [] then []
    else
      var n := |ordem|;
      LinhasDependencias(dependencias, ordem[..n - 1]) + [LinhaDependencia(ordem[n - 1], dependencias[ordem[n - 1]])]
  }

  /** An iteration order of a map: every key exactly once. The order a
      `HashMap` iterates in is not specified, so the writer takes it as a
      parameter. */
  predicate OrdemDe(ordem: seq<string>, dependencias: map<string, string>) {
    && (forall k | k in dependencias :: k in ordem)
    && (forall i | 0 <= i < |ordem| :: ordem[i] in dependencias)
    && (forall i, j | 0 <= i < j < |ordem| :: ordem[i] != ordem[j])
  }

  /** The dependency block: opening line, one line per dependency, `}`. */
  function BlocoDependencias(dependencias: map<string, string>, ordem: seq<string>): seq<string>
    requires OrdemDe(ordem, dependencias)
  {
    ["dependencias = {"] + LinhasDependencias(dependencias, ordem) + ["}"]
  }

  /** The lines before the dependencies: `nome`, `versao`, `autores` when
      there are authors, `descricao` when it is not empty, `principal`. */
  function Cabecalho(d: Dados): seq<string> {
    [LinhaTexto("nome", d.nome)]
    + [LinhaTexto("versao", d.versao)]
    + (if d.autores != [] then [LinhaValor("autores", Lista(d.autores))] else [])
    + (if d.descricao != "" then [LinhaTexto("descricao", d.descricao)] else [])
    + [LinhaTexto("principal", d.principal)]
  }

  /** The lines after the dependencies, each only when its field is not
      empty: `palavras_chave`, `licenca`, `repositorio`. */
  function Cauda(d: Dados): seq<string> {
    (if d.palavrasChave != [] then [LinhaValor("palavras_chave", Lista(d.palavrasChave))] else [])
    + (if d.licenca != "" then [LinhaTexto("licenca", d.licenca)] else [])
    + (if d.repositorio != "" then [LinhaTexto("repositorio", d.repositorio)] else [])
  }

  /** Every line `to_string` writes, the dependency block only when there
      are dependencies. */
  function LinhasManifesto(d: Dados, ordem: seq<string>): seq<string>
    requires OrdemDe(ordem, d.dependencias)
  {
    Cabecalho(d)
    + (if d.dependencias != map[] then BlocoDependencias(d.dependencias, ordem) else [])
    + Cauda(d)
  }

  /** `to_string`: the lines joined with newlines. */
  function Serializar(d: Dados, ordem: seq<string>): string
    requires OrdemDe(ordem, d.dependencias)
  {
    Juntar(LinhasManifesto(d, ordem), "\n")
  }

  // ---------------------------------------------------------------------
  // Reading

  /** The keys `definir_valor` knows. */
  const Chaves: set<string> :=
    {"nome", "versao", "descricao", "principal", "licenca", "repositorio", "autores", "palavras_chave"}

  /** The elements of a `[...]` value: the inside split on `,`, each
      trimmed of spaces and then of quotes. */
  function LerLista(dentro: string): (r: seq<string>)
    ensures |r| >= 1
  {
    Elementos(Dividir(dentro, ','))
  }

  /** Each piece of a list trimmed of spaces and then of quotes. */
  function Elementos(partes: seq<string>): seq<string> {
    seq(|partes|, i requires 0 <= i < |partes| => ApararAspas(Aparar(partes[i])))
  }

  /** `definir_valor`: a text key takes the value without its surrounding
      quotes; a list key takes the list only when the value is bracketed;
      any other key changes nothing. */
  function DefinirValorEm(d: Dados, chave: string, valor: string): (r: Dados)
    ensures chave !in Chaves ==> r == d
    ensures chave in {"autores", "palavras_chave"} && !(ComecaCom(valor, '[') && TerminaCom(valor, ']')) ==> r == d
  {
    if chave == "nome" then d.(nome := ApararAspas(valor))
    else if chave == "versao" then d.(versao := ApararAspas(valor))
    else if chave == "descricao" then d.(descricao := ApararAspas(valor))
    else if chave == "principal" then d.(principal := ApararAspas(valor))
    else if chave == "licenca" then d.(licenca := ApararAspas(valor))
    else if chave == "repositorio" then d.(repositorio := ApararAspas(valor))
    else if chave == "autores" then
      if ComecaCom(valor, '[') && TerminaCom(valor, ']') then d.(autores := LerLista(valor[1..|valor| - 1]))
      else d
    else if chave == "palavras_chave" then
      if ComecaCom(valor, '[') && TerminaCom(valor, ']') then d.(palavrasChave := LerLista(valor[1..|valor| - 1]))
      else d
    else d
  }

  /** The parser's two states: between keys, or inside a `{ ... }` block. */
  datatype Estado = Normal | Dependencias

  /** What the parser holds between lines. */
  datatype Leitura = Leitura(dados: Dados, estado: Estado)

  /** A `chave = valor` line between keys: `chave = {` opens a block
      whatever the key, any other value goes to `definir_valor`, both
      sides trimmed of spaces. A line without `=` changes nothing. */
  function LinhaEntreChaves(d: Dados, linha: string): (r: Leitura)
    ensures r.estado == Normal || Encontrar(linha, '=').Some?
  {
    match Encontrar(linha, '=')
    case None => Leitura(d, Normal)
    case Some(pos) =>
      var chave := Aparar(linha[..pos]);
      var valor := Aparar(linha[pos + 1..]);
      if valor == "{" then Leitura(d, Dependencias)
      else Leitura(DefinirValorEm(d, chave, valor), Normal)
  }

  /** A line inside a `{ ... }` block: `}` closes it, `chave = valor` adds
      or replaces a dependency, both sides trimmed of spaces and then of
      quotes. A line without `=` changes nothing. */
  function LinhaNoBloco(d: Dados, linha: string): Leitura
  {
    if linha == "}" then Leitura(d, Normal)
    else
      match Encontrar(linha, '=')
      case None => Leitura(d, Dependencias)
      case Some(pos) =>
        var chave := ApararAspas(Aparar(linha[..pos]));
        var valor := ApararAspas(Aparar(linha[pos + 1..]));
        Leitura(d.(dependencias := d.dependencias[chave := valor]), Dependencias)
  }

  /** One line of `parse`: trimmed of spaces; blank lines and `#` comments
      are skipped in both states. */
  function Passo(l: Leitura, linhaBruta: string): Leitura
  {
    var linha := Aparar(linhaBruta);
    if linha == "" || ComecaCom(linha, '#') then l
    else
      match l.estado
      case Normal => LinhaEntreChaves(l.dados, linha)
      case Dependencias => LinhaNoBloco(l.dados, linha)
  }

  /** The lines taken in order, from the first. */
  function Processar(l: Leitura, linhas: seq<string>): Leitura {
    if linhas == [] then l else Passo(Processar(l, linhas[..|linhas| - 1]), linhas[|linhas| - 1])
  }

  /** Where `parse` starts: `novo("temp", "0.1.0")`, between keys. */
  function Inicial(): Leitura {
    Leitura(DadosNovos("temp", "0.1.0"), Normal)
  }

  /** `parse`. It never fails. */
  function Analisar(conteudo: string): Dados {
    Processar(Inicial(), Linhas(conteudo)).dados
  }

  // ---------------------------------------------------------------------
  // The record

  class Manifesto {
    var nome: string
    var versao: string
    var autores: seq<string>
    var descricao: string
    var principal: string
    var dependencias: map<string, string>
    var palavrasChave: seq<string>
    var licenca: string
    var repositorio: string

    /** The fields as one value. */
    function Valores(): Dados
      reads this
    {
      Dados(nome, versao, autores, descricao, principal, dependencias, palavrasChave, licenca, repositorio)
    }

    /** `Manifesto::novo`. */
    constructor Novo(nome: string, versao: string)
      ensures Valores() == DadosNovos(nome, versao)
      ensures this.nome == nome && this.versao == versao
      ensures licenca == "MIT" && principal == PrincipalPadrao
      ensures autores == [] && dependencias == map[] && palavrasChave == []
      ensures descricao == "" && repositorio == ""
    {
      this.nome := nome;
      this.versao := versao;
      autores := [];
      descricao := "";
      principal := PrincipalPadrao;
      dependencias := map[];
      palavrasChave := [];
      licenca := "MIT";
      repositorio := "";
    }

    /** `definir_valor`: assigns the field the key names, if any. */
    method DefinirValor(chave: string, valor: string)
      modifies this
      ensures Valores() == DefinirValorEm(old(Valores()), chave, valor)
    {
      if chave == "nome" {
        nome := ApararAspas(valor);
      } else if chave == "versao" {
        versao := ApararAspas(valor);
      } else if chave == "descricao" {
        descricao := ApararAspas(valor);
      } else if chave == "principal" {
        principal := ApararAspas(valor);
      } else if chave == "licenca" {
        licenca := ApararAspas(valor);
      } else if chave == "repositorio" {
        repositorio := ApararAspas(valor);
      } else if chave == "autores" {
        if ComecaCom(valor, '[') && TerminaCom(valor, ']') {
          autores := LerLista(valor[1..|valor| - 1]);
        }
      } else if chave == "palavras_chave" {
        if ComecaCom(valor, '[') && TerminaCom(valor, ']') {
          palavrasChave := LerLista(valor[1..|valor| - 1]);
        }
      }
    }

    /** `Manifesto::parse`: starts from `novo("temp", "0.1.0")` and applies
        the lines in order. */
    static method Parse(conteudo: string) returns (m: Manifesto)
      ensures fresh(m)
      ensures m.Valores() == Analisar(conteudo)
    {
      m := new Manifesto.Novo("temp", "0.1.0");
      var estado := Normal;
      var linhas := Linhas(conteudo);
      for k := 0 to |linhas|
        invariant Leitura(m.Valores(), estado) == Processar(Inicial(), linhas[..k])
      {
        assert linhas[..k + 1][..k] == linhas[..k];
        estado := m.AplicarLinha(estado, linhas[k]);
      }
      assert linhas[..|linhas|] == linhas;
    }

    /** The body of `parse`'s loop: one line, in state `estado`. */
    method AplicarLinha(estado: Estado, linhaBruta: string) returns (proximo: Estado)
      modifies this
      ensures Leitura(Valores(), proximo) == Passo(Leitura(old(Valores()), estado), linhaBruta)
    {
      proximo := estado;
      var linha := Aparar(linhaBruta);
      if linha != "" && !ComecaCom(linha, '#') {
        match estado
        case Normal =>
          proximo := AplicarEntreChaves(linha);
        case Dependencias =>
          proximo := AplicarNoBloco(linha);
      }
    }

    /** A trimmed line between keys. */
    method AplicarEntreChaves(linha: string) returns (proximo: Estado)
      modifies this
      ensures Leitura(Valores(), proximo) == LinhaEntreChaves(old(Valores()), linha)
    {
      proximo := Normal;
      var pos := Encontrar(linha, '=');
      if pos.Some? {
        var chave := Aparar(linha[..pos.value]);
        var valor := Aparar(linha[pos.value + 1..]);
        if valor == "{" {
          proximo := Dependencias;
        } else {
          DefinirValor(chave, valor);
        }
      }
    }

    /** A trimmed line inside a dependency block. */
    method AplicarNoBloco(linha: string) returns (proximo: Estado)
      modifies this
      ensures Leitura(Valores(), proximo) == LinhaNoBloco(old(Valores()), linha)
    {
      proximo := Dependencias;
      if linha == "}" {
        proximo := Normal;
        assert LinhaNoBloco(Valores(), linha) == Leitura(Valores(), Normal);
      } else {
        var pos := Encontrar(linha, '=');
        if pos.Some? {
          var chave := ApararAspas(Aparar(linha[..pos.value]));
          var valor := ApararAspas(Aparar(linha[pos.value + 1..]));
          ghost var antes := Valores();
          assert LinhaNoBloco(antes, linha) == Leitura(antes.(dependencias := antes.dependencias[chave := valor]), Dependencias);
          dependencias := dependencias[chave := valor];
          assert Valores() == antes.(dependencias := antes.dependencias[chave := valor]);
        } else {
          assert LinhaNoBloco(Valores(), linha) == Leitura(Valores(), Dependencias);
        }
      }
    }

    /** `to_string`: the lines pushed in order and joined with newlines.
        The dependencies are written in `ordem`, the map's iteration order. */
    method ParaTexto(ordem: seq<string>) returns (r: string)
      requires OrdemDe(ordem, dependencias)
      ensures r == Serializar(Valores(), ordem)
    {
      var linhas := AnexarCabecalho([]);
      ghost var cabecalho := linhas;
      assert cabecalho == Cabecalho(Valores());
      linhas := AnexarDependencias(linhas, ordem);
      ghost var bloco := linhas[|cabecalho|..];
      linhas := AnexarCauda(linhas);
      assert linhas == cabecalho + bloco + Cauda(Valores());
      assert linhas == LinhasManifesto(Valores(), ordem);
      r := Juntar(linhas, "\n");
    }

    /** The pushes before the dependencies. */
    method AnexarCabecalho(antes: seq<string>) returns (linhas: seq<string>)
      ensures linhas == antes + Cabecalho(Valores())
    {
      linhas := antes + [LinhaTexto("nome", nome)];
      linhas := linhas + [LinhaTexto("versao", versao)];
      ghost var esperado := [LinhaTexto("nome", nome)] + [LinhaTexto("versao", versao)];
      if autores != [] {
        linhas := linhas + [LinhaValor("autores", Lista(autores))];
      }
      esperado := esperado + (if autores != [] then [LinhaValor("autores", Lista(autores))] else []);
      assert linhas == antes + esperado;
      if descricao != "" {
        linhas := linhas + [LinhaTexto("descricao", descricao)];
      }
      esperado := esperado + (if descricao != "" then [LinhaTexto("descricao", descricao)] else []);
      assert linhas == antes + esperado;
      linhas := linhas + [LinhaTexto("principal", principal)];
    }

    /** The dependency block, pushed only when there are dependencies. */
    method AnexarDependencias(antes: seq<string>, ordem: seq<string>) returns (linhas: seq<string>)
      requires OrdemDe(ordem, dependencias)
      ensures linhas == antes + (if dependencias != map[] then BlocoDependencias(dependencias, ordem) else [])
    {
      var deps := dependencias;
      if deps == map[] {
        linhas := antes;
        assert antes + [] == antes;
        return;
      }
      assert forall i | 0 <= i < |ordem| :: ordem[i] in deps;
      var corpo: seq<string> := [];
      for k := 0 to |ordem|
        invariant corpo == LinhasDependencias(deps, ordem[..k])
      {
        assert ordem[..k + 1][..k] == ordem[..k];
        corpo := corpo + [LinhaDependencia(ordem[k], deps[ordem[k]])];
      }
      assert ordem[..|ordem|] == ordem;
      linhas := antes + ["dependencias = {"] + corpo + ["}"];
      assert linhas == antes + (["dependencias = {"] + corpo + ["}"]);
    }

    /** The pushes after the dependencies. */
    method AnexarCauda(antes: seq<string>) returns (linhas: seq<string>)
      ensures linhas == antes + Cauda(Valores())
    {
      linhas := antes;
      ghost var esperado: seq<string> := [];
      if palavrasChave != [] {
        linhas := linhas + [LinhaValor("palavras_chave", Lista(palavrasChave))];
      }
      esperado := esperado + (if palavrasChave != [] then [LinhaValor("palavras_chave", Lista(palavrasChave))] else []);
      assert linhas == antes + esperado;
      if licenca != "" {
        linhas := linhas + [LinhaTexto("licenca", licenca)];
      }
      esperado := esperado + (if licenca != "" then [LinhaTexto("licenca", licenca)] else []);
      assert linhas == antes + esperado;
      if repositorio != "" {
        linhas := linhas + [LinhaTexto("repositorio", repositorio)];
      }
      esperado := esperado + (if repositorio != "" then [LinhaTexto("repositorio", repositorio)] else []);
      assert linhas == antes + esperado;
    }
  }
}
