/** What the manifest format promises: reading back what `to_string` wrote
    gives the manifest again (up to one quirk of the licence field), lines
    the parser does not understand change nothing, and a later key wins. */
module CaixotesPropriedades {
  import opened Wrappers
  import opened Texto
  import opened Caixotes

  // ---------------------------------------------------------------------
  // Trimming and finding

  /** Characters of class `k` in front of `s` are all trimmed away. */
  lemma {:induction false} ApararInicioAntes(p: string, s: string, k: Classe)
    requires forall i | 0 <= i < |p| :: Em(p[i], k)
    requires s == [] || !Em(s[0], k)
    ensures ApararInicio(p + s, k) == s
    decreases |p|
  {
    if p == [] {
      assert p + s == s;
    } else {
      assert (p + s)[1..] == p[1..] + s;
      ApararInicioAntes(p[1..], s, k);
    }
  }

  /** Characters of class `k` after `s` are all trimmed away. */
  lemma {:induction false} ApararFimDepois(s: string, q: string, k: Classe)
    requires forall i | 0 <= i < |q| :: Em(q[i], k)
    requires s == [] || !Em(s[|s| - 1], k)
    ensures ApararFim(s + q, k) == s
    decreases |q|
  {
    if q == [] {
      assert s + q == s;
    } else {
      assert (s + q)[..|s + q| - 1] == s + q[..|q| - 1];
      ApararFimDepois(s, q[..|q| - 1], k);
    }
  }

  /** `trim` removes exactly the blanks around a text that neither starts
      nor ends with one. */
  lemma ApararEntre(p: string, y: string, q: string)
    requires forall i | 0 <= i < |p| :: EhEspaco(p[i])
    requires forall i | 0 <= i < |q| :: EhEspaco(q[i])
    requires y != [] && !EhEspaco(y[0]) && !EhEspaco(y[|y| - 1])
    ensures Aparar(p + y + q) == y
  {
    assert p + y + q == p + (y + q);
    ApararInicioAntes(p, y + q, Espacos);
    ApararFimDepois(y, q, Espacos);
  }

  /** `find` returns the first occurrence, so an occurrence with none
      before it is the answer. */
  lemma EncontrarPrimeiro(s: string, c: char, k: nat)
    requires k < |s| && s[k] == c && c !in s[..k]
    ensures Encontrar(s, c) == Some(k)
  {
  }

  // ---------------------------------------------------------------------
  // Which texts survive the format

  /** A text the writer can quote and the reader unquote: no line break,
      and no quote at either end (`trim_matches('"')` would eat it). */
  predicate TextoSeguro(x: string) {
    '\n' !in x && (x == [] || (x[0] != '"' && x[|x| - 1] != '"'))
  }

  /** A list element must also not contain the `,` the reader splits on. */
  predicate ElementoSeguro(x: string) {
    TextoSeguro(x) && ',' !in x
  }

  /** A dependency name must also not contain `=`: the reader splits the
      line at the first one. */
  predicate NomeSeguro(x: string) {
    TextoSeguro(x) && '=' !in x
  }

  /** A manifest every field of which survives writing and reading. */
  predicate Representavel(d: Dados) {
    && TextoSeguro(d.nome)
    && TextoSeguro(d.versao)
    && (forall i | 0 <= i < |d.autores| :: ElementoSeguro(d.autores[i]))
    && TextoSeguro(d.descricao)
    && TextoSeguro(d.principal)
    && (forall n | n in d.dependencias :: NomeSeguro(n) && TextoSeguro(d.dependencias[n]))
    && (forall i | 0 <= i < |d.palavrasChave| :: ElementoSeguro(d.palavrasChave[i]))
    && TextoSeguro(d.licenca)
    && TextoSeguro(d.repositorio)
  }

  /** Quoting then unquoting gives the text back. */
  lemma CitarDesfeito(x: string)
    requires TextoSeguro(x)
    ensures ApararAspas(Citar(x)) == x
  {
    ApararAspasCitado(x);
  }

  // ---------------------------------------------------------------------
  // One line at a time

  /** A line that is neither blank nor a comment once trimmed goes to the
      handler of the current state. */
  lemma PassoTratado(l: Leitura, linhaBruta: string, linha: string)
    requires Aparar(linhaBruta) == linha && linha != [] && linha[0] != '#'
    ensures Passo(l, linhaBruta) ==
      if l.estado == Normal then LinhaEntreChaves(l.dados, linha) else LinhaNoBloco(l.dados, linha)
  {
  }

  /** A text with something other than a blank at both ends. */
  predicate Compacto(x: string) {
    x != [] && !EhEspaco(x[0]) && !EhEspaco(x[|x| - 1])
  }

  /** The first `=` of `chave = valor` is the written one when the key has
      none, and trimming either side gives the key and the value back. */
  lemma SepararValor(chave: string, valor: string)
    requires Compacto(chave) && '=' !in chave && Compacto(valor)
    ensures var linha := LinhaValor(chave, valor);
      && Aparar(linha) == linha
      && Encontrar(linha, '=') == Some(|chave| + 1)
      && Aparar(linha[..|chave| + 1]) == chave
      && Aparar(linha[|chave| + 2..]) == valor
  {
    var linha := LinhaValor(chave, valor);
    var n := |chave|;
    assert Aparar(linha) == linha by {
      ApararEntre([], linha, []);
      assert [] + linha + [] == linha;
    }
    assert Encontrar(linha, '=') == Some(n + 1) by {
      assert linha[..n + 1] == chave + " ";
      EncontrarPrimeiro(linha, '=', n + 1);
    }
    assert Aparar(linha[..n + 1]) == chave by {
      assert linha[..n + 1] == [] + chave + " ";
      ApararEntre([], chave, " ");
    }
    assert Aparar(linha[n + 2..]) == valor by {
      assert linha[n + 2..] == " " + valor + [];
      ApararEntre(" ", valor, []);
    }
  }

  /** A `chave = valor` line between keys: `{` opens a block, anything
      else goes to `definir_valor` with both sides trimmed. */
  lemma PassoValor(l: Leitura, chave: string, valor: string)
    requires l.estado == Normal
    requires Compacto(chave) && chave[0] != '#' && '=' !in chave
    requires Compacto(valor)
    ensures Passo(l, LinhaValor(chave, valor)) ==
      if valor == "{" then Leitura(l.dados, Dependencias)
      else Leitura(DefinirValorEm(l.dados, chave, valor), Normal)
  {
    var linha := LinhaValor(chave, valor);
    SepararValor(chave, valor);
    PassoTratado(l, linha, linha);
  }

  /** A dependency line inside the block adds or replaces that
      dependency. */
  lemma PassoDependencia(l: Leitura, nome: string, versao: string)
    requires l.estado == Dependencias
    requires NomeSeguro(nome) && TextoSeguro(versao)
    ensures Passo(l, LinhaDependencia(nome, versao)) ==
      Leitura(l.dados.(dependencias := l.dados.dependencias[nome := versao]), Dependencias)
  {
    var y := LinhaValor(Citar(nome), Citar(versao));
    assert Aparar(LinhaDependencia(nome, versao)) == y by {
      assert LinhaDependencia(nome, versao) == "    " + y + [];
      ApararEntre("    ", y, []);
    }
    PassoTratado(l, LinhaDependencia(nome, versao), y);
    NoBlocoValor(l.dados, Citar(nome), Citar(versao));
    CitarDesfeito(nome);
    CitarDesfeito(versao);
  }

  /** Inside the block, `chave = valor` sets the dependency named by the
      unquoted key to the unquoted value. */
  lemma NoBlocoValor(d: Dados, chave: string, valor: string)
    requires Compacto(chave) && '=' !in chave && Compacto(valor)
    ensures LinhaNoBloco(d, LinhaValor(chave, valor)) ==
      Leitura(d.(dependencias := d.dependencias[ApararAspas(chave) := ApararAspas(valor)]), Dependencias)
  {
    var linha := LinhaValor(chave, valor);
    SepararValor(chave, valor);
    assert linha != "}" by { assert |linha| >= 4; }
  }

  /** `}` closes the block. */
  lemma PassoFecha(l: Leitura)
    requires l.estado == Dependencias
    ensures Passo(l, "}") == Leitura(l.dados, Normal)
  {
    assert Aparar("}") == "}" by { ApararIntacto("}", Espacos); }
    PassoTratado(l, "}", "}");
  }

  // ---------------------------------------------------------------------
  // Keys and lists

  /** A text key given a quoted text takes the text back. */
  lemma DefinirTexto(d: Dados, x: string)
    requires TextoSeguro(x)
    ensures DefinirValorEm(d, "nome", Citar(x)) == d.(nome := x)
    ensures DefinirValorEm(d, "versao", Citar(x)) == d.(versao := x)
    ensures DefinirValorEm(d, "descricao", Citar(x)) == d.(descricao := x)
    ensures DefinirValorEm(d, "principal", Citar(x)) == d.(principal := x)
    ensures DefinirValorEm(d, "licenca", Citar(x)) == d.(licenca := x)
    ensures DefinirValorEm(d, "repositorio", Citar(x)) == d.(repositorio := x)
  {
    CitarDesfeito(x);
  }

  /** The list pieces once the `, ` separators are cut at the comma: the
      first quoted element, then each later one with its leading blank. */
  function Espacados(xs: seq<string>): (r: seq<string>)
    requires |xs| >= 1
    ensures |r| == |xs|
    ensures forall i | 0 <= i < |xs| :: r[i] == if i == 0 then Citar(xs[0]) else " " + Citar(xs[i])
  {
    var n := |xs|;
    if n == 1 then [Citar(xs[0])] else Espacados(xs[..n - 1]) + [" " + Citar(xs[n - 1])]
  }

  /** One more quoted element, one more `, `. */
  lemma JuntarCitadosPasso(xs: seq<string>)
    requires |xs| > 1
    ensures Juntar(Citados(xs), ", ") == Juntar(Citados(xs[..|xs| - 1]), ", ") + ", " + Citar(xs[|xs| - 1])
  {
    assert Citados(xs)[..|xs| - 1] == Citados(xs[..|xs| - 1]);
  }

  /** One more spaced piece, one more `,`. */
  lemma JuntarEspacadosPasso(xs: seq<string>)
    requires |xs| > 1
    ensures Juntar(Espacados(xs), ",") == Juntar(Espacados(xs[..|xs| - 1]), ",") + "," + (" " + Citar(xs[|xs| - 1]))
  {
    assert Espacados(xs)[..|xs| - 1] == Espacados(xs[..|xs| - 1]);
  }

  /** Joining quoted elements with `, ` is joining the spaced pieces with
      `,`. */
  lemma {:induction false} JuntarEspacados(xs: seq<string>)
    requires |xs| >= 1
    ensures Juntar(Citados(xs), ", ") == Juntar(Espacados(xs), ",")
  {
    var n := |xs|;
    if n == 1 {
      assert Citados(xs) == [Citar(xs[0])] == Espacados(xs);
    } else {
      var p := xs[..n - 1];
      var u := Citar(xs[n - 1]);
      var a := Juntar(Citados(p), ", ");
      assert a + ", " + u == a + "," + (" " + u);
      JuntarCitadosPasso(xs);
      JuntarEspacadosPasso(xs);
      JuntarEspacados(p);
    }
  }

  /** Splitting a written list at its commas gives the spaced pieces. */
  lemma DividirCitados(xs: seq<string>)
    requires |xs| >= 1
    requires forall i | 0 <= i < |xs| :: ElementoSeguro(xs[i])
    ensures Dividir(Juntar(Citados(xs), ", "), ',') == Espacados(xs)
  {
    var e := Espacados(xs);
    forall i | 0 <= i < |e|
      ensures ',' !in e[i]
    {
      assert ',' !in xs[i];
    }
    JuntarEspacados(xs);
    DividirJuntar(e, ',');
  }

  /** Trimming a spaced piece of blanks and then of quotes gives its
      element. */
  lemma ApararEspacado(xs: seq<string>, i: nat)
    requires i < |xs| && TextoSeguro(xs[i])
    ensures ApararAspas(Aparar(Espacados(xs)[i])) == xs[i]
  {
    var c := Citar(xs[i]);
    if i == 0 {
      assert Espacados(xs)[0] == [] + c + [];
      ApararEntre([], c, []);
    } else {
      assert Espacados(xs)[i] == " " + c + [];
      ApararEntre(" ", c, []);
    }
    CitarDesfeito(xs[i]);
  }

  /** Reading a written list gives its elements back. */
  lemma LerListaCitados(xs: seq<string>)
    requires |xs| >= 1
    requires forall i | 0 <= i < |xs| :: ElementoSeguro(xs[i])
    ensures LerLista(Juntar(Citados(xs), ", ")) == xs
  {
    DividirCitados(xs);
    var r := Elementos(Espacados(xs));
    forall i | 0 <= i < |xs|
      ensures r[i] == xs[i]
    {
      ApararEspacado(xs, i);
    }
  }

  /** A list key given a written non-empty list takes the list back. */
  lemma DefinirLista(d: Dados, xs: seq<string>)
    requires |xs| >= 1
    requires forall i | 0 <= i < |xs| :: ElementoSeguro(xs[i])
    ensures DefinirValorEm(d, "autores", Lista(xs)) == d.(autores := xs)
    ensures DefinirValorEm(d, "palavras_chave", Lista(xs)) == d.(palavrasChave := xs)
  {
    var v := Lista(xs);
    assert v[1..|v| - 1] == Juntar(Citados(xs), ", ");
    LerListaCitados(xs);
  }

  // ---------------------------------------------------------------------
  // The dependency block

  /** The dependency lines are one per name of `ordem`, in order. */
  lemma {:induction false} LinhasDependenciasElementos(dependencias: map<string, string>, ordem: seq<string>)
    requires forall i | 0 <= i < |ordem| :: ordem[i] in dependencias
    ensures forall i | 0 <= i < |ordem| ::
      LinhasDependencias(dependencias, ordem)[i] == LinhaDependencia(ordem[i], dependencias[ordem[i]])
  {
    if ordem != [] {
      LinhasDependenciasElementos(dependencias, ordem[..|ordem| - 1]);
    }
  }

  /** `m` with the entries of `dependencias` named by `ordem` put in, one
      after the other. */
  function Atualizado(m: map<string, string>, dependencias: map<string, string>, ordem: seq<string>): map<string, string>
    requires forall i | 0 <= i < |ordem| :: ordem[i] in dependencias
  {
    if ordem == [] then m
    else
      var n := |ordem|;
      Atualizado(m, dependencias, ordem[..n - 1])[ordem[n - 1] := dependencias[ordem[n - 1]]]
  }

  /** Putting the entries in one by one gives the keys of `m` and of
      `ordem`, the latter with the values of `dependencias`. */
  lemma {:induction false} AtualizadoChaves(m: map<string, string>, dependencias: map<string, string>, ordem: seq<string>)
    requires forall i | 0 <= i < |ordem| :: ordem[i] in dependencias
    ensures forall n :: n in Atualizado(m, dependencias, ordem) <==> n in m || n in ordem
    ensures forall n | n in ordem :: Atualizado(m, dependencias, ordem)[n] == dependencias[n]
  {
    if ordem != [] {
      var k := |ordem|;
      AtualizadoChaves(m, dependencias, ordem[..k - 1]);
      assert ordem == ordem[..k - 1] + [ordem[k - 1]];
    }
  }

  /** Visiting every key of the map puts the whole map back. */
  lemma AtualizadoCompleto(dependencias: map<string, string>, ordem: seq<string>)
    requires OrdemDe(ordem, dependencias)
    ensures Atualizado(map[], dependencias, ordem) == dependencias
  {
    AtualizadoChaves(map[], dependencias, ordem);
  }

  /** Reading the lines one more line at a time. */
  lemma ProcessarUltimo(l: Leitura, a: seq<string>, x: string)
    ensures Processar(l, a + [x]) == Passo(Processar(l, a), x)
  {
    assert (a + [x])[..|a|] == a;
  }

  /** Reading two runs of lines is reading the first, then the second. */
  lemma {:induction false} ProcessarAnexa(l: Leitura, a: seq<string>, b: seq<string>)
    ensures Processar(l, a + b) == Processar(Processar(l, a), b)
    decreases |b|
  {
    if b == [] {
      assert a + b == a;
    } else {
      var m := |b|;
      assert a + b == (a + b[..m - 1]) + [b[m - 1]];
      ProcessarUltimo(l, a + b[..m - 1], b[m - 1]);
      ProcessarAnexa(l, a, b[..m - 1]);
      assert b == b[..m - 1] + [b[m - 1]];
      ProcessarUltimo(Processar(l, a), b[..m - 1], b[m - 1]);
    }
  }

  /** Inside the block, the dependency lines put their entries in one by
      one. */
  lemma {:induction false} ProcessarDependencias(d: Dados, dependencias: map<string, string>, ordem: seq<string>)
    requires forall i | 0 <= i < |ordem| :: ordem[i] in dependencias
    requires forall n | n in dependencias :: NomeSeguro(n) && TextoSeguro(dependencias[n])
    ensures Processar(Leitura(d, Dependencias), LinhasDependencias(dependencias, ordem)) ==
      Leitura(d.(dependencias := Atualizado(d.dependencias, dependencias, ordem)), Dependencias)
  {
    if ordem != [] {
      var k := |ordem|;
      var antes := ordem[..k - 1];
      var nome := ordem[k - 1];
      ProcessarDependencias(d, dependencias, antes);
      ProcessarUltimo(Leitura(d, Dependencias), LinhasDependencias(dependencias, antes), LinhaDependencia(nome, dependencias[nome]));
      PassoDependencia(Leitura(d.(dependencias := Atualizado(d.dependencias, dependencias, antes)), Dependencias), nome, dependencias[nome]);
    }
  }

  // ---------------------------------------------------------------------
  // The written lines

  /** No line contains a line break. */
  predicate SemQuebra(linhas: seq<string>) {
    forall i | 0 <= i < |linhas| :: '\n' !in linhas[i]
  }

  lemma SemQuebraAnexa(a: seq<string>, b: seq<string>)
    requires SemQuebra(a) && SemQuebra(b)
    ensures SemQuebra(a + b)
  {
    forall i | 0 <= i < |a + b|
      ensures '\n' !in (a + b)[i]
    {
      if i < |a| {
        assert (a + b)[i] == a[i];
      } else {
        assert (a + b)[i] == b[i - |a|];
      }
    }
  }

  /** Joining pieces free of a character with a separator free of it gives
      a text free of it. */
  lemma {:induction false} JuntarSem(partes: seq<string>, sep: string, c: char)
    requires c !in sep
    requires forall i | 0 <= i < |partes| :: c !in partes[i]
    ensures c !in Juntar(partes, sep)
  {
    var n := |partes|;
    if n > 1 {
      JuntarSem(partes[..n - 1], sep, c);
    }
  }

  /** A written list has no line break when its elements have none. */
  lemma ListaSemQuebra(xs: seq<string>)
    requires forall i | 0 <= i < |xs| :: '\n' !in xs[i]
    ensures '\n' !in Lista(xs)
  {
    JuntarSem(Citados(xs), ", ", '\n');
  }

  /** A `chave = valor` line has a line break only if its key or value
      has one. */
  lemma LinhaValorSemQuebra(chave: string, valor: string)
    requires '\n' !in chave && '\n' !in valor
    ensures '\n' !in LinhaValor(chave, valor) && '\n' !in Citar(valor)
  {
  }

  lemma CabecalhoSemQuebra(d: Dados)
    requires Representavel(d)
    ensures SemQuebra(Cabecalho(d))
  {
    LinhaValorSemQuebra("nome", Citar(d.nome));
    LinhaValorSemQuebra("versao", Citar(d.versao));
    LinhaValorSemQuebra("descricao", Citar(d.descricao));
    LinhaValorSemQuebra("principal", Citar(d.principal));
    ListaSemQuebra(d.autores);
    LinhaValorSemQuebra("autores", Lista(d.autores));
  }

  lemma CaudaSemQuebra(d: Dados)
    requires Representavel(d)
    ensures SemQuebra(Cauda(d))
  {
    LinhaValorSemQuebra("licenca", Citar(d.licenca));
    LinhaValorSemQuebra("repositorio", Citar(d.repositorio));
    ListaSemQuebra(d.palavrasChave);
    LinhaValorSemQuebra("palavras_chave", Lista(d.palavrasChave));
  }

  lemma BlocoSemQuebra(dependencias: map<string, string>, ordem: seq<string>)
    requires OrdemDe(ordem, dependencias)
    requires forall n | n in dependencias :: NomeSeguro(n) && TextoSeguro(dependencias[n])
    ensures SemQuebra(BlocoDependencias(dependencias, ordem))
  {
    var ls := LinhasDependencias(dependencias, ordem);
    LinhasDependenciasElementos(dependencias, ordem);
    forall i | 0 <= i < |ls|
      ensures '\n' !in ls[i]
    {
      var n := ordem[i];
      LinhaValorSemQuebra(Citar(n), Citar(dependencias[n]));
      LinhaValorSemQuebra(n, dependencias[n]);
    }
    SemQuebraAnexa(["dependencias = {"], ls);
    SemQuebraAnexa(["dependencias = {"] + ls, ["}"]);
  }

  /** None of the lines of a representable manifest contains a line
      break, so `lines` gives them back one by one. */
  lemma LinhasSemQuebra(d: Dados, ordem: seq<string>)
    requires Representavel(d) && OrdemDe(ordem, d.dependencias)
    ensures SemQuebra(LinhasManifesto(d, ordem))
  {
    CabecalhoSemQuebra(d);
    CaudaSemQuebra(d);
    var bloco := if d.dependencias != map[] then BlocoDependencias(d.dependencias, ordem) else [];
    if d.dependencias != map[] {
      BlocoSemQuebra(d.dependencias, ordem);
    }
    SemQuebraAnexa(Cabecalho(d), bloco);
    SemQuebraAnexa(Cabecalho(d) + bloco, Cauda(d));
  }

  /** `lines` of the written text gives the written lines. */
  lemma LinhasDoTexto(d: Dados, ordem: seq<string>)
    requires Representavel(d) && OrdemDe(ordem, d.dependencias)
    ensures Linhas(Serializar(d, ordem)) == LinhasManifesto(d, ordem)
  {
    LinhasSemQuebra(d, ordem);
    DividirJuntar(LinhasManifesto(d, ordem), '\n');
  }

  // ---------------------------------------------------------------------
  // Reading the written lines back

  /** A key the writer puts at the head of a line: not blank at either
      end, not a comment, and without `=`. */
  predicate ChaveEscrita(chave: string) {
    Compacto(chave) && chave[0] != '#' && '=' !in chave
  }

  /** Every key `to_string` writes is one. */
  lemma ChavesEscritas()
    ensures ChaveEscrita("nome") && ChaveEscrita("versao") && ChaveEscrita("autores")
    ensures ChaveEscrita("descricao") && ChaveEscrita("principal") && ChaveEscrita("dependencias")
    ensures ChaveEscrita("palavras_chave") && ChaveEscrita("licenca") && ChaveEscrita("repositorio")
    ensures "dependencias = {" == LinhaValor("dependencias", "{")
  {
    ChavesDoCabecalho();
    ChavesDaCauda();
  }

  lemma ChavesDoCabecalho()
    ensures ChaveEscrita("nome") && ChaveEscrita("versao") && ChaveEscrita("autores")
    ensures ChaveEscrita("descricao") && ChaveEscrita("principal")
  {
  }

  lemma ChavesDaCauda()
    ensures ChaveEscrita("dependencias") && ChaveEscrita("palavras_chave")
    ensures ChaveEscrita("licenca") && ChaveEscrita("repositorio")
  {
  }

  /** A `chave = "x"` line between keys goes to `definir_valor` with the
      quoted text. */
  lemma PassoTexto(l: Leitura, chave: string, x: string)
    requires l.estado == Normal
    requires ChaveEscrita(chave)
    requires TextoSeguro(x)
    ensures Passo(l, LinhaTexto(chave, x)) == Leitura(DefinirValorEm(l.dados, chave, Citar(x)), Normal)
  {
    assert Citar(x) != "{" by { assert |Citar(x)| >= 2; }
    PassoValor(l, chave, Citar(x));
  }

  /** A `chave = [...]` line between keys goes to `definir_valor` with
      the bracketed list. */
  lemma PassoLista(l: Leitura, chave: string, xs: seq<string>)
    requires l.estado == Normal
    requires ChaveEscrita(chave)
    ensures Passo(l, LinhaValor(chave, Lista(xs))) == Leitura(DefinirValorEm(l.dados, chave, Lista(xs)), Normal)
  {
    assert Lista(xs) != "{" by { assert Lista(xs)[0] == '['; }
    PassoValor(l, chave, Lista(xs));
  }

  /** Reading the lines before the dependencies sets `nome`, `versao` and
      `principal`, and `autores` and `descricao` when they were written. */
  lemma LerCabecalho(d: Dados, inicio: Dados)
    requires Representavel(d)
    ensures Processar(Leitura(inicio, Normal), Cabecalho(d)) ==
      Leitura(inicio.(nome := d.nome, versao := d.versao,
                      autores := if d.autores != [] then d.autores else inicio.autores,
                      descricao := if d.descricao != "" then d.descricao else inicio.descricao,
                      principal := d.principal), Normal)
  {
    ChavesEscritas();
    var l0 := Leitura(inicio, Normal);
    var a1 := [LinhaTexto("nome", d.nome)];
    var a2 := a1 + [LinhaTexto("versao", d.versao)];
    var a3 := a2 + (if d.autores != [] then [LinhaValor("autores", Lista(d.autores))] else []);
    var a4 := a3 + (if d.descricao != "" then [LinhaTexto("descricao", d.descricao)] else []);
    assert Cabecalho(d) == a4 + [LinhaTexto("principal", d.principal)];
    var d1 := inicio.(nome := d.nome);
    assert Processar(l0, a1) == Leitura(d1, Normal) by {
      ProcessarUltimo(l0, [], LinhaTexto("nome", d.nome));
      assert [] + a1 == a1;
      PassoTexto(l0, "nome", d.nome);
      DefinirTexto(inicio, d.nome);
    }
    var d2 := d1.(versao := d.versao);
    assert Processar(l0, a2) == Leitura(d2, Normal) by {
      ProcessarUltimo(l0, a1, LinhaTexto("versao", d.versao));
      PassoTexto(Leitura(d1, Normal), "versao", d.versao);
      DefinirTexto(d1, d.versao);
    }
    var d3 := d2.(autores := if d.autores != [] then d.autores else inicio.autores);
    assert Processar(l0, a3) == Leitura(d3, Normal) by {
      if d.autores != [] {
        ProcessarUltimo(l0, a2, LinhaValor("autores", Lista(d.autores)));
        PassoLista(Leitura(d2, Normal), "autores", d.autores);
        DefinirLista(d2, d.autores);
      } else {
        assert a3 == a2;
      }
    }
    var d4 := d3.(descricao := if d.descricao != "" then d.descricao else inicio.descricao);
    assert Processar(l0, a4) == Leitura(d4, Normal) by {
      if d.descricao != "" {
        ProcessarUltimo(l0, a3, LinhaTexto("descricao", d.descricao));
        PassoTexto(Leitura(d3, Normal), "descricao", d.descricao);
        DefinirTexto(d3, d.descricao);
      } else {
        assert a4 == a3;
      }
    }
    ProcessarUltimo(l0, a4, LinhaTexto("principal", d.principal));
    PassoTexto(Leitura(d4, Normal), "principal", d.principal);
    DefinirTexto(d4, d.principal);
  }

  /** Reading the lines after the dependencies sets `palavras_chave`,
      `licenca` and `repositorio` when they were written. */
  lemma LerCauda(d: Dados, inicio: Dados)
    requires Representavel(d)
    ensures Processar(Leitura(inicio, Normal), Cauda(d)) ==
      Leitura(inicio.(palavrasChave := if d.palavrasChave != [] then d.palavrasChave else inicio.palavrasChave,
                      licenca := if d.licenca != "" then d.licenca else inicio.licenca,
                      repositorio := if d.repositorio != "" then d.repositorio else inicio.repositorio), Normal)
  {
    ChavesEscritas();
    var l0 := Leitura(inicio, Normal);
    var a1 := if d.palavrasChave != [] then [LinhaValor("palavras_chave", Lista(d.palavrasChave))] else [];
    var a2 := a1 + (if d.licenca != "" then [LinhaTexto("licenca", d.licenca)] else []);
    var a3 := a2 + (if d.repositorio != "" then [LinhaTexto("repositorio", d.repositorio)] else []);
    assert Cauda(d) == a3;
    var d1 := inicio.(palavrasChave := if d.palavrasChave != [] then d.palavrasChave else inicio.palavrasChave);
    assert Processar(l0, a1) == Leitura(d1, Normal) by {
      if d.palavrasChave != [] {
        ProcessarUltimo(l0, [], LinhaValor("palavras_chave", Lista(d.palavrasChave)));
        assert [] + a1 == a1;
        PassoLista(l0, "palavras_chave", d.palavrasChave);
        DefinirLista(inicio, d.palavrasChave);
      }
    }
    var d2 := d1.(licenca := if d.licenca != "" then d.licenca else inicio.licenca);
    assert Processar(l0, a2) == Leitura(d2, Normal) by {
      if d.licenca != "" {
        ProcessarUltimo(l0, a1, LinhaTexto("licenca", d.licenca));
        PassoTexto(Leitura(d1, Normal), "licenca", d.licenca);
        DefinirTexto(d1, d.licenca);
      } else {
        assert a2 == a1;
      }
    }
    if d.repositorio != "" {
      ProcessarUltimo(l0, a2, LinhaTexto("repositorio", d.repositorio));
      PassoTexto(Leitura(d2, Normal), "repositorio", d.repositorio);
      DefinirTexto(d2, d.repositorio);
    } else {
      assert a3 == a2;
    }
  }

  /** Reading the dependency block puts every written dependency in and
      leaves the block. */
  lemma LerBloco(inicio: Dados, dependencias: map<string, string>, ordem: seq<string>)
    requires OrdemDe(ordem, dependencias)
    requires forall n | n in dependencias :: NomeSeguro(n) && TextoSeguro(dependencias[n])
    ensures Processar(Leitura(inicio, Normal), BlocoDependencias(dependencias, ordem)) ==
      Leitura(inicio.(dependencias := Atualizado(inicio.dependencias, dependencias, ordem)), Normal)
  {
    var l0 := Leitura(inicio, Normal);
    var abre := "dependencias = {";
    var ls := LinhasDependencias(dependencias, ordem);
    assert Processar(l0, [abre]) == Leitura(inicio, Dependencias) by {
      ProcessarUltimo(l0, [], abre);
      assert [] + [abre] == [abre];
      ChavesEscritas();
      PassoValor(l0, "dependencias", "{");
    }
    ProcessarAnexa(l0, [abre], ls);
    ProcessarDependencias(inicio, dependencias, ordem);
    ProcessarUltimo(l0, [abre] + ls, "}");
    PassoFecha(Leitura(inicio.(dependencias := Atualizado(inicio.dependencias, dependencias, ordem)), Dependencias));
  }

  /** `parse` reads back what `to_string` wrote, whatever order the
      dependencies were written in. The one field that does not survive
      is an empty licence: `to_string` leaves the line out and `parse`
      then keeps the "MIT" of `novo`. */
  lemma IdaEVolta(d: Dados, ordem: seq<string>)
    requires Representavel(d) && OrdemDe(ordem, d.dependencias)
    ensures Analisar(Serializar(d, ordem)) == d.(licenca := if d.licenca == "" then "MIT" else d.licenca)
  {
    LinhasDoTexto(d, ordem);
    var cab := Cabecalho(d);
    var bloco := if d.dependencias != map[] then BlocoDependencias(d.dependencias, ordem) else [];
    var l0 := Inicial();
    var d0 := l0.dados;
    ProcessarAnexa(l0, cab + bloco, Cauda(d));
    ProcessarAnexa(l0, cab, bloco);
    LerCabecalho(d, d0);
    var d1 := d0.(nome := d.nome, versao := d.versao,
                  autores := if d.autores != [] then d.autores else d0.autores,
                  descricao := if d.descricao != "" then d.descricao else d0.descricao,
                  principal := d.principal);
    var d2 := d1.(dependencias := d.dependencias);
    assert Processar(Leitura(d1, Normal), bloco) == Leitura(d2, Normal) by {
      if d.dependencias != map[] {
        LerBloco(d1, d.dependencias, ordem);
        AtualizadoCompleto(d.dependencias, ordem);
      }
    }
    LerCauda(d, d2);
  }

  // ---------------------------------------------------------------------
  // Lines the parser passes over, and repeated keys

  /** A line that is blank or a `#` comment once trimmed. */
  predicate Ignorada(linha: string) {
    var t := Aparar(linha);
    t == "" || ComecaCom(t, '#')
  }

  /** Blank lines and comments change nothing, in either state. */
  lemma {:induction false} ProcessarIgnoradas(l: Leitura, linhas: seq<string>)
    requires forall i | 0 <= i < |linhas| :: Ignorada(linhas[i])
    ensures Processar(l, linhas) == l
  {
    if linhas != [] {
      ProcessarIgnoradas(l, linhas[..|linhas| - 1]);
    }
  }

  /** A text of blank lines and comments reads as `novo("temp", "0.1.0")`. */
  lemma AnalisarSoComentarios(conteudo: string)
    requires forall i | 0 <= i < |Linhas(conteudo)| :: Ignorada(Linhas(conteudo)[i])
    ensures Analisar(conteudo) == DadosNovos("temp", "0.1.0")
  {
    ProcessarIgnoradas(Inicial(), Linhas(conteudo));
  }

  /** A line without `=` changes nothing, except that `}` closes a block. */
  lemma PassoSemIgual(l: Leitura, linha: string)
    requires '=' !in Aparar(linha) && Aparar(linha) != "}"
    ensures Passo(l, linha) == l
  {
  }

  /** Setting the same key twice keeps the second value: for a text key
      always, for a list key when the second value is bracketed. */
  lemma DefinirDuasVezes(d: Dados, chave: string, primeiro: string, segundo: string)
    requires chave in Chaves
    requires chave == "autores" || chave == "palavras_chave" ==> ComecaCom(segundo, '[') && TerminaCom(segundo, ']')
    ensures DefinirValorEm(DefinirValorEm(d, chave, primeiro), chave, segundo) == DefinirValorEm(d, chave, segundo)
  {
  }

  /** An empty bracketed list is one empty element, not an empty list: the
      inside `""` splits into the single piece `""`. */
  lemma ListaVazia(d: Dados)
    ensures DefinirValorEm(d, "autores", "[]") == d.(autores := [""])
    ensures DefinirValorEm(d, "palavras_chave", "[]") == d.(palavrasChave := [""])
  {
    assert "[]"[1..1] == "";
    assert Dividir("", ',') == [""];
    assert Elementos([""]) == [ApararAspas(Aparar(""))];
  }
}
