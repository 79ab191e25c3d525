/** What the legacy parser promises: a term reads back the token it is
    written with, `a + b + c` nests to the left, statements come out in
    source order, and tokens that begin no statement are skipped. */
module LegadoPropriedades {
  import opened Wrappers
  import opened Ast
  import L = Lexer
  import opened Legado

  // ---------------------------------------------------------------------
  // Terms

  /** The other direction of `Termo`'s round trip: the token a term is
      written with reads back as that term. */
  lemma TermoDoToken(tokens: seq<L.Token>, i: nat, e: Expressao)
    requires ExpressaoDeTermo(e) && i < |tokens| && tokens[i] == TokenDoTermo(e)
    ensures Termo(tokens, i) == Ok(e)
  {
    match e
    case TextoLiteral(s) =>
    case NumeroLiteral(n) =>
    case Identificador(n) =>
    case LogicoLiteral(b) =>
  }

  // ---------------------------------------------------------------------
  // `termo (+ termo)*`

  /** The reference left fold: `a + b + c` is `((a + b) + c)`. */
  function SomaEsquerda(primeiro: Expressao, termos: seq<Expressao>): Expressao {
    if termos == [] then primeiro
    else Operacao(Soma, SomaEsquerda(primeiro, termos[..|termos| - 1]), termos[|termos| - 1])
  }

  lemma {:induction false} SomaEsquerdaCabeca(primeiro: Expressao, termos: seq<Expressao>)
    requires termos != []
    ensures SomaEsquerda(primeiro, termos) == SomaEsquerda(Operacao(Soma, primeiro, termos[0]), termos[1..])
    decreases |termos|
  {
    var n := |termos|;
    if n == 1 {
      assert termos[..0] == [] && termos[1..] == [];
    } else {
      assert termos[..n - 1][1..] == termos[1..][..n - 2];
      SomaEsquerdaCabeca(primeiro, termos[..n - 1]);
    }
  }

  /** From index `j` on, `+` and a term alternate, the terms being `termos`. */
  predicate SomaAlternada(tokens: seq<L.Token>, j: nat, termos: seq<Expressao>)
    requires j + 2 * |termos| <= |tokens|
  {
    forall k | 0 <= k < |termos| :: tokens[j + 2 * k].Mais? && Termo(tokens, j + 2 * k + 1) == Ok(termos[k])
  }

  lemma SomaAlternadaCauda(tokens: seq<L.Token>, j: nat, termos: seq<Expressao>)
    requires termos != [] && j + 2 * |termos| <= |tokens|
    requires SomaAlternada(tokens, j, termos)
    ensures tokens[j].Mais? && Termo(tokens, j + 1) == Ok(termos[0])
    ensures SomaAlternada(tokens, j + 2, termos[1..])
  {
    assert Termo(tokens, j + 2 * 0 + 1) == Ok(termos[0]);
    var cauda := termos[1..];
    forall k | 0 <= k < |cauda|
      ensures tokens[j + 2 + 2 * k].Mais? && Termo(tokens, j + 2 + 2 * k + 1) == Ok(cauda[k])
    {
      assert tokens[j + 2 * (k + 1)].Mais? && Termo(tokens, j + 2 * (k + 1) + 1) == Ok(termos[k + 1]);
    }
  }

  /** The loop of `analisar_expressao` over an alternating run that is not
      followed by another `+` builds the left fold and stops after it. */
  lemma {:induction false} MaisTermosCadeia(tokens: seq<L.Token>, j: nat, acumulado: Expressao,
                                            termos: seq<Expressao>)
    requires j + 2 * |termos| <= |tokens|
    requires SomaAlternada(tokens, j, termos)
    requires j + 2 * |termos| == |tokens| || !tokens[j + 2 * |termos|].Mais?
    ensures MaisTermos(tokens, j, acumulado) == Ok((SomaEsquerda(acumulado, termos), j + 2 * |termos|))
    decreases |termos|
  {
    if termos != [] {
      SomaAlternadaCauda(tokens, j, termos);
      SomaEsquerdaCabeca(acumulado, termos);
      MaisTermosCadeia(tokens, j + 2, Operacao(Soma, acumulado, termos[0]), termos[1..]);
    }
  }

  /** `analisar_expressao` over `t0 + t1 + ... + tn`. */
  lemma ExprCadeia(tokens: seq<L.Token>, i: nat, primeiro: Expressao, termos: seq<Expressao>)
    requires i + 1 + 2 * |termos| <= |tokens|
    requires Termo(tokens, i) == Ok(primeiro)
    requires SomaAlternada(tokens, i + 1, termos)
    requires i + 1 + 2 * |termos| == |tokens| || !tokens[i + 1 + 2 * |termos|].Mais?
    ensures Expr(tokens, i) == Ok((SomaEsquerda(primeiro, termos), i + 1 + 2 * |termos|))
  {
    MaisTermosCadeia(tokens, i + 1, primeiro, termos);
  }

  /** The tokens of a sum of terms: the first term, then `+` and a term for
      each of the others. */
  function TokensDaSoma(primeiro: Expressao, termos: seq<Expressao>): (r: seq<L.Token>)
    requires ExpressaoDeTermo(primeiro)
    requires forall k | 0 <= k < |termos| :: ExpressaoDeTermo(termos[k])
    ensures |r| == 1 + 2 * |termos|
  {
    if termos == [] then [TokenDoTermo(primeiro)]
    else
      var n := |termos|;
      TokensDaSoma(primeiro, termos[..n - 1]) + [L.Mais, TokenDoTermo(termos[n - 1])]
  }

  lemma {:induction false} TokensDaSomaPosicoes(primeiro: Expressao, termos: seq<Expressao>)
    requires ExpressaoDeTermo(primeiro)
    requires forall k | 0 <= k < |termos| :: ExpressaoDeTermo(termos[k])
    ensures var r := TokensDaSoma(primeiro, termos);
      && r[0] == TokenDoTermo(primeiro)
      && forall k | 0 <= k < |termos| :: r[2 * k + 1].Mais? && r[2 * k + 2] == TokenDoTermo(termos[k])
    decreases |termos|
  {
    if termos != [] {
      var n := |termos|;
      var antes := termos[..n - 1];
      var a := TokensDaSoma(primeiro, antes);
      var r := TokensDaSoma(primeiro, termos);
      TokensDaSomaPosicoes(primeiro, antes);
      assert r == a + [L.Mais, TokenDoTermo(termos[n - 1])];
      forall k | 0 <= k < n - 1
        ensures r[2 * k + 1].Mais? && r[2 * k + 2] == TokenDoTermo(termos[k])
      {
        assert antes[k] == termos[k];
      }
    }
  }

  /** The tokens of a sum, closed by `EOF`, read back term by term. */
  lemma SomaAlternadaDosTokens(primeiro: Expressao, termos: seq<Expressao>)
    requires ExpressaoDeTermo(primeiro)
    requires forall k | 0 <= k < |termos| :: ExpressaoDeTermo(termos[k])
    ensures var tokens := TokensDaSoma(primeiro, termos) + [L.EOF];
      Termo(tokens, 0) == Ok(primeiro) && SomaAlternada(tokens, 1, termos)
  {
    var escritos := TokensDaSoma(primeiro, termos);
    var tokens := escritos + [L.EOF];
    TokensDaSomaPosicoes(primeiro, termos);
    TermoDoToken(tokens, 0, primeiro);
    forall k | 0 <= k < |termos|
      ensures tokens[1 + 2 * k].Mais? && Termo(tokens, 1 + 2 * k + 1) == Ok(termos[k])
    {
      assert tokens[2 * k + 1] == escritos[2 * k + 1];
      assert tokens[2 * k + 2] == escritos[2 * k + 2];
      TermoDoToken(tokens, 2 * k + 2, termos[k]);
    }
  }

  /** Round trip: the tokens of a sum, closed by `EOF`, parse back to the
      left-nested sum and stop at `EOF`. */
  lemma ExprTokensDaSoma(primeiro: Expressao, termos: seq<Expressao>)
    requires ExpressaoDeTermo(primeiro)
    requires forall k | 0 <= k < |termos| :: ExpressaoDeTermo(termos[k])
    ensures Expr(TokensDaSoma(primeiro, termos) + [L.EOF], 0) == Ok((SomaEsquerda(primeiro, termos), 1 + 2 * |termos|))
  {
    var tokens := TokensDaSoma(primeiro, termos) + [L.EOF];
    SomaAlternadaDosTokens(primeiro, termos);
    assert tokens[1 + 2 * |termos|].EOF?;
    ExprCadeia(tokens, 0, primeiro, termos);
  }

  /** `"a" + x + verdadeiro`: `(("a" + x) + verdadeiro)`, the index after it. */
  lemma ExprExemplo()
    ensures Expr([L.TextoLiteral("a"), L.Mais, L.Identificador("x"), L.Mais, L.Verdadeiro, L.EOF], 0)
      == Ok((Operacao(Soma, Operacao(Soma, TextoLiteral("a"), Identificador("x")), LogicoLiteral(true)), 5))
  {
    var termos := [Identificador("x"), LogicoLiteral(true)];
    ExprTokensDaSoma(TextoLiteral("a"), termos);
    assert termos[..1] == [Identificador("x")] && termos[..1][..0] == [];
    assert TokensDaSoma(TextoLiteral("a"), termos[..1][..0]) == [L.TextoLiteral("a")];
  }

  lemma AnexarPrimeiro<T>(a: seq<T>, b: seq<T>)
    requires b != []
    ensures a + [b[0]] + b[1..] == a + b
  {
    assert [b[0]] + b[1..] == b;
  }

  // ---------------------------------------------------------------------
  // Parameter lists: `nome : tipo`, each optionally followed by `,`

  /** The types a parameter can be written with. */
  predicate TipoDeParametro(t: Tipo) {
    t.Texto? || t.Numero? || t.Logico? || t.Personalizado?
  }

  /** The token a parameter's type is written with; it reads back as that
      type. */
  function TokenDoTipo(t: Tipo): (r: L.Token)
    requires TipoDeParametro(t)
    ensures TipoParametro(r) == Ok(t)
  {
    match t
    case Texto => L.TipoTexto
    case Numero => L.TipoNumero
    case Logico => L.TipoLogico
    case Personalizado(n) => L.Identificador(n)
  }

  /** From index `i` on, the tokens spell the parameters `ps` and then `)`:
      `nome : tipo` for each, followed by `,` where `virgulas` says so. */
  predicate ParametrosEscritos(tokens: seq<L.Token>, i: nat, ps: seq<(string, Tipo)>, virgulas: seq<bool>)
    requires |virgulas| == |ps|
    decreases |ps|
  {
    if ps == [] then i < |tokens| && tokens[i].FechaParentese?
    else
      && i + 3 < |tokens|
      && TipoDeParametro(ps[0].1)
      && tokens[i] == L.Identificador(ps[0].0)
      && tokens[i + 1].DoisPontos?
      && tokens[i + 2] == TokenDoTipo(ps[0].1)
      && (virgulas[0] ==> tokens[i + 3].Virgula?)
      && ParametrosEscritos(tokens, i + if virgulas[0] then 4 else 3, ps[1..], virgulas[1..])
  }

  /** How many tokens the parameters take, the closing `)` excluded. */
  function TamanhoDosParametros(virgulas: seq<bool>): nat {
    if virgulas == [] then 0 else (if virgulas[0] then 4 else 3) + TamanhoDosParametros(virgulas[1..])
  }

  /** Round trip: a parameter list, commas or not after each parameter,
      closed by `)`, reads back as the same parameters, and the index after
      the `)` is returned. */
  lemma {:induction false} ParametrosDosTokens(tokens: seq<L.Token>, i: nat, ps: seq<(string, Tipo)>,
                                               virgulas: seq<bool>, lidos: seq<(string, Tipo)>)
    requires |virgulas| == |ps|
    requires Terminada(tokens) && ParametrosEscritos(tokens, i, ps, virgulas)
    ensures Parametros(tokens, i, lidos) == Ok((lidos + ps, i + TamanhoDosParametros(virgulas) + 1))
    decreases |ps|
  {
    if ps != [] {
      var j := i + if virgulas[0] then 4 else 3;
      ParametrosDosTokens(tokens, j, ps[1..], virgulas[1..], lidos + [ps[0]]);
      assert !virgulas[0] ==> !tokens[i + 3].Virgula? by {
        if ps[1..] != [] {
          assert tokens[j] == L.Identificador(ps[1..][0].0);
        }
      }
      AnexarPrimeiro(lidos, ps);
    } else {
      assert lidos + ps == lidos;
    }
  }

  // ---------------------------------------------------------------------
  // Function bodies and call arguments: sums of terms

  /** The left-nested sum of each pair of a first term and the terms added
      to it. */
  function Somas(somas: seq<(Expressao, seq<Expressao>)>): (r: seq<Expressao>)
    ensures |r| == |somas|
  {
    if somas == [] then [] else [SomaEsquerda(somas[0].0, somas[0].1)] + Somas(somas[1..])
  }

  /** From index `i` on, the tokens spell the sum `s`. */
  predicate SomaEscrita(tokens: seq<L.Token>, i: nat, s: (Expressao, seq<Expressao>)) {
    && i + 1 + 2 * |s.1| <= |tokens|
    && Termo(tokens, i) == Ok(s.0)
    && SomaAlternada(tokens, i + 1, s.1)
  }

  /** How many tokens the `mostre` statements take, the closing `}`
      excluded. */
  function TamanhoDosMostres(somas: seq<(Expressao, seq<Expressao>)>): nat {
    if somas == [] then 0 else 2 + 2 * |somas[0].1| + TamanhoDosMostres(somas[1..])
  }

  /** How many tokens the arguments take, commas included, the closing `)`
      excluded. */
  function TamanhoDosArgumentos(somas: seq<(Expressao, seq<Expressao>)>, virgulas: seq<bool>): nat
    requires |virgulas| == |somas|
  {
    if somas == [] then 0
    else 1 + 2 * |somas[0].1| + (if virgulas[0] then 1 else 0) + TamanhoDosArgumentos(somas[1..], virgulas[1..])
  }

  /** From index `i` on, the tokens spell one `mostre` statement per sum
      and then `}`. */
  predicate MostresEscritos(tokens: seq<L.Token>, i: nat, somas: seq<(Expressao, seq<Expressao>)>)
    decreases |somas|
  {
    if somas == [] then i < |tokens| && tokens[i].FechaChave?
    else
      && i < |tokens| && tokens[i].Mostre?
      && SomaEscrita(tokens, i + 1, somas[0])
      && MostresEscritos(tokens, i + 2 + 2 * |somas[0].1|, somas[1..])
  }

  /** The first `mostre` read off a written body: the loop keeps its sum
      and moves past it. */
  lemma CorpoCabeca(tokens: seq<L.Token>, i: nat, somas: seq<(Expressao, seq<Expressao>)>, lidas: seq<Declaracao>)
    requires somas != []
    requires forall k | 0 <= k < |lidas| :: DoCorpo(lidas[k])
    requires MostresEscritos(tokens, i, somas)
    ensures var j := i + 2 + 2 * |somas[0].1|;
      var novas := lidas + [Mostrar(SomaEsquerda(somas[0].0, somas[0].1))];
      && MostresEscritos(tokens, j, somas[1..])
      && (forall k | 0 <= k < |novas| :: DoCorpo(novas[k]))
      && Corpo(tokens, i, lidas) == Corpo(tokens, j, novas)
  {
    var s := somas[0];
    var fim := i + 2 + 2 * |s.1|;
    assert fim < |tokens| && !tokens[fim].Mais? by {
      if somas[1..] != [] {
        assert tokens[fim].Mostre?;
      }
    }
    ExprCadeia(tokens, i + 1, s.0, s.1);
    assert DoCorpo(Mostrar(SomaEsquerda(s.0, s.1)));
  }

  /** The body read from the first `mostre` on is that statement followed
      by the body read from the second on. */
  lemma CorpoJunta(tokens: seq<L.Token>, i: nat, somas: seq<(Expressao, seq<Expressao>)>, lidas: seq<Declaracao>)
    requires somas != []
    requires forall k | 0 <= k < |lidas| :: DoCorpo(lidas[k])
    requires MostresEscritos(tokens, i, somas)
    requires var j := i + 2 + 2 * |somas[0].1|;
      var novas := lidas + [Mostrar(SomaEsquerda(somas[0].0, somas[0].1))];
      (forall k | 0 <= k < |novas| :: DoCorpo(novas[k]))
      && Corpo(tokens, j, novas) == Ok((novas + Mostrados(Somas(somas[1..])), j + TamanhoDosMostres(somas[1..]) + 1))
    ensures Corpo(tokens, i, lidas) == Ok((lidas + Mostrados(Somas(somas)), i + TamanhoDosMostres(somas) + 1))
  {
    var e := SomaEsquerda(somas[0].0, somas[0].1);
    CorpoCabeca(tokens, i, somas, lidas);
    assert Mostrados(Somas(somas)) == [Mostrar(e)] + Mostrados(Somas(somas[1..])) by {
      assert Somas(somas)[0] == e && Somas(somas)[1..] == Somas(somas[1..]);
    }
    AnexarPrimeiro(lidas, Mostrados(Somas(somas)));
  }

  /** A body of `mostre` statements closed by `}` gives one `Mostrar` per
      statement, in order, and the index after the `}`. */
  lemma {:induction false} CorpoDosTokens(tokens: seq<L.Token>, i: nat, somas: seq<(Expressao, seq<Expressao>)>,
                                          lidas: seq<Declaracao>)
    requires forall k | 0 <= k < |lidas| :: DoCorpo(lidas[k])
    requires MostresEscritos(tokens, i, somas)
    ensures Corpo(tokens, i, lidas) == Ok((lidas + Mostrados(Somas(somas)), i + TamanhoDosMostres(somas) + 1))
    decreases |somas|
  {
    if somas != [] {
      var e := SomaEsquerda(somas[0].0, somas[0].1);
      CorpoCabeca(tokens, i, somas, lidas);
      CorpoDosTokens(tokens, i + 2 + 2 * |somas[0].1|, somas[1..], lidas + [Mostrar(e)]);
      CorpoJunta(tokens, i, somas, lidas);
    } else {
      assert lidas + Mostrados([]) == lidas;
    }
  }

  /** `faça` moves past the name and written parameters to the body. */
  lemma FuncaoAteCorpo(tokens: seq<L.Token>, i: nat, nome: string, ps: seq<(string, Tipo)>, virgulas: seq<bool>)
    requires |virgulas| == |ps|
    requires Terminada(tokens) && i + 1 < |tokens|
    requires tokens[i] == L.Identificador(nome) && tokens[i + 1].AbreParentese?
    requires ParametrosEscritos(tokens, i + 2, ps, virgulas)
    requires i + 3 + TamanhoDosParametros(virgulas) <= |tokens|
    ensures Legado.Funcao(tokens, i) == ComCorpo(tokens, nome, ps, i + 3 + TamanhoDosParametros(virgulas))
  {
    ParametrosDosTokens(tokens, i + 2, ps, virgulas, []);
    assert [] + ps == ps;
  }

  /** A written body after `{` completes the function. */
  lemma ComCorpoDosTokens(tokens: seq<L.Token>, nome: string, ps: seq<(string, Tipo)>, k: nat,
                          somas: seq<(Expressao, seq<Expressao>)>)
    requires k < |tokens| && tokens[k].AbreChave? && MostresEscritos(tokens, k + 1, somas)
    ensures ComCorpo(tokens, nome, ps, k)
      == Ok((Ast.Funcao(nome, ps, None, Bloco(Mostrados(Somas(somas))), false), k + TamanhoDosMostres(somas) + 2))
  {
    CorpoDosTokens(tokens, k + 1, somas, []);
    assert [] + Mostrados(Somas(somas)) == Mostrados(Somas(somas));
  }

  /** Round trip of a whole function: `nome ( parametros ) { mostre ... }`
      after `faça` gives a private function with no return type, the
      parameters and the `mostre` statements written, in order. */
  lemma FuncaoDosTokens(tokens: seq<L.Token>, i: nat, nome: string, ps: seq<(string, Tipo)>, virgulas: seq<bool>,
                        somas: seq<(Expressao, seq<Expressao>)>)
    requires |virgulas| == |ps|
    requires Terminada(tokens) && i + 1 < |tokens|
    requires tokens[i] == L.Identificador(nome) && tokens[i + 1].AbreParentese?
    requires ParametrosEscritos(tokens, i + 2, ps, virgulas)
    requires var k := i + 3 + TamanhoDosParametros(virgulas);
      k < |tokens| && tokens[k].AbreChave? && MostresEscritos(tokens, k + 1, somas)
    ensures Legado.Funcao(tokens, i)
      == Ok((Ast.Funcao(nome, ps, None, Bloco(Mostrados(Somas(somas))), false),
             i + 3 + TamanhoDosParametros(virgulas) + TamanhoDosMostres(somas) + 2))
  {
    FuncaoAteCorpo(tokens, i, nome, ps, virgulas);
    ComCorpoDosTokens(tokens, nome, ps, i + 3 + TamanhoDosParametros(virgulas), somas);
  }

  /** From index `i` on, the tokens spell the arguments `somas`, each
      followed by `,` where `virgulas` says so, and then `)`. */
  predicate ArgumentosEscritos(tokens: seq<L.Token>, i: nat, somas: seq<(Expressao, seq<Expressao>)>, virgulas: seq<bool>)
    requires |virgulas| == |somas|
    decreases |somas|
  {
    if somas == [] then i < |tokens| && tokens[i].FechaParentese?
    else
      var fim := i + 1 + 2 * |somas[0].1|;
      && SomaEscrita(tokens, i, somas[0])
      && (virgulas[0] ==> fim < |tokens| && tokens[fim].Virgula?)
      && ArgumentosEscritos(tokens, fim + if virgulas[0] then 1 else 0, somas[1..], virgulas[1..])
  }

  /** One turn of the argument loop over an expression. */
  lemma ArgumentosPasso(tokens: seq<L.Token>, i: nat, lidos: seq<Expressao>, e: Expressao, j: nat)
    requires i < |tokens| && Expr(tokens, i).Ok? && Expr(tokens, i).value.0 == e
    requires var fim := Expr(tokens, i).value.1;
      j == if fim < |tokens| && tokens[fim].Virgula? then fim + 1 else fim
    ensures Argumentos(tokens, i, lidos) == Argumentos(tokens, j, lidos + [e])
  {
    assert !tokens[i].FechaParentese? by {
      assert Termo(tokens, i).Ok?;
    }
  }

  /** The first argument read off written arguments: the loop moves past
      it, and its comma if any, to the rest of them. */
  lemma ArgumentosCabeca(tokens: seq<L.Token>, i: nat, somas: seq<(Expressao, seq<Expressao>)>,
                         virgulas: seq<bool>, lidos: seq<Expressao>)
    requires somas != [] && |virgulas| == |somas|
    requires ArgumentosEscritos(tokens, i, somas, virgulas)
    ensures var j := i + 1 + 2 * |somas[0].1| + if virgulas[0] then 1 else 0;
      && ArgumentosEscritos(tokens, j, somas[1..], virgulas[1..])
      && TamanhoDosArgumentos(somas, virgulas) == j - i + TamanhoDosArgumentos(somas[1..], virgulas[1..])
      && Argumentos(tokens, i, lidos) == Argumentos(tokens, j, lidos + [SomaEsquerda(somas[0].0, somas[0].1)])
  {
    var s := somas[0];
    var fim := i + 1 + 2 * |s.1|;
    var j := fim + if virgulas[0] then 1 else 0;
    assert fim < |tokens| && !tokens[fim].Mais? && (tokens[fim].Virgula? <==> virgulas[0]) by {
      if !virgulas[0] && somas[1..] != [] {
        assert Termo(tokens, fim).Ok?;
      }
    }
    ExprCadeia(tokens, i, s.0, s.1);
    ArgumentosPasso(tokens, i, lidos, SomaEsquerda(s.0, s.1), j);
  }

  /** The arguments read from the first on are that argument followed by
      the arguments read from the second on. */
  lemma ArgumentosJunta(tokens: seq<L.Token>, i: nat, somas: seq<(Expressao, seq<Expressao>)>,
                        virgulas: seq<bool>, lidos: seq<Expressao>)
    requires somas != [] && |virgulas| == |somas|
    requires ArgumentosEscritos(tokens, i, somas, virgulas)
    requires var j := i + 1 + 2 * |somas[0].1| + if virgulas[0] then 1 else 0;
      var novos := lidos + [SomaEsquerda(somas[0].0, somas[0].1)];
      Argumentos(tokens, j, novos)
        == Ok((novos + Somas(somas[1..]), j + TamanhoDosArgumentos(somas[1..], virgulas[1..]) + 1))
    ensures Argumentos(tokens, i, lidos) == Ok((lidos + Somas(somas), i + TamanhoDosArgumentos(somas, virgulas) + 1))
  {
    ArgumentosCabeca(tokens, i, somas, virgulas, lidos);
    assert Somas(somas) == [SomaEsquerda(somas[0].0, somas[0].1)] + Somas(somas[1..]);
    AnexarPrimeiro(lidos, Somas(somas));
  }

  /** Round trip: arguments, commas or not after each, closed by `)`, read
      back as the expressions written, and the index after the `)` is
      returned. */
  lemma {:induction false} ArgumentosDosTokens(tokens: seq<L.Token>, i: nat, somas: seq<(Expressao, seq<Expressao>)>,
                                               virgulas: seq<bool>, lidos: seq<Expressao>)
    requires |virgulas| == |somas|
    requires ArgumentosEscritos(tokens, i, somas, virgulas)
    ensures Argumentos(tokens, i, lidos) == Ok((lidos + Somas(somas), i + TamanhoDosArgumentos(somas, virgulas) + 1))
    decreases |somas|
  {
    if somas != [] {
      var e := SomaEsquerda(somas[0].0, somas[0].1);
      var j := i + 1 + 2 * |somas[0].1| + if virgulas[0] then 1 else 0;
      ArgumentosCabeca(tokens, i, somas, virgulas, lidos);
      ArgumentosDosTokens(tokens, j, somas[1..], virgulas[1..], lidos + [e]);
      ArgumentosJunta(tokens, i, somas, virgulas, lidos);
    } else {
      assert lidos + Somas(somas) == lidos;
    }
  }

  /** Round trip of a call: `nome ( argumentos )` gives a call of that name
      on the expressions written, in order. */
  lemma ChamadaDosTokens(tokens: seq<L.Token>, i: nat, nome: string, somas: seq<(Expressao, seq<Expressao>)>,
                         virgulas: seq<bool>)
    requires |virgulas| == |somas|
    requires i + 1 < |tokens| && tokens[i] == L.Identificador(nome) && tokens[i + 1].AbreParentese?
    requires ArgumentosEscritos(tokens, i + 2, somas, virgulas)
    ensures Legado.Chamada(tokens, i)
      == Ok((Expressao(Ast.Chamada(nome, Somas(somas))), i + 2 + TamanhoDosArgumentos(somas, virgulas) + 1))
  {
    ArgumentosDosTokens(tokens, i + 2, somas, virgulas, []);
    assert [] + Somas(somas) == Somas(somas);
  }

  // ---------------------------------------------------------------------
  // The program

  /** A token that begins no statement is skipped. */
  lemma InstrucoesIgnora(tokens: seq<L.Token>, i: nat)
    requires Terminada(tokens) && i < |tokens|
    requires !tokens[i].Mostre? && !tokens[i].Faca? && !tokens[i].Identificador? && !tokens[i].EOF?
    ensures Instrucoes(tokens, i) == Instrucoes(tokens, i + 1)
  {
    assert Instrucao(tokens, i) == Ok(([], i + 1));
    if Instrucoes(tokens, i + 1).Ok? {
      assert [] + Instrucoes(tokens, i + 1).value == Instrucoes(tokens, i + 1).value;
    }
  }

  /** `EOF` ends the program. */
  lemma InstrucoesFim(tokens: seq<L.Token>, i: nat)
    requires Terminada(tokens) && i < |tokens| && tokens[i].EOF?
    ensures Instrucoes(tokens, i) == Ok([])
  {
  }

  /** `mostre` statements, each of one term, closed by `EOF`. */
  predicate SoMostres(tokens: seq<L.Token>, termos: seq<Expressao>) {
    && |tokens| == 2 * |termos| + 1
    && tokens[2 * |termos|].EOF?
    && forall k | 0 <= k < |termos| :: tokens[2 * k].Mostre? && Termo(tokens, 2 * k + 1) == Ok(termos[k])
  }

  /** One `mostre` statement per term, in order. */
  function Mostrados(termos: seq<Expressao>): (r: seq<Declaracao>)
    ensures |r| == |termos|
  {
    if termos == [] then [] else [Mostrar(termos[0])] + Mostrados(termos[1..])
  }

  /** Each `mostre` becomes one statement, in source order. */
  lemma {:induction false} MostresEmOrdem(tokens: seq<L.Token>, termos: seq<Expressao>, j: nat)
    requires SoMostres(tokens, termos) && j <= |termos|
    ensures Terminada(tokens)
    ensures Instrucoes(tokens, 2 * j) == Ok(Mostrados(termos[j..]))
    decreases |termos| - j
  {
    if j < |termos| {
      MostresEmOrdem(tokens, termos, j + 1);
      assert tokens[2 * j].Mostre? && Termo(tokens, 2 * j + 1) == Ok(termos[j]);
      ExprCadeia(tokens, 2 * j + 1, termos[j], []);
      assert Instrucao(tokens, 2 * j) == Ok(([Mostrar(termos[j])], 2 * (j + 1)));
      assert termos[j..][1..] == termos[j + 1..];
    } else {
      assert Instrucoes(tokens, 2 * j) == Ok([]);
      assert termos[j..] == [];
    }
  }

  /** The whole program: `mostre t0 mostre t1 ...` gives one `Mostrar` per
      term, in source order. */
  lemma MostresPrograma(tokens: seq<L.Token>, termos: seq<Expressao>)
    requires SoMostres(tokens, termos)
    ensures Terminada(tokens) && Instrucoes(tokens, 0) == Ok(Mostrados(termos))
  {
    MostresEmOrdem(tokens, termos, 0);
    assert termos[0..] == termos;
  }

  /** A function body with no closing `}` runs to the end of the tokens and
      is accepted: `faça f() { mostre "oi"` followed by `EOF`. */
  lemma FuncaoSemFechaChave()
    ensures Instrucoes([L.Faca, L.Identificador("f"), L.AbreParentese, L.FechaParentese, L.AbreChave,
                        L.Mostre, L.TextoLiteral("oi"), L.EOF], 0)
      == Ok([Ast.Funcao("f", [], None, Bloco([Mostrar(TextoLiteral("oi"))]), false)])
  {
    var tokens := [L.Faca, L.Identificador("f"), L.AbreParentese, L.FechaParentese, L.AbreChave,
                   L.Mostre, L.TextoLiteral("oi"), L.EOF];
    assert Parametros(tokens, 3, []) == Ok(([], 4));
    assert Expr(tokens, 6) == Ok((TextoLiteral("oi"), 7));
    assert Corpo(tokens, 7, [Mostrar(TextoLiteral("oi"))]) == Ok(([Mostrar(TextoLiteral("oi"))], 9));
    assert [] + [Mostrar(TextoLiteral("oi"))] == [Mostrar(TextoLiteral("oi"))];
    assert Corpo(tokens, 5, []) == Ok(([Mostrar(TextoLiteral("oi"))], 9));
    var f := Ast.Funcao("f", [], None, Bloco([Mostrar(TextoLiteral("oi"))]), false);
    assert Instrucao(tokens, 0) == Ok(([f], 9));
    assert Instrucoes(tokens, 9) == Ok([]);
    assert [f] + [] == [f];
  }
}
