/** The legacy token-walking parser of src/parser.rs: `analisar`,
    `analisar_expressao` and `analisar_termo`. The source walks a token
    vector with a mutable index; each of its loops is a method here, proved
    equal to a pure function from the token sequence and the index where it
    starts to what it builds and the index where it stops. */
module Legado {
  import opened Wrappers
  import opened Ast
  import L = Lexer

  /** What the legacy parser reports, one kind per message. */
  datatype ErroLegado =
    | IncompletaAposMostre          // `mostre` is the last token
    | IncompletaAposFaca            // `faça` is the last token
    | EsperavaNomeFuncao            // `faça` not followed by a name
    | EsperavaAbreParentese         // a function name or a call without `(`
    | EsperavaDoisPontos            // a parameter name without `:`
    | TipoParametroInvalido         // a parameter type that is no type
    | ParametroInvalido             // a parameter list item that is no name
    | EsperavaAbreChave             // a function without `{`
    | IncompletaAposVolte           // `volte` is the last token
    | RetornoInvalido               // `volte` followed by something it cannot return
    | EsperavaFechaParentese        // a call's arguments run to the end
    | IncompletaAposMais            // `+` is the last token
    | EsperavaTermo                 // a term was expected past the end
    | TermoInvalido                 // a term was expected and something else was found

  /** What `tokenizar` hands over: a sequence whose last token is `EOF`.
      `analisar` reads the token after a parameter's `:` without a bounds
      check, which this guarantees to exist. */
  predicate Terminada(tokens: seq<L.Token>) {
    |tokens| > 0 && tokens[|tokens| - 1].EOF?
  }

  // ---------------------------------------------------------------------
  // Terms

  /** The tokens `analisar_termo` accepts. */
  predicate TokenDeTermo(t: L.Token) {
    t.TextoLiteral? || t.NumeroLiteral? || t.Identificador? || t.Verdadeiro? || t.Falso?
  }

  /** The expressions a term can be. */
  predicate ExpressaoDeTermo(e: Expressao) {
    e.TextoLiteral? || e.NumeroLiteral? || e.Identificador? || e.LogicoLiteral?
  }

  /** The token a term is written with. */
  function TokenDoTermo(e: Expressao): (t: L.Token)
    requires ExpressaoDeTermo(e)
    ensures TokenDeTermo(t)
  {
    match e
    case TextoLiteral(s) => L.TextoLiteral(s)
    case NumeroLiteral(n) => L.NumeroLiteral(n)
    case Identificador(n) => L.Identificador(n)
    case LogicoLiteral(b) => if b then L.Verdadeiro else L.Falso
  }

  /** `analisar_termo`: one literal, name, `verdadeiro` or `falso` at `i`;
      the token read back is the token written. */
  function Termo(tokens: seq<L.Token>, i: nat): (r: Result<Expressao, ErroLegado>)
    ensures r.Ok? <==> i < |tokens| && TokenDeTermo(tokens[i])
    ensures r.Ok? ==> ExpressaoDeTermo(r.value) && TokenDoTermo(r.value) == tokens[i]
    ensures i >= |tokens| ==> r == Err(EsperavaTermo)
  {
    if i >= |tokens| then Err(EsperavaTermo)
    else
      var t := tokens[i];
      if t.TextoLiteral? then Ok(TextoLiteral(t.texto))
      else if t.NumeroLiteral? then Ok(NumeroLiteral(t.numero))
      else if t.Identificador? then Ok(Identificador(t.nome))
      else if t.Verdadeiro? then Ok(LogicoLiteral(true))
      else if t.Falso? then Ok(LogicoLiteral(false))
      else Err(TermoInvalido)
  }

  // ---------------------------------------------------------------------
  // Expressions: `termo (+ termo)*`

  /** `analisar_expressao`: a term, then as many `+ termo` as follow; the
      result is the expression and the index after it. */
  function Expr(tokens: seq<L.Token>, i: nat): (r: Result<(Expressao, nat), ErroLegado>)
    ensures r.Ok? ==> i < r.value.1 <= |tokens|
    ensures r.Ok? ==> r.value.1 == |tokens| || !tokens[r.value.1].Mais?
  {
    var primeiro :- Termo(tokens, i);
    MaisTermos(tokens, i + 1, primeiro)
  }

  /** The loop of `analisar_expressao`, from index `j` with the chain built
      so far; it stops at the first token that is not `+`. */
  function MaisTermos(tokens: seq<L.Token>, j: nat, acumulado: Expressao): (r: Result<(Expressao, nat), ErroLegado>)
    requires j <= |tokens|
    ensures r.Ok? ==> j <= r.value.1 <= |tokens|
    ensures r.Ok? ==> r.value.1 == |tokens| || !tokens[r.value.1].Mais?
    decreases |tokens| - j
  {
    if j < |tokens| && tokens[j].Mais? then
      if j + 1 < |tokens| then
        var direito :- Termo(tokens, j + 1);
        MaisTermos(tokens, j + 2, Operacao(Soma, acumulado, direito))
      else Err(IncompletaAposMais)
    else Ok((acumulado, j))
  }

  method AnalisarExpressao(tokens: seq<L.Token>, inicio: nat) returns (r: Result<(Expressao, nat), ErroLegado>)
    ensures r == Expr(tokens, inicio)
  {
    var primeiro := Termo(tokens, inicio);
    if primeiro.Err? {
      return Err(primeiro.error);
    }
    var expr := primeiro.value;
    var i := inicio + 1;
    while i < |tokens|
      invariant i <= |tokens|
      invariant MaisTermos(tokens, i, expr) == Expr(tokens, inicio)
      decreases |tokens| - i
    {
      if tokens[i].Mais? {
        i := i + 1;
        if i < |tokens| {
          var direito := Termo(tokens, i);
          if direito.Err? {
            return Err(direito.error);
          }
          i := i + 1;
          expr := Operacao(Soma, expr, direito.value);
        } else {
          return Err(IncompletaAposMais);
        }
      } else {
        break;
      }
    }
    r := Ok((expr, i));
  }

  // ---------------------------------------------------------------------
  // Function declarations: `faça nome(p: tipo, ...) { corpo }`

  /** A parameter's type token. */
  function TipoParametro(t: L.Token): (r: Result<Tipo, ErroLegado>)
    ensures r.Ok? <==> t.TipoTexto? || t.TipoNumero? || t.TipoLogico? || t.Identificador?
    ensures r.Ok? ==> !r.value.Void? && !r.value.Opcional?
    ensures r.Err? ==> r.error == TipoParametroInvalido
  {
    if t.TipoTexto? then Ok(Texto)
    else if t.TipoNumero? then Ok(Numero)
    else if t.TipoLogico? then Ok(Logico)
    else if t.Identificador? then Ok(Personalizado(t.nome))
    else Err(TipoParametroInvalido)
  }

  /** The parameter loop, from index `i` (just after `(`) with the
      parameters read so far. It succeeds only on reaching `)`, and returns
      the index after it. */
  function Parametros(tokens: seq<L.Token>, i: nat, lidos: seq<(string, Tipo)>)
    : (r: Result<(seq<(string, Tipo)>, nat), ErroLegado>)
    requires Terminada(tokens) && i < |tokens|
    ensures r.Ok? ==> i < r.value.1 <= |tokens| && tokens[r.value.1 - 1].FechaParentese?
    ensures r.Ok? ==> |lidos| <= |r.value.0| && r.value.0[..|lidos|] == lidos
    ensures tokens[i].FechaParentese? ==> r == Ok((lidos, i + 1))
    ensures !tokens[i].FechaParentese? && !tokens[i].Identificador? ==> r == Err(ParametroInvalido)
    ensures tokens[i].Identificador? && i + 1 < |tokens| && !tokens[i + 1].DoisPontos? ==> r == Err(EsperavaDoisPontos)
    ensures (tokens[i].Identificador? && i + 2 < |tokens| && tokens[i + 1].DoisPontos?
             && TipoParametro(tokens[i + 2]).Err?) ==> r == Err(TipoParametroInvalido)
    decreases |tokens| - i
  {
    if !tokens[i].FechaParentese? then
      if tokens[i].Identificador? then
        if i + 1 < |tokens| && tokens[i + 1].DoisPontos? then
          var tipo :- TipoParametro(tokens[i + 2]);
          var j := if i + 3 < |tokens| && tokens[i + 3].Virgula? then i + 4 else i + 3;
          var r := Parametros(tokens, j, lidos + [(tokens[i].nome, tipo)]);
          assert r.Ok? ==> r.value.0[..|lidos|] == (r.value.0[..|lidos| + 1])[..|lidos|];
          r
        else Err(EsperavaDoisPontos)
      else Err(ParametroInvalido)
    else Ok((lidos, i + 1))
  }

  method AnalisarParametros(tokens: seq<L.Token>, inicio: nat) returns (r: Result<(seq<(string, Tipo)>, nat), ErroLegado>)
    requires Terminada(tokens) && inicio < |tokens|
    ensures r == Parametros(tokens, inicio, [])
  {
    var parametros: seq<(string, Tipo)> := [];
    var i := inicio;
    while i < |tokens| && !tokens[i].FechaParentese?
      invariant i < |tokens|
      invariant Parametros(tokens, i, parametros) == Parametros(tokens, inicio, [])
      decreases |tokens| - i
    {
      if tokens[i].Identificador? {
        var nomeParametro := tokens[i].nome;
        i := i + 1;
        if i < |tokens| && tokens[i].DoisPontos? {
          i := i + 1;
          var tipo := TipoParametro(tokens[i]);
          if tipo.Err? {
            return Err(tipo.error);
          }
          parametros := parametros + [(nomeParametro, tipo.value)];
          i := i + 1;
          if i < |tokens| && tokens[i].Virgula? {
            i := i + 1;
          }
        } else {
          return Err(EsperavaDoisPontos);
        }
      } else {
        return Err(ParametroInvalido);
      }
    }
    i := i + 1;
    r := Ok((parametros, i));
  }

  /** What `volte` can return: a number, a text or a name. */
  function Retornado(t: L.Token): (r: Result<Expressao, ErroLegado>)
    ensures r.Ok? <==> t.NumeroLiteral? || t.TextoLiteral? || t.Identificador?
    ensures r.Ok? ==> ExpressaoDeTermo(r.value) && TokenDoTermo(r.value) == t
    ensures r.Err? ==> r.error == RetornoInvalido
  {
    if t.NumeroLiteral? then Ok(NumeroLiteral(t.numero))
    else if t.TextoLiteral? then Ok(TextoLiteral(t.texto))
    else if t.Identificador? then Ok(Identificador(t.nome))
    else Err(RetornoInvalido)
  }

  /** The statements a legacy function body keeps. */
  predicate DoCorpo(d: Declaracao) {
    d.Mostrar? || (d.Retorno? && d.retorno.Some? && ExpressaoDeTermo(d.retorno.value))
  }

  /** The body loop, from index `i` (just after `{`): `volte` and `mostre`
      become statements, every other token is skipped, and the index after
      the closing `}` is returned. A body without `}` runs to the end of the
      tokens and is accepted. */
  function Corpo(tokens: seq<L.Token>, i: nat, lidas: seq<Declaracao>)
    : (r: Result<(seq<Declaracao>, nat), ErroLegado>)
    requires i <= |tokens|
    requires forall k | 0 <= k < |lidas| :: DoCorpo(lidas[k])
    ensures r.Ok? ==> i < r.value.1 <= |tokens| + 1
    ensures r.Ok? && r.value.1 <= |tokens| ==> tokens[r.value.1 - 1].FechaChave?
    ensures r.Ok? ==> forall k | 0 <= k < |r.value.0| :: DoCorpo(r.value.0[k])
    decreases |tokens| - i
  {
    if i < |tokens| && !tokens[i].FechaChave? then
      if tokens[i].Volte? then
        if i + 1 < |tokens| then
          var e :- Retornado(tokens[i + 1]);
          Corpo(tokens, i + 2, lidas + [Retorno(Some(e))])
        else Err(IncompletaAposVolte)
      else if tokens[i].Mostre? then
        if i + 1 < |tokens| then
          var p :- Expr(tokens, i + 1);
          Corpo(tokens, p.1, lidas + [Mostrar(p.0)])
        else Err(IncompletaAposMostre)
      else Corpo(tokens, i + 1, lidas)
    else Ok((lidas, i + 1))
  }

  method AnalisarCorpo(tokens: seq<L.Token>, inicio: nat) returns (r: Result<(seq<Declaracao>, nat), ErroLegado>)
    requires inicio <= |tokens|
    ensures r == Corpo(tokens, inicio, [])
  {
    var declaracoes: seq<Declaracao> := [];
    var i := inicio;
    while i < |tokens| && !tokens[i].FechaChave?
      invariant i <= |tokens|
      invariant forall k | 0 <= k < |declaracoes| :: DoCorpo(declaracoes[k])
      invariant Corpo(tokens, i, declaracoes) == Corpo(tokens, inicio, [])
      decreases |tokens| - i
    {
      if tokens[i].Volte? {
        i := i + 1;
        if i < |tokens| {
          var e := Retornado(tokens[i]);
          if e.Err? {
            return Err(e.error);
          }
          declaracoes := declaracoes + [Retorno(Some(e.value))];
          i := i + 1;
        } else {
          return Err(IncompletaAposVolte);
        }
      } else if tokens[i].Mostre? {
        i := i + 1;
        if i < |tokens| {
          var p := AnalisarExpressao(tokens, i);
          if p.Err? {
            return Err(p.error);
          }
          declaracoes := declaracoes + [Mostrar(p.value.0)];
          i := p.value.1;
        } else {
          return Err(IncompletaAposMostre);
        }
      } else {
        i := i + 1;
      }
    }
    i := i + 1;
    r := Ok((declaracoes, i));
  }

  /** A legacy function: never public, no declared return type, a block of
      `volte` and `mostre` statements. */
  predicate FuncaoLegada(d: Declaracao) {
    && d.Funcao? && !d.publico && d.tipoRetorno == None && d.corpo.Bloco?
    && forall k | 0 <= k < |d.corpo.declaracoes| :: DoCorpo(d.corpo.declaracoes[k])
  }

  /** `faça` from index `i`, just after the keyword. */
  function Funcao(tokens: seq<L.Token>, i: nat): (r: Result<(Declaracao, nat), ErroLegado>)
    requires Terminada(tokens) && i <= |tokens|
    ensures r.Ok? ==> FuncaoLegada(r.value.0) && i < r.value.1 <= |tokens| + 1
    ensures r.Ok? ==> i < |tokens| && tokens[i].Identificador? && r.value.0.nome == tokens[i].nome
    ensures i >= |tokens| ==> r == Err(IncompletaAposFaca)
    ensures i < |tokens| && !tokens[i].Identificador? ==> r == Err(EsperavaNomeFuncao)
    ensures i < |tokens| && tokens[i].Identificador? && !(i + 1 < |tokens| && tokens[i + 1].AbreParentese?)
      ==> r == Err(EsperavaAbreParentese)
    ensures (i + 2 < |tokens| && tokens[i].Identificador? && tokens[i + 1].AbreParentese?
             && Parametros(tokens, i + 2, []).Err?) ==> r == Err(Parametros(tokens, i + 2, []).error)
  {
    if i >= |tokens| then Err(IncompletaAposFaca)
    else if !tokens[i].Identificador? then Err(EsperavaNomeFuncao)
    else if i + 1 < |tokens| && tokens[i + 1].AbreParentese? then
      var ps :- Parametros(tokens, i + 2, []);
      ComCorpo(tokens, tokens[i].nome, ps.0, ps.1)
    else Err(EsperavaAbreParentese)
  }

  /** The rest of `faça` once the parameters are read, from index `k`
      where `{` must be. */
  function ComCorpo(tokens: seq<L.Token>, nome: string, parametros: seq<(string, Tipo)>, k: nat)
    : (r: Result<(Declaracao, nat), ErroLegado>)
    requires k <= |tokens|
    ensures r.Ok? ==> FuncaoLegada(r.value.0) && k < r.value.1 <= |tokens| + 1
    ensures r.Ok? ==> r.value.0.nome == nome && r.value.0.parametros == parametros
    ensures !(k < |tokens| && tokens[k].AbreChave?) ==> r == Err(EsperavaAbreChave)
    ensures k < |tokens| && tokens[k].AbreChave? && Corpo(tokens, k + 1, []).Err?
      ==> r == Err(Corpo(tokens, k + 1, []).error)
  {
    if k < |tokens| && tokens[k].AbreChave? then
      var c :- Corpo(tokens, k + 1, []);
      Ok((Ast.Funcao(nome, parametros, None, Bloco(c.0), false), c.1))
    else Err(EsperavaAbreChave)
  }

  method AnalisarFuncao(tokens: seq<L.Token>, inicio: nat) returns (r: Result<(Declaracao, nat), ErroLegado>)
    requires Terminada(tokens) && inicio <= |tokens|
    ensures r == Funcao(tokens, inicio)
  {
    var i := inicio;
    if i >= |tokens| {
      return Err(IncompletaAposFaca);
    }
    if !tokens[i].Identificador? {
      return Err(EsperavaNomeFuncao);
    }
    var nome := tokens[i].nome;
    i := i + 1;
    if !(i < |tokens| && tokens[i].AbreParentese?) {
      return Err(EsperavaAbreParentese);
    }
    var ps := AnalisarParametros(tokens, i + 1);
    if ps.Err? {
      return Err(ps.error);
    }
    assert Funcao(tokens, inicio) == ComCorpo(tokens, nome, ps.value.0, ps.value.1);
    i := ps.value.1;
    if !(i < |tokens| && tokens[i].AbreChave?) {
      return Err(EsperavaAbreChave);
    }
    var c := AnalisarCorpo(tokens, i + 1);
    if c.Err? {
      return Err(c.error);
    }
    r := Ok((Ast.Funcao(nome, ps.value.0, None, Bloco(c.value.0), false), c.value.1));
  }

  // ---------------------------------------------------------------------
  // Calls: `nome(arg, ...)`

  /** The argument loop, from index `i` (just after `(`): expressions,
      each optionally followed by `,`, up to `)`; the index after it is
      returned, and running out of tokens first is an error. */
  function Argumentos(tokens: seq<L.Token>, i: nat, lidos: seq<Expressao>)
    : (r: Result<(seq<Expressao>, nat), ErroLegado>)
    requires i <= |tokens|
    ensures r.Ok? ==> i < r.value.1 <= |tokens| && tokens[r.value.1 - 1].FechaParentese?
    ensures r.Ok? ==> |lidos| <= |r.value.0| && r.value.0[..|lidos|] == lidos
    decreases |tokens| - i
  {
    if i < |tokens| && !tokens[i].FechaParentese? then
      var p :- Expr(tokens, i);
      var j := if p.1 < |tokens| && tokens[p.1].Virgula? then p.1 + 1 else p.1;
      var r := Argumentos(tokens, j, lidos + [p.0]);
      assert r.Ok? ==> r.value.0[..|lidos|] == (r.value.0[..|lidos| + 1])[..|lidos|];
      r
    else if i < |tokens| then Ok((lidos, i + 1))
    else Err(EsperavaFechaParentese)
  }

  method AnalisarArgumentos(tokens: seq<L.Token>, inicio: nat) returns (r: Result<(seq<Expressao>, nat), ErroLegado>)
    requires inicio <= |tokens|
    ensures r == Argumentos(tokens, inicio, [])
  {
    var argumentos: seq<Expressao> := [];
    var i := inicio;
    while i < |tokens| && !tokens[i].FechaParentese?
      invariant i <= |tokens|
      invariant Argumentos(tokens, i, argumentos) == Argumentos(tokens, inicio, [])
      decreases |tokens| - i
    {
      var p := AnalisarExpressao(tokens, i);
      if p.Err? {
        return Err(p.error);
      }
      argumentos := argumentos + [p.value.0];
      i := p.value.1;
      if i < |tokens| && tokens[i].Virgula? {
        i := i + 1;
      }
    }
    if i < |tokens| && tokens[i].FechaParentese? {
      i := i + 1;
      r := Ok((argumentos, i));
    } else {
      r := Err(EsperavaFechaParentese);
    }
  }

  /** A call statement at index `i`, where the name is. */
  function Chamada(tokens: seq<L.Token>, i: nat): (r: Result<(Declaracao, nat), ErroLegado>)
    requires i < |tokens| && tokens[i].Identificador?
    ensures r.Ok? ==>
      && r.value.0.Expressao? && r.value.0.expr.Chamada?
      && r.value.0.expr.nome == tokens[i].nome && i < r.value.1 <= |tokens|
  {
    if i + 1 < |tokens| && tokens[i + 1].AbreParentese? then
      var a :- Argumentos(tokens, i + 2, []);
      Ok((Expressao(Ast.Chamada(tokens[i].nome, a.0)), a.1))
    else Err(EsperavaAbreParentese)
  }

  method AnalisarChamada(tokens: seq<L.Token>, inicio: nat) returns (r: Result<(Declaracao, nat), ErroLegado>)
    requires inicio < |tokens| && tokens[inicio].Identificador?
    ensures r == Chamada(tokens, inicio)
  {
    var nome := tokens[inicio].nome;
    var i := inicio + 1;
    if !(i < |tokens| && tokens[i].AbreParentese?) {
      return Err(EsperavaAbreParentese);
    }
    var a := AnalisarArgumentos(tokens, i + 1);
    if a.Err? {
      return Err(a.error);
    }
    r := Ok((Expressao(Ast.Chamada(nome, a.value.0)), a.value.1));
  }

  // ---------------------------------------------------------------------
  // The program

  /** The statement kinds the legacy parser produces. */
  predicate DeclaracaoLegada(d: Declaracao) {
    d.Mostrar? || FuncaoLegada(d) || (d.Expressao? && d.expr.Chamada?)
  }

  /** One step of the main loop at index `i`: the declarations it adds
      (none for a skipped token, else one) and the index where the next
      step starts. */
  function Instrucao(tokens: seq<L.Token>, i: nat): (r: Result<(seq<Declaracao>, nat), ErroLegado>)
    requires Terminada(tokens) && i < |tokens|
    ensures r.Ok? ==> i < r.value.1 <= |tokens| + 1 && |r.value.0| <= 1
    ensures r.Ok? ==> forall k | 0 <= k < |r.value.0| :: DeclaracaoLegada(r.value.0[k])
  {
    if tokens[i].Mostre? then
      // The source's check that some token follows `mostre` always passes
      // here: `EOF` closes the sequence.
      var p :- Expr(tokens, i + 1);
      Ok(([Mostrar(p.0)], p.1))
    else if tokens[i].Faca? then
      var f :- Funcao(tokens, i + 1);
      Ok(([f.0], f.1))
    else if tokens[i].Identificador? then
      var c :- Chamada(tokens, i);
      Ok(([c.0], c.1))
    else Ok(([], i + 1))
  }

  /** `analisar` from index `i`: steps until `EOF` or the end of the tokens. */
  function Instrucoes(tokens: seq<L.Token>, i: nat): (r: Result<seq<Declaracao>, ErroLegado>)
    requires Terminada(tokens) && i <= |tokens| + 1
    ensures r.Ok? ==> forall k | 0 <= k < |r.value| :: DeclaracaoLegada(r.value[k])
    decreases |tokens| + 1 - i
  {
    if i >= |tokens| || tokens[i].EOF? then Ok([])
    else
      var passo :- Instrucao(tokens, i);
      var resto :- Instrucoes(tokens, passo.1);
      Ok(passo.0 + resto)
  }

  /** `anteriores` followed by what `r` holds, or `r`'s error. */
  function Prefixar(anteriores: seq<Declaracao>, r: Result<seq<Declaracao>, ErroLegado>): Result<seq<Declaracao>, ErroLegado> {
    match r
    case Ok(v) => Ok(anteriores + v)
    case Err(e) => Err(e)
  }

  lemma PrefixarAnexa(a: seq<Declaracao>, b: seq<Declaracao>, r: Result<seq<Declaracao>, ErroLegado>)
    ensures Prefixar(a, Prefixar(b, r)) == Prefixar(a + b, r)
  {
    if r.Ok? {
      assert a + (b + r.value) == (a + b) + r.value;
    }
  }

  /** `analisar`: the declarations are added to a fresh program in the
      order the steps find them; the first error aborts. */
  method Analisar(tokens: seq<L.Token>) returns (r: Result<Programa, ErroLegado>)
    requires Terminada(tokens)
    ensures r.Ok? <==> Instrucoes(tokens, 0).Ok?
    ensures r.Ok? ==> r.value.declaracoes == Instrucoes(tokens, 0).value
    ensures r.Err? ==> Instrucoes(tokens, 0) == Err(r.error)
  {
    var programa := new Programa();
    var i := 0;
    assert Instrucoes(tokens, 0) == Prefixar([], Instrucoes(tokens, 0)) by {
      if Instrucoes(tokens, 0).Ok? {
        assert [] + Instrucoes(tokens, 0).value == Instrucoes(tokens, 0).value;
      }
    }
    while i < |tokens| && !tokens[i].EOF?
      invariant i <= |tokens| + 1
      invariant Instrucoes(tokens, 0) == Prefixar(programa.declaracoes, Instrucoes(tokens, i))
      decreases |tokens| + 1 - i
    {
      ghost var passo := Instrucao(tokens, i);
      ghost var antes := programa.declaracoes;
      if tokens[i].Mostre? {
        i := i + 1;
        var p := AnalisarExpressao(tokens, i);
        if p.Err? {
          return Err(p.error);
        }
        programa.AdicionarDeclaracao(Mostrar(p.value.0));
        i := p.value.1;
      } else if tokens[i].Faca? {
        var f := AnalisarFuncao(tokens, i + 1);
        if f.Err? {
          return Err(f.error);
        }
        programa.AdicionarDeclaracao(f.value.0);
        i := f.value.1;
      } else if tokens[i].Identificador? {
        var c := AnalisarChamada(tokens, i);
        if c.Err? {
          return Err(c.error);
        }
        programa.AdicionarDeclaracao(c.value.0);
        i := c.value.1;
      } else {
        i := i + 1;
      }
      assert programa.declaracoes == antes + passo.value.0 && i == passo.value.1;
      PrefixarAnexa(antes, passo.value.0, Instrucoes(tokens, i));
    }
    r := Ok(programa);
    assert programa.declaracoes + [] == programa.declaracoes;
  }
}
