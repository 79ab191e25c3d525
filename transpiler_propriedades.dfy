/** What the code generator promises about the text of expressions:
    escaping can be undone, and an operation carries exactly one outer pair
    of parentheses, so every generated expression is balanced. */
module TranspiladorPropriedades {
  import opened Wrappers
  import opened Texto
  import opened Numeros
  import opened Ast
  import opened Transpilador

  // ---------------------------------------------------------------------
  // Escaping string literals

  /** What one character of a literal becomes in the Rust source. */
  function EscaparCaractere(c: char): string {
    match c
    case '\\' => "\\\\"
    case '"' => "\\\""
    case '\n' => "\\n"
    case '\r' => "\\r"
    case '\t' => "\\t"
    case _ => [c]
  }

  /** Rust's reading of the escapes that `Escapar` writes: a backslash and
      the character after it stand for one character. */
  function Desescapar(s: string): string {
    if s == [] then []
    else if s[0] == '\\' && |s| >= 2 then
      [match s[1] case 'n' => '\n' case 'r' => '\r' case 't' => '\t' case _ => s[1]] + Desescapar(s[2..])
    else [s[0]] + Desescapar(s[1..])
  }

  lemma {:induction false} SubstituirConcatena(a: string, b: string, c: char, r: string)
    ensures Substituir(a + b, c, r) == Substituir(a, c, r) + Substituir(b, c, r)
  {
    if a == [] {
      assert a + b == b;
    } else {
      assert (a + b)[1..] == a[1..] + b;
      SubstituirConcatena(a[1..], b, c, r);
    }
  }

  lemma EscaparConcatena(a: string, b: string)
    ensures Escapar(a + b) == Escapar(a) + Escapar(b)
  {
    var a1 := Substituir(a, '\\', "\\\\");
    var b1 := Substituir(b, '\\', "\\\\");
    SubstituirConcatena(a, b, '\\', "\\\\");
    var a2 := Substituir(a1, '"', "\\\"");
    var b2 := Substituir(b1, '"', "\\\"");
    SubstituirConcatena(a1, b1, '"', "\\\"");
    var a3 := Substituir(a2, '\n', "\\n");
    var b3 := Substituir(b2, '\n', "\\n");
    SubstituirConcatena(a2, b2, '\n', "\\n");
    var a4 := Substituir(a3, '\r', "\\r");
    var b4 := Substituir(b3, '\r', "\\r");
    SubstituirConcatena(a3, b3, '\r', "\\r");
    SubstituirConcatena(a4, b4, '\t', "\\t");
  }

  /** Replacing in a string that does not contain the pattern changes
      nothing. */
  lemma {:induction false} SubstituirAusente(s: string, c: char, r: string)
    requires c !in s
    ensures Substituir(s, c, r) == s
  {
    if s != [] {
      assert s == [s[0]] + s[1..];
      SubstituirAusente(s[1..], c, r);
    }
  }

  lemma SubstituirUm(x: char, c: char, r: string)
    ensures Substituir([x], c, r) == if x == c then r else [x]
  {
    assert [x][1..] == [];
  }

  /** Because the backslash is replaced first, the backslashes that later
      replacements introduce are never doubled: each character is escaped
      on its own. */
  lemma EscaparUm(x: char)
    ensures Escapar([x]) == EscaparCaractere(x)
  {
    SubstituirUm(x, '\\', "\\\\");
    var s1 := Substituir([x], '\\', "\\\\");
    if x == '\\' {
      SubstituirAusente(s1, '"', "\\\"");
      SubstituirAusente(s1, '\n', "\\n");
      SubstituirAusente(s1, '\r', "\\r");
      SubstituirAusente(s1, '\t', "\\t");
    } else {
      SubstituirUm(x, '"', "\\\"");
      var s2 := Substituir(s1, '"', "\\\"");
      if x == '"' {
        SubstituirAusente(s2, '\n', "\\n");
        SubstituirAusente(s2, '\r', "\\r");
        SubstituirAusente(s2, '\t', "\\t");
      } else {
        SubstituirUm(x, '\n', "\\n");
        var s3 := Substituir(s2, '\n', "\\n");
        if x == '\n' {
          SubstituirAusente(s3, '\r', "\\r");
          SubstituirAusente(s3, '\t', "\\t");
        } else {
          SubstituirUm(x, '\r', "\\r");
          var s4 := Substituir(s3, '\r', "\\r");
          if x == '\r' {
            SubstituirAusente(s4, '\t', "\\t");
          } else {
            SubstituirUm(x, '\t', "\\t");
          }
        }
      }
    }
  }

  /** `Escapar` works character by character. */
  lemma EscaparPasso(t: string)
    requires t != []
    ensures Escapar(t) == EscaparCaractere(t[0]) + Escapar(t[1..])
  {
    assert t == [t[0]] + t[1..];
    EscaparConcatena([t[0]], t[1..]);
    EscaparUm(t[0]);
  }

  lemma DesescaparUm(x: char, resto: string)
    ensures Desescapar(EscaparCaractere(x) + resto) == [x] + Desescapar(resto)
  {
    var e := EscaparCaractere(x);
    if |e| == 2 {
      assert (e + resto)[2..] == resto;
    } else {
      assert (e + resto)[1..] == resto;
    }
  }

  /** Round trip: reading the escaped literal back gives the original text. */
  lemma {:induction false} DesescaparEscapar(t: string)
    ensures Desescapar(Escapar(t)) == t
  {
    if t == [] {
      assert Escapar(t) == [];
    } else {
      EscaparPasso(t);
      DesescaparUm(t[0], Escapar(t[1..]));
      DesescaparEscapar(t[1..]);
      assert t == [t[0]] + t[1..];
    }
  }

  /** The escaped text has no raw newline, carriage return or tab. */
  lemma {:induction false} EscaparSemControle(t: string)
    ensures '\n' !in Escapar(t) && '\r' !in Escapar(t) && '\t' !in Escapar(t)
  {
    if t == [] {
      assert Escapar(t) == [];
    } else {
      EscaparPasso(t);
      EscaparSemControle(t[1..]);
    }
  }

  /** Escaping adds only backslashes and letters, never a parenthesis. */
  lemma {:induction false} EscaparSemParenteses(t: string)
    requires SemParenteses(t)
    ensures SemParenteses(Escapar(t))
  {
    if t == [] {
      assert Escapar(t) == [];
    } else {
      EscaparPasso(t);
      EscaparSemParenteses(t[1..]);
    }
  }

  // ---------------------------------------------------------------------
  // Parentheses

  predicate SemParenteses(s: string) {
    '(' !in s && ')' !in s
  }

  function Delta(c: char): int {
    if c == '(' then 1 else if c == ')' then -1 else 0
  }

  /** Parentheses opened minus parentheses closed. */
  function Saldo(s: string): int {
    if s == [] then 0 else Saldo(s[..|s| - 1]) + Delta(s[|s| - 1])
  }

  function Min(a: int, b: int): int {
    if a <= b then a else b
  }

  /** The lowest `Saldo` of any prefix of `s`, the empty one included. */
  function Minimo(s: string): (r: int)
    ensures r <= 0
  {
    if s == [] then 0 else Min(Minimo(s[..|s| - 1]), Saldo(s))
  }

  /** Every parenthesis is closed, and none is closed before it is opened. */
  predicate Equilibrado(s: string) {
    Saldo(s) == 0 && Minimo(s) == 0
  }

  /** Exactly one outer pair: the first character opens a parenthesis that
      the last one closes, and what lies between is balanced. */
  predicate Envolto(s: string) {
    |s| >= 2 && s[0] == '(' && s[|s| - 1] == ')' && Equilibrado(s[1..|s| - 1])
  }

  /** `Minimo` is what its name says: no prefix goes lower. */
  lemma {:induction false} MinimoPrefixo(s: string, k: nat)
    requires k <= |s|
    ensures Minimo(s) <= Saldo(s[..k])
    decreases |s|
  {
    if k == |s| {
      assert s[..k] == s;
    } else {
      var s0 := s[..|s| - 1];
      assert s0[..k] == s[..k];
      MinimoPrefixo(s0, k);
    }
  }

  /** In a balanced text no prefix closes more parentheses than it opened. */
  lemma EquilibradoPrefixos(s: string)
    requires Equilibrado(s)
    ensures forall k | 0 <= k <= |s| :: Saldo(s[..k]) >= 0
  {
    forall k | 0 <= k <= |s|
      ensures Saldo(s[..k]) >= 0
    {
      MinimoPrefixo(s, k);
    }
  }

  lemma {:induction false} Concatena(a: string, b: string)
    ensures Saldo(a + b) == Saldo(a) + Saldo(b)
    ensures Minimo(a + b) == Min(Minimo(a), Saldo(a) + Minimo(b))
    decreases |b|
  {
    if b == [] {
      assert a + b == a;
    } else {
      var b0 := b[..|b| - 1];
      assert (a + b)[..|a + b| - 1] == a + b0;
      Concatena(a, b0);
    }
  }

  lemma EquilibradoConcatena(a: string, b: string)
    requires Equilibrado(a) && Equilibrado(b)
    ensures Equilibrado(a + b)
  {
    Concatena(a, b);
  }

  lemma {:induction false} SemParentesesEquilibrado(p: string)
    requires SemParenteses(p)
    ensures Equilibrado(p)
    decreases |p|
  {
    if p != [] {
      var p0 := p[..|p| - 1];
      assert p[|p| - 1] in p;
      assert forall c | c in p0 :: c in p;
      SemParentesesEquilibrado(p0);
    }
  }

  /** Wrapping a balanced text in a pair of parentheses gives exactly one
      outer pair, and a balanced text. */
  lemma Envolve(m: string)
    requires Equilibrado(m)
    ensures Envolto("(" + m + ")") && Equilibrado("(" + m + ")")
  {
    var s := "(" + m + ")";
    assert s[1..|s| - 1] == m;
    assert Saldo("(") == 1 && Minimo("(") == 0 by { assert "("[..0] == []; }
    assert Saldo(")") == -1 && Minimo(")") == -1 by { assert ")"[..0] == []; }
    Concatena("(", m);
    Concatena("(" + m, ")");
  }

  /** Parts that are balanced, joined by a separator without parentheses,
      stay balanced. */
  lemma {:induction false} JuntarEquilibrado(partes: seq<string>, sep: string)
    requires SemParenteses(sep)
    requires forall i | 0 <= i < |partes| :: Equilibrado(partes[i])
    ensures Equilibrado(Juntar(partes, sep))
    decreases |partes|
  {
    if |partes| == 0 {
      SemParentesesEquilibrado("");
    } else if |partes| > 1 {
      var inicio := partes[..|partes| - 1];
      JuntarEquilibrado(inicio, sep);
      SemParentesesEquilibrado(sep);
      EquilibradoConcatena(Juntar(inicio, sep), sep);
      EquilibradoConcatena(Juntar(inicio, sep) + sep, partes[|partes| - 1]);
    }
  }

  /** Every name, text and number inside `e` is free of parentheses. */
  predicate FolhasSemParenteses(e: Expressao) {
    match e
    case TextoLiteral(texto) => SemParenteses(texto)
    case NumeroLiteral(numero) => SemParenteses(numero.lexema)
    case LogicoLiteral(_) => true
    case Nada => true
    case ListaLiteral(elementos) => forall i | 0 <= i < |elementos| :: FolhasSemParenteses(elementos[i])
    case DicionarioLiteral(pares) =>
      forall i | 0 <= i < |pares| :: FolhasSemParenteses(pares[i].0) && FolhasSemParenteses(pares[i].1)
    case Identificador(nome) => SemParenteses(nome)
    case Chamada(nome, argumentos) =>
      SemParenteses(nome) && forall i | 0 <= i < |argumentos| :: FolhasSemParenteses(argumentos[i])
    case Operacao(_, esquerda, direita) => FolhasSemParenteses(esquerda) && FolhasSemParenteses(direita)
    case Atribuicao(nome, valor) => SemParenteses(nome) && FolhasSemParenteses(valor)
    case AcessoMembro(objeto, membro) => FolhasSemParenteses(objeto) && SemParenteses(membro)
    case Negacao(expressao) => FolhasSemParenteses(expressao)
  }

  lemma Abre()
    ensures Saldo("(") == 1 && Minimo("(") == 0
  {
    assert "("[..0] == [];
  }

  lemma Fecha()
    ensures Saldo(")") == -1 && Minimo(")") == -1
  {
    assert ")"[..0] == [];
  }

  /** The text written for a binary operation, as a function of the texts of
      its operands and operator. */
  function FormaOperacao(l: string, o: string, r: string, contem: bool): string {
    "(" + l + o + r + (if contem then "))" else ")")
  }

  lemma FormaEnvolta(l: string, o: string, r: string, contem: bool)
    requires Equilibrado(l) && Equilibrado(r)
    requires if contem then o == ".contains(&" else SemParenteses(o)
    ensures Envolto(FormaOperacao(l, o, r, contem)) && Equilibrado(FormaOperacao(l, o, r, contem))
  {
    Anexar("(", l, o);
    Anexar("(", l + o, r);
    var y := l + o + r;
    if contem {
      Abre();
      Fecha();
      assert o == ".contains" + "(" + "&";
      SemParentesesEquilibrado(".contains");
      SemParentesesEquilibrado("&");
      Concatena(".contains", "(");
      Concatena(".contains" + "(", "&");
      Concatena(l, o);
      Concatena(l + o, r);
      Concatena(y, ")");
      assert Equilibrado(y + ")");
      assert "))" == ")" + ")";
      Anexar("(" + y, ")", ")");
      Anexar("(", y, ")");
      Envolve(y + ")");
    } else {
      SemParentesesEquilibrado(o);
      EquilibradoConcatena(l, o);
      EquilibradoConcatena(l + o, r);
      Envolve(y);
    }
  }

  /** A binary operation is written inside exactly one outer pair of
      parentheses, `(L op R)`, and `(L.contains(&R))` for `Contem`, whose
      inner pair closes just before the outer one. */
  lemma OperacaoEnvolta(operador: Operador, esquerda: Expressao, direita: Expressao)
    requires Equilibrado(TextoExpressao(esquerda)) && Equilibrado(TextoExpressao(direita))
    ensures Envolto(TextoExpressao(Operacao(operador, esquerda, direita)))
  {
    TextoOperacaoForma(operador, esquerda, direita);
    OperadorSemParenteses(operador);
    FormaEnvolta(TextoExpressao(esquerda), TextoOperador(operador), TextoExpressao(direita), operador == Contem);
  }

  /** Only `contains` puts a parenthesis in its operator text. */
  lemma OperadorSemParenteses(operador: Operador)
    ensures if operador == Contem then TextoOperador(operador) == ".contains(&"
      else SemParenteses(TextoOperador(operador))
  {
  }

  lemma TextoOperacaoForma(operador: Operador, esquerda: Expressao, direita: Expressao)
    ensures TextoExpressao(Operacao(operador, esquerda, direita)) ==
      FormaOperacao(TextoExpressao(esquerda), TextoOperador(operador), TextoExpressao(direita), operador == Contem)
  {
  }

  /** Texts without parentheses around a balanced text keep it balanced. */
  lemma SemParentesesEmVolta(a: string, m: string, b: string)
    requires SemParenteses(a) && SemParenteses(b) && Equilibrado(m)
    ensures Equilibrado(a + m + b)
  {
    SemParentesesEquilibrado(a);
    SemParentesesEquilibrado(b);
    EquilibradoConcatena(a, m);
    EquilibradoConcatena(a + m, b);
  }

  lemma LiteralEquilibrado(texto: string)
    requires SemParenteses(texto)
    ensures Equilibrado("\"" + Escapar(texto) + "\"")
  {
    EscaparSemParenteses(texto);
    SemParentesesEquilibrado("\"" + Escapar(texto) + "\"");
  }

  lemma NumeroEquilibrado(numero: NumeroF64)
    requires SemParenteses(numero.lexema)
    ensures Equilibrado(ExibirNumero(numero))
  {
    ExibirNumeroCaracteres(numero);
    SemParentesesEquilibrado(ExibirNumero(numero));
  }

  lemma ChamadaEquilibrada(nome: string, j: string)
    requires SemParenteses(nome) && Equilibrado(j)
    ensures Equilibrado(nome + "(" + j + ")")
  {
    SemParentesesEquilibrado(nome);
    Abre();
    Fecha();
    Concatena(nome, "(");
    Concatena(nome + "(", j);
    Concatena(nome + "(" + j, ")");
  }

  lemma AbreDicionario()
    ensures Saldo("HashMap::from([") == 1 && Minimo("HashMap::from([") == 0
  {
    assert "HashMap::from([" == "HashMap::from" + "(" + "[";
    SemParentesesEquilibrado("HashMap::from");
    SemParentesesEquilibrado("[");
    Abre();
    Concatena("HashMap::from", "(");
    Concatena("HashMap::from" + "(", "[");
  }

  lemma FechaDicionario()
    ensures Saldo("])") == -1 && Minimo("])") == -1
  {
    assert "])" == "]" + ")";
    SemParentesesEquilibrado("]");
    Fecha();
    Concatena("]", ")");
  }

  lemma DicionarioEquilibrado(j: string)
    requires Equilibrado(j)
    ensures Equilibrado("HashMap::from([" + j + "])")
  {
    AbreDicionario();
    FechaDicionario();
    Concatena("HashMap::from([", j);
    Concatena("HashMap::from([" + j, "])");
  }

  /** With parenthesis-free leaves, every expression's text is balanced. */
  lemma {:induction false} ExpressaoEquilibrada(e: Expressao)
    requires FolhasSemParenteses(e)
    ensures Equilibrado(TextoExpressao(e))
    decreases e, 1
  {
    match e
    case ListaLiteral(elementos) =>
      FilhosEquilibrados(e, elementos);
      ListaEquilibrada(e);
    case DicionarioLiteral(pares) =>
      ParesEquilibrados(e, pares);
      DicionarioLiteralEquilibrado(e);
    case Chamada(nome, argumentos) =>
      FilhosEquilibrados(e, argumentos);
      ChamadaLiteralEquilibrada(e);
    case Operacao(operador, esquerda, direita) =>
      ExpressaoEquilibrada(esquerda);
      ExpressaoEquilibrada(direita);
      OperacaoEquilibrada(operador, esquerda, direita);
    case Atribuicao(nome, valor) =>
      ExpressaoEquilibrada(valor);
      UnariaEquilibrada(e, valor);
    case AcessoMembro(objeto, membro) =>
      ExpressaoEquilibrada(objeto);
      UnariaEquilibrada(e, objeto);
    case Negacao(expressao) =>
      ExpressaoEquilibrada(expressao);
      UnariaEquilibrada(e, expressao);
    case _ =>
      FolhaEquilibrada(e);
  }

  /** The cases of `ExpressaoEquilibrada`, each given its children's balance. */
  lemma FolhaEquilibrada(e: Expressao)
    requires e.TextoLiteral? || e.NumeroLiteral? || e.LogicoLiteral? || e.Nada? || e.Identificador?
    requires FolhasSemParenteses(e)
    ensures Equilibrado(TextoExpressao(e))
  {
    match e
    case TextoLiteral(texto) =>
      LiteralEquilibrado(texto);
    case NumeroLiteral(numero) =>
      NumeroEquilibrado(numero);
    case LogicoLiteral(logico) =>
      SemParentesesEquilibrado(if logico then "true" else "false");
    case Nada =>
      SemParentesesEquilibrado("None");
    case Identificador(nome) =>
      SemParentesesEquilibrado(nome);
  }

  lemma ListaEquilibrada(e: Expressao)
    requires e.ListaLiteral?
    requires forall i | 0 <= i < |e.elementos| :: Equilibrado(TextosExpressoes(e, e.elementos)[i])
    ensures Equilibrado(TextoExpressao(e))
  {
    var textos := TextosExpressoes(e, e.elementos);
    JuntarEquilibrado(textos, ", ");
    SemParentesesEmVolta("vec![", Juntar(textos, ", "), "]");
  }

  lemma DicionarioLiteralEquilibrado(e: Expressao)
    requires e.DicionarioLiteral?
    requires forall i | 0 <= i < |e.pares| :: Equilibrado(TextosPares(e, e.pares)[i])
    ensures Equilibrado(TextoExpressao(e))
  {
    var textos := TextosPares(e, e.pares);
    JuntarEquilibrado(textos, ", ");
    DicionarioEquilibrado(Juntar(textos, ", "));
  }

  lemma ChamadaLiteralEquilibrada(e: Expressao)
    requires e.Chamada? && FolhasSemParenteses(e)
    requires forall i | 0 <= i < |e.argumentos| :: Equilibrado(TextosExpressoes(e, e.argumentos)[i])
    ensures Equilibrado(TextoExpressao(e))
  {
    var textos := TextosExpressoes(e, e.argumentos);
    JuntarEquilibrado(textos, ", ");
    ChamadaEquilibrada(e.nome, Juntar(textos, ", "));
  }

  lemma OperacaoEquilibrada(operador: Operador, esquerda: Expressao, direita: Expressao)
    requires Equilibrado(TextoExpressao(esquerda)) && Equilibrado(TextoExpressao(direita))
    ensures Equilibrado(TextoExpressao(Operacao(operador, esquerda, direita)))
  {
    TextoOperacaoForma(operador, esquerda, direita);
    OperadorSemParenteses(operador);
    FormaEnvolta(TextoExpressao(esquerda), TextoOperador(operador), TextoExpressao(direita), operador == Contem);
  }

  lemma UnariaEquilibrada(e: Expressao, filho: Expressao)
    requires e.Atribuicao? || e.AcessoMembro? || e.Negacao?
    requires FolhasSemParenteses(e)
    requires filho == (if e.Atribuicao? then e.valor else if e.AcessoMembro? then e.objeto else e.expressao)
    requires Equilibrado(TextoExpressao(filho))
    ensures Equilibrado(TextoExpressao(e))
  {
    match e
    case Atribuicao(nome, valor) =>
      SemParentesesEquilibrado(nome + " = ");
      EquilibradoConcatena(nome + " = ", TextoExpressao(valor));
    case AcessoMembro(objeto, membro) =>
      SemParentesesEquilibrado("." + membro);
      EquilibradoConcatena(TextoExpressao(objeto), "." + membro);
    case Negacao(expressao) =>
      SemParentesesEquilibrado("!");
      EquilibradoConcatena("!", TextoExpressao(expressao));
  }

  lemma {:induction false} ParesEquilibrados(pai: Expressao, pares: seq<(Expressao, Expressao)>)
    requires pai.DicionarioLiteral? && pares == pai.pares && FolhasSemParenteses(pai)
    ensures forall i | 0 <= i < |pares| :: Equilibrado(TextosPares(pai, pares)[i])
    decreases pai, 0
  {
    forall i | 0 <= i < |pares|
      ensures Equilibrado(TextosPares(pai, pares)[i])
    {
      ExpressaoEquilibrada(pares[i].0);
      ExpressaoEquilibrada(pares[i].1);
      ParEquilibrado(TextoExpressao(pares[i].0), TextoExpressao(pares[i].1));
    }
  }

  lemma {:induction false} FilhosEquilibrados(pai: Expressao, es: seq<Expressao>)
    requires FilhosDe(pai, es) && FolhasSemParenteses(pai)
    ensures forall i | 0 <= i < |es| :: Equilibrado(TextosExpressoes(pai, es)[i])
    decreases pai, 0
  {
    forall i | 0 <= i < |es|
      ensures Equilibrado(TextosExpressoes(pai, es)[i])
    {
      ExpressaoEquilibrada(es[i]);
    }
  }

  lemma ParEquilibrado(k: string, v: string)
    requires Equilibrado(k) && Equilibrado(v)
    ensures Equilibrado("(" + k + ", " + v + ")")
  {
    SemParentesesEquilibrado(", ");
    EquilibradoConcatena(k, ", ");
    EquilibradoConcatena(k + ", ", v);
    Envolve(k + ", " + v);
    Anexar("(", k, ", ");
    Anexar("(", k + ", ", v);
  }
}
