/** What the tree builders promise: chains of `ou`, `e`, `+ -` and `* / resto`
    nest to the left, a comparison builds at most one node, only a bare name
    can be assigned to, visibility comes from each declaration's and each
    field's own modifier, blocks, lists and programs keep source order, each
    statement builder reports its missing pieces, and text literals lose
    exactly their delimiters. */
module ArvorePropriedades {
  import opened Wrappers
  import opened Ast
  import opened Arvore

  // ---------------------------------------------------------------------
  // Left-nested chains

  /** The reference left fold: `a op1 b op2 c` is `((a op1 b) op2 c)`. */
  function DobrarEsquerda(primeiro: Expressao, resto: seq<(Operador, Expressao)>): Expressao {
    if resto == [] then primeiro
    else
      var ultimo := resto[|resto| - 1];
      Operacao(ultimo.0, DobrarEsquerda(primeiro, resto[..|resto| - 1]), ultimo.1)
  }

  /** Folding the first operand in first is the same fold. */
  lemma {:induction false} DobrarEsquerdaFrente(primeiro: Expressao, op: Operador, x: Expressao,
                                                resto: seq<(Operador, Expressao)>)
    ensures DobrarEsquerda(Operacao(op, primeiro, x), resto) == DobrarEsquerda(primeiro, [(op, x)] + resto)
    decreases |resto|
  {
    var todos := [(op, x)] + resto;
    if resto == [] {
      assert todos[..0] == [];
    } else {
      var n := |resto|;
      assert todos[..n] == [(op, x)] + resto[..n - 1];
      DobrarEsquerdaFrente(primeiro, op, x, resto[..n - 1]);
    }
  }

  /** Every operand paired with the same operator. */
  function Com(op: Operador, operandos: seq<Expressao>): (r: seq<(Operador, Expressao)>)
    ensures |r| == |operandos|
  {
    seq(|operandos|, k requires 0 <= k < |operandos| => (op, operandos[k]))
  }

  lemma {:induction false} DobrarLogicaEsquerda(pai: Par, op: Operador, i: nat, acumulado: Expressao,
                                                operandos: seq<Expressao>)
    requires i + |operandos| == |pai.filhos|
    requires forall k | 0 <= k < |operandos| :: ParseExpressao(pai.filhos[i + k]) == Ok(operandos[k])
    ensures DobrarLogica(pai, op, i, acumulado) == Ok(DobrarEsquerda(acumulado, Com(op, operandos)))
    decreases |operandos|
  {
    if operandos == [] {
    } else {
      assert ParseExpressao(pai.filhos[i + 0]) == Ok(operandos[0]);
      var resto := operandos[1..];
      forall k | 0 <= k < |resto|
        ensures ParseExpressao(pai.filhos[i + 1 + k]) == Ok(resto[k])
      {
        assert ParseExpressao(pai.filhos[i + (k + 1)]) == Ok(operandos[k + 1]);
      }
      DobrarLogicaEsquerda(pai, op, i + 1, Operacao(op, acumulado, operandos[0]), resto);
      DobrarEsquerdaFrente(acumulado, op, operandos[0], Com(op, resto));
      ComFrente(op, operandos);
    }
  }

  lemma ComFrente(op: Operador, operandos: seq<Expressao>)
    requires operandos != []
    ensures Com(op, operandos) == [(op, operandos[0])] + Com(op, operandos[1..])
  {
    assert [(op, operandos[0])] + Com(op, operandos[1..]) == Com(op, operandos);
  }

  /** `a ou b ou c` (and likewise `e`): every child after the first is a
      right operand of a left-nested chain. */
  lemma LogicaEsquerda(p: Par, op: Operador, primeiro: Expressao, operandos: seq<Expressao>)
    requires |p.filhos| == 1 + |operandos|
    requires ParseExpressao(p.filhos[0]) == Ok(primeiro)
    requires forall k | 0 <= k < |operandos| :: ParseExpressao(p.filhos[1 + k]) == Ok(operandos[k])
    ensures ParseLogica(p, op) == Ok(DobrarEsquerda(primeiro, Com(op, operandos)))
  {
    DobrarLogicaEsquerda(p, op, 1, primeiro, operandos);
  }

  /** The three-operand case written out: `((a op b) op c)`. */
  lemma LogicaTres(p: Par, op: Operador, a: Expressao, b: Expressao, c: Expressao)
    requires |p.filhos| == 3
    requires ParseExpressao(p.filhos[0]) == Ok(a)
    requires ParseExpressao(p.filhos[1]) == Ok(b) && ParseExpressao(p.filhos[2]) == Ok(c)
    ensures ParseLogica(p, op) == Ok(Operacao(op, Operacao(op, a, b), c))
  {
    var operandos := [b, c];
    assert ParseExpressao(p.filhos[1 + 0]) == Ok(operandos[0]);
    assert ParseExpressao(p.filhos[1 + 1]) == Ok(operandos[1]);
    LogicaEsquerda(p, op, a, operandos);
    var resto := Com(op, operandos);
    assert resto == [(op, b), (op, c)];
    assert resto[..1] == [(op, b)];
    assert resto[..1][..0] == [];
    assert DobrarEsquerda(a, resto[..1]) == Operacao(op, a, b);
  }

  /** From child `i` on, operator and operand children alternate and build
      `resto`. */
  predicate Alternados(pai: Par, nivel: Nivel, i: nat, resto: seq<(Operador, Expressao)>)
    requires i + 2 * |resto| <= |pai.filhos|
  {
    forall k | 0 <= k < |resto| ::
      && OperadorDoNivel(nivel, pai.filhos[i + 2 * k].texto) == Ok(resto[k].0)
      && ParseExpressao(pai.filhos[i + 2 * k + 1]) == Ok(resto[k].1)
  }

  /** The first operator and operand of an alternating run extend the
      accumulated chain, and the rest of the run still alternates. */
  lemma DobrarAritmeticaCabeca(pai: Par, nivel: Nivel, i: nat, acumulado: Expressao,
                               resto: seq<(Operador, Expressao)>)
    requires resto != [] && i + 2 * |resto| <= |pai.filhos|
    requires Alternados(pai, nivel, i, resto)
    ensures Alternados(pai, nivel, i + 2, resto[1..])
    ensures DobrarAritmetica(pai, nivel, i, acumulado)
      == DobrarAritmetica(pai, nivel, i + 2, Operacao(resto[0].0, acumulado, resto[0].1))
  {
    assert OperadorDoNivel(nivel, pai.filhos[i + 2 * 0].texto) == Ok(resto[0].0);
    assert ParseExpressao(pai.filhos[i + 2 * 0 + 1]) == Ok(resto[0].1);
    var cauda := resto[1..];
    forall k | 0 <= k < |cauda|
      ensures OperadorDoNivel(nivel, pai.filhos[i + 2 + 2 * k].texto) == Ok(cauda[k].0)
      ensures ParseExpressao(pai.filhos[i + 2 + 2 * k + 1]) == Ok(cauda[k].1)
    {
      assert OperadorDoNivel(nivel, pai.filhos[i + 2 * (k + 1)].texto) == Ok(resto[k + 1].0);
      assert ParseExpressao(pai.filhos[i + 2 * (k + 1) + 1]) == Ok(resto[k + 1].1);
    }
  }

  /** Taking the first pair off the reference fold. */
  lemma DobrarEsquerdaCabeca(primeiro: Expressao, resto: seq<(Operador, Expressao)>)
    requires resto != []
    ensures DobrarEsquerda(primeiro, resto)
      == DobrarEsquerda(Operacao(resto[0].0, primeiro, resto[0].1), resto[1..])
  {
    DobrarEsquerdaFrente(primeiro, resto[0].0, resto[0].1, resto[1..]);
    assert [(resto[0].0, resto[0].1)] + resto[1..] == resto;
  }

  /** The fold of the rest of the run, extended by its first pair. */
  lemma DobrarAritmeticaJunta(pai: Par, nivel: Nivel, i: nat, acumulado: Expressao,
                              resto: seq<(Operador, Expressao)>)
    requires resto != [] && i + 2 * |resto| <= |pai.filhos|
    requires Alternados(pai, nivel, i, resto)
    requires DobrarAritmetica(pai, nivel, i + 2, Operacao(resto[0].0, acumulado, resto[0].1))
      == Ok(DobrarEsquerda(Operacao(resto[0].0, acumulado, resto[0].1), resto[1..]))
    ensures DobrarAritmetica(pai, nivel, i, acumulado) == Ok(DobrarEsquerda(acumulado, resto))
  {
    DobrarAritmeticaCabeca(pai, nivel, i, acumulado, resto);
    DobrarEsquerdaCabeca(acumulado, resto);
  }

  lemma {:induction false} DobrarAritmeticaEsquerda(pai: Par, nivel: Nivel, i: nat, acumulado: Expressao,
                                                    resto: seq<(Operador, Expressao)>)
    requires i + 2 * |resto| == |pai.filhos|
    requires Alternados(pai, nivel, i, resto)
    ensures DobrarAritmetica(pai, nivel, i, acumulado) == Ok(DobrarEsquerda(acumulado, resto))
    decreases |resto|
  {
    if resto != [] {
      var seguinte, cauda := Operacao(resto[0].0, acumulado, resto[0].1), resto[1..];
      DobrarAritmeticaCabeca(pai, nivel, i, acumulado, resto);
      DobrarAritmeticaEsquerda(pai, nivel, i + 2, seguinte, cauda);
      DobrarAritmeticaJunta(pai, nivel, i, acumulado, resto);
    } else {
      assert DobrarAritmetica(pai, nivel, i, acumulado) == Ok(acumulado);
    }
  }

  /** `a + b - c` (and likewise `* / resto`): operands and operators
      alternate, and the chain nests to the left. */
  lemma AritmeticaEsquerda(p: Par, nivel: Nivel, primeiro: Expressao, resto: seq<(Operador, Expressao)>)
    requires |p.filhos| == 1 + 2 * |resto|
    requires ParseExpressao(p.filhos[0]) == Ok(primeiro)
    requires Alternados(p, nivel, 1, resto)
    ensures ParseAritmetica(p, nivel) == Ok(DobrarEsquerda(primeiro, resto))
  {
    DobrarAritmeticaEsquerda(p, nivel, 1, primeiro, resto);
  }

  /** An operator with no operand after it is an error naming the chain's
      rule, once everything before it is well formed. */
  lemma {:induction false} DobrarAritmeticaSemOperando(pai: Par, nivel: Nivel, i: nat, acumulado: Expressao,
                                                       resto: seq<(Operador, Expressao)>)
    requires i + 2 * |resto| + 1 == |pai.filhos|
    requires Alternados(pai, nivel, i, resto)
    requires OperadorDoNivel(nivel, pai.filhos[|pai.filhos| - 1].texto).Ok?
    ensures DobrarAritmetica(pai, nivel, i, acumulado) == Err(Faltando(pai.regra))
    decreases |resto|
  {
    if resto != [] {
      DobrarAritmeticaCabeca(pai, nivel, i, acumulado, resto);
      DobrarAritmeticaSemOperando(pai, nivel, i + 2, Operacao(resto[0].0, acumulado, resto[0].1), resto[1..]);
    }
  }

  // ---------------------------------------------------------------------
  // Comparison and assignment

  /** A comparison is its left operand alone, or exactly one node whose
      operator comes from the second child's text and whose operands are
      the first and third children. */
  lemma ComparacaoUmNo(p: Par)
    ensures var r := ParseComparacao(p);
      r.Ok? ==>
        || (|p.filhos| == 1 && r == ParseExpressao(p.filhos[0]))
        || (&& |p.filhos| >= 3 && r.value.Operacao?
            && OperadorComparacao(p.filhos[1].texto) == Ok(r.value.operador)
            && ParseExpressao(p.filhos[0]) == Ok(r.value.esquerda)
            && ParseExpressao(p.filhos[2]) == Ok(r.value.direita))
  {
  }

  /** `a < b < c` is not a chain: children after the third are never read. */
  lemma ComparacaoIgnoraResto(p: Par)
    requires |p.filhos| > 3
    ensures ParseComparacao(p) == ParseComparacao(Par(p.regra, p.texto, p.filhos[..3]))
  {
    var q := Par(p.regra, p.texto, p.filhos[..3]);
    assert q.filhos[0] == p.filhos[0] && q.filhos[1] == p.filhos[1] && q.filhos[2] == p.filhos[2];
  }

  /** Only a bare name can be assigned to: with a value child, the result is
      an assignment exactly when the left side is an identifier, and an
      error when it is any other expression. */
  lemma AtribuicaoSoNome(p: Par)
    requires |p.filhos| >= 2
    requires ParseExpressao(p.filhos[0]).Ok? && ParseExpressao(p.filhos[1]).Ok?
    ensures var esquerda := ParseExpressao(p.filhos[0]).value;
      ParseAtribuicao(p) ==
        if esquerda.Identificador? then Ok(Atribuicao(esquerda.nome, ParseExpressao(p.filhos[1]).value))
        else Err(AtribuicaoSemIdentificador)
  {
  }

  /** With a value child, a successful result is always an assignment to the
      name on the left. */
  lemma AtribuicaoResultado(p: Par)
    requires |p.filhos| >= 2
    ensures var r := ParseAtribuicao(p);
      r.Ok? ==>
        && r.value.Atribuicao?
        && ParseExpressao(p.filhos[0]) == Ok(Identificador(r.value.nome))
        && ParseExpressao(p.filhos[1]) == Ok(r.value.valor)
  {
  }

  // ---------------------------------------------------------------------
  // Visibility

  /** A variable, function or model is public exactly when its first child
      is the visibility modifier, and its name is the child after it. */
  lemma DeclaracaoVisibilidade(p: Par)
    ensures ParseVariavel(p).Ok? ==>
      && p.filhos != []
      && (ParseVariavel(p).value.publico <==> p.filhos[0].regra == modificador_visibilidade)
      && ParseVariavel(p).value.nome == p.filhos[Inicio(p.filhos)].texto
    ensures ParseFuncao(p).Ok? ==>
      && p.filhos != []
      && (ParseFuncao(p).value.publico <==> p.filhos[0].regra == modificador_visibilidade)
      && ParseFuncao(p).value.nome == p.filhos[Inicio(p.filhos)].texto
    ensures ParseModelo(p).Ok? ==>
      && p.filhos != []
      && (ParseModelo(p).value.publico <==> p.filhos[0].regra == modificador_visibilidade)
      && ParseModelo(p).value.nome == p.filhos[Inicio(p.filhos)].texto
  {
  }

  /** Fields are built one per field child, in order, each from its own
      pair, so each keeps its own visibility whatever the model's. */
  lemma {:induction false} CamposIndependentes(filhos: seq<Par>)
    requires forall i | 0 <= i < |filhos| :: filhos[i].regra == campo && ParseCampo(filhos[i]).Ok?
    ensures ParseCampos(filhos).Ok?
    ensures |ParseCampos(filhos).value| == |filhos|
    ensures forall i | 0 <= i < |filhos| :: ParseCampos(filhos).value[i] == ParseCampo(filhos[i]).value
    decreases |filhos|
  {
    if filhos != [] {
      CamposIndependentes(filhos[1..]);
      var resto := ParseCampos(filhos[1..]).value;
      assert ParseCampos(filhos).value == [ParseCampo(filhos[0]).value] + resto;
      forall i | 0 <= i < |filhos|
        ensures ParseCampos(filhos).value[i] == ParseCampo(filhos[i]).value
      {
        if i > 0 {
          assert filhos[1..][i - 1] == filhos[i];
        }
      }
    }
  }

  // ---------------------------------------------------------------------
  // Parameter lists

  /** The parameter such a child stands for: the text of its first part and
      the type its second part denotes. */
  function ParametroDe(p: Par): (string, Tipo)
    requires |p.filhos| >= 2
  {
    (p.filhos[0].texto, ParseTipo(p.filhos[1]))
  }

  /** `parametro` children with both their parts, the name and the type,
      give one parameter each, in order. */
  lemma {:induction false} ParametrosEmOrdem(filhos: seq<Par>)
    requires forall i | 0 <= i < |filhos| :: filhos[i].regra == parametro && |filhos[i].filhos| >= 2
    ensures ParseParametros(filhos).Ok?
    ensures |ParseParametros(filhos).value| == |filhos|
    ensures forall i | 0 <= i < |filhos| :: ParseParametros(filhos).value[i] == ParametroDe(filhos[i])
    decreases |filhos|
  {
    if filhos != [] {
      ParametrosEmOrdem(filhos[1..]);
      var resto := ParseParametros(filhos[1..]).value;
      assert ParseParametros(filhos).value == [ParametroDe(filhos[0])] + resto;
      forall i | 0 <= i < |filhos|
        ensures ParseParametros(filhos).value[i] == ParametroDe(filhos[i])
      {
        if i > 0 {
          assert filhos[1..][i - 1] == filhos[i];
        }
      }
    }
  }

  /** A child of any other rule is skipped wherever it stands. */
  lemma {:induction false} ParametrosIgnoram(antes: seq<Par>, outro: Par, depois: seq<Par>)
    requires outro.regra != parametro
    ensures ParseParametros(antes + [outro] + depois) == ParseParametros(antes + depois)
    decreases |antes|
  {
    if antes == [] {
      assert antes + [outro] + depois == [outro] + depois;
      assert ([outro] + depois)[1..] == depois;
      assert antes + depois == depois;
    } else {
      ParametrosIgnoram(antes[1..], outro, depois);
      assert (antes + [outro] + depois)[1..] == antes[1..] + [outro] + depois;
      assert (antes + depois)[1..] == antes[1..] + depois;
      assert (antes + [outro] + depois)[0] == (antes + depois)[0] == antes[0];
    }
  }

  /** A `parametro` child lacking its name or its type makes the whole list
      an error, whatever surrounds it. */
  lemma {:induction false} ParametroIncompleto(filhos: seq<Par>, k: nat)
    requires k < |filhos| && filhos[k].regra == parametro && |filhos[k].filhos| < 2
    ensures ParseParametros(filhos) == Err(Faltando(parametro))
    decreases k
  {
    if k > 0 && !(filhos[0].regra == parametro && |filhos[0].filhos| < 2) {
      assert filhos[1..][k - 1] == filhos[k];
      ParametroIncompleto(filhos[1..], k - 1);
    }
  }

  // ---------------------------------------------------------------------
  // Blocks and statements

  /** From index `i` on, declaration children give their declarations in
      source order. */
  lemma {:induction false} DeclaracoesDeOrdem(pai: Par, i: nat, ds: seq<Declaracao>)
    requires |pai.filhos| == |ds| && i <= |ds|
    requires forall j | 0 <= j < |ds| :: pai.filhos[j].regra == declaracao && ParseDeclaracao(pai.filhos[j]) == Ok(ds[j])
    ensures DeclaracoesDe(pai, i) == Ok(ds[i..])
    decreases |ds| - i
  {
    if i < |ds| {
      DeclaracoesDeOrdem(pai, i + 1, ds);
      DeclaracoesDePasso(pai, i, ds[i], ds[i + 1..]);
      assert ds[i..] == [ds[i]] + ds[i + 1..];
    } else {
      assert ds[i..] == [];
      assert DeclaracoesDe(pai, i) == Ok([]);
    }
  }

  lemma DeclaracoesDePasso(pai: Par, i: nat, d: Declaracao, resto: seq<Declaracao>)
    requires i < |pai.filhos| && pai.filhos[i].regra == declaracao
    requires ParseDeclaracao(pai.filhos[i]) == Ok(d) && DeclaracoesDe(pai, i + 1) == Ok(resto)
    ensures DeclaracoesDe(pai, i) == Ok([d] + resto)
  {
  }

  /** A block's declaration children become its statements in source order. */
  lemma BlocoOrdem(p: Par, ds: seq<Declaracao>)
    requires |p.filhos| == |ds|
    requires forall j | 0 <= j < |ds| :: p.filhos[j].regra == declaracao && ParseDeclaracao(p.filhos[j]) == Ok(ds[j])
    ensures ParseBloco(p) == Ok(Bloco(ds))
  {
    DeclaracoesDeOrdem(p, 0, ds);
    assert ds[0..] == ds;
  }

  /** Two parents with the same children from `i` and `j` on read the same
      declarations from there. */
  lemma {:induction false} DeclaracoesDeSufixo(a: Par, i: nat, b: Par, j: nat)
    requires i <= |a.filhos| && j <= |b.filhos| && a.filhos[i..] == b.filhos[j..]
    ensures DeclaracoesDe(a, i) == DeclaracoesDe(b, j)
    decreases |a.filhos| - i
  {
    assert |a.filhos| - i == |b.filhos| - j;
    if i < |a.filhos| {
      assert a.filhos[i] == a.filhos[i..][0] == b.filhos[j];
      assert a.filhos[i + 1..] == a.filhos[i..][1..] == b.filhos[j..][1..] == b.filhos[j + 1..];
      DeclaracoesDeSufixo(a, i + 1, b, j + 1);
    }
  }

  lemma {:induction false} DeclaracoesDeIgnoram(a: Par, b: Par, antes: seq<Par>, outro: Par, depois: seq<Par>, i: nat)
    requires a.filhos == antes + [outro] + depois && b.filhos == antes + depois
    requires outro.regra != declaracao && i <= |antes|
    ensures DeclaracoesDe(a, i) == DeclaracoesDe(b, i)
    decreases |antes| - i
  {
    if i < |antes| {
      assert a.filhos[i] == antes[i] == b.filhos[i];
      DeclaracoesDeIgnoram(a, b, antes, outro, depois, i + 1);
      DeclaracoesDeMesmoFilho(a, b, i);
    } else {
      assert a.filhos[i] == outro;
      assert a.filhos[i + 1..] == depois == b.filhos[i..];
      DeclaracoesDeSufixo(a, i + 1, b, i);
      DeclaracoesDePula(a, i);
    }
  }

  lemma DeclaracoesDeMesmoFilho(a: Par, b: Par, i: nat)
    requires i < |a.filhos| && i < |b.filhos| && a.filhos[i] == b.filhos[i]
    requires DeclaracoesDe(a, i + 1) == DeclaracoesDe(b, i + 1)
    ensures DeclaracoesDe(a, i) == DeclaracoesDe(b, i)
  {
  }

  lemma DeclaracoesDePula(a: Par, i: nat)
    requires i < |a.filhos| && a.filhos[i].regra != declaracao
    ensures DeclaracoesDe(a, i) == DeclaracoesDe(a, i + 1)
  {
  }

  /** A child of any rule other than `declaracao` is skipped wherever it
      stands in a block. */
  lemma BlocoIgnora(regra: Regra, texto: string, antes: seq<Par>, outro: Par, depois: seq<Par>)
    requires outro.regra != declaracao
    ensures ParseBloco(Par(regra, texto, antes + [outro] + depois)) == ParseBloco(Par(regra, texto, antes + depois))
  {
    DeclaracoesDeIgnoram(Par(regra, texto, antes + [outro] + depois), Par(regra, texto, antes + depois),
                         antes, outro, depois, 0);
  }

  /** A module holds the declarations of its block child in source order. */
  lemma ModuloOrdem(p: Par, ds: seq<Declaracao>)
    requires |p.filhos| >= 2 && |p.filhos[1].filhos| == |ds|
    requires forall j | 0 <= j < |ds| ::
      p.filhos[1].filhos[j].regra == declaracao && ParseDeclaracao(p.filhos[1].filhos[j]) == Ok(ds[j])
    ensures ParseModulo(p) == Ok(Modulo(p.filhos[0].texto, ds))
  {
    DeclaracoesDeOrdem(p.filhos[1], 0, ds);
    assert ds[0..] == ds;
  }

  /** A module without its name or its block is an error. */
  lemma ModuloFaltando(p: Par)
    requires |p.filhos| < 2
    ensures ParseModulo(p) == Err(Faltando(declaracao_modulo))
  {
  }

  /** From index `i` on, `retorne` takes the first expression child, whatever
      follows it. */
  lemma {:induction false} PrimeiraExpressaoEm(pai: Par, i: nat, k: nat)
    requires i <= k < |pai.filhos| && pai.filhos[k].regra == expressao
    requires forall j | i <= j < k :: pai.filhos[j].regra != expressao
    ensures ParseExpressao(pai.filhos[k]).Ok? ==> PrimeiraExpressao(pai, i) == Ok(Some(ParseExpressao(pai.filhos[k]).value))
    ensures ParseExpressao(pai.filhos[k]).Err? ==> PrimeiraExpressao(pai, i) == Err(ParseExpressao(pai.filhos[k]).error)
    decreases k - i
  {
    if i < k {
      PrimeiraExpressaoEm(pai, i + 1, k);
    }
  }

  /** `retorne e`: the first expression child is the returned value, and the
      children after it are never looked at. */
  lemma RetornoPrimeira(p: Par, k: nat)
    requires k < |p.filhos| && p.filhos[k].regra == expressao
    requires forall j | 0 <= j < k :: p.filhos[j].regra != expressao
    ensures ParseExpressao(p.filhos[k]).Ok? ==> ParseRetorno(p) == Ok(Retorno(Some(ParseExpressao(p.filhos[k]).value)))
    ensures ParseExpressao(p.filhos[k]).Err? ==> ParseRetorno(p) == Err(ParseExpressao(p.filhos[k]).error)
  {
    PrimeiraExpressaoEm(p, 0, k);
  }

  lemma {:induction false} SemExpressaoDesde(pai: Par, i: nat)
    requires i <= |pai.filhos|
    requires forall j | i <= j < |pai.filhos| :: pai.filhos[j].regra != expressao
    ensures PrimeiraExpressao(pai, i) == Ok(None)
    decreases |pai.filhos| - i
  {
    if i < |pai.filhos| {
      SemExpressaoDesde(pai, i + 1);
    }
  }

  /** `retorne` without an expression child returns nothing. */
  lemma RetornoVazio(p: Par)
    requires forall j | 0 <= j < |p.filhos| :: p.filhos[j].regra != expressao
    ensures ParseRetorno(p) == Ok(Retorno(None))
  {
    SemExpressaoDesde(p, 0);
  }

  /** `se`: a missing condition or block is an error, and a failing condition
      is reported before the block is looked for. */
  lemma CondicionalFaltando(p: Par)
    ensures |p.filhos| == 0 ==> ParseCondicional(p) == Err(Faltando(declaracao_condicional))
    ensures |p.filhos| >= 1 && ParseExpressao(p.filhos[0]).Err?
      ==> ParseCondicional(p) == Err(ParseExpressao(p.filhos[0]).error)
    ensures |p.filhos| == 1 && ParseExpressao(p.filhos[0]).Ok?
      ==> ParseCondicional(p) == Err(Faltando(declaracao_condicional))
  {
  }

  /** `se c { … } [senão { … }]`: the condition, the block and the optional
      `senão` block are the first three children; any further child is
      ignored. */
  lemma CondicionalCompleta(p: Par, c: Expressao, s: Declaracao)
    requires |p.filhos| >= 2 && ParseExpressao(p.filhos[0]) == Ok(c) && ParseBloco(p.filhos[1]) == Ok(s)
    ensures |p.filhos| == 2 ==> ParseCondicional(p) == Ok(Se(c, s, None))
    ensures |p.filhos| >= 3 && ParseBloco(p.filhos[2]).Ok?
      ==> ParseCondicional(p) == Ok(Se(c, s, Some(ParseBloco(p.filhos[2]).value)))
    ensures |p.filhos| >= 3 && ParseBloco(p.filhos[2]).Err?
      ==> ParseCondicional(p) == Err(ParseBloco(p.filhos[2]).error)
  {
  }

  /** `para cada`: without a start, an end or a body it is an error; the
      variable is never parsed. */
  lemma ParaCadaFaltando(p: Par)
    ensures |p.filhos| < 2 ==> ParseParaCada(p) == Err(Faltando(declaracao_para_cada))
    ensures |p.filhos| >= 2 && ParseExpressao(p.filhos[1]).Err?
      ==> ParseParaCada(p) == Err(ParseExpressao(p.filhos[1]).error)
    ensures |p.filhos| == 2 && ParseExpressao(p.filhos[1]).Ok?
      ==> ParseParaCada(p) == Err(Faltando(declaracao_para_cada))
    ensures |p.filhos| == 3 && ParseExpressao(p.filhos[1]).Ok? && ParseExpressao(p.filhos[2]).Ok?
      ==> ParseParaCada(p) == Err(Faltando(declaracao_para_cada))
  {
  }

  /** `para cada v de a até b { … }`: the variable's text, both bounds and
      the body, from the first four children. */
  lemma ParaCadaCompleto(p: Par, inicio: Expressao, fim: Expressao, corpo: Declaracao)
    requires |p.filhos| >= 4
    requires ParseExpressao(p.filhos[1]) == Ok(inicio) && ParseExpressao(p.filhos[2]) == Ok(fim)
    requires ParseBloco(p.filhos[3]) == Ok(corpo)
    ensures ParseParaCada(p) == Ok(ParaCada(p.filhos[0].texto, inicio, fim, corpo))
  {
  }

  /** `enquanto`: a missing condition or body is an error. */
  lemma EnquantoFaltando(p: Par)
    ensures |p.filhos| == 0 ==> ParseEnquanto(p) == Err(Faltando(declaracao_enquanto))
    ensures |p.filhos| >= 1 && ParseExpressao(p.filhos[0]).Err?
      ==> ParseEnquanto(p) == Err(ParseExpressao(p.filhos[0]).error)
    ensures |p.filhos| == 1 && ParseExpressao(p.filhos[0]).Ok?
      ==> ParseEnquanto(p) == Err(Faltando(declaracao_enquanto))
  {
  }

  /** `enquanto c { … }`: the condition, then the body. */
  lemma EnquantoCompleto(p: Par, c: Expressao, corpo: Declaracao)
    requires |p.filhos| >= 2 && ParseExpressao(p.filhos[0]) == Ok(c) && ParseBloco(p.filhos[1]) == Ok(corpo)
    ensures ParseEnquanto(p) == Ok(Enquanto(c, corpo))
  {
  }

  /** `repita`: the body comes first, so a failing body is reported before a
      missing condition. */
  lemma RepitaFaltando(p: Par)
    ensures |p.filhos| == 0 ==> ParseRepita(p) == Err(Faltando(declaracao_repita))
    ensures |p.filhos| >= 1 && ParseBloco(p.filhos[0]).Err?
      ==> ParseRepita(p) == Err(ParseBloco(p.filhos[0]).error)
    ensures |p.filhos| == 1 && ParseBloco(p.filhos[0]).Ok?
      ==> ParseRepita(p) == Err(Faltando(declaracao_repita))
  {
  }

  /** `repita { … } até c`: the body, then the condition. */
  lemma RepitaCompleto(p: Par, corpo: Declaracao, c: Expressao)
    requires |p.filhos| >= 2 && ParseBloco(p.filhos[0]) == Ok(corpo) && ParseExpressao(p.filhos[1]) == Ok(c)
    ensures ParseRepita(p) == Ok(Repita(corpo, c))
  {
  }

  /** `quando der erro`: a missing block or error variable is an error, and a
      failing first block is reported first. */
  lemma QuandoDerErroFaltando(p: Par)
    ensures |p.filhos| == 0 ==> ParseQuandoDerErro(p) == Err(Faltando(declaracao_quando_der_erro))
    ensures |p.filhos| >= 1 && ParseBloco(p.filhos[0]).Err?
      ==> ParseQuandoDerErro(p) == Err(ParseBloco(p.filhos[0]).error)
    ensures 1 <= |p.filhos| < 3 && ParseBloco(p.filhos[0]).Ok?
      ==> ParseQuandoDerErro(p) == Err(Faltando(declaracao_quando_der_erro))
  {
  }

  /** The attempted block, the error variable's text and the handling block. */
  lemma QuandoDerErroCompleto(p: Par, tentativa: Declaracao, captura: Declaracao)
    requires |p.filhos| >= 3 && ParseBloco(p.filhos[0]) == Ok(tentativa) && ParseBloco(p.filhos[2]) == Ok(captura)
    ensures ParseQuandoDerErro(p) == Ok(QuandoDerErro(tentativa, p.filhos[1].texto, captura))
  {
  }

  /** `mostrar e`: the first child's expression, or an error without one. */
  lemma MostrarPartes(p: Par)
    ensures p.filhos == [] ==> ParseMostrar(p) == Err(Faltando(declaracao_mostrar))
    ensures p.filhos != [] && ParseExpressao(p.filhos[0]).Ok?
      ==> ParseMostrar(p) == Ok(Mostrar(ParseExpressao(p.filhos[0]).value))
    ensures p.filhos != [] && ParseExpressao(p.filhos[0]).Err?
      ==> ParseMostrar(p) == Err(ParseExpressao(p.filhos[0]).error)
  {
  }

  // ---------------------------------------------------------------------
  // List and dictionary literals

  /** From index `i` on, expression children give the list's elements in
      order. */
  lemma {:induction false} ExpressoesDeOrdem(pai: Par, i: nat, es: seq<Expressao>)
    requires |pai.filhos| == |es| && i <= |es|
    requires forall j | 0 <= j < |es| :: pai.filhos[j].regra == expressao && ParseExpressao(pai.filhos[j]) == Ok(es[j])
    ensures ExpressoesDe(pai, i) == Ok(es[i..])
    decreases |es| - i
  {
    if i < |es| {
      ExpressoesDeOrdem(pai, i + 1, es);
      ExpressoesDePasso(pai, i, es[i], es[i + 1..]);
      assert es[i..] == [es[i]] + es[i + 1..];
    } else {
      assert es[i..] == [];
      assert ExpressoesDe(pai, i) == Ok([]);
    }
  }

  lemma ExpressoesDePasso(pai: Par, i: nat, e: Expressao, resto: seq<Expressao>)
    requires i < |pai.filhos| && pai.filhos[i].regra == expressao
    requires ParseExpressao(pai.filhos[i]) == Ok(e) && ExpressoesDe(pai, i + 1) == Ok(resto)
    ensures ExpressoesDe(pai, i) == Ok([e] + resto)
  {
  }

  /** A list literal holds its expression children in source order. */
  lemma ListaOrdem(externo: string, q: Par, es: seq<Expressao>)
    requires q.regra == lista_literal && |q.filhos| == |es|
    requires forall j | 0 <= j < |es| :: q.filhos[j].regra == expressao && ParseExpressao(q.filhos[j]) == Ok(es[j])
    ensures ParseFator(Par(fator, externo, [q])) == Ok(ListaLiteral(es))
  {
    ExpressoesDeOrdem(q, 0, es);
    assert es[0..] == es;
    FatorLista(externo, q, es);
  }

  lemma FatorLista(externo: string, q: Par, es: seq<Expressao>)
    requires q.regra == lista_literal && ExpressoesDe(q, 0) == Ok(es)
    ensures ParseFator(Par(fator, externo, [q])) == Ok(ListaLiteral(es))
  {
  }

  /** From index `i` on, key-value children give the entries in order. */
  lemma {:induction false} ParesDeOrdem(pai: Par, i: nat, ps: seq<(Expressao, Expressao)>)
    requires |pai.filhos| == |ps| && i <= |ps|
    requires forall j | 0 <= j < |ps| ::
      && pai.filhos[j].regra == par_chave_valor && |pai.filhos[j].filhos| >= 2
      && ParseExpressao(pai.filhos[j].filhos[0]) == Ok(ps[j].0)
      && ParseExpressao(pai.filhos[j].filhos[1]) == Ok(ps[j].1)
    ensures ParesDe(pai, i) == Ok(ps[i..])
    decreases |ps| - i
  {
    if i < |ps| {
      ParesDeOrdem(pai, i + 1, ps);
      ParesDePasso(pai, i, ps[i].0, ps[i].1, ps[i + 1..]);
      assert ps[i..] == [(ps[i].0, ps[i].1)] + ps[i + 1..];
    } else {
      assert ps[i..] == [];
      assert ParesDe(pai, i) == Ok([]);
    }
  }

  lemma ParesDePasso(pai: Par, i: nat, chave: Expressao, valor: Expressao, resto: seq<(Expressao, Expressao)>)
    requires i < |pai.filhos| && pai.filhos[i].regra == par_chave_valor && |pai.filhos[i].filhos| >= 2
    requires ParseExpressao(pai.filhos[i].filhos[0]) == Ok(chave) && ParseExpressao(pai.filhos[i].filhos[1]) == Ok(valor)
    requires ParesDe(pai, i + 1) == Ok(resto)
    ensures ParesDe(pai, i) == Ok([(chave, valor)] + resto)
  {
  }

  /** A dictionary literal holds its key-value pairs in source order. */
  lemma DicionarioOrdem(externo: string, q: Par, ps: seq<(Expressao, Expressao)>)
    requires q.regra == dicionario_literal && |q.filhos| == |ps|
    requires forall j | 0 <= j < |ps| ::
      && q.filhos[j].regra == par_chave_valor && |q.filhos[j].filhos| >= 2
      && ParseExpressao(q.filhos[j].filhos[0]) == Ok(ps[j].0)
      && ParseExpressao(q.filhos[j].filhos[1]) == Ok(ps[j].1)
    ensures ParseFator(Par(fator, externo, [q])) == Ok(DicionarioLiteral(ps))
  {
    ParesDeOrdem(q, 0, ps);
    assert ps[0..] == ps;
    FatorDicionario(externo, q, ps);
  }

  lemma FatorDicionario(externo: string, q: Par, ps: seq<(Expressao, Expressao)>)
    requires q.regra == dicionario_literal && ParesDe(q, 0) == Ok(ps)
    ensures ParseFator(Par(fator, externo, [q])) == Ok(DicionarioLiteral(ps))
  {
  }

  // ---------------------------------------------------------------------
  // Text literals

  /** A simple or interpolated literal gives back exactly what lies between
      its quotes, placeholders included. */
  lemma TextoEntreAspas(x: string, regra: Regra, externo: string, internos: seq<Par>)
    requires regra == texto_simples || regra == texto_interpolado
    ensures ParseTextoLiteral(Par(texto_literal, externo, [Par(regra, "\"" + x + "\"", internos)]))
      == Ok(TextoLiteral(x))
  {
    var t := "\"" + x + "\"";
    assert t[1..|t| - 1] == x;
  }

  /** A multi-line literal gives back what lies between its triple quotes. */
  lemma TextoEntreAspasTriplas(x: string, externo: string, internos: seq<Par>)
    ensures ParseTextoLiteral(Par(texto_literal, externo, [Par(texto_multilinha, "\"\"\"" + x + "\"\"\"", internos)]))
      == Ok(TextoLiteral(x))
  {
    var t := "\"\"\"" + x + "\"\"\"";
    assert t[3..|t| - 3] == x;
  }

  // ---------------------------------------------------------------------
  // The program

  /** Declaration children become the program's declarations in source
      order. */
  lemma {:induction false} ProgramaOrdem(filhos: seq<Par>, ds: seq<Declaracao>)
    requires |filhos| == |ds|
    requires forall i | 0 <= i < |filhos| :: filhos[i].regra == declaracao && ParseDeclaracao(filhos[i]) == Ok(ds[i])
    ensures DeclaracoesPrograma(filhos) == Ok(ds)
    decreases |filhos|
  {
    if filhos != [] {
      var n := |filhos|;
      ProgramaOrdem(filhos[..n - 1], ds[..n - 1]);
      assert ds == ds[..n - 1] + [ds[n - 1]];
    }
  }

  /** The end-of-input marker adds nothing. */
  lemma ProgramaFim(filhos: seq<Par>, fim: Par)
    requires fim.regra == EOI
    ensures DeclaracoesPrograma(filhos + [fim]) == DeclaracoesPrograma(filhos)
  {
    assert (filhos + [fim])[..|filhos|] == filhos;
  }
}
