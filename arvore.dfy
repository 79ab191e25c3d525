/** The builders that turn a pest parse tree into the syntax tree
    (`PBRParser::parse_*` in src/parser.rs). The grammar itself is not part of
    this model: a builder takes any tree and does with the children it finds
    what the source does — the pieces it requires, the ones it skips, the
    order in which it reports a missing piece or a failing child. */
module Arvore {
  import opened Wrappers
  import opened Numeros
  import opened Ast

  /** The grammar rules the builders look at, under the grammar's own names;
      every other rule (operator tokens, keywords) is `Outra`. */
  datatype Regra =
    | programa | declaracao | EOI
    | declaracao_variavel | declaracao_funcao | declaracao_retorno | declaracao_condicional
    | declaracao_para_cada | declaracao_enquanto | declaracao_repita | declaracao_pare
    | declaracao_continue | declaracao_quando_der_erro | declaracao_modelo | declaracao_modulo
    | declaracao_importar | declaracao_mostrar
    | expressao | modificador_visibilidade | tipo | parametro | campo
    | atribuicao | or_expr | and_expr | comparacao | soma | termo | fator
    | texto_literal | texto_simples | texto_multilinha | texto_interpolado
    | numero_literal | logico_literal | nada_literal | lista_literal | dicionario_literal
    | par_chave_valor | chamada | acesso_membro | identificador
    | Outra(nome: string)

  /** A pest `Pair`: its rule, the text it spans and its inner pairs. */
  datatype Par = Par(regra: Regra, texto: string, filhos: seq<Par>)

  /** What the builders report, by kind; the messages are not modelled. */
  datatype ErroAnalise =
    | RegraInesperada(regra: Regra)        // a program child that is neither a declaration nor EOI
    | Faltando(regra: Regra)               // a pair of this rule lacks a piece it needs
    | ElementoInesperado(regra: Regra)     // a variable declaration holds something else
    | DeclaracaoDesconhecida(regra: Regra)
    | ExpressaoDesconhecida(regra: Regra)
    | AtribuicaoSemIdentificador
    | OperadorDesconhecido(texto: string)
    | NumeroInvalido(texto: string)
    | LogicoInvalido(texto: string)
    | TextoDesconhecido(regra: Regra)
    | FatorDesconhecido(regra: Regra)
    | FatiaInvalida(texto: string)         // the quote-stripping slice would panic

  // ---------------------------------------------------------------------
  // Types, operators and visibility

  /** `parse_tipo`: the three built-in names (with or without accents), and
      any other text as a user type; it never yields `()` or `Option`. */
  function ParseTipo(p: Par): (r: Tipo)
    ensures !r.Void? && !r.Opcional?
    ensures r == Texto <==> p.texto == "texto"
    ensures r == Numero <==> p.texto == "número" || p.texto == "numero"
    ensures r == Logico <==> p.texto == "lógico" || p.texto == "logico"
    ensures r.Personalizado? ==> r.nome == p.texto
  {
    if p.texto == "texto" then Texto
    else if p.texto == "número" || p.texto == "numero" then Numero
    else if p.texto == "lógico" || p.texto == "logico" then Logico
    else Personalizado(p.texto)
  }

  /** The comparison operators by their text; both spellings of equality
      give `Igual`, `em` gives `Contem`, anything else is an error. */
  function OperadorComparacao(t: string): (r: Result<Operador, ErroAnalise>)
    ensures r == Ok(Igual) <==> t == "==" || t == "é igual a"
    ensures r == Ok(Contem) <==> t == "em"
    ensures r.Err? <==> t !in {">", ">=", "<", "<=", "==", "!=", "é igual a", "em"}
    ensures r.Err? ==> r.error == OperadorDesconhecido(t)
  {
    if t == ">" then Ok(Maior)
    else if t == ">=" then Ok(MaiorIgual)
    else if t == "<" then Ok(Menor)
    else if t == "<=" then Ok(MenorIgual)
    else if t == "==" then Ok(Igual)
    else if t == "!=" then Ok(Diferente)
    else if t == "é igual a" then Ok(Igual)
    else if t == "em" then Ok(Contem)
    else Err(OperadorDesconhecido(t))
  }

  /** The two levels of binary arithmetic, each with its operator table. */
  datatype Nivel = Aditivo | Multiplicativo

  function OperadorDoNivel(nivel: Nivel, t: string): (r: Result<Operador, ErroAnalise>)
    ensures r.Ok? ==> (if nivel == Aditivo then r.value in {Soma, Subtracao}
                       else r.value in {Multiplicacao, Divisao, Resto})
    ensures r.Err? ==> r.error == OperadorDesconhecido(t)
    ensures nivel == Multiplicativo ==> (r == Ok(Resto) <==> t == "resto" || t == "%")
  {
    match nivel
    case Aditivo =>
      if t == "+" then Ok(Soma) else if t == "-" then Ok(Subtracao) else Err(OperadorDesconhecido(t))
    case Multiplicativo =>
      if t == "*" then Ok(Multiplicacao) else if t == "/" then Ok(Divisao)
      else if t == "resto" || t == "%" then Ok(Resto) else Err(OperadorDesconhecido(t))
  }

  /** Where the pieces after an optional visibility modifier start. */
  function Inicio(filhos: seq<Par>): nat {
    if filhos != [] && filhos[0].regra == modificador_visibilidade then 1 else 0
  }

  // ---------------------------------------------------------------------
  // Declarations

  function ParseDeclaracao(p: Par): Result<Declaracao, ErroAnalise>
    decreases p, 4, 0
  {
    if p.filhos == [] then Err(Faltando(declaracao))
    else
      var q := p.filhos[0];
      match q.regra
      case declaracao_variavel => ParseVariavel(q)
      case declaracao_funcao => ParseFuncao(q)
      case declaracao_retorno => ParseRetorno(q)
      case declaracao_condicional => ParseCondicional(q)
      case declaracao_para_cada => ParseParaCada(q)
      case declaracao_enquanto => ParseEnquanto(q)
      case declaracao_repita => ParseRepita(q)
      case declaracao_pare => Ok(Pare)
      case declaracao_continue => Ok(Continue)
      case declaracao_quando_der_erro => ParseQuandoDerErro(q)
      case declaracao_modelo => ParseModelo(q)
      case declaracao_modulo => ParseModulo(q)
      case declaracao_importar => ParseImportar(q)
      case declaracao_mostrar => ParseMostrar(q)
      case expressao => var e :- ParseExpressao(q); Ok(Expressao(e))
      case _ => Err(DeclaracaoDesconhecida(q.regra))
  }

  /** `pense [publico] nome [: tipo] [= valor]`: after the name, each type
      or expression child sets the type or the value (the last one wins),
      and any other child is an error. */
  function ParseVariavel(p: Par): Result<Declaracao, ErroAnalise>
    decreases p, 3, 0
  {
    if p.filhos == [] then Err(Faltando(declaracao_variavel))
    else
      var k := Inicio(p.filhos);
      if k >= |p.filhos| then Err(Faltando(declaracao_variavel))
      else
        var partes :- ElementosVariavel(p, k + 1, None, None);
        Ok(Variavel(p.filhos[k].texto, partes.0, partes.1, k == 1))
  }

  function ElementosVariavel(pai: Par, i: nat, tipoAtual: Option<Tipo>, valorAtual: Option<Expressao>)
    : Result<(Option<Tipo>, Option<Expressao>), ErroAnalise>
    requires i <= |pai.filhos|
    decreases pai, 1, |pai.filhos| - i
  {
    if i == |pai.filhos| then Ok((tipoAtual, valorAtual))
    else
      var f := pai.filhos[i];
      if f.regra == tipo then ElementosVariavel(pai, i + 1, Some(ParseTipo(f)), valorAtual)
      else if f.regra == expressao then
        var v :- ParseExpressao(f);
        ElementosVariavel(pai, i + 1, tipoAtual, Some(v))
      else Err(ElementoInesperado(f.regra))
  }

  /** `funcao [publico] nome (params) [: tipo] { corpo }`. */
  function ParseFuncao(p: Par): Result<Declaracao, ErroAnalise>
    decreases p, 3, 0
  {
    if p.filhos == [] then Err(Faltando(declaracao_funcao))
    else
      var k := Inicio(p.filhos);
      if k + 1 >= |p.filhos| then Err(Faltando(declaracao_funcao))
      else
        var parametros :- ParseParametros(p.filhos[k + 1].filhos);
        var comTipo := k + 2 < |p.filhos| && p.filhos[k + 2].regra == tipo;
        var j := if comTipo then k + 3 else k + 2;
        if j >= |p.filhos| then Err(Faltando(declaracao_funcao))
        else
          var corpo :- ParseBloco(p.filhos[j]);
          Ok(Funcao(p.filhos[k].texto, parametros,
                    if comTipo then Some(ParseTipo(p.filhos[k + 2])) else None, corpo, k == 1))
  }

  /** The parameter children, each a name and a type; other children are
      skipped. */
  function ParseParametros(filhos: seq<Par>): (r: Result<seq<(string, Tipo)>, ErroAnalise>)
    ensures r.Err? ==> r.error == Faltando(parametro)
  {
    if filhos == [] then Ok([])
    else
      var resto := filhos[1..];
      if filhos[0].regra != parametro then ParseParametros(resto)
      else if |filhos[0].filhos| < 2 then Err(Faltando(parametro))
      else
        var p := (filhos[0].filhos[0].texto, ParseTipo(filhos[0].filhos[1]));
        var ps :- ParseParametros(resto);
        Ok([p] + ps)
  }

  /** A block: the declaration children in order; other children are
      skipped. */
  function ParseBloco(p: Par): Result<Declaracao, ErroAnalise>
    decreases p, 3, 0
  {
    var ds :- DeclaracoesDe(p, 0);
    Ok(Bloco(ds))
  }

  function DeclaracoesDe(pai: Par, i: nat): Result<seq<Declaracao>, ErroAnalise>
    requires i <= |pai.filhos|
    decreases pai, 1, |pai.filhos| - i
  {
    if i == |pai.filhos| then Ok([])
    else if pai.filhos[i].regra == declaracao then
      var d :- ParseDeclaracao(pai.filhos[i]);
      var resto :- DeclaracoesDe(pai, i + 1);
      Ok([d] + resto)
    else DeclaracoesDe(pai, i + 1)
  }

  /** `retorne [expr]`: the first expression child, if any. */
  function ParseRetorno(p: Par): Result<Declaracao, ErroAnalise>
    decreases p, 3, 0
  {
    var e :- PrimeiraExpressao(p, 0);
    Ok(Retorno(e))
  }

  function PrimeiraExpressao(pai: Par, i: nat): Result<Option<Expressao>, ErroAnalise>
    requires i <= |pai.filhos|
    decreases pai, 1, |pai.filhos| - i
  {
    if i == |pai.filhos| then Ok(None)
    else if pai.filhos[i].regra == expressao then
      var e :- ParseExpressao(pai.filhos[i]);
      Ok(Some(e))
    else PrimeiraExpressao(pai, i + 1)
  }

  /** `se c { … } [senão { … }]`. */
  function ParseCondicional(p: Par): Result<Declaracao, ErroAnalise>
    decreases p, 3, 0
  {
    if |p.filhos| < 1 then Err(Faltando(declaracao_condicional))
    else
      var c :- ParseExpressao(p.filhos[0]);
      if |p.filhos| < 2 then Err(Faltando(declaracao_condicional))
      else
        var s :- ParseBloco(p.filhos[1]);
        if |p.filhos| < 3 then Ok(Se(c, s, None))
        else
          var senao :- ParseBloco(p.filhos[2]);
          Ok(Se(c, s, Some(senao)))
  }

  /** `para cada v de a até b { … }`. */
  function ParseParaCada(p: Par): Result<Declaracao, ErroAnalise>
    decreases p, 3, 0
  {
    if |p.filhos| < 2 then Err(Faltando(declaracao_para_cada))
    else
      var inicio :- ParseExpressao(p.filhos[1]);
      if |p.filhos| < 3 then Err(Faltando(declaracao_para_cada))
      else
        var fim :- ParseExpressao(p.filhos[2]);
        if |p.filhos| < 4 then Err(Faltando(declaracao_para_cada))
        else
          var corpo :- ParseBloco(p.filhos[3]);
          Ok(ParaCada(p.filhos[0].texto, inicio, fim, corpo))
  }

  function ParseEnquanto(p: Par): Result<Declaracao, ErroAnalise>
    decreases p, 3, 0
  {
    if |p.filhos| < 1 then Err(Faltando(declaracao_enquanto))
    else
      var c :- ParseExpressao(p.filhos[0]);
      if |p.filhos| < 2 then Err(Faltando(declaracao_enquanto))
      else
        var corpo :- ParseBloco(p.filhos[1]);
        Ok(Enquanto(c, corpo))
  }

  /** `repita { … } até c`: the body comes first in the tree. */
  function ParseRepita(p: Par): Result<Declaracao, ErroAnalise>
    decreases p, 3, 0
  {
    if |p.filhos| < 1 then Err(Faltando(declaracao_repita))
    else
      var corpo :- ParseBloco(p.filhos[0]);
      if |p.filhos| < 2 then Err(Faltando(declaracao_repita))
      else
        var c :- ParseExpressao(p.filhos[1]);
        Ok(Repita(corpo, c))
  }

  function ParseQuandoDerErro(p: Par): Result<Declaracao, ErroAnalise>
    decreases p, 3, 0
  {
    if |p.filhos| < 1 then Err(Faltando(declaracao_quando_der_erro))
    else
      var tentativa :- ParseBloco(p.filhos[0]);
      if |p.filhos| < 3 then Err(Faltando(declaracao_quando_der_erro))
      else
        var captura :- ParseBloco(p.filhos[2]);
        Ok(QuandoDerErro(tentativa, p.filhos[1].texto, captura))
  }

  /** `modelo [publico] Nome { campos }`: each field child carries its own
      optional modifier; children of other rules are skipped. */
  function ParseModelo(p: Par): Result<Declaracao, ErroAnalise>
    decreases p, 3, 0
  {
    if p.filhos == [] then Err(Faltando(declaracao_modelo))
    else
      var k := Inicio(p.filhos);
      if k >= |p.filhos| then Err(Faltando(declaracao_modelo))
      else
        var campos :- ParseCampos(p.filhos[k + 1..]);
        Ok(Modelo(p.filhos[k].texto, campos, k == 1))
  }

  /** One field: its visibility is its own first child, whatever the model's. */
  function ParseCampo(c: Par): (r: Result<Campo, ErroAnalise>)
    ensures r.Ok? <==> |c.filhos| >= Inicio(c.filhos) + 2
    ensures r.Ok? ==> (r.value.publico <==> c.filhos[0].regra == modificador_visibilidade)
    ensures r.Ok? ==>
      && r.value.nome == c.filhos[Inicio(c.filhos)].texto
      && r.value.tipo == ParseTipo(c.filhos[Inicio(c.filhos) + 1])
  {
    if c.filhos == [] then Err(Faltando(campo))
    else
      var k := Inicio(c.filhos);
      if k + 1 >= |c.filhos| then Err(Faltando(campo))
      else Ok(Campo(c.filhos[k].texto, ParseTipo(c.filhos[k + 1]), k == 1))
  }

  function ParseCampos(filhos: seq<Par>): Result<seq<Campo>, ErroAnalise> {
    if filhos == [] then Ok([])
    else if filhos[0].regra != campo then ParseCampos(filhos[1..])
    else
      var c :- ParseCampo(filhos[0]);
      var cs :- ParseCampos(filhos[1..]);
      Ok([c] + cs)
  }

  /** `modulo nome { … }`: the declarations of the block child. */
  function ParseModulo(p: Par): Result<Declaracao, ErroAnalise>
    decreases p, 3, 0
  {
    if |p.filhos| < 2 then Err(Faltando(declaracao_modulo))
    else
      var ds :- DeclaracoesDe(p.filhos[1], 0);
      Ok(Modulo(p.filhos[0].texto, ds))
  }

  /** `importar a.b.c`: the texts of the path's segments. */
  function ParseImportar(p: Par): (r: Result<Declaracao, ErroAnalise>)
    ensures r.Ok? <==> p.filhos != []
    ensures r.Ok? ==>
      && r.value.Importar?
      && |r.value.caminho| == |p.filhos[0].filhos|
      && (forall i | 0 <= i < |r.value.caminho| :: r.value.caminho[i] == p.filhos[0].filhos[i].texto)
  {
    if p.filhos == [] then Err(Faltando(declaracao_importar))
    else
      var segmentos := p.filhos[0].filhos;
      Ok(Importar(seq(|segmentos|, i requires 0 <= i < |segmentos| => segmentos[i].texto)))
  }

  function ParseMostrar(p: Par): Result<Declaracao, ErroAnalise>
    decreases p, 3, 0
  {
    if p.filhos == [] then Err(Faltando(declaracao_mostrar))
    else
      var e :- ParseExpressao(p.filhos[0]);
      Ok(Mostrar(e))
  }

  // ---------------------------------------------------------------------
  // Expressions

  function ParseExpressao(p: Par): Result<Expressao, ErroAnalise>
    decreases p, 4, 0
  {
    match p.regra
    case expressao => if p.filhos == [] then Err(Faltando(expressao)) else ParseExpressao(p.filhos[0])
    case atribuicao => ParseAtribuicao(p)
    case or_expr => ParseLogica(p, Ou)
    case and_expr => ParseLogica(p, E)
    case comparacao => ParseComparacao(p)
    case soma => ParseAritmetica(p, Aditivo)
    case termo => ParseAritmetica(p, Multiplicativo)
    case fator => ParseFator(p)
    case _ => Err(ExpressaoDesconhecida(p.regra))
  }

  /** `alvo = valor` is an assignment only to a bare name; a lone child is
      just that expression. */
  function ParseAtribuicao(p: Par): Result<Expressao, ErroAnalise>
    decreases p, 3, 0
  {
    if p.filhos == [] then Err(Faltando(atribuicao))
    else
      var esquerda :- ParseExpressao(p.filhos[0]);
      if |p.filhos| < 2 then Ok(esquerda)
      else
        var valor :- ParseExpressao(p.filhos[1]);
        if esquerda.Identificador? then Ok(Atribuicao(esquerda.nome, valor))
        else Err(AtribuicaoSemIdentificador)
  }

  /** `ou` / `e` chains: every child after the first is a right operand. */
  function ParseLogica(p: Par, op: Operador): Result<Expressao, ErroAnalise>
    decreases p, 3, 0
  {
    if p.filhos == [] then Err(Faltando(p.regra))
    else
      var primeiro :- ParseExpressao(p.filhos[0]);
      DobrarLogica(p, op, 1, primeiro)
  }

  function DobrarLogica(pai: Par, op: Operador, i: nat, acumulado: Expressao): Result<Expressao, ErroAnalise>
    requires i <= |pai.filhos|
    decreases pai, 1, |pai.filhos| - i
  {
    if i == |pai.filhos| then Ok(acumulado)
    else
      var direita :- ParseExpressao(pai.filhos[i]);
      DobrarLogica(pai, op, i + 1, Operacao(op, acumulado, direita))
  }

  /** At most one comparison: left, operator text, right; any further
      children are not looked at. */
  function ParseComparacao(p: Par): Result<Expressao, ErroAnalise>
    decreases p, 3, 0
  {
    if p.filhos == [] then Err(Faltando(comparacao))
    else
      var esquerda :- ParseExpressao(p.filhos[0]);
      if |p.filhos| < 2 then Ok(esquerda)
      else
        var op :- OperadorComparacao(p.filhos[1].texto);
        if |p.filhos| < 3 then Err(Faltando(comparacao))
        else
          var direita :- ParseExpressao(p.filhos[2]);
          Ok(Operacao(op, esquerda, direita))
  }

  /** `soma` and `termo`: operand (operator operand)*. */
  function ParseAritmetica(p: Par, nivel: Nivel): Result<Expressao, ErroAnalise>
    decreases p, 3, 0
  {
    if p.filhos == [] then Err(Faltando(p.regra))
    else
      var primeiro :- ParseExpressao(p.filhos[0]);
      DobrarAritmetica(p, nivel, 1, primeiro)
  }

  function DobrarAritmetica(pai: Par, nivel: Nivel, i: nat, acumulado: Expressao)
    : Result<Expressao, ErroAnalise>
    requires i <= |pai.filhos|
    decreases pai, 1, |pai.filhos| - i
  {
    if i == |pai.filhos| then Ok(acumulado)
    else
      var op :- OperadorDoNivel(nivel, pai.filhos[i].texto);
      if i + 1 == |pai.filhos| then Err(Faltando(pai.regra))
      else
        var direita :- ParseExpressao(pai.filhos[i + 1]);
        DobrarAritmetica(pai, nivel, i + 2, Operacao(op, acumulado, direita))
  }

  /** A factor. A negation is recognised by the text of the first child,
      and its operand is taken from that same child's first inner pair. */
  function ParseFator(p: Par): Result<Expressao, ErroAnalise>
    decreases p, 3, 0
  {
    if p.filhos == [] then Err(Faltando(fator))
    else
      var q := p.filhos[0];
      match q.regra
      case texto_literal => ParseTextoLiteral(q)
      case numero_literal =>
        (match LerF64(q.texto)
         case Some(n) => Ok(NumeroLiteral(n))
         case None => Err(NumeroInvalido(q.texto)))
      case logico_literal =>
        if q.texto == "verdadeiro" then Ok(LogicoLiteral(true))
        else if q.texto == "falso" then Ok(LogicoLiteral(false))
        else Err(LogicoInvalido(q.texto))
      case nada_literal => Ok(Nada)
      case lista_literal =>
        var es :- ExpressoesDe(q, 0);
        Ok(ListaLiteral(es))
      case dicionario_literal =>
        var ps :- ParesDe(q, 0);
        Ok(DicionarioLiteral(ps))
      case chamada =>
        if q.filhos == [] then Err(Faltando(chamada))
        else
          var argumentos :- ExpressoesDe(q, 1);
          Ok(Chamada(q.filhos[0].texto, argumentos))
      case acesso_membro =>
        if |q.filhos| < 2 then Err(Faltando(acesso_membro))
        else Ok(AcessoMembro(Identificador(q.filhos[0].texto), q.filhos[1].texto))
      case identificador => Ok(Identificador(q.texto))
      case expressao => ParseExpressao(q)
      case _ =>
        if q.texto == "!" || q.texto == "não" then
          if q.filhos == [] then Err(Faltando(fator))
          else
            var e :- ParseExpressao(q.filhos[0]);
            Ok(Negacao(e))
        else Err(FatorDesconhecido(q.regra))
  }

  /** The expression children from index `i`, in order; others are skipped. */
  function ExpressoesDe(pai: Par, i: nat): Result<seq<Expressao>, ErroAnalise>
    requires i <= |pai.filhos|
    decreases pai, 1, |pai.filhos| - i
  {
    if i == |pai.filhos| then Ok([])
    else if pai.filhos[i].regra == expressao then
      var e :- ParseExpressao(pai.filhos[i]);
      var resto :- ExpressoesDe(pai, i + 1);
      Ok([e] + resto)
    else ExpressoesDe(pai, i + 1)
  }

  /** The key-value children from index `i`, in order. */
  function ParesDe(pai: Par, i: nat): Result<seq<(Expressao, Expressao)>, ErroAnalise>
    requires i <= |pai.filhos|
    decreases pai, 1, |pai.filhos| - i
  {
    if i == |pai.filhos| then Ok([])
    else if pai.filhos[i].regra == par_chave_valor then
      var par := pai.filhos[i];
      if par.filhos == [] then Err(Faltando(par_chave_valor))
      else
        var chave :- ParseExpressao(par.filhos[0]);
        if |par.filhos| < 2 then Err(Faltando(par_chave_valor))
        else
          var valor :- ParseExpressao(par.filhos[1]);
          var resto :- ParesDe(pai, i + 1);
          Ok([(chave, valor)] + resto)
    else ParesDe(pai, i + 1)
  }

  /** A text literal without its delimiters: one character at each end for
      simple and interpolated texts, three for multi-line ones. Placeholders
      stay in the text as written. */
  function ParseTextoLiteral(p: Par): (r: Result<Expressao, ErroAnalise>)
    ensures r.Ok? ==> r.value.TextoLiteral?
  {
    if p.filhos == [] then Err(Faltando(texto_literal))
    else
      var q := p.filhos[0];
      var t := q.texto;
      match q.regra
      case texto_simples => if |t| >= 2 then Ok(TextoLiteral(t[1..|t| - 1])) else Err(FatiaInvalida(t))
      case texto_interpolado => if |t| >= 2 then Ok(TextoLiteral(t[1..|t| - 1])) else Err(FatiaInvalida(t))
      case texto_multilinha => if |t| >= 6 then Ok(TextoLiteral(t[3..|t| - 3])) else Err(FatiaInvalida(t))
      case _ => Err(TextoDesconhecido(q.regra))
  }

  // ---------------------------------------------------------------------
  // The program

  /** The declarations of a program pair's children; the end
      marker is skipped and any other rule is an error. */
  function DeclaracoesPrograma(filhos: seq<Par>): Result<seq<Declaracao>, ErroAnalise> {
    if filhos == [] then Ok([])
    else
      var antes :- DeclaracoesPrograma(filhos[..|filhos| - 1]);
      var f := filhos[|filhos| - 1];
      if f.regra == declaracao then
        var d :- ParseDeclaracao(f);
        Ok(antes + [d])
      else if f.regra == EOI then Ok(antes)
      else Err(RegraInesperada(f.regra))
  }

  lemma DeclaracoesProgramaPasso(filhos: seq<Par>, i: nat)
    requires i < |filhos|
    ensures var antes := DeclaracoesPrograma(filhos[..i]);
      var f := filhos[i];
      DeclaracoesPrograma(filhos[..i + 1]) ==
        if antes.Err? then antes
        else if f.regra == declaracao then
          (if ParseDeclaracao(f).Err? then Err(ParseDeclaracao(f).error)
           else Ok(antes.value + [ParseDeclaracao(f).value]))
        else if f.regra == EOI then antes
        else Err(RegraInesperada(f.regra))
  {
    assert filhos[..i + 1][..i] == filhos[..i];
  }

  /** Once a prefix fails, the whole program fails with that error. */
  lemma {:induction false} DeclaracoesProgramaFalha(filhos: seq<Par>, i: nat)
    requires i <= |filhos|
    requires DeclaracoesPrograma(filhos[..i]).Err?
    ensures DeclaracoesPrograma(filhos) == DeclaracoesPrograma(filhos[..i])
    decreases |filhos|
  {
    if i == |filhos| {
      assert filhos[..i] == filhos;
    } else {
      var inicio := filhos[..|filhos| - 1];
      assert inicio[..i] == filhos[..i];
      DeclaracoesProgramaFalha(inicio, i);
    }
  }

  /** `parse_programa`: a fresh program that each declaration child is
      appended to, in order. */
  method ParsePrograma(p: Par) returns (r: Result<Programa, ErroAnalise>)
    ensures r.Ok? <==> DeclaracoesPrograma(p.filhos).Ok?
    ensures r.Ok? ==> fresh(r.value) && r.value.declaracoes == DeclaracoesPrograma(p.filhos).value
    ensures r.Err? ==> r.error == DeclaracoesPrograma(p.filhos).error
  {
    var programa := new Programa();
    for i := 0 to |p.filhos|
      invariant fresh(programa)
      invariant DeclaracoesPrograma(p.filhos[..i]).Ok?
      invariant programa.declaracoes == DeclaracoesPrograma(p.filhos[..i]).value
    {
      DeclaracoesProgramaPasso(p.filhos, i);
      var f := p.filhos[i];
      if f.regra == declaracao {
        var d := ParseDeclaracao(f);
        if d.Err? {
          DeclaracoesProgramaFalha(p.filhos, i + 1);
          return Err(d.error);
        }
        programa.AdicionarDeclaracao(d.value);
      } else if f.regra != EOI {
        DeclaracoesProgramaFalha(p.filhos, i + 1);
        return Err(RegraInesperada(f.regra));
      }
    }
    assert p.filhos[..|p.filhos|] == p.filhos;
    return Ok(programa);
  }

  /** `analisar_com_pest` after the grammar has run: the first pair is the
      program; with no pair at all the program is empty. */
  method AnalisarComPest(pares: seq<Par>) returns (r: Result<Programa, ErroAnalise>)
    ensures pares == [] ==> r.Ok? && fresh(r.value) && r.value.declaracoes == []
    ensures pares != [] ==> (r.Ok? <==> DeclaracoesPrograma(pares[0].filhos).Ok?)
    ensures pares != [] && r.Ok? ==> fresh(r.value) && r.value.declaracoes == DeclaracoesPrograma(pares[0].filhos).value
  {
    if pares == [] {
      var vazio := new Programa();
      return Ok(vazio);
    }
    r := ParsePrograma(pares[0]);
  }
}
