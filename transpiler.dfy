/** The code generator: a structural lowering of the syntax tree to Rust text,
    written piece by piece into one output buffer.

    `TextoExpressao`, `TextoDeclaracao` and `CodigoRust` say what text each
    node lowers to; the `Gerar*` methods append to a `Saida` buffer as the
    source does and are proved to append exactly that text. */
module Transpilador {
  import opened Wrappers
  import opened Texto
  import opened Numeros
  import opened Ast

  /** The one way lowering fails: a type with no Rust spelling (the source's
      matches on types have no arm for `Void` and `Opcional`). */
  datatype ErroGeracao = TipoNaoSuportado(tipo: Tipo)

  // ---------------------------------------------------------------------
  // Strings

  /** `str::replace` with a one-character pattern: every occurrence of `c`,
      left to right, becomes `r`. */
  function Substituir(s: string, c: char, r: string): string {
    if s == [] then [] else (if s[0] == c then r else [s[0]]) + Substituir(s[1..], c, r)
  }

  /** `escapar_string_para_rust`: backslash first, then the quote, newline,
      carriage return and tab. */
  function Escapar(texto: string): string {
    Substituir(Substituir(Substituir(Substituir(Substituir(
      texto, '\\', "\\\\"), '"', "\\\""), '\n', "\\n"), '\r', "\\r"), '\t', "\\t")
  }

  // ---------------------------------------------------------------------
  // The text each node lowers to

  function TextoTipo(t: Tipo): (r: Result<string, ErroGeracao>)
    ensures r.Err? <==> t.Void? || t.Opcional?
    ensures r.Err? ==> r.error == TipoNaoSuportado(t)
  {
    match t
    case Texto => Ok("String")
    case Numero => Ok("f64")
    case Logico => Ok("bool")
    case Personalizado(nome) => Ok(nome)
    case Void => Err(TipoNaoSuportado(t))
    case Opcional(_) => Err(TipoNaoSuportado(t))
  }

  function TextoOperador(op: Operador): string {
    match op
    case Soma => " + "
    case Subtracao => " - "
    case Multiplicacao => " * "
    case Divisao => " / "
    case Resto => " % "
    case Igual => " == "
    case Diferente => " != "
    case Maior => " > "
    case Menor => " < "
    case MaiorIgual => " >= "
    case MenorIgual => " <= "
    case Contem => ".contains(&"
    case E => " && "
    case Ou => " || "
  }

  function TextoExpressao(e: Expressao): string
    decreases e, 1
  {
    match e
    case TextoLiteral(texto) => "\"" + Escapar(texto) + "\""
    case NumeroLiteral(numero) => ExibirNumero(numero)
    case LogicoLiteral(logico) => if logico then "true" else "false"
    case Nada => "None"
    case ListaLiteral(elementos) => "vec![" + Juntar(TextosExpressoes(e, elementos), ", ") + "]"
    case DicionarioLiteral(pares) => "HashMap::from([" + Juntar(TextosPares(e, pares), ", ") + "])"
    case Identificador(nome) => nome
    case Chamada(nome, argumentos) => nome + "(" + Juntar(TextosExpressoes(e, argumentos), ", ") + ")"
    case Negacao(expressao) => "!" + TextoExpressao(expressao)
    case Operacao(operador, esquerda, direita) =>
      "(" + TextoExpressao(esquerda) + TextoOperador(operador) + TextoExpressao(direita)
      + (if operador == Contem then "))" else ")")
    case Atribuicao(nome, valor) => nome + " = " + TextoExpressao(valor)
    case AcessoMembro(objeto, membro) => TextoExpressao(objeto) + ("." + membro)
  }

  /** The elements of a list, or the arguments of a call, one text each. */
  predicate FilhosDe(pai: Expressao, es: seq<Expressao>) {
    (pai.ListaLiteral? && es == pai.elementos) || (pai.Chamada? && es == pai.argumentos)
  }

  function TextosExpressoes(pai: Expressao, es: seq<Expressao>): (r: seq<string>)
    requires FilhosDe(pai, es)
    ensures |r| == |es|
    decreases pai, 0
  {
    seq(|es|, i requires 0 <= i < |es| => TextoExpressao(es[i]))
  }

  function TextoPar(par: (Expressao, Expressao)): string {
    "(" + TextoExpressao(par.0) + ", " + TextoExpressao(par.1) + ")"
  }

  function TextosPares(pai: Expressao, pares: seq<(Expressao, Expressao)>): (r: seq<string>)
    requires pai.DicionarioLiteral? && pares == pai.pares
    ensures |r| == |pares|
    decreases pai, 0
  {
    seq(|pares|, i requires 0 <= i < |pares| => TextoPar(pares[i]))
  }

  /** The parts joined with `sep`, or the error of the first part that
      failed. */
  function JuntarResultados(partes: seq<Result<string, ErroGeracao>>, sep: string): (r: Result<string, ErroGeracao>)
    ensures r.Ok? <==> forall i | 0 <= i < |partes| :: partes[i].Ok?
  {
    if |partes| == 0 then Ok("")
    else
      var antes :- JuntarResultados(partes[..|partes| - 1], sep);
      var ultima :- partes[|partes| - 1];
      Ok(if |partes| == 1 then ultima else antes + sep + ultima)
  }

  /** One more part: its text is appended after the separator, or its error
      becomes the result if nothing failed before it. */
  lemma JuntarResultadosPasso(partes: seq<Result<string, ErroGeracao>>, sep: string, i: nat)
    requires i < |partes|
    ensures var antes := JuntarResultados(partes[..i], sep);
      JuntarResultados(partes[..i + 1], sep) ==
        if antes.Err? then antes
        else if partes[i].Err? then Err(partes[i].error)
        else Ok(if i == 0 then partes[i].value else antes.value + sep + partes[i].value)
  {
    assert partes[..i + 1][..i] == partes[..i];
  }

  /** The first failing part decides the error, whatever follows it. */
  lemma {:induction false} JuntarResultadosFalha(partes: seq<Result<string, ErroGeracao>>, sep: string, i: nat)
    requires i < |partes| && partes[i].Err?
    requires JuntarResultados(partes[..i], sep).Ok?
    ensures JuntarResultados(partes, sep) == Err(partes[i].error)
    decreases |partes|
  {
    if |partes| == i + 1 {
      JuntarResultadosPasso(partes, sep, i);
      assert partes[..i + 1] == partes;
    } else {
      var inicio := partes[..|partes| - 1];
      assert inicio[..i] == partes[..i];
      JuntarResultadosFalha(inicio, sep, i);
    }
  }

  function TextoParametro(parametro: (string, Tipo)): Result<string, ErroGeracao> {
    var tipo :- TextoTipo(parametro.1);
    Ok(parametro.0 + ": " + tipo)
  }

  function TextosParametros(parametros: seq<(string, Tipo)>): (r: seq<Result<string, ErroGeracao>>)
    ensures |r| == |parametros|
  {
    seq(|parametros|, i requires 0 <= i < |parametros| => TextoParametro(parametros[i]))
  }

  function TextoRetorno(tipoRetorno: Option<Tipo>): Result<string, ErroGeracao> {
    match tipoRetorno
    case None => Ok("")
    case Some(t) => var tipo :- TextoTipo(t); Ok(" -> " + tipo)
  }

  function TextoCampo(campo: Campo): Result<string, ErroGeracao> {
    var tipo :- TextoTipo(campo.tipo);
    Ok((if campo.publico then "    pub " else "    ") + (campo.nome + ": ") + tipo + ",\n")
  }

  function TextosCampos(campos: seq<Campo>): (r: seq<Result<string, ErroGeracao>>)
    ensures |r| == |campos|
  {
    seq(|campos|, i requires 0 <= i < |campos| => TextoCampo(campos[i]))
  }

  /** The initial value written for a variable declared without one. */
  function TextoPadrao(tipo: Option<Tipo>): (r: Result<string, ErroGeracao>)
    ensures r.Err? <==> tipo.Some? && (tipo.value.Void? || tipo.value.Opcional?)
  {
    match tipo
    case None => Ok("Default::default()")
    case Some(Texto) => Ok("String::new()")
    case Some(Numero) => Ok("0.0")
    case Some(Logico) => Ok("false")
    case Some(Personalizado(nome)) => Ok(nome + "::default()")
    case Some(t) => Err(TipoNaoSuportado(t))
  }

  function Publico(publico: bool): string {
    if publico then "pub " else ""
  }

  /** The derive line and the opening of a struct. */
  function CabecalhoModelo(nome: string, publico: bool): string {
    if publico then "#[derive(Default)]\npub struct " + nome + " {\n"
    else "#[derive(Default)]\nstruct " + nome + " {\n"
  }

  const CabecalhoTentativa := "match (|| -> Result<(), Box<dyn std::error::Error>> {\n"

  function TextoDeclaracao(d: Declaracao): Result<string, ErroGeracao>
    decreases d, 1
  {
    match d
    case Variavel(nome, tipo, valor, publico) =>
      var inicial :- if valor.Some? then Ok(TextoExpressao(valor.value)) else TextoPadrao(tipo);
      Ok(Publico(publico) + ("let mut " + nome + " = ") + inicial + ";\n")
    case Funcao(nome, parametros, tipoRetorno, corpo, publico) =>
      var ps :- JuntarResultados(TextosParametros(parametros), ", ");
      var retorno :- TextoRetorno(tipoRetorno);
      var c :- TextoDeclaracao(corpo);
      Ok(Publico(publico) + ("fn " + nome + "(") + ps + ")" + retorno + " {\n" + c + "}\n")
    case Modelo(nome, campos, publico) =>
      var cs :- JuntarResultados(TextosCampos(campos), "");
      Ok(CabecalhoModelo(nome, publico) + cs + "}\n")
    case Modulo(nome, declaracoes) =>
      var ds :- JuntarResultados(TextosDeclaracoes(d, declaracoes), "");
      Ok(("mod " + nome + " {\n") + ds + "}\n")
    case Importar(caminho) => Ok("use " + Juntar(caminho, "::") + ";\n")
    case Enquanto(condicao, corpo) =>
      var c :- TextoDeclaracao(corpo);
      Ok("while " + TextoExpressao(condicao) + " {\n" + c + "}\n")
    case Repita(corpo, condicao) =>
      var c :- TextoDeclaracao(corpo);
      Ok("loop {\n" + c + "    if " + TextoExpressao(condicao) + " { break; }\n}\n")
    case Pare => Ok("break;\n")
    case Continue => Ok("continue;\n")
    case Se(condicao, blocoSe, blocoSenao) =>
      var s :- TextoDeclaracao(blocoSe);
      var senao :- if blocoSenao.Some? then
        var x :- TextoDeclaracao(blocoSenao.value); Ok("} else {\n" + x)
        else Ok("");
      Ok("if " + TextoExpressao(condicao) + " {\n" + s + senao + "}\n")
    case ParaCada(variavel, inicio, fim, corpo) =>
      var c :- TextoDeclaracao(corpo);
      Ok(("for " + variavel + " in ") + TextoExpressao(inicio) + "..=" + TextoExpressao(fim) + " {\n" + c + "}\n")
    case QuandoDerErro(blocoTry, variavelErro, blocoCatch) =>
      var t :- TextoDeclaracao(blocoTry);
      var c :- TextoDeclaracao(blocoCatch);
      Ok(CabecalhoTentativa + t + "    Ok(())\n}() {\n" + "    Ok(_) => {},\n" + ("    Err(" + variavelErro + ") => {\n")
        + c + "    }\n}\n")
    case Retorno(retorno) =>
      Ok("return" + (if retorno.Some? then " " + TextoExpressao(retorno.value) else "") + ";\n")
    case Mostrar(mostrado) => Ok("println!(\"{:?}\", " + TextoExpressao(mostrado) + ");\n")
    case Bloco(declaracoes) => JuntarResultados(TextosDeclaracoes(d, declaracoes), "")
    case Expressao(expr) => Ok(TextoExpressao(expr) + ";\n")
  }

  /** The statements of a block or a module. */
  predicate SequenciaDe(pai: Declaracao, ds: seq<Declaracao>) {
    (pai.Bloco? && ds == pai.declaracoes) || (pai.Modulo? && ds == pai.declaracoes)
  }

  function TextosDeclaracoes(pai: Declaracao, ds: seq<Declaracao>): (r: seq<Result<string, ErroGeracao>>)
    requires SequenciaDe(pai, ds)
    ensures |r| == |ds|
    decreases pai, 0
  {
    seq(|ds|, i requires 0 <= i < |ds| => TextoDeclaracao(ds[i]))
  }

  const Preambulo := "use std::io::{self, Write};\n" + "use std::collections::HashMap;\n\n"

  /** A top-level declaration's text followed by a newline. */
  function LinhaPrograma(d: Declaracao): Result<string, ErroGeracao> {
    var texto :- TextoDeclaracao(d);
    Ok(texto + "\n")
  }

  function TextosPrograma(ds: seq<Declaracao>): (r: seq<Result<string, ErroGeracao>>)
    ensures |r| == |ds|
  {
    seq(|ds|, i requires 0 <= i < |ds| => LinhaPrograma(ds[i]))
  }

  /** The whole output: the preamble, then each top-level declaration
      followed by a newline, in program order. */
  function CodigoRust(ds: seq<Declaracao>): Result<string, ErroGeracao> {
    var corpo :- JuntarResultados(TextosPrograma(ds), "");
    Ok(Preambulo + corpo)
  }

  // ---------------------------------------------------------------------
  // The output buffer and the methods that write into it
  //
  // Each method keeps a ghost copy `feito` of what it has written so far and
  // regroups the appended pieces with `Anexar`.

  class Saida {
    var conteudo: string

    constructor ()
      ensures conteudo == ""
    {
      conteudo := "";
    }

    method Escrever(s: string)
      modifies this
      ensures conteudo == old(conteudo) + s
    {
      conteudo := conteudo + s;
    }
  }

  /** What a fallible generator did: on success it wrote exactly the
      specified text; on failure it reports the specified error. */
  ghost predicate Conforme(r: Result<(), ErroGeracao>, spec: Result<string, ErroGeracao>, antes: string, depois: string) {
    match spec
    case Ok(texto) => r == Ok(()) && depois == antes + texto
    case Err(e) => r == Err(e)
  }

  method GerarTipo(t: Tipo, saida: Saida) returns (r: Result<(), ErroGeracao>)
    modifies saida
    ensures Conforme(r, TextoTipo(t), old(saida.conteudo), saida.conteudo)
  {
    match t {
      case Texto => saida.Escrever("String");
      case Numero => saida.Escrever("f64");
      case Logico => saida.Escrever("bool");
      case Personalizado(nome) => saida.Escrever(nome);
      case Void => return Err(TipoNaoSuportado(t));
      case Opcional(_) => return Err(TipoNaoSuportado(t));
    }
    r := Ok(());
  }

  method GerarExpressao(e: Expressao, saida: Saida)
    modifies saida
    ensures saida.conteudo == old(saida.conteudo) + TextoExpressao(e)
    decreases e, 2
  {
    ghost var antes := saida.conteudo;
    match e {
      case TextoLiteral(texto) =>
        saida.Escrever("\"" + Escapar(texto) + "\"");
      case NumeroLiteral(numero) =>
        saida.Escrever(ExibirNumero(numero));
      case LogicoLiteral(logico) =>
        saida.Escrever(if logico then "true" else "false");
      case Nada =>
        saida.Escrever("None");
      case ListaLiteral(elementos) =>
        GerarLista(e, saida);
      case DicionarioLiteral(pares) =>
        GerarDicionario(e, saida);
      case Identificador(nome) =>
        saida.Escrever(nome);
      case Chamada(nome, argumentos) =>
        GerarChamada(e, saida);
      case Negacao(expressao) =>
        saida.Escrever("!");
        GerarExpressao(expressao, saida);
        Anexar(antes, "!", TextoExpressao(expressao));
      case Operacao(operador, esquerda, direita) =>
        GerarOperacao(e, saida);
      case Atribuicao(nome, valor) =>
        saida.Escrever(nome + " = ");
        GerarExpressao(valor, saida);
        Anexar(antes, nome + " = ", TextoExpressao(valor));
      case AcessoMembro(objeto, membro) =>
        GerarExpressao(objeto, saida);
        saida.Escrever("." + membro);
        Anexar(antes, TextoExpressao(objeto), "." + membro);
    }
  }

  method GerarLista(e: Expressao, saida: Saida)
    requires e.ListaLiteral?
    modifies saida
    ensures saida.conteudo == old(saida.conteudo) + TextoExpressao(e)
    decreases e, 1
  {
    ghost var antes := saida.conteudo;
    saida.Escrever("vec![");
    GerarSeparados(e, e.elementos, saida);
    ghost var lista := Juntar(TextosExpressoes(e, e.elementos), ", ");
    Anexar(antes, "vec![", lista);
    saida.Escrever("]");
    Anexar(antes, "vec![" + lista, "]");
  }

  method GerarChamada(e: Expressao, saida: Saida)
    requires e.Chamada?
    modifies saida
    ensures saida.conteudo == old(saida.conteudo) + TextoExpressao(e)
    decreases e, 1
  {
    ghost var antes := saida.conteudo;
    saida.Escrever(e.nome + "(");
    GerarSeparados(e, e.argumentos, saida);
    ghost var argumentos := Juntar(TextosExpressoes(e, e.argumentos), ", ");
    Anexar(antes, e.nome + "(", argumentos);
    saida.Escrever(")");
    Anexar(antes, e.nome + "(" + argumentos, ")");
  }

  method GerarDicionario(e: Expressao, saida: Saida)
    requires e.DicionarioLiteral?
    modifies saida
    ensures saida.conteudo == old(saida.conteudo) + TextoExpressao(e)
    decreases e, 1
  {
    ghost var antes := saida.conteudo;
    saida.Escrever("HashMap::from([");
    GerarPares(e, e.pares, saida);
    ghost var pares := Juntar(TextosPares(e, e.pares), ", ");
    Anexar(antes, "HashMap::from([", pares);
    saida.Escrever("])");
    Anexar(antes, "HashMap::from([" + pares, "])");
  }

  method GerarOperacao(e: Expressao, saida: Saida)
    requires e.Operacao?
    modifies saida
    ensures saida.conteudo == old(saida.conteudo) + TextoExpressao(e)
    decreases e, 1
  {
    ghost var antes := saida.conteudo;
    saida.Escrever("(");
    GerarExpressao(e.esquerda, saida);
    Anexar(antes, "(", TextoExpressao(e.esquerda));
    ghost var feito := "(" + TextoExpressao(e.esquerda);
    saida.Escrever(TextoOperador(e.operador));
    Anexar(antes, feito, TextoOperador(e.operador));
    feito := feito + TextoOperador(e.operador);
    GerarExpressao(e.direita, saida);
    Anexar(antes, feito, TextoExpressao(e.direita));
    feito := feito + TextoExpressao(e.direita);
    if e.operador == Contem {
      saida.Escrever(")");
      Anexar(antes, feito, ")");
      saida.Escrever(")");
      Anexar(antes, feito + ")", ")");
      Anexar(feito, ")", ")");
    } else {
      saida.Escrever(")");
      Anexar(antes, feito, ")");
    }
  }

  /** The `enumerate` loop over list elements or call arguments: ", " before
      every element but the first. */
  method GerarSeparados(pai: Expressao, es: seq<Expressao>, saida: Saida)
    requires FilhosDe(pai, es)
    modifies saida
    ensures saida.conteudo == old(saida.conteudo) + Juntar(TextosExpressoes(pai, es), ", ")
    decreases pai, 0
  {
    ghost var antes := saida.conteudo;
    ghost var textos := TextosExpressoes(pai, es);
    for i := 0 to |es|
      invariant saida.conteudo == antes + Juntar(textos[..i], ", ")
    {
      JuntarPasso(textos, ", ", i);
      ghost var feito := Juntar(textos[..i], ", ");
      if i > 0 {
        saida.Escrever(", ");
        Anexar(antes, feito, ", ");
        feito := feito + ", ";
      }
      GerarExpressao(es[i], saida);
      Anexar(antes, feito, textos[i]);
    }
    assert textos[..|es|] == textos;
  }

  method GerarPares(pai: Expressao, pares: seq<(Expressao, Expressao)>, saida: Saida)
    requires pai.DicionarioLiteral? && pares == pai.pares
    modifies saida
    ensures saida.conteudo == old(saida.conteudo) + Juntar(TextosPares(pai, pares), ", ")
    decreases pai, 0
  {
    ghost var antes := saida.conteudo;
    ghost var textos := TextosPares(pai, pares);
    for i := 0 to |pares|
      invariant saida.conteudo == antes + Juntar(textos[..i], ", ")
    {
      JuntarPasso(textos, ", ", i);
      ghost var feito := Juntar(textos[..i], ", ");
      if i > 0 {
        saida.Escrever(", ");
        Anexar(antes, feito, ", ");
        feito := feito + ", ";
      }
      ghost var inicio := saida.conteudo;
      var chave := TextoExpressao(pares[i].0);
      var valor := TextoExpressao(pares[i].1);
      saida.Escrever("(");
      GerarExpressao(pares[i].0, saida);
      Anexar(inicio, "(", chave);
      saida.Escrever(", ");
      Anexar(inicio, "(" + chave, ", ");
      GerarExpressao(pares[i].1, saida);
      Anexar(inicio, "(" + chave + ", ", valor);
      saida.Escrever(")");
      Anexar(inicio, "(" + chave + ", " + valor, ")");
      assert inicio == antes + feito;
      assert textos[i] == TextoPar(pares[i]);
      assert TextoPar(pares[i]) == "(" + chave + ", " + valor + ")";
      Anexar(antes, feito, textos[i]);
    }
    assert textos[..|pares|] == textos;
  }

  /** `gerar_declaracao`: lowers one declaration; on success it has written
      exactly its text. */
  method GerarDeclaracao(d: Declaracao, saida: Saida) returns (r: Result<(), ErroGeracao>)
    modifies saida
    ensures Conforme(r, TextoDeclaracao(d), old(saida.conteudo), saida.conteudo)
    decreases d, 2
  {
    ghost var antes := saida.conteudo;
    match d {
      case Variavel(_, _, _, _) =>
        r := GerarVariavel(d, saida);
      case Funcao(_, _, _, _, _) =>
        r := GerarFuncao(d, saida);
      case Modelo(_, _, _) =>
        r := GerarModelo(d, saida);
      case Modulo(_, _) =>
        r := GerarModulo(d, saida);
      case Importar(caminho) =>
        GerarCaminho(caminho, saida);
        r := Ok(());
      case Enquanto(_, _) =>
        r := GerarEnquanto(d, saida);
      case Repita(_, _) =>
        r := GerarRepita(d, saida);
      case Pare =>
        saida.Escrever("break;\n");
        r := Ok(());
      case Continue =>
        saida.Escrever("continue;\n");
        r := Ok(());
      case Se(_, _, _) =>
        r := GerarSe(d, saida);
      case ParaCada(_, _, _, _) =>
        r := GerarParaCada(d, saida);
      case QuandoDerErro(_, _, _) =>
        r := GerarQuandoDerErro(d, saida);
      case Retorno(_) =>
        GerarRetorno(d, saida);
        r := Ok(());
      case Mostrar(mostrado) =>
        saida.Escrever("println!(\"{:?}\", ");
        GerarExpressao(mostrado, saida);
        Anexar(antes, "println!(\"{:?}\", ", TextoExpressao(mostrado));
        saida.Escrever(");\n");
        Anexar(antes, "println!(\"{:?}\", " + TextoExpressao(mostrado), ");\n");
        r := Ok(());
      case Bloco(declaracoes) =>
        r := GerarSequencia(d, declaracoes, saida);
      case Expressao(expr) =>
        GerarExpressao(expr, saida);
        saida.Escrever(";\n");
        Anexar(antes, TextoExpressao(expr), ";\n");
        r := Ok(());
    }
  }

  method GerarVariavel(d: Declaracao, saida: Saida) returns (r: Result<(), ErroGeracao>)
    requires d.Variavel?
    modifies saida
    ensures Conforme(r, TextoDeclaracao(d), old(saida.conteudo), saida.conteudo)
  {
    ghost var antes := saida.conteudo;
    if d.publico {
      saida.Escrever("pub ");
    }
    ghost var feito := Publico(d.publico);
    assert saida.conteudo == antes + feito;
    saida.Escrever("let mut " + d.nome + " = ");
    Anexar(antes, feito, "let mut " + d.nome + " = ");
    feito := feito + ("let mut " + d.nome + " = ");
    ghost var inicial;
    if d.valor.Some? {
      GerarExpressao(d.valor.value, saida);
      inicial := TextoExpressao(d.valor.value);
    } else {
      var padrao := TextoPadrao(d.tipo);
      if padrao.Err? {
        return Err(padrao.error);
      }
      saida.Escrever(padrao.value);
      inicial := padrao.value;
    }
    Anexar(antes, feito, inicial);
    feito := feito + inicial;
    saida.Escrever(";\n");
    Anexar(antes, feito, ";\n");
    r := Ok(());
  }

  method GerarFuncao(d: Declaracao, saida: Saida) returns (r: Result<(), ErroGeracao>)
    requires d.Funcao?
    modifies saida
    ensures Conforme(r, TextoDeclaracao(d), old(saida.conteudo), saida.conteudo)
    decreases d, 1
  {
    ghost var antes := saida.conteudo;
    if d.publico {
      saida.Escrever("pub ");
    }
    ghost var feito := Publico(d.publico);
    assert saida.conteudo == antes + feito;
    saida.Escrever("fn " + d.nome + "(");
    Anexar(antes, feito, "fn " + d.nome + "(");
    feito := feito + ("fn " + d.nome + "(");
    r := GerarParametros(d.parametros, saida);
    if r.Err? {
      return;
    }
    ghost var ps := JuntarResultados(TextosParametros(d.parametros), ", ").value;
    Anexar(antes, feito, ps);
    feito := feito + ps;
    saida.Escrever(")");
    Anexar(antes, feito, ")");
    feito := feito + ")";
    if d.tipoRetorno.Some? {
      saida.Escrever(" -> ");
      Anexar(antes, feito, " -> ");
      r := GerarTipo(d.tipoRetorno.value, saida);
      if r.Err? {
        return;
      }
      ghost var tipo := TextoTipo(d.tipoRetorno.value).value;
      Anexar(antes, feito + " -> ", tipo);
      Anexar(feito, " -> ", tipo);
    }
    ghost var retorno := TextoRetorno(d.tipoRetorno).value;
    assert saida.conteudo == antes + (feito + retorno);
    feito := feito + retorno;
    saida.Escrever(" {\n");
    Anexar(antes, feito, " {\n");
    feito := feito + " {\n";
    r := GerarDeclaracao(d.corpo, saida);
    if r.Err? {
      return;
    }
    Anexar(antes, feito, TextoDeclaracao(d.corpo).value);
    feito := feito + TextoDeclaracao(d.corpo).value;
    saida.Escrever("}\n");
    Anexar(antes, feito, "}\n");
  }

  /** The parameter list: "nome: tipo" separated by ", ". */
  method GerarParametros(parametros: seq<(string, Tipo)>, saida: Saida) returns (r: Result<(), ErroGeracao>)
    modifies saida
    ensures Conforme(r, JuntarResultados(TextosParametros(parametros), ", "), old(saida.conteudo), saida.conteudo)
  {
    ghost var antes := saida.conteudo;
    ghost var partes := TextosParametros(parametros);
    for i := 0 to |parametros|
      invariant JuntarResultados(partes[..i], ", ").Ok?
      invariant saida.conteudo == antes + JuntarResultados(partes[..i], ", ").value
    {
      JuntarResultadosPasso(partes, ", ", i);
      ghost var feito := JuntarResultados(partes[..i], ", ").value;
      if i > 0 {
        saida.Escrever(", ");
        Anexar(antes, feito, ", ");
        feito := feito + ", ";
      }
      var nome := parametros[i].0 + ": ";
      saida.Escrever(nome);
      Anexar(antes, feito, nome);
      r := GerarTipo(parametros[i].1, saida);
      if r.Err? {
        JuntarResultadosFalha(partes, ", ", i);
        return;
      }
      ghost var tipo := TextoTipo(parametros[i].1).value;
      Anexar(antes, feito + nome, tipo);
      Anexar(feito, nome, tipo);
      assert partes[i] == Ok(nome + tipo);
    }
    assert partes[..|parametros|] == partes;
    r := Ok(());
  }

  method GerarModelo(d: Declaracao, saida: Saida) returns (r: Result<(), ErroGeracao>)
    requires d.Modelo?
    modifies saida
    ensures Conforme(r, TextoDeclaracao(d), old(saida.conteudo), saida.conteudo)
  {
    ghost var antes := saida.conteudo;
    saida.Escrever(CabecalhoModelo(d.nome, d.publico));
    ghost var cabecalho := CabecalhoModelo(d.nome, d.publico);
    ghost var partes := TextosCampos(d.campos);
    for i := 0 to |d.campos|
      invariant JuntarResultados(partes[..i], "").Ok?
      invariant saida.conteudo == antes + cabecalho + JuntarResultados(partes[..i], "").value
    {
      JuntarResultadosPasso(partes, "", i);
      r := GerarCampo(d.campos[i], saida);
      if r.Err? {
        JuntarResultadosFalha(partes, "", i);
        return;
      }
      Anexar(antes + cabecalho, JuntarResultados(partes[..i], "").value, partes[i].value);
    }
    assert partes[..|d.campos|] == partes;
    ghost var campos := JuntarResultados(partes, "").value;
    Anexar(antes, cabecalho, campos);
    saida.Escrever("}\n");
    Anexar(antes, cabecalho + campos, "}\n");
    r := Ok(());
  }

  /** One field line of a struct. */
  method GerarCampo(campo: Campo, saida: Saida) returns (r: Result<(), ErroGeracao>)
    modifies saida
    ensures Conforme(r, TextoCampo(campo), old(saida.conteudo), saida.conteudo)
  {
    ghost var antes := saida.conteudo;
    var recuo := if campo.publico then "    pub " else "    ";
    saida.Escrever(recuo);
    saida.Escrever(campo.nome + ": ");
    Anexar(antes, recuo, campo.nome + ": ");
    ghost var feito := recuo + (campo.nome + ": ");
    r := GerarTipo(campo.tipo, saida);
    if r.Err? {
      return;
    }
    ghost var tipo := TextoTipo(campo.tipo).value;
    Anexar(antes, feito, tipo);
    saida.Escrever(",\n");
    Anexar(antes, feito + tipo, ",\n");
  }

  method GerarModulo(d: Declaracao, saida: Saida) returns (r: Result<(), ErroGeracao>)
    requires d.Modulo?
    modifies saida
    ensures Conforme(r, TextoDeclaracao(d), old(saida.conteudo), saida.conteudo)
    decreases d, 1
  {
    ghost var antes := saida.conteudo;
    var cabecalho := "mod " + d.nome + " {\n";
    saida.Escrever(cabecalho);
    r := GerarSequencia(d, d.declaracoes, saida);
    if r.Err? {
      return;
    }
    ghost var corpo := JuntarResultados(TextosDeclaracoes(d, d.declaracoes), "").value;
    Anexar(antes, cabecalho, corpo);
    saida.Escrever("}\n");
    Anexar(antes, cabecalho + corpo, "}\n");
  }

  /** The statements of a block or a module, in order, up to the first
      failure. */
  method GerarSequencia(pai: Declaracao, ds: seq<Declaracao>, saida: Saida) returns (r: Result<(), ErroGeracao>)
    requires SequenciaDe(pai, ds)
    modifies saida
    ensures Conforme(r, JuntarResultados(TextosDeclaracoes(pai, ds), ""), old(saida.conteudo), saida.conteudo)
    decreases pai, 0
  {
    ghost var antes := saida.conteudo;
    ghost var partes := TextosDeclaracoes(pai, ds);
    for i := 0 to |ds|
      invariant JuntarResultados(partes[..i], "").Ok?
      invariant saida.conteudo == antes + JuntarResultados(partes[..i], "").value
    {
      JuntarResultadosPasso(partes, "", i);
      r := GerarDeclaracao(ds[i], saida);
      if r.Err? {
        JuntarResultadosFalha(partes, "", i);
        return;
      }
      Anexar(antes, JuntarResultados(partes[..i], "").value, partes[i].value);
    }
    assert partes[..|ds|] == partes;
    r := Ok(());
  }

  /** `use` with the path segments joined by "::". */
  method GerarCaminho(caminho: seq<string>, saida: Saida)
    modifies saida
    ensures saida.conteudo == old(saida.conteudo) + ("use " + Juntar(caminho, "::") + ";\n")
  {
    ghost var antes := saida.conteudo;
    saida.Escrever("use ");
    for i := 0 to |caminho|
      invariant saida.conteudo == antes + ("use " + Juntar(caminho[..i], "::"))
    {
      JuntarPasso(caminho, "::", i);
      ghost var feito := "use " + Juntar(caminho[..i], "::");
      if i > 0 {
        saida.Escrever("::");
        Anexar(antes, feito, "::");
        Anexar("use ", Juntar(caminho[..i], "::"), "::");
        feito := feito + "::";
      }
      saida.Escrever(caminho[i]);
      Anexar(antes, feito, caminho[i]);
      Anexar("use ", Juntar(caminho[..i], "::") + (if i > 0 then "::" else ""), caminho[i]);
    }
    assert caminho[..|caminho|] == caminho;
    saida.Escrever(";\n");
    Anexar(antes, "use " + Juntar(caminho, "::"), ";\n");
  }

  method GerarEnquanto(d: Declaracao, saida: Saida) returns (r: Result<(), ErroGeracao>)
    requires d.Enquanto?
    modifies saida
    ensures Conforme(r, TextoDeclaracao(d), old(saida.conteudo), saida.conteudo)
    decreases d, 1
  {
    ghost var antes := saida.conteudo;
    saida.Escrever("while ");
    GerarExpressao(d.condicao, saida);
    ghost var feito := "while " + TextoExpressao(d.condicao);
    Anexar(antes, "while ", TextoExpressao(d.condicao));
    saida.Escrever(" {\n");
    Anexar(antes, feito, " {\n");
    feito := feito + " {\n";
    r := GerarDeclaracao(d.corpo, saida);
    if r.Err? {
      return;
    }
    Anexar(antes, feito, TextoDeclaracao(d.corpo).value);
    feito := feito + TextoDeclaracao(d.corpo).value;
    saida.Escrever("}\n");
    Anexar(antes, feito, "}\n");
  }

  method GerarRepita(d: Declaracao, saida: Saida) returns (r: Result<(), ErroGeracao>)
    requires d.Repita?
    modifies saida
    ensures Conforme(r, TextoDeclaracao(d), old(saida.conteudo), saida.conteudo)
    decreases d, 1
  {
    ghost var antes := saida.conteudo;
    saida.Escrever("loop {\n");
    r := GerarDeclaracao(d.corpo, saida);
    if r.Err? {
      return;
    }
    ghost var feito := "loop {\n" + TextoDeclaracao(d.corpo).value;
    Anexar(antes, "loop {\n", TextoDeclaracao(d.corpo).value);
    saida.Escrever("    if ");
    Anexar(antes, feito, "    if ");
    feito := feito + "    if ";
    GerarExpressao(d.condicao, saida);
    Anexar(antes, feito, TextoExpressao(d.condicao));
    feito := feito + TextoExpressao(d.condicao);
    saida.Escrever(" { break; }\n}\n");
    Anexar(antes, feito, " { break; }\n}\n");
  }

  method GerarSe(d: Declaracao, saida: Saida) returns (r: Result<(), ErroGeracao>)
    requires d.Se?
    modifies saida
    ensures Conforme(r, TextoDeclaracao(d), old(saida.conteudo), saida.conteudo)
    decreases d, 1
  {
    ghost var antes := saida.conteudo;
    saida.Escrever("if ");
    GerarExpressao(d.condicao, saida);
    ghost var feito := "if " + TextoExpressao(d.condicao);
    Anexar(antes, "if ", TextoExpressao(d.condicao));
    saida.Escrever(" {\n");
    Anexar(antes, feito, " {\n");
    feito := feito + " {\n";
    r := GerarDeclaracao(d.blocoSe, saida);
    if r.Err? {
      return;
    }
    Anexar(antes, feito, TextoDeclaracao(d.blocoSe).value);
    feito := feito + TextoDeclaracao(d.blocoSe).value;
    ghost var senao := "";
    if d.blocoSenao.Some? {
      saida.Escrever("} else {\n");
      Anexar(antes, feito, "} else {\n");
      r := GerarDeclaracao(d.blocoSenao.value, saida);
      if r.Err? {
        return;
      }
      senao := "} else {\n" + TextoDeclaracao(d.blocoSenao.value).value;
      Anexar(antes, feito + "} else {\n", TextoDeclaracao(d.blocoSenao.value).value);
      Anexar(feito, "} else {\n", TextoDeclaracao(d.blocoSenao.value).value);
    }
    assert saida.conteudo == antes + (feito + senao);
    feito := feito + senao;
    saida.Escrever("}\n");
    Anexar(antes, feito, "}\n");
  }

  method GerarParaCada(d: Declaracao, saida: Saida) returns (r: Result<(), ErroGeracao>)
    requires d.ParaCada?
    modifies saida
    ensures Conforme(r, TextoDeclaracao(d), old(saida.conteudo), saida.conteudo)
    decreases d, 1
  {
    ghost var antes := saida.conteudo;
    var cabecalho := "for " + d.variavel + " in ";
    saida.Escrever(cabecalho);
    GerarExpressao(d.inicio, saida);
    ghost var feito := cabecalho + TextoExpressao(d.inicio);
    Anexar(antes, cabecalho, TextoExpressao(d.inicio));
    saida.Escrever("..=");
    Anexar(antes, feito, "..=");
    feito := feito + "..=";
    GerarExpressao(d.fim, saida);
    Anexar(antes, feito, TextoExpressao(d.fim));
    feito := feito + TextoExpressao(d.fim);
    saida.Escrever(" {\n");
    Anexar(antes, feito, " {\n");
    feito := feito + " {\n";
    r := GerarDeclaracao(d.corpo, saida);
    if r.Err? {
      return;
    }
    Anexar(antes, feito, TextoDeclaracao(d.corpo).value);
    feito := feito + TextoDeclaracao(d.corpo).value;
    saida.Escrever("}\n");
    Anexar(antes, feito, "}\n");
  }

  method GerarQuandoDerErro(d: Declaracao, saida: Saida) returns (r: Result<(), ErroGeracao>)
    requires d.QuandoDerErro?
    modifies saida
    ensures Conforme(r, TextoDeclaracao(d), old(saida.conteudo), saida.conteudo)
    decreases d, 1
  {
    ghost var antes := saida.conteudo;
    saida.Escrever(CabecalhoTentativa);
    r := GerarDeclaracao(d.blocoTry, saida);
    if r.Err? {
      return;
    }
    ghost var feito := CabecalhoTentativa + TextoDeclaracao(d.blocoTry).value;
    Anexar(antes, CabecalhoTentativa, TextoDeclaracao(d.blocoTry).value);
    saida.Escrever("    Ok(())\n}() {\n");
    Anexar(antes, feito, "    Ok(())\n}() {\n");
    feito := feito + "    Ok(())\n}() {\n";
    saida.Escrever("    Ok(_) => {},\n");
    Anexar(antes, feito, "    Ok(_) => {},\n");
    feito := feito + "    Ok(_) => {},\n";
    var bracoErro := "    Err(" + d.variavelErro + ") => {\n";
    saida.Escrever(bracoErro);
    Anexar(antes, feito, bracoErro);
    feito := feito + bracoErro;
    r := GerarDeclaracao(d.blocoCatch, saida);
    if r.Err? {
      return;
    }
    Anexar(antes, feito, TextoDeclaracao(d.blocoCatch).value);
    feito := feito + TextoDeclaracao(d.blocoCatch).value;
    saida.Escrever("    }\n}\n");
    Anexar(antes, feito, "    }\n}\n");
  }

  method GerarRetorno(d: Declaracao, saida: Saida)
    requires d.Retorno?
    modifies saida
    ensures TextoDeclaracao(d).Ok?
    ensures saida.conteudo == old(saida.conteudo) + TextoDeclaracao(d).value
  {
    ghost var antes := saida.conteudo;
    saida.Escrever("return");
    ghost var valor := "";
    if d.retorno.Some? {
      saida.Escrever(" ");
      GerarExpressao(d.retorno.value, saida);
      valor := " " + TextoExpressao(d.retorno.value);
      Anexar(antes + "return", " ", TextoExpressao(d.retorno.value));
      Anexar(antes, "return", valor);
    }
    assert saida.conteudo == antes + ("return" + valor);
    saida.Escrever(";\n");
    Anexar(antes, "return" + valor, ";\n");
  }

  /** `gerar_codigo_rust`: the preamble, then every declaration followed by
      a newline; the first failure aborts. */
  method GerarCodigoRust(programa: Programa) returns (r: Result<string, ErroGeracao>)
    ensures r == CodigoRust(programa.declaracoes)
  {
    var saida := new Saida();
    saida.Escrever("use std::io::{self, Write};\n");
    assert saida.conteudo == "use std::io::{self, Write};\n";
    saida.Escrever("use std::collections::HashMap;\n\n");
    var ds := programa.declaracoes;
    ghost var partes := TextosPrograma(ds);
    for i := 0 to |ds|
      invariant JuntarResultados(partes[..i], "").Ok?
      invariant saida.conteudo == Preambulo + JuntarResultados(partes[..i], "").value
    {
      JuntarResultadosPasso(partes, "", i);
      ghost var feito := JuntarResultados(partes[..i], "").value;
      var passo := GerarDeclaracao(ds[i], saida);
      assert partes[i] == LinhaPrograma(ds[i]);
      if passo.Err? {
        JuntarResultadosFalha(partes, "", i);
        return Err(passo.error);
      }
      ghost var texto := TextoDeclaracao(ds[i]).value;
      Anexar(Preambulo, feito, texto);
      saida.Escrever("\n");
      Anexar(Preambulo, feito + texto, "\n");
      Anexar(feito, texto, "\n");
      assert feito + "" == feito;
      assert i == 0 ==> feito == "";
      assert JuntarResultados(partes[..i + 1], "").value == feito + (texto + "\n");
    }
    assert partes[..|ds|] == partes;
    assert CodigoRust(ds) == Ok(Preambulo + JuntarResultados(partes, "").value);
    r := Ok(saida.conteudo);
  }
}
