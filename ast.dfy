/** The abstract syntax tree shared by the parsers and the code generator.
    Every value is a finite tree: children are owned through sequences and
    direct datatype fields, so there is no sharing and no cycle. */
module Ast {
  import opened Wrappers
  import opened Numeros

  /** Types; recursive only through `Opcional`. */
  datatype Tipo =
    | Texto
    | Numero
    | Logico
    | Void
    | Personalizado(nome: string)
    | Opcional(interno: Tipo)

  /** The closed set of binary operators. */
  datatype Operador =
    | Soma | Subtracao | Multiplicacao | Divisao | Resto
    | Igual | Diferente | Maior | Menor | MaiorIgual | MenorIgual
    | Contem
    | E | Ou

  datatype Expressao =
    | TextoLiteral(texto: string)
    | NumeroLiteral(numero: NumeroF64)
    | LogicoLiteral(logico: bool)
    | Nada
    | ListaLiteral(elementos: seq<Expressao>)
    | DicionarioLiteral(pares: seq<(Expressao, Expressao)>)
    | Identificador(nome: string)
    | Chamada(nome: string, argumentos: seq<Expressao>)
    | Operacao(operador: Operador, esquerda: Expressao, direita: Expressao)
    | Atribuicao(nome: string, valor: Expressao)
    | AcessoMembro(objeto: Expressao, membro: string)
    | Negacao(expressao: Expressao)

  /** A model field: name, type and its own visibility flag. */
  datatype Campo = Campo(nome: string, tipo: Tipo, publico: bool)

  datatype Declaracao =
    | Variavel(nome: string, tipo: Option<Tipo>, valor: Option<Expressao>, publico: bool)
    | Expressao(expr: Expressao)
    | Bloco(declaracoes: seq<Declaracao>)
    | Se(condicao: Expressao, blocoSe: Declaracao, blocoSenao: Option<Declaracao>)
    | ParaCada(variavel: string, inicio: Expressao, fim: Expressao, corpo: Declaracao)
    | Enquanto(condicao: Expressao, corpo: Declaracao)
    | Repita(corpo: Declaracao, condicao: Expressao)
    | Pare
    | Continue
    | QuandoDerErro(blocoTry: Declaracao, variavelErro: string, blocoCatch: Declaracao)
    | Funcao(nome: string, parametros: seq<(string, Tipo)>, tipoRetorno: Option<Tipo>,
             corpo: Declaracao, publico: bool)
    | Retorno(retorno: Option<Expressao>)
    | Mostrar(mostrado: Expressao)
    | Modelo(nome: string, campos: seq<Campo>, publico: bool)
    | Modulo(nome: string, declaracoes: seq<Declaracao>)
    | Importar(caminho: seq<string>)

  /** The root of a compilation unit: top-level declarations in source order,
      grown in place by the parsers. */
  class Programa {
    var declaracoes: seq<Declaracao>

    constructor ()
      ensures declaracoes == []
    {
      declaracoes := [];
    }

    /** Appends one declaration: the sequence grows by one, the new element is
        last and every earlier element is unchanged. */
    method AdicionarDeclaracao(declaracao: Declaracao)
      modifies this
      ensures declaracoes == old(declaracoes) + [declaracao]
    {
      declaracoes := declaracoes + [declaracao];
    }
  }
}
