/** The tokenizer: a cursor over the input characters (`posicao`, `linha`,
    `coluna`) that reads one token at a time, with multi-word keywords
    recognised by a lookahead that never rolls back.

    `Varrer` is the reference definition of one `proximo_token` step as a
    function of the input and the start position; the `Lexer` class carries
    the source's mutable cursor and its methods are proved against it. */
module Lexer {
  import opened Wrappers
  import opened Texto
  import opened Numeros

  datatype Token =
    // keywords
    | Faca | Mostre | Volte | Se | Senao | ParaCada | De | Ate | Modelo
    | QuandoDerErro | FalharCom | Pense | Verdadeiro | Falso | Nada
    // type names
    | TipoTexto | TipoNumero | TipoLogico
    // identifiers and literals
    | Identificador(nome: string)
    | NumeroLiteral(numero: NumeroF64)
    | TextoLiteral(texto: string)
    // operators
    | Mais | Menos | Vezes | Dividido | Igual | IgualA | Diferente
    | Maior | Menor | MaiorIgual | MenorIgual
    // punctuation
    | AbreChave | FechaChave | AbreParentese | FechaParentese | Virgula | DoisPontos | PontoVirgula
    | EOF

  datatype ErroLexico =
    | CaractereInesperado(caractere: char)
    | StringNaoTerminada
    | ErroNumero(lexema: string)

  // ---------------------------------------------------------------------
  // Character classes and the scans the cursor performs

  /** Continues an identifier: `is_alphanumeric() || c == '_'`. */
  predicate ParteIdentificador(c: char) {
    EhAlfanumerico(c) || c == '_'
  }

  /** The identifier-start test as the source writes it: ASCII letters, '_'
      and the ranges 'á'..='ú' and 'Á'..='Ú'. */
  predicate IniciaIdentificadorComoEscrito(c: char) {
    ('a' <= c <= 'z') || ('A' <= c <= 'Z') || c == '_'
    || ('á' <= c <= 'ú') || ('Á' <= c <= 'Ú')
  }

  /** The identifier-start test this model uses: the source's ranges, minus
      the two non-letters they contain ('×' and '÷'), which the scan of the
      identifier itself would not consume. */
  predicate IniciaIdentificador(c: char) {
    IniciaIdentificadorComoEscrito(c) && ParteIdentificador(c)
  }

  /** Where `pular_espacos` stops. */
  function FimEspacos(s: string, p: nat): (q: nat)
    requires p <= |s|
    ensures p <= q <= |s|
    decreases |s| - p
  {
    if p < |s| && EhEspaco(s[p]) then FimEspacos(s, p + 1) else p
  }

  /** `pular_espacos` stops at the first non-whitespace character. */
  lemma {:induction false} FimEspacosPara(s: string, p: nat)
    requires p <= |s|
    ensures var q := FimEspacos(s, p);
      && (forall k | p <= k < q :: EhEspaco(s[k]))
      && (q < |s| ==> !EhEspaco(s[q]))
    decreases |s| - p
  {
    if p < |s| && EhEspaco(s[p]) {
      FimEspacosPara(s, p + 1);
    }
  }

  /** Where `ler_identificador` stops. */
  function FimIdentificador(s: string, p: nat): (q: nat)
    requires p <= |s|
    ensures p <= q <= |s|
    decreases |s| - p
  {
    if p < |s| && ParteIdentificador(s[p]) then FimIdentificador(s, p + 1) else p
  }

  /** `ler_identificador` stops at the first character that cannot continue
      an identifier. */
  lemma {:induction false} FimIdentificadorPara(s: string, p: nat)
    requires p <= |s|
    ensures var q := FimIdentificador(s, p);
      && (forall k | p <= k < q :: ParteIdentificador(s[k]))
      && (q < |s| ==> !ParteIdentificador(s[q]))
    decreases |s| - p
  {
    if p < |s| && ParteIdentificador(s[p]) {
      FimIdentificadorPara(s, p + 1);
    }
  }

  /** Where `ler_numero` stops: digits, plus one point while `ponto` (a point
      already read) is false. */
  function FimNumero(s: string, p: nat, ponto: bool): (q: nat)
    requires p <= |s|
    ensures p <= q <= |s|
    ensures forall k | p <= k < q :: EhDigito(s[k]) || s[k] == '.'
    ensures ponto ==> forall k | p <= k < q :: s[k] != '.'
    ensures forall i, j | p <= i < j < q :: !(s[i] == '.' && s[j] == '.')
    ensures q < |s| ==> !EhDigito(s[q])
    decreases |s| - p
  {
    if p < |s| && EhDigito(s[p]) then FimNumero(s, p + 1, ponto)
    else if p < |s| && s[p] == '.' && !ponto then FimNumero(s, p + 1, true)
    else p
  }

  /** The first '"' at or after `p`, or the end of the input. */
  function FimTexto(s: string, p: nat): (q: nat)
    requires p <= |s|
    ensures p <= q <= |s|
    decreases |s| - p
  {
    if p < |s| && s[p] != '"' then FimTexto(s, p + 1) else p
  }

  /** A text literal runs up to the first quote. */
  lemma {:induction false} FimTextoPara(s: string, p: nat)
    requires p <= |s|
    ensures var q := FimTexto(s, p);
      && (forall k | p <= k < q :: s[k] != '"')
      && (q < |s| ==> s[q] == '"')
    decreases |s| - p
  {
    if p < |s| && s[p] != '"' {
      FimTextoPara(s, p + 1);
    }
  }

  /** Where the comment loop stops: just past the next '\n', or the end. */
  function FimComentario(s: string, p: nat): (q: nat)
    requires p <= |s|
    ensures p <= q <= |s|
    decreases |s| - p
  {
    if p == |s| then p
    else if s[p] == '\n' then p + 1
    else FimComentario(s, p + 1)
  }

  /** A comment runs up to and including the next newline. */
  lemma {:induction false} FimComentarioPara(s: string, p: nat)
    requires p <= |s|
    ensures var q := FimComentario(s, p);
      && (forall k | p <= k < q - 1 :: s[k] != '\n')
      && (q < |s| ==> q > p && s[q - 1] == '\n')
    decreases |s| - p
  {
    if p < |s| && s[p] != '\n' {
      FimComentarioPara(s, p + 1);
    }
  }

  // ---------------------------------------------------------------------
  // Line and column tracking

  datatype Cursor = Cursor(linha: nat, coluna: nat)

  /** The line and column reached after reading `lido`, starting at 1:1. */
  function CursorApos(lido: string): Cursor
    decreases |lido|
  {
    if lido == [] then Cursor(1, 1)
    else
      var c := CursorApos(lido[..|lido| - 1]);
      if lido[|lido| - 1] == '\n' then Cursor(c.linha + 1, 1) else Cursor(c.linha, c.coluna + 1)
  }

  /** The cursor's line is one more than the newlines read. */
  lemma {:induction false} CursorContaLinhas(lido: string)
    ensures CursorApos(lido).linha == 1 + multiset(lido)['\n']
    decreases |lido|
  {
    if lido != [] {
      var antes := lido[..|lido| - 1];
      CursorContaLinhas(antes);
      assert lido == antes + [lido[|lido| - 1]];
      assert multiset(lido) == multiset(antes) + multiset{lido[|lido| - 1]};
    }
  }

  /** The cursor's column is one more than the characters read since the
      last newline. */
  lemma {:induction false} CursorContaColunas(lido: string)
    ensures CursorApos(lido).coluna >= 1
    ensures var n := CursorApos(lido).coluna - 1;
            n <= |lido| && '\n' !in lido[|lido| - n..] && (n < |lido| ==> lido[|lido| - n - 1] == '\n')
    decreases |lido|
  {
    if lido != [] {
      var antes := lido[..|lido| - 1];
      CursorContaColunas(antes);
      var n := CursorApos(antes).coluna - 1;
      if lido[|lido| - 1] != '\n' {
        assert lido[|lido| - (n + 1)..] == antes[|antes| - n..] + [lido[|lido| - 1]];
      }
    }
  }

  // ---------------------------------------------------------------------
  // The reference definition of one token step

  datatype Varredura = Varredura(token: Token, fim: nat)

  /** The one-character tokens. */
  function Simbolo(c: char): Option<Token> {
    match c
    case '{' => Some(AbreChave)
    case '}' => Some(FechaChave)
    case '(' => Some(AbreParentese)
    case ')' => Some(FechaParentese)
    case ',' => Some(Virgula)
    case ':' => Some(DoisPontos)
    case ';' => Some(PontoVirgula)
    case '+' => Some(Mais)
    case '-' => Some(Menos)
    case '*' => Some(Vezes)
    case '=' => Some(Igual)
    case _ => None
  }

  /** The one-word keywords and type names. */
  function PalavraChave(id: string): Option<Token> {
    match id
    case "faça" => Some(Faca)
    case "mostre" => Some(Mostre)
    case "volte" => Some(Volte)
    case "se" => Some(Se)
    case "senão" => Some(Senao)
    case "de" => Some(De)
    case "até" => Some(Ate)
    case "ate" => Some(Ate)
    case "modelo" => Some(Modelo)
    case "pense" => Some(Pense)
    case "verdadeiro" => Some(Verdadeiro)
    case "falso" => Some(Falso)
    case "nada" => Some(Nada)
    case "texto" => Some(TipoTexto)
    case "número" => Some(TipoNumero)
    case "numero" => Some(TipoNumero)
    case "lógico" => Some(TipoLogico)
    case "logico" => Some(TipoLogico)
    case _ => None
  }

  /** "para": skip spaces; "cada" gives `ParaCada`; otherwise the next word is
      glued to "para_" (nothing is glued when a word starting with 'c' was
      already consumed). */
  function DepoisDePara(s: string, k: nat): (r: Varredura)
    requires k <= |s|
    ensures k <= r.fim <= |s|
  {
    var g := FimEspacos(s, k);
    if g < |s| && s[g] == 'c' then
      var h := FimIdentificador(s, g);
      if s[g..h] == "cada" then Varredura(ParaCada, h)
      else
        var h2 := FimIdentificador(s, h);
        Varredura(Identificador("para_" + s[h..h2]), h2)
    else
      var h := FimIdentificador(s, g);
      Varredura(Identificador("para_" + s[g..h]), h)
  }

  /** "quando": skip spaces; "der", spaces, "erro" gives `QuandoDerErro`;
      whatever was consumed on the way is dropped otherwise. */
  function DepoisDeQuando(s: string, k: nat): (r: Varredura)
    requires k <= |s|
    ensures k <= r.fim <= |s|
  {
    var g := FimEspacos(s, k);
    if g < |s| && s[g] == 'd' then
      var h := FimIdentificador(s, g);
      if s[g..h] == "der" then DepoisDeQuandoDer(s, h)
      else Varredura(Identificador("quando"), h)
    else Varredura(Identificador("quando"), g)
  }

  /** The second lookahead, once "quando der" has been read. */
  function DepoisDeQuandoDer(s: string, k: nat): (r: Varredura)
    requires k <= |s|
    ensures k <= r.fim <= |s|
  {
    var g := FimEspacos(s, k);
    if g < |s| && s[g] == 'e' then
      var h := FimIdentificador(s, g);
      if s[g..h] == "erro" then Varredura(QuandoDerErro, h)
      else Varredura(Identificador("quando"), h)
    else Varredura(Identificador("quando"), g)
  }

  /** "falhar": skip spaces; "com" gives `FalharCom`. */
  function DepoisDeFalhar(s: string, k: nat): (r: Varredura)
    requires k <= |s|
    ensures k <= r.fim <= |s|
  {
    var g := FimEspacos(s, k);
    if g < |s| && s[g] == 'c' then
      var h := FimIdentificador(s, g);
      if s[g..h] == "com" then Varredura(FalharCom, h)
      else Varredura(Identificador("falhar"), h)
    else Varredura(Identificador("falhar"), g)
  }

  /** "é" or "e": skip spaces; "igual", spaces and a character 'a' give
      `IgualA` (only that one character is consumed); anything else gives
      the identifier "é". */
  function DepoisDeE(s: string, k: nat): (r: Varredura)
    requires k <= |s|
    ensures k <= r.fim <= |s|
  {
    var g := FimEspacos(s, k);
    if g < |s| && s[g] == 'i' then
      var h := FimIdentificador(s, g);
      if s[g..h] == "igual" then DepoisDeEIgual(s, h)
      else Varredura(Identificador("é"), h)
    else Varredura(Identificador("é"), g)
  }

  /** The second lookahead, once "é igual" has been read. */
  function DepoisDeEIgual(s: string, k: nat): (r: Varredura)
    requires k <= |s|
    ensures k <= r.fim <= |s|
  {
    var g := FimEspacos(s, k);
    if g < |s| && s[g] == 'a' then Varredura(IgualA, g + 1)
    else Varredura(Identificador("é"), g)
  }

  /** The keyword dispatch on an identifier `id` that ended at `k`. */
  function Palavra(s: string, id: string, k: nat): (r: Varredura)
    requires k <= |s|
    ensures k <= r.fim <= |s|
  {
    if id == "para" then DepoisDePara(s, k)
    else if id == "quando" then DepoisDeQuando(s, k)
    else if id == "falhar" then DepoisDeFalhar(s, k)
    else if id == "é" || id == "e" then DepoisDeE(s, k)
    else match PalavraChave(id)
      case Some(t) => Varredura(t, k)
      case None => Varredura(Identificador(id), k)
  }

  /** The operators that may take a second character. */
  function OperadorDuplo(s: string, q: nat): (r: Result<Varredura, ErroLexico>)
    requires q < |s|
    ensures r.Ok? ==> q < r.value.fim <= |s|
  {
    var seguido := q + 1 < |s| && s[q + 1] == '=';
    match s[q]
    case '>' => Ok(if seguido then Varredura(MaiorIgual, q + 2) else Varredura(Maior, q + 1))
    case '<' => Ok(if seguido then Varredura(MenorIgual, q + 2) else Varredura(Menor, q + 1))
    case '!' => if seguido then Ok(Varredura(Diferente, q + 2)) else Err(CaractereInesperado('!'))
    case c => Err(CaractereInesperado(c))
  }

  /** The string literal whose opening quote is at `q`. */
  function VarrerTexto(s: string, q: nat): (r: Result<Varredura, ErroLexico>)
    requires q < |s|
    ensures r.Ok? ==> q < r.value.fim <= |s|
  {
    var k := FimTexto(s, q + 1);
    if k < |s| then Ok(Varredura(TextoLiteral(s[q + 1..k]), k + 1)) else Err(StringNaoTerminada)
  }

  /** The number literal starting at `q`. */
  function VarrerNumero(s: string, q: nat): (r: Result<Varredura, ErroLexico>)
    requires q < |s| && EhDigito(s[q])
    ensures r.Ok? ==> q < r.value.fim <= |s|
  {
    var k := FimNumero(s, q, false);
    match LerF64(s[q..k])
    case Some(n) => Ok(Varredura(NumeroLiteral(n), k))
    case None => Err(ErroNumero(s[q..k]))
  }

  /** One `proximo_token` step from position `p`: the token and the position
      after it, or the lexical error. Every token but `EOF` consumes input. */
  function Varrer(s: string, p: nat): (r: Result<Varredura, ErroLexico>)
    requires p <= |s|
    ensures r.Ok? ==> p <= r.value.fim <= |s|
    ensures r.Ok? && r.value.token != EOF ==> p < r.value.fim
    decreases |s| - p, 1
  {
    VarrerApos(s, FimEspacos(s, p))
  }

  /** The step once the spaces before the token have been skipped. */
  function VarrerApos(s: string, q: nat): (r: Result<Varredura, ErroLexico>)
    requires q <= |s|
    ensures r.Ok? ==> q <= r.value.fim <= |s|
    ensures r.Ok? && r.value.token != EOF ==> q < r.value.fim
    decreases |s| - q, 0
  {
    if q == |s| then Ok(Varredura(EOF, q))
    else
      var c := s[q];
      if Simbolo(c).Some? then Ok(Varredura(Simbolo(c).value, q + 1))
      else if c == '/' then
        if q + 1 < |s| && s[q + 1] == '/' then Varrer(s, FimComentario(s, q + 1))
        else Ok(Varredura(Dividido, q + 1))
      else if c == '"' then VarrerTexto(s, q)
      else if EhDigito(c) then VarrerNumero(s, q)
      else if IniciaIdentificador(c) then
        var k := FimIdentificador(s, q);
        Ok(Palavra(s, s[q..k], k))
      else OperadorDuplo(s, q)
  }

  /** The whole token stream from position `p`: on success it ends with the
      one and only `EOF`; the first lexical error aborts with no tokens. */
  function Tokens(s: string, p: nat): (r: Result<seq<Token>, ErroLexico>)
    requires p <= |s|
    ensures r.Ok? ==> |r.value| >= 1 && r.value[|r.value| - 1] == EOF
    ensures r.Ok? ==> EOF !in r.value[..|r.value| - 1]
    decreases |s| - p
  {
    match Varrer(s, p)
    case Err(e) => Err(e)
    case Ok(v) =>
      if v.token == EOF then Ok([EOF])
      else
        match Tokens(s, v.fim)
        case Err(e) => Err(e)
        case Ok(resto) => Ok([v.token] + resto)
  }

  function TokenDe(r: Result<Varredura, ErroLexico>): Result<Token, ErroLexico> {
    match r
    case Ok(v) => Ok(v.token)
    case Err(e) => Err(e)
  }

  // ---------------------------------------------------------------------
  // The cursor object

  class Lexer {
    const entrada: string
    var posicao: nat
    var linha: nat
    var coluna: nat

    /** The cursor never passes the end, and the line and column are those
        reached by reading the consumed prefix. */
    ghost predicate Valid()
      reads this
    {
      posicao <= |entrada| && Cursor(linha, coluna) == CursorApos(entrada[..posicao])
    }

    constructor (entrada: string)
      ensures Valid()
      ensures this.entrada == entrada && posicao == 0 && linha == 1 && coluna == 1
    {
      this.entrada := entrada;
      posicao := 0;
      linha := 1;
      coluna := 1;
    }

    /** Consumes one character: a newline moves to column 1 of the next line,
        anything else one column right; at the end nothing changes. */
    method Avancar()
      requires Valid()
      modifies this
      ensures Valid()
      ensures old(posicao) < |entrada| ==>
        && posicao == old(posicao) + 1
        && (if entrada[old(posicao)] == '\n' then linha == old(linha) + 1 && coluna == 1
            else linha == old(linha) && coluna == old(coluna) + 1)
      ensures old(posicao) == |entrada| ==>
        posicao == old(posicao) && linha == old(linha) && coluna == old(coluna)
    {
      if posicao < |entrada| {
        assert entrada[..posicao + 1][..posicao] == entrada[..posicao];
        if entrada[posicao] == '\n' {
          linha := linha + 1;
          coluna := 1;
        } else {
          coluna := coluna + 1;
        }
        posicao := posicao + 1;
      }
    }

    /** The character under the cursor, if any. */
    function CaractereAtual(): (r: Option<char>)
      reads this
      ensures r.Some? <==> posicao < |entrada|
      ensures r.Some? ==> r.value == entrada[posicao]
    {
      if posicao < |entrada| then Some(entrada[posicao]) else None
    }

    method PularEspacos()
      requires Valid()
      modifies this
      ensures Valid() && posicao == FimEspacos(entrada, old(posicao))
    {
      while posicao < |entrada| && EhEspaco(entrada[posicao])
        invariant Valid()
        invariant FimEspacos(entrada, posicao) == FimEspacos(entrada, old(posicao))
        decreases |entrada| - posicao
      {
        Avancar();
      }
    }

    method LerIdentificador() returns (id: string)
      requires Valid()
      modifies this
      ensures Valid() && posicao == FimIdentificador(entrada, old(posicao))
      ensures id == entrada[old(posicao)..posicao]
    {
      id := "";
      while posicao < |entrada| && ParteIdentificador(entrada[posicao])
        invariant Valid() && old(posicao) <= posicao
        invariant FimIdentificador(entrada, posicao) == FimIdentificador(entrada, old(posicao))
        invariant id == entrada[old(posicao)..posicao]
        decreases |entrada| - posicao
      {
        id := id + [entrada[posicao]];
        Avancar();
      }
    }

    method LerNumero() returns (r: Result<NumeroF64, ErroLexico>)
      requires Valid()
      modifies this
      ensures Valid() && posicao == FimNumero(entrada, old(posicao), false)
      ensures var lexema := entrada[old(posicao)..posicao];
              r == if LerF64(lexema).Some? then Ok(LerF64(lexema).value) else Err(ErroNumero(lexema))
    {
      var num := "";
      var temPonto := false;
      while true
        invariant Valid() && old(posicao) <= posicao
        invariant FimNumero(entrada, posicao, temPonto) == FimNumero(entrada, old(posicao), false)
        invariant num == entrada[old(posicao)..posicao]
        decreases |entrada| - posicao
      {
        var atual := CaractereAtual();
        if atual.None? {
          break;
        }
        var c := atual.value;
        if EhDigito(c) {
          num := num + [c];
          Avancar();
        } else if c == '.' && !temPonto {
          num := num + [c];
          temPonto := true;
          Avancar();
        } else {
          break;
        }
      }
      var lido := LerF64(num);
      r := if lido.Some? then Ok(lido.value) else Err(ErroNumero(num));
    }

    /** Skips the opening quote and reads up to the closing one. */
    method LerTexto() returns (r: Result<string, ErroLexico>)
      requires Valid()
      modifies this
      ensures Valid()
      ensures var inicio := if old(posicao) < |entrada| then old(posicao) + 1 else old(posicao);
              var k := FimTexto(entrada, inicio);
              && (k < |entrada| ==> r == Ok(entrada[inicio..k]) && posicao == k + 1)
              && (k == |entrada| ==> r == Err(StringNaoTerminada))
    {
      Avancar();
      ghost var inicio := posicao;
      var texto := "";
      while posicao < |entrada|
        invariant Valid() && inicio <= posicao
        invariant FimTexto(entrada, posicao) == FimTexto(entrada, inicio)
        invariant texto == entrada[inicio..posicao]
        decreases |entrada| - posicao
      {
        var c := entrada[posicao];
        if c == '"' {
          Avancar();
          return Ok(texto);
        }
        texto := texto + [c];
        Avancar();
      }
      r := Err(StringNaoTerminada);
    }

    /** The lookahead after "para", "quando", "falhar", "é" and "e". */
    method LerDepoisDePalavra(id: string) returns (t: Token)
      requires Valid()
      requires id in {"para", "quando", "falhar", "é", "e"}
      modifies this
      ensures Valid()
      ensures Varredura(t, posicao) == Palavra(entrada, id, old(posicao))
    {
      PularEspacos();
      var atual := CaractereAtual();
      if id == "para" {
        if atual == Some('c') {
          var resto := LerIdentificador();
          if resto == "cada" {
            return ParaCada;
          }
        }
        var palavra := LerIdentificador();
        t := Identificador("para_" + palavra);
      } else if id == "quando" {
        t := Identificador("quando");
        if atual == Some('d') {
          var der := LerIdentificador();
          if der == "der" {
            PularEspacos();
            if CaractereAtual() == Some('e') {
              var erro := LerIdentificador();
              if erro == "erro" {
                t := QuandoDerErro;
              }
            }
          }
        }
      } else if id == "falhar" {
        t := Identificador("falhar");
        if atual == Some('c') {
          var com := LerIdentificador();
          if com == "com" {
            t := FalharCom;
          }
        }
      } else {
        t := Identificador("é");
        if atual == Some('i') {
          var igual := LerIdentificador();
          if igual == "igual" {
            PularEspacos();
            if CaractereAtual() == Some('a') {
              Avancar();
              t := IgualA;
            }
          }
        }
      }
    }

    /** `proximo_token`: one step of `Varrer` on the cursor. */
    method ProximoToken() returns (r: Result<Token, ErroLexico>)
      requires Valid()
      modifies this
      ensures Valid()
      ensures r == TokenDe(Varrer(entrada, old(posicao)))
      ensures r.Ok? ==> posicao == Varrer(entrada, old(posicao)).value.fim
      decreases |entrada| - posicao, 1
    {
      PularEspacos();
      r := Despachar();
    }

    /** The dispatch on the character under the cursor, after the spaces. */
    method Despachar() returns (r: Result<Token, ErroLexico>)
      requires Valid()
      modifies this
      ensures Valid()
      ensures r == TokenDe(VarrerApos(entrada, old(posicao)))
      ensures r.Ok? ==> posicao == VarrerApos(entrada, old(posicao)).value.fim
      decreases |entrada| - posicao, 0
    {
      var atual := CaractereAtual();
      if atual.None? {
        return Ok(EOF);
      }
      var c := atual.value;
      var simples := Simbolo(c);
      if simples.Some? {
        Avancar();
        r := Ok(simples.value);
      } else if c == '/' {
        Avancar();
        if CaractereAtual() == Some('/') {
          PularComentario();
          r := ProximoToken();
        } else {
          r := Ok(Dividido);
        }
      } else if c == '"' {
        var texto := LerTexto();
        r := if texto.Ok? then Ok(TextoLiteral(texto.value)) else Err(texto.error);
      } else if EhDigito(c) {
        var n := LerNumero();
        r := if n.Ok? then Ok(NumeroLiteral(n.value)) else Err(n.error);
      } else if IniciaIdentificador(c) {
        var t := LerPalavra();
        r := Ok(t);
      } else {
        r := LerOperadorDuplo();
      }
    }

    /** Skips a line comment: through the next newline, or to the end. */
    method PularComentario()
      requires Valid()
      modifies this
      ensures Valid() && posicao == FimComentario(entrada, old(posicao))
    {
      while posicao < |entrada|
        invariant Valid() && old(posicao) <= posicao
        invariant FimComentario(entrada, posicao) == FimComentario(entrada, old(posicao))
        decreases |entrada| - posicao
      {
        if entrada[posicao] == '\n' {
          Avancar();
          break;
        }
        Avancar();
      }
    }

    /** '>', '<' and '!', with an optional '=' after them. */
    method LerOperadorDuplo() returns (r: Result<Token, ErroLexico>)
      requires Valid() && posicao < |entrada|
      modifies this
      ensures Valid()
      ensures r == TokenDe(OperadorDuplo(entrada, old(posicao)))
      ensures r.Ok? ==> posicao == OperadorDuplo(entrada, old(posicao)).value.fim
    {
      var c := entrada[posicao];
      if c != '>' && c != '<' && c != '!' {
        return Err(CaractereInesperado(c));
      }
      Avancar();
      var seguido := CaractereAtual() == Some('=');
      if seguido {
        Avancar();
      }
      if c == '>' {
        r := Ok(if seguido then MaiorIgual else Maior);
      } else if c == '<' {
        r := Ok(if seguido then MenorIgual else Menor);
      } else {
        r := if seguido then Ok(Diferente) else Err(CaractereInesperado('!'));
      }
    }

    /** An identifier, then the keyword dispatch on it. */
    method LerPalavra() returns (t: Token)
      requires Valid()
      modifies this
      ensures Valid()
      ensures var k := FimIdentificador(entrada, old(posicao));
              Varredura(t, posicao) == Palavra(entrada, entrada[old(posicao)..k], k)
    {
      var id := LerIdentificador();
      if id in {"para", "quando", "falhar", "é", "e"} {
        t := LerDepoisDePalavra(id);
      } else {
        var chave := PalavraChave(id);
        t := if chave.Some? then chave.value else Identificador(id);
      }
    }
  }

  /** The tokens already pushed, in front of the outcome of the rest. */
  function Prefixado(feitos: seq<Token>, resto: Result<seq<Token>, ErroLexico>): Result<seq<Token>, ErroLexico> {
    match resto
    case Ok(ts) => Ok(feitos + ts)
    case Err(e) => Err(e)
  }

  /** One step of the stream: the outcome from `p` is that of the token at
      `p` followed by the outcome from where it ends. */
  lemma TokensPasso(s: string, p: nat)
    requires p <= |s|
    ensures Varrer(s, p).Err? ==> Tokens(s, p) == Err(Varrer(s, p).error)
    ensures Varrer(s, p).Ok? && Varrer(s, p).value.token == EOF ==> Tokens(s, p) == Ok([EOF])
    ensures Varrer(s, p).Ok? && Varrer(s, p).value.token != EOF ==>
      Tokens(s, p) == Prefixado([Varrer(s, p).value.token], Tokens(s, Varrer(s, p).value.fim))
  {
  }

  lemma PrefixadoConcatena(a: seq<Token>, b: seq<Token>, resto: Result<seq<Token>, ErroLexico>)
    ensures Prefixado(a, Prefixado(b, resto)) == Prefixado(a + b, resto)
  {
    if resto.Ok? {
      assert a + (b + resto.value) == (a + b) + resto.value;
    }
  }

  /** `tokenizar`: tokens are pushed until `EOF`, which is pushed last; the
      first error aborts the whole run. */
  method Tokenizar(codigo: string) returns (r: Result<seq<Token>, ErroLexico>)
    ensures r == Tokens(codigo, 0)
  {
    var lexer := new Lexer(codigo);
    var tokens: seq<Token> := [];
    assert Prefixado(tokens, Tokens(codigo, 0)) == Tokens(codigo, 0) by {
      if Tokens(codigo, 0).Ok? {
        assert [] + Tokens(codigo, 0).value == Tokens(codigo, 0).value;
      }
    }
    while true
      invariant lexer.Valid() && lexer.entrada == codigo
      invariant Tokens(codigo, 0) == Prefixado(tokens, Tokens(codigo, lexer.posicao))
      decreases |codigo| - lexer.posicao
    {
      ghost var antes := lexer.posicao;
      var t := lexer.ProximoToken();
      TokensPasso(codigo, antes);
      if t.Err? {
        return Err(t.error);
      }
      var token := t.value;
      if token == EOF {
        tokens := tokens + [EOF];
        return Ok(tokens);
      }
      PrefixadoConcatena(tokens, [token], Tokens(codigo, lexer.posicao));
      tokens := tokens + [token];
    }
  }
}
