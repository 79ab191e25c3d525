# pbrlang compiler core, modelled in Dafny

This project models the core of the compiler for pbrlang, a scripting
language with Portuguese keywords that is transpiled to Rust, together with
its package manifest format. The parts modelled are:

- **The lexer** (`src/lexer.rs`).
  - The `Lexer` class keeps the source's cursor state (`posicao`, `linha`,
    `coluna`) and has one method per source method.
  - Each method is proved against a pure reference scanner. `Varrer` gives
    the token and end position from a start position, and `Tokens` gives the
    whole token sequence.
  - The reference scanner also reproduces the multi-word keyword lookahead
    ("para cada", "quando der erro", "falhar com", "é igual a"). That
    lookahead never rolls back.
- **The legacy parser** `analisar` (`src/parser.rs`). This is the parser the
  command line uses. It walks a token sequence with an index.
  - Each loop is an imperative method.
  - Each method is proved equal to a recursive function (`Expr`,
    `Parametros`, `Corpo`, `Funcao`, `Argumentos`, `Chamada`, `Instrucoes`).
- **The tree builders** `parse_*` (`src/parser.rs`). These are modelled over
  an abstract parse tree `Par(regra, texto, filhos)`.
  - The model covers only how each builder turns children into syntax
    nodes.
  - Operands are folded to the left, a comparison gets a single node,
    assignment is checked, visibility flags are read and quotes are
    stripped.
- **The syntax tree** (`src/ast.rs`). It is a set of datatypes, plus the
  `Programa` class whose `AdicionarDeclaracao` appends in place.
- **The code generator** (`src/transpiler.rs`).
  - `TextoExpressao`, `TextoDeclaracao` and `CodigoRust` give the Rust text
    each node lowers to.
  - The `Gerar*` methods append to a `Saida` buffer as the source does. Each
    one is proved to append exactly that text, or to fail exactly when the
    text is undefined.
- **The package manifest** `Manifesto` (`src/caixotes.rs`).
  - It is a class with the source's fields.
  - `Parse` is the line-by-line state machine (`Normal` / `Dependencias`),
    and `DefinirValor` assigns one field.
  - `ParaTexto` is the serialiser.
  - Each is proved against the pure functions `Analisar`, `DefinirValorEm`
    and `Serializar`. The round trip `Analisar(Serializar(d)) == d` is
    proved, with the empty licence coming back as `"MIT"`.

Support modules:

- `Wrappers` holds `Option` and `Result`.
- `Texto` models the parts of Rust's `str` that the source relies on: `trim`,
  `trim_matches('"')`, `find`, `split`, `join` and `lines`. It also has the
  character classes the source uses: whitespace is Unicode White_Space
  exactly, and alphanumeric is exact on Latin-1.
- `Numeros` models a number as its decimal lexeme, with a `parse::<f64>`
  test and a canonical `Display`.

The model keeps these behaviours of the code:

- The multi-word lookahead never backs off. `para` followed by another word
  consumes that word, and `quando` / `é` consume the spaces that follow them
  even when no continuation word matches.
- An empty licence written by `to_string` is read back as `"MIT"`, because
  `parse` starts from `novo`'s defaults.
- The source's matches on `Tipo` in `gerar_tipo` and in a variable's default
  value have no arm for `Void` or `Opcional`, so they are not exhaustive.
  The model lowers those two types to `Err(TipoNaoSuportado)`.
- Negation in `parse_fator` is recognised by the text of the first child
  (`!` or `não`).
- A legacy function body that reaches the end of the tokens without `}` is
  accepted (`FuncaoSemFechaChave`).
- The legacy parser's reads past a parameter's `:` have no bounds check.
  They are safe because `tokenizar` always ends the sequence with `EOF`,
  which the model requires as `Terminada`.

## Model

| member | source | states |
|---|---|---|
| Lexer.Lexer.constructor | src/lexer.rs:79-86 | a new lexer is at position 0, line 1, column 1 over the given input |
| Lexer.Lexer.Avancar | src/lexer.rs:88-98 | before the end, the position moves by one; a newline increments the line and resets the column to 1, and any other character increments the column; at the end nothing changes |
| Lexer.CursorContaLinhas | src/lexer.rs:88-98 | after advancing over a text, the line is 1 plus the number of newlines in it |
| Lexer.CursorContaColunas | src/lexer.rs:88-98 | after advancing over a text, the column is 1 plus the number of characters since its last newline |
| Lexer.Lexer.CaractereAtual | src/lexer.rs:100-106 | there is a current character exactly when the position is before the end, and it is the character at the position |
| Lexer.FimEspacosPara | src/lexer.rs:116-124 | everything `pular_espacos` skips is whitespace, and it stops at a non-whitespace character or at the end |
| LexerPropriedades.FimEspacosEm | src/lexer.rs:116-124 | conversely, a run of whitespace ended by a non-whitespace character or the end is exactly what is skipped |
| Lexer.Lexer.PularEspacos | src/lexer.rs:116-124 | the cursor moves to the end of the whitespace run |
| Lexer.FimIdentificadorPara | src/lexer.rs:126-139 | an identifier is read while characters are alphanumeric or `_`, and the read stops at the first other character |
| LexerPropriedades.FimIdentificadorEm | src/lexer.rs:126-139 | conversely, a maximal run of identifier characters is exactly what is read |
| Lexer.Lexer.LerIdentificador | src/lexer.rs:126-139 | returns the characters between the old and the new position, and the new position is the end of the identifier |
| Lexer.FimNumero | src/lexer.rs:141-159 | a number is digits with at most one `.`, never two dots, and it stops before a second dot or a non-digit |
| Lexer.Lexer.LerNumero | src/lexer.rs:141-159 | reads up to the end of the number, and returns the number whose lexeme is the text read, or an error when that text is not a decimal |
| LexerPropriedades.NumeroSempreLe | src/lexer.rs:141-159 | a digit always starts a number of at least one character, whose lexeme is exactly the characters read |
| LexerPropriedades.SegundoPontoPara | src/lexer.rs:141-159 | (an example) `1.2.3` begins with the number `1.2` and the scan stops at the second dot |
| LexerPropriedades.SegundoPontoRecusado | src/lexer.rs:347 | (an example) tokenizing `1.2.3` fails with an unexpected `.` after the first number |
| Lexer.FimTextoPara | src/lexer.rs:161-176 | a text literal runs over characters other than `"` and stops at the next `"` or at the end |
| LexerPropriedades.FimTextoEm | src/lexer.rs:161-176 | conversely, the first closing quote is exactly where the literal ends |
| Lexer.Lexer.LerTexto | src/lexer.rs:161-176 | with a closing quote, returns the characters between the quotes and moves past the closing quote; otherwise returns `StringNaoTerminada` |
| LexerPropriedades.TextoLiteralExato | src/lexer.rs:244 | a quoted text with no inner quote gives a text token holding exactly the inner characters, with no escape processing, and ends after the closing quote |
| LexerPropriedades.TextoNaoTerminado | src/lexer.rs:161-176 | a quote with no closing quote gives `StringNaoTerminada` |
| Lexer.FimComentarioPara | src/lexer.rs:197-213 | a comment runs up to and including the next newline, or to the end |
| LexerPropriedades.FimComentarioEm | src/lexer.rs:197-213 | conversely, the first newline is exactly where the comment ends |
| Lexer.Lexer.PularComentario | src/lexer.rs:197-213 | the cursor moves past the next newline, or to the end |
| LexerPropriedades.ComentarioAteQuebra | src/lexer.rs:197-213 | `//` followed by a line gives the token that follows that line |
| LexerPropriedades.ComentarioAteFim | src/lexer.rs:197-213 | a comment that reaches the end of input gives `EOF` |
| LexerPropriedades.BarraSozinha | src/lexer.rs:197-213 | a `/` not followed by `/` is one `Dividido` token of length 1 |
| Lexer.Lexer.LerOperadorDuplo | src/lexer.rs:214-241 | `=`, `>`, `<` and `!` are scanned as the reference scanner says, and the cursor moves to its end position |
| LexerPropriedades.RelacionalOperador | src/lexer.rs:215-241 | `>` and `<` become `>=` and `<=` exactly when `=` follows, and otherwise stay single |
| LexerPropriedades.Exclamacao | src/lexer.rs:215-241 | `!=` is `Diferente`, and `!` followed by anything else is `CaractereInesperado('!')` |
| LexerPropriedades.IgualDuplo | src/lexer.rs:214 | `==` tokenizes as two `Igual` tokens followed by `EOF` |
| LexerPropriedades.NaoListado | src/lexer.rs:347 | a character that starts no token is `CaractereInesperado` of that character |
| Lexer.Varrer | src/lexer.rs:178-351 | the next token ends after its start, and is `EOF` when it consumes nothing |
| Lexer.Lexer.ProximoToken | src/lexer.rs:178-351 | `proximo_token` returns the reference scanner's token and moves the cursor to its end |
| Lexer.Lexer.Despachar | src/lexer.rs:181-349 | the dispatch on the current character, after whitespace, agrees with the reference scanner |
| Lexer.Lexer.LerPalavra | src/lexer.rs:250-344 | a word is read to the end of the identifier and then classified as a keyword, an identifier or a multi-word keyword |
| Lexer.Lexer.LerDepoisDePalavra | src/lexer.rs:252-344 | the lookahead after `para`, `quando`, `falhar`, `é` and `e` agrees with the reference scanner |
| LexerPropriedades.InicioPalavra | src/lexer.rs:250-344 | input starting with an identifier is scanned by reading the identifier and then classifying it |
| LexerPropriedades.PrimeiraPalavra | src/lexer.rs:250-344 | the same, for a first word followed by spaces and a second word |
| LexerPropriedades.DepoisDeParaCada | src/lexer.rs:258-271 | after `para`, spaces and `cada` give `ParaCada` ending after `cada` |
| LexerPropriedades.DepoisDeParaOutra | src/lexer.rs:258-271 | after `para`, any other word is swallowed into `Identificador("para_" + word)`, or just `"para_"` when the word starts with `c` |
| LexerPropriedades.ParaCadaReconhecido | src/lexer.rs:258-271 | a text starting `para cada` scans to `ParaCada` |
| LexerPropriedades.ParaColaPalavra | src/lexer.rs:258-271 | a text starting `para` and another word scans to one glued identifier with no rollback |
| LexerPropriedades.QuandoLeDer | src/lexer.rs:276-296 | after `quando`, spaces and `der` the scan continues looking for `erro` |
| LexerPropriedades.DerLeErro | src/lexer.rs:276-296 | after `quando der`, spaces and `erro` give `QuandoDerErro` |
| LexerPropriedades.DerLeOutra | src/lexer.rs:276-296 | after `quando der`, a word not starting with `e` gives `Identificador("quando")`, with `der` and the spaces already consumed |
| LexerPropriedades.QuandoDer | src/lexer.rs:276-296 | a text starting `quando der` scans to what follows `der` |
| LexerPropriedades.DepoisDeFalharCom | src/lexer.rs:297-309 | after `falhar`, spaces and `com` give `FalharCom` |
| LexerPropriedades.FalharComReconhecido | src/lexer.rs:297-309 | a text starting `falhar com` scans to `FalharCom` |
| LexerPropriedades.ELeIgual | src/lexer.rs:321-339 | after `é` or `e`, spaces and `igual`, the scan looks for a single `a` |
| LexerPropriedades.IgualLeA | src/lexer.rs:321-339 | after `é igual`, spaces and `a` give `IgualA` after consuming only that `a` |
| LexerPropriedades.DepoisDeEOutra | src/lexer.rs:321-339 | after `é` or `e`, a word not starting with `i` gives `Identificador("é")`, with the spaces consumed |
| LexerPropriedades.EIgual | src/lexer.rs:321-339 | a text starting `é igual` or `e igual` scans to what follows `igual` |
| LexerPropriedades.ELidoComoE | src/lexer.rs:321-339 | `e` followed by another word is read as `Identificador("é")` |
| Lexer.Tokens | src/lexer.rs:354-370 | on success the sequence ends with `EOF` and has no other `EOF` |
| Lexer.TokensPasso | src/lexer.rs:354-370 | a scan error aborts the whole sequence, `EOF` ends it, and any other token is prefixed to the rest |
| Lexer.Tokenizar | src/lexer.rs:354-370 | the imperative loop returns exactly the reference sequence or the first error |
| LexerPropriedades.PassoIdentificadorComoEscrito | src/lexer.rs:250 | the identifier branch as written is taken exactly for the characters in its literal ranges |
| LexerPropriedades.DivisaoSemProgresso | src/lexer.rs:250 | as written, `÷` and `×` enter the identifier branch, which reads the empty identifier and does not move |
| LexerPropriedades.DivisaoRecusada | src/lexer.rs:250 | with the corrected guard, the identifier branch always moves forward, and `÷` is an unexpected character |
| Numeros.LerF64 | src/lexer.rs:158 | a lexeme parses as a number exactly when it is decimal, and the number keeps that lexeme |
| Numeros.ExibirNumeroDecimal | src/transpiler.rs:202 | the displayed form of a decimal number is itself decimal, so it parses back |
| Legado.Termo | src/parser.rs:985-1009 | succeeds exactly on a text, number, identifier, `verdadeiro` or `falso` token, and the term is written with that token; past the end it is `EsperavaTermo` |
| LegadoPropriedades.TermoDoToken | src/parser.rs:985-1009 | a term's own token reads back as that term |
| Legado.Expr | src/parser.rs:953-983 | a sum consumes at least one token and stops at the end or before a token other than `+` |
| Legado.MaisTermos | src/parser.rs:959-979 | the `+ termo` loop stops at the end or before a token other than `+` |
| Legado.AnalisarExpressao | src/parser.rs:953-983 | the imperative loop computes `Expr` |
| LegadoPropriedades.MaisTermosCadeia | src/parser.rs:959-979 | an alternating `+ termo` chain is folded to the left over all its terms |
| LegadoPropriedades.ExprCadeia | src/parser.rs:953-983 | `t0 + t1 + ... + tn` parses to the left-nested sum `((t0 + t1) + ...) + tn` and stops after `tn` |
| LegadoPropriedades.ExprTokensDaSoma | src/parser.rs:953-983 | for any terms, writing the sum as tokens and parsing it gives back the left-nested sum |
| LegadoPropriedades.ExprExemplo | src/parser.rs:953-983 | (an example) `"a" + x + verdadeiro` parses to `(("a" + x) + verdadeiro)` |
| Legado.TipoParametro | src/parser.rs:62-68 | a parameter type is `texto`, `número`, `lógico` or a name, never `Void` or `Opcional`, and is otherwise `TipoParametroInvalido` |
| Legado.Parametros | src/parser.rs:51-88 | on success the list ends just after `)` and extends the parameters read so far; `)` ends it at once; a token that is neither a name nor `)` is `ParametroInvalido`, a name not followed by `:` is `EsperavaDoisPontos`, and a bad type token is `TipoParametroInvalido` |
| Legado.AnalisarParametros | src/parser.rs:51-88 | the imperative parameter loop computes `Parametros`, so it has the same error cases and the round trip of `ParametrosDosTokens` |
| LegadoPropriedades.ParametrosDosTokens | src/parser.rs:51-88 | for any parameters written `nome : tipo`, each with or without a comma after it, and closed by `)`, the loop reads back exactly those parameters in order and ends just after `)` |
| Legado.Retornado | src/parser.rs:99-120 | `volte` accepts exactly a number, text or identifier, and otherwise fails with `RetornoInvalido` |
| Legado.Corpo | src/parser.rs:91-155 | a body holds only `volte` and `mostre` statements, and on success ends just after `}` or past the end |
| Legado.AnalisarCorpo | src/parser.rs:91-155 | the imperative body loop computes `Corpo` |
| Legado.Funcao | src/parser.rs:33-156 | a `faça` declaration is a function named by the next identifier, never public, with no return type and a legacy body; nothing after `faça` is `IncompletaAposFaca`, a token other than a name is `EsperavaNomeFuncao`, a name not followed by `(` is `EsperavaAbreParentese`, and an error in the parameters is passed on |
| Legado.ComCorpo | src/parser.rs:90-155 | the function built keeps the name and the parameters read; exactly when `{` is missing the result is `EsperavaAbreChave`, and an error in the body is passed on |
| Legado.AnalisarFuncao | src/parser.rs:33-156 | the imperative version computes `Funcao`, so it has the same error cases and the round trip of `FuncaoDosTokens` |
| LegadoPropriedades.CorpoDosTokens | src/parser.rs:123-155 | a body of `mostre` statements, each of any sum of terms, closed by `}`, gives one `Mostrar` of the left-nested sum per statement, in order, and ends just after `}` |
| LegadoPropriedades.FuncaoDosTokens | src/parser.rs:33-156 | for any name, parameters (commas or not) and `mostre` body, `nome ( ... ) { ... }` after `faça` reads back as the private function with that name, those parameters, no return type and those statements |
| Legado.Argumentos | src/parser.rs:163-191 | on success the argument list ends just after `)` and extends the arguments read so far |
| Legado.AnalisarArgumentos | src/parser.rs:163-191 | the imperative argument loop computes `Argumentos` |
| Legado.Chamada | src/parser.rs:158-195 | a call statement is a `Chamada` expression named by the identifier |
| Legado.AnalisarChamada | src/parser.rs:158-195 | the imperative version computes `Chamada` |
| LegadoPropriedades.ArgumentosDosTokens | src/parser.rs:169-191 | for any arguments, each a sum of terms with or without a comma after it, closed by `)`, the loop reads back the left-nested sums in order and ends just after `)` |
| LegadoPropriedades.ChamadaDosTokens | src/parser.rs:158-195 | `nome ( argumentos )` reads back as a call of that name on exactly the expressions written, in order |
| Legado.Instrucao | src/parser.rs:19-202 | each step gives at most one declaration, moves forward, and gives only `mostre`, function or call declarations |
| Legado.Instrucoes | src/parser.rs:18-205 | every declaration produced is one of those three kinds |
| Legado.Analisar | src/parser.rs:13-206 | `analisar` succeeds exactly when `Instrucoes` does, and then its program holds those declarations in order; otherwise it returns the same error |
| LegadoPropriedades.InstrucoesIgnora | src/parser.rs:197-201 | a token that starts no statement is skipped |
| LegadoPropriedades.InstrucoesFim | src/parser.rs:18-20 | scanning stops at `EOF` |
| LegadoPropriedades.MostresEmOrdem | src/parser.rs:21-31 | a run of `mostre t` statements gives one `Mostrar` per statement, in source order |
| LegadoPropriedades.MostresPrograma | src/parser.rs:21-31 | the same, for the whole token sequence |
| LegadoPropriedades.FuncaoSemFechaChave | src/parser.rs:91-155 | (an example) a function body that reaches the end of the tokens without `}` is accepted |
| Ast.Programa.constructor | src/ast.rs:159-163 | a new program has no declarations |
| Ast.Programa.AdicionarDeclaracao | src/ast.rs:165-167 | appends: the earlier declarations are unchanged and the new one is last |
| Arvore.ParseTipo | src/parser.rs:377-386 | `texto`, `número`/`numero` and `lógico`/`logico` map to the built-in types, and any other text is a named type |
| Arvore.OperadorComparacao | src/parser.rs:707-716 | `==` and `é igual a` map to `Igual`, `em` maps to `Contem`, and any text outside the eight listed is an error naming it |
| Arvore.OperadorDoNivel | src/parser.rs:742-779 | `+`/`-` map to the additive operators and `*`/`/`/`resto`/`%` to the multiplicative ones, and anything else is an error naming it |
| ArvorePropriedades.LogicaEsquerda | src/parser.rs:656-696 | `a op b op ... op z` under `or`/`and` folds to the left |
| ArvorePropriedades.LogicaTres | src/parser.rs:656-696 | (an example) `a op b op c` becomes `((a op b) op c)` |
| ArvorePropriedades.DobrarLogicaEsquerda | src/parser.rs:664-672 | the `or`/`and` loop folds every remaining operand onto the accumulator from the left |
| ArvorePropriedades.AritmeticaEsquerda | src/parser.rs:734-791 | sums and products with alternating operators fold to the left |
| ArvorePropriedades.DobrarAritmeticaEsquerda | src/parser.rs:742-758 | the sum/product loop folds every remaining operator and operand from the left |
| ArvorePropriedades.DobrarAritmeticaSemOperando | src/parser.rs:749-750 | an operator with no operand after it is an error |
| ArvorePropriedades.ComparacaoUmNo | src/parser.rs:698-732 | a comparison is either its single child or one node built from the first three children, never a chain |
| ArvorePropriedades.ComparacaoIgnoraResto | src/parser.rs:698-732 | children after the third do not change the result |
| ArvorePropriedades.AtribuicaoSoNome | src/parser.rs:630-654 | with a value, the result is an assignment exactly when the left side is a bare identifier |
| ArvorePropriedades.AtribuicaoResultado | src/parser.rs:630-654 | every successful assignment names the left identifier and holds the right value |
| ArvorePropriedades.DeclaracaoVisibilidade | src/parser.rs:271-565 | a variable, function or model is public exactly when its first child is the visibility modifier, and it is named by the next child |
| Arvore.ParseCampo | src/parser.rs:539-558 | a field reads its own visibility flag, its name and its type, and fails when children are missing |
| ArvorePropriedades.CamposIndependentes | src/parser.rs:538-560 | every field is read independently and kept in order |
| Arvore.ParseParametros | src/parser.rs:355-375 | the only error is a missing parameter part |
| ArvorePropriedades.ParametrosEmOrdem | src/parser.rs:355-375 | `parametro` children with a name and a type give one parameter each, the first part's text and the second part's type, in order |
| ArvorePropriedades.ParametrosIgnoram | src/parser.rs:358-359 | a child of any other rule is skipped wherever it stands |
| ArvorePropriedades.ParametroIncompleto | src/parser.rs:362-367 | a `parametro` child lacking its name or type makes the whole list fail with a missing parameter part |
| ArvorePropriedades.BlocoOrdem | src/parser.rs:388-399 | a block's declaration children become its statements, in source order |
| ArvorePropriedades.BlocoIgnora | src/parser.rs:391-392 | a child of any rule other than `declaracao` is skipped wherever it stands in a block |
| ArvorePropriedades.RetornoPrimeira | src/parser.rs:401-412 | `retorne` returns the first expression child, or that child's error, and never looks at later children |
| ArvorePropriedades.RetornoVazio | src/parser.rs:401-412 | `retorne` with no expression child returns nothing |
| ArvorePropriedades.CondicionalFaltando | src/parser.rs:414-423 | a missing condition or `se` block is a missing-piece error, and a failing condition is reported before the block is looked for |
| ArvorePropriedades.CondicionalCompleta | src/parser.rs:414-436 | the condition, the `se` block and the optional `senão` block are the first three children; a third child is the `senão` block or its error, and further children are ignored |
| ArvorePropriedades.ParaCadaFaltando | src/parser.rs:438-455 | a missing start, end or body is a missing-piece error, and a failing start is reported first |
| ArvorePropriedades.ParaCadaCompleto | src/parser.rs:438-463 | the loop takes the first child's text as its variable, then the start, the end and the body |
| ArvorePropriedades.EnquantoFaltando | src/parser.rs:465-474 | a missing condition or body is a missing-piece error, and a failing condition is reported first |
| ArvorePropriedades.EnquantoCompleto | src/parser.rs:465-480 | the condition, then the body |
| ArvorePropriedades.RepitaFaltando | src/parser.rs:482-491 | the body comes first, so a failing body is reported before a missing condition |
| ArvorePropriedades.RepitaCompleto | src/parser.rs:482-497 | the body, then the condition |
| ArvorePropriedades.QuandoDerErroFaltando | src/parser.rs:499-511 | a missing attempted block, error variable or handling block is a missing-piece error, and a failing attempted block is reported first |
| ArvorePropriedades.QuandoDerErroCompleto | src/parser.rs:499-519 | the attempted block, the error variable's text and the handling block |
| ArvorePropriedades.ModuloOrdem | src/parser.rs:567-587 | a module is named by its first child and holds its block child's declarations in source order |
| ArvorePropriedades.ModuloFaltando | src/parser.rs:570-576 | a module without its name or its block is a missing-piece error |
| ArvorePropriedades.MostrarPartes | src/parser.rs:602-609 | `mostrar` shows the first child's expression, passes on its error, and is a missing-piece error with no child |
| ArvorePropriedades.ListaOrdem | src/parser.rs:869-880 | a list literal holds its expression children in source order |
| ArvorePropriedades.DicionarioOrdem | src/parser.rs:882-902 | a dictionary literal holds each key-value child's key and value, in source order |
| Arvore.ParseImportar | src/parser.rs:589-600 | an import path holds the text of each segment, in order |
| Arvore.ParseTextoLiteral | src/parser.rs:841-867 | on success a text literal builds a `TextoLiteral` |
| ArvorePropriedades.TextoEntreAspas | src/parser.rs:841-867 | simple and interpolated literals drop exactly one character at each end, and placeholders stay verbatim |
| ArvorePropriedades.TextoEntreAspasTriplas | src/parser.rs:841-867 | multi-line literals drop exactly three characters at each end |
| Arvore.DeclaracoesProgramaPasso | src/parser.rs:227-239 | the program loop handles one child at a time: a declaration is appended, `EOI` is skipped, and an error stops the loop |
| Arvore.DeclaracoesProgramaFalha | src/parser.rs:227-239 | once a child fails, the whole program fails with that error |
| ArvorePropriedades.ProgramaOrdem | src/parser.rs:223-242 | declarations come out in source order |
| ArvorePropriedades.ProgramaFim | src/parser.rs:223-242 | a trailing `EOI` adds nothing |
| Arvore.ParsePrograma | src/parser.rs:223-242 | the imperative loop builds a fresh program holding exactly the specified declarations, or returns the specified error |
| Arvore.AnalisarComPest | src/parser.rs:209-220 | with no top pair the program is empty, and otherwise it is the program built from the first pair |
| Transpilador.TextoTipo | src/transpiler.rs:279-287 | a type lowers to text unless it is `Void` or `Opcional`, which fail with `TipoNaoSuportado` |
| Transpilador.GerarTipo | src/transpiler.rs:279-287 | writes exactly the type's text, or fails exactly as specified |
| Transpilador.TextoPadrao | src/transpiler.rs:29-35 | a variable's default value fails only for `Void` and `Opcional` |
| Transpilador.JuntarResultados | src/transpiler.rs:12-15 | joining partial outputs succeeds exactly when every part does |
| Transpilador.JuntarResultadosFalha | src/transpiler.rs:12-15 | the first failing part decides the error |
| Transpilador.GerarExpressao | src/transpiler.rs:199-277 | appends exactly the expression's text to the buffer |
| Transpilador.GerarLista | src/transpiler.rs:205-212 | appends the list literal's text |
| Transpilador.GerarDicionario | src/transpiler.rs:213-224 | appends the dictionary literal's text |
| Transpilador.GerarChamada | src/transpiler.rs:226-233 | appends the call's text |
| Transpilador.GerarOperacao | src/transpiler.rs:238-264 | appends the operation's text |
| Transpilador.GerarSeparados | src/transpiler.rs:205-233 | list elements and call arguments are written separated by `", "` |
| Transpilador.GerarPares | src/transpiler.rs:213-224 | dictionary pairs are written separated by `", "` |
| Transpilador.GerarDeclaracao | src/transpiler.rs:19-197 | appends exactly the declaration's text, or fails exactly as specified |
| Transpilador.GerarVariavel | src/transpiler.rs:21-39 | the same for a variable |
| Transpilador.GerarFuncao | src/transpiler.rs:40-66 | the same for a function |
| Transpilador.GerarParametros | src/transpiler.rs:47-53 | parameters are written separated by `", "`, or the first unsupported type fails |
| Transpilador.GerarModelo | src/transpiler.rs:67-87 | the same for a model |
| Transpilador.GerarCampo | src/transpiler.rs:74-83 | the same for one field |
| Transpilador.GerarModulo | src/transpiler.rs:88-96 | the same for a module |
| Transpilador.GerarSequencia | src/transpiler.rs:91-93 | nested declarations are written in order, and the first failure aborts |
| Transpilador.GerarCaminho | src/transpiler.rs:98-108 | an import joins its segments with `::` |
| Transpilador.GerarEnquanto | src/transpiler.rs:109-116 | the same for `enquanto` |
| Transpilador.GerarRepita | src/transpiler.rs:117-124 | the same for `repita` |
| Transpilador.GerarSe | src/transpiler.rs:133-146 | the same for `se` |
| Transpilador.GerarParaCada | src/transpiler.rs:147-156 | the same for `para cada` |
| Transpilador.GerarQuandoDerErro | src/transpiler.rs:157-166 | the same for `quando der erro` |
| Transpilador.GerarRetorno | src/transpiler.rs:167-177 | a return never fails, and appends its text |
| Transpilador.GerarCodigoRust | src/transpiler.rs:4-17 | the imperative loop returns exactly `CodigoRust` of the program's declarations |
| TranspiladorFormato.ProgramaVazio | src/transpiler.rs:4-17 | an empty program is the preamble alone |
| TranspiladorFormato.CodigoRustAnexa | src/transpiler.rs:11-14 | one more declaration appends its text and a newline, or fails |
| TranspiladorFormato.CodigoRustOrdem | src/transpiler.rs:4-17 | the output is the preamble followed by each declaration's text and a newline, in program order |
| TranspiladorFormato.VariavelTipoIgnorado | src/transpiler.rs:21-28 | with an initialiser, the declared type does not affect the output |
| TranspiladorFormato.VariavelPublica | src/transpiler.rs:21-25 | `pub ` prefixes the output exactly when the variable is public |
| TranspiladorFormato.VariavelPadrao | src/transpiler.rs:29-35 | without an initialiser the default is `Default::default()`, `String::new()`, `0.0`, `false` or `T::default()` according to the type, and `Void` or `Opcional` fail |
| TranspiladorFormato.CampoLinha | src/transpiler.rs:74-83 | a field is one line: indentation, `pub ` exactly when the field is public, then name and type |
| TranspiladorFormato.ModeloTexto | src/transpiler.rs:67-87 | a model is `#[derive(Default)]`, `pub struct` exactly when public, one line per field in order, then `}` |
| TranspiladorFormato.ModeloLinhas | src/transpiler.rs:67-87 | the same read back as lines |
| TranspiladorFormato.RepitaTexto | src/transpiler.rs:117-124 | `repita` is `loop {`, the body, then `if cond { break; }` and `}` |
| TranspiladorFormato.RepitaLinhas | src/transpiler.rs:117-124 | read back as lines, the body comes before the break check |
| TranspiladorPropriedades.DesescaparEscapar | src/transpiler.rs:289-296 | unescaping the escaped text restores it |
| TranspiladorPropriedades.EscaparSemControle | src/transpiler.rs:289-296 | escaped text contains no raw newline, carriage return or tab |
| TranspiladorPropriedades.EscaparConcatena | src/transpiler.rs:289-296 | escaping works character by character |
| TranspiladorPropriedades.EscaparUm | src/transpiler.rs:289-296 | escaping one character doubles `\` first and then escapes `"`, newline, CR and tab |
| TranspiladorPropriedades.OperacaoEnvolta | src/transpiler.rs:238-264 | an operation's text is wrapped in one outer pair of parentheses that closes only at its last character |
| TranspiladorPropriedades.ExpressaoEquilibrada | src/transpiler.rs:199-277 | when names and literals hold no parentheses, the text of every expression has balanced parentheses |
| Caixotes.Manifesto.Novo | src/caixotes.rs:51-63 | the given name and version, licence `MIT`, main file `src/principal.pbr`, and everything else empty |
| Caixotes.DefinirValorEm | src/caixotes.rs:181-213 | an unknown key changes nothing, and `autores` or `palavras_chave` with a value not enclosed in `[` and `]` changes nothing |
| CaixotesPropriedades.DefinirTexto | src/caixotes.rs:181-188 | a text key takes the value with its surrounding quotes removed |
| CaixotesPropriedades.DefinirLista | src/caixotes.rs:189-206 | a bracketed list of quoted elements sets `autores` or `palavras_chave` to those elements |
| CaixotesPropriedades.LerListaCitados | src/caixotes.rs:191-194 | splitting on `,` and trimming spaces and quotes gives back the listed elements |
| CaixotesPropriedades.DefinirDuasVezes | src/caixotes.rs:181-213 | the later of two lines with the same key wins |
| CaixotesPropriedades.ListaVazia | src/caixotes.rs:189-206 | `[]` sets `autores` or `palavras_chave` to one empty element, `[""]`, not to an empty list |
| Caixotes.Manifesto.DefinirValor | src/caixotes.rs:181-213 | the fields become `DefinirValorEm` of the old fields |
| Caixotes.LinhaEntreChaves | src/caixotes.rs:145-159 | between keys, only a line with `=` can change the state |
| Caixotes.Manifesto.AplicarLinha | src/caixotes.rs:137-174 | one loop step updates the fields and the state as `Passo` says |
| Caixotes.Manifesto.AplicarEntreChaves | src/caixotes.rs:145-159 | the `Normal` branch of the loop |
| Caixotes.Manifesto.AplicarNoBloco | src/caixotes.rs:160-173 | the `Dependencias` branch of the loop |
| Caixotes.Manifesto.Parse | src/caixotes.rs:131-178 | a fresh manifest whose fields are `Analisar` of the text |
| CaixotesPropriedades.PassoSemIgual | src/caixotes.rs:146 | a line without `=` other than `}` changes nothing |
| CaixotesPropriedades.ProcessarIgnoradas | src/caixotes.rs:140-142 | blank lines and `#` comments change nothing in either state |
| CaixotesPropriedades.AnalisarSoComentarios | src/caixotes.rs:131-142 | a text of blank lines and comments parses to `novo("temp", "0.1.0")` |
| CaixotesPropriedades.PassoDependencia | src/caixotes.rs:163-171 | inside a block, `"k" = "v"` inserts k with v, both without quotes |
| CaixotesPropriedades.PassoFecha | src/caixotes.rs:161-162 | inside a block, `}` returns to the `Normal` state |
| CaixotesPropriedades.ProcessarDependencias | src/caixotes.rs:160-172 | a block's lines add every listed dependency, with later keys overwriting earlier ones |
| Caixotes.Manifesto.ParaTexto | src/caixotes.rs:83-128 | the text written is `Serializar` of the fields, in the given dependency order |
| Caixotes.Manifesto.AnexarCabecalho | src/caixotes.rs:86-101 | nome, versao and principal are always written, and autores and descricao only when not empty |
| Caixotes.Manifesto.AnexarDependencias | src/caixotes.rs:103-109 | the dependency block is written only when there are dependencies |
| Caixotes.Manifesto.AnexarCauda | src/caixotes.rs:111-125 | palavras_chave, licenca and repositorio are written only when not empty |
| CaixotesPropriedades.LinhasDoTexto | src/caixotes.rs:83-128 | the serialised text splits back into exactly the lines written |
| CaixotesPropriedades.LerCabecalho | src/caixotes.rs:131-213 | reading the header lines sets nome, versao, autores, descricao and principal |
| CaixotesPropriedades.LerCauda | src/caixotes.rs:131-213 | reading the trailing lines sets palavras_chave, licenca and repositorio |
| CaixotesPropriedades.LerBloco | src/caixotes.rs:131-213 | reading the dependency block sets exactly the dependencies |
| CaixotesPropriedades.IdaEVolta | src/caixotes.rs:83-213 | for fields without newlines or edge quotes, parsing the serialised manifest restores every field, except that an empty licence comes back as `MIT` |
| Texto.DividirJuntar | src/caixotes.rs:191-194 | splitting joined pieces that hold no separator gives back the pieces |
| Texto.Dividir | src/caixotes.rs:191-194 | the pieces of a split hold no separator and join back to the text |
| Texto.Encontrar | src/caixotes.rs:146 | `find` returns the first occurrence, and nothing exactly when the character is absent |

## Left out

- `src/main.rs`, `Manifesto::carregar`/`salvar` and `GerenciadorPacotes`: file system access, subprocesses and printing.
- The pest grammar and `PBRParser::parse`. The builders are modelled over an abstract parse tree, and which strings the grammar accepts is not modelled.
- Floating point. A number is its decimal lexeme. `parse::<f64>` is modelled as a test that the lexeme is decimal, and `Display` as a canonical form that drops leading zeros of the integer part and trailing zeros of the fraction. Rounding, exponents and range are not modelled.
- Error messages from `anyhow` and `thiserror`, and the `.with_context` wrappers. Errors are modelled as kinds.
- `HashMap` iteration order in `to_string`. The order of dependency lines is a parameter (`ordem`), required to list each key once.
- `str::lines` is modelled as a split on newline. The trailing carriage return that Rust strips is removed by `trim` in every branch, and the empty piece after a final newline is a blank line, which is skipped.
- Unicode character classes: whitespace is Unicode White_Space exactly; alphanumeric is exact on Latin-1, and characters above U+00FF count as not alphanumeric.
- Lexer.Varrer / Lexer.Lexer.Despachar / Lexer.Tokens / Lexer.Tokenizar: these use the corrected identifier guard `IniciaIdentificador`, which is the test of `src/lexer.rs:250` (ASCII letters, `_`, `'á'..='ú'` and `'Á'..='Ú'`) minus the two non-letters those ranges contain, `×` and `÷`. On `÷` or `×` the model gives `Err(CaractereInesperado(c))`, where the source returns `Identificador("")` without moving and `tokenizar` never ends. The as-written branch and the discrepancy are in the Findings row for `src/lexer.rs:250` (`DivisaoSemProgresso`, `DivisaoRecusada`).
- `Lexer::proximo_caractere` is never called in the source, so it is not modelled.
- Transpilador.TextoTipo: a missing match arm is a compile error in the source. It is modelled as an error value, not as a program that does not compile.
- `parse_chamada` and `parse_acesso_membro` are modelled in `ParseFator` without a lemma of their own, because they only collect children. For `parse_lista` and `parse_dicionario` only the order of the result is proved (`ListaOrdem`, `DicionarioOrdem`).
- The `tipo_retorno` and `publico` of a legacy function are fixed (`FuncaoLegada`), as in the source.
- Transpilador.TextoPadrao: the match on a variable's declared type has no arm for `Void` or `Opcional`, so `src/transpiler.rs:29-35` does not compile. The model returns `Err(TipoNaoSuportado)` for those two types instead.
- Transpilador.TextoDeclaracao: `src/transpiler.rs:179` writes `println!("{:?}", ` through `write!`, where `{:?}` is a placeholder with no argument, so the line does not compile. The model emits the evidently intended literal text `println!("{:?}", `, which the source would need `{{:?}}` for.
- `src/transpiler.rs:1-2` does not import `std::fmt::Write`, so none of its `write!` calls into a `String` compile. The model treats every `write!` as appending to the output.
- Arvore.ParseTextoLiteral: for a literal shorter than its delimiters, the source's slice `&s[1..len-1]` (or `[3..len-3]`) panics. The model returns `Err(FatiaInvalida)` instead. The grammar file is not part of this model, so whether such a literal can reach the builder is not known.
- The legacy round-trip lemmas (`CorpoDosTokens`, `FuncaoDosTokens`) cover bodies made of `mostre` statements. `volte` is covered only by `Retornado` and the contract of `Corpo`.

## Findings

| source | as written | input that shows it | evidently intended | confidence | as-written member | corrected member |
|---|---|---|---|---|---|---|
| src/lexer.rs:250 | the identifier branch is entered for every character in `'á'..='ú'` and `'Á'..='Ú'`, which include `÷` (U+00F7) and `×` (U+00D7); `ler_identificador` then reads nothing, so `proximo_token` returns `Identificador("")` without moving and `tokenizar` never ends | the text `÷` | only letters start an identifier, so `÷` and `×` are unexpected characters | not executed | LexerPropriedades.DivisaoSemProgresso | LexerPropriedades.DivisaoRecusada |
