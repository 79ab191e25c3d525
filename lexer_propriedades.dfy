/** What the tokenizer does with literals, operators, comments and the
    multi-word keywords, stated on inputs of a given shape. */
module LexerPropriedades {
  import opened Wrappers
  import opened Texto
  import opened Numeros
  import opened Lexer

  predicate SoEspacos(sp: string) {
    forall k | 0 <= k < |sp| :: EhEspaco(sp[k])
  }

  predicate SoIdentificador(w: string) {
    forall k | 0 <= k < |w| :: ParteIdentificador(w[k])
  }

  /** No whitespace character continues an identifier. */
  lemma EspacoNaoEhIdentificador(c: char)
    requires EhEspaco(c)
    ensures !ParteIdentificador(c) && !IniciaIdentificador(c)
  {
  }

  // The scans are determined by the facts their characterising lemmas state.

  lemma FimEspacosEm(s: string, p: nat, q: nat)
    requires p <= q <= |s|
    requires forall k | p <= k < q :: EhEspaco(s[k])
    requires q < |s| ==> !EhEspaco(s[q])
    ensures FimEspacos(s, p) == q
  {
    FimEspacosPara(s, p);
  }

  lemma FimIdentificadorEm(s: string, p: nat, q: nat)
    requires p <= q <= |s|
    requires forall k | p <= k < q :: ParteIdentificador(s[k])
    requires q < |s| ==> !ParteIdentificador(s[q])
    ensures FimIdentificador(s, p) == q
  {
    FimIdentificadorPara(s, p);
  }

  lemma FimTextoEm(s: string, p: nat, q: nat)
    requires p <= q <= |s|
    requires forall k | p <= k < q :: s[k] != '"'
    requires q < |s| ==> s[q] == '"'
    ensures FimTexto(s, p) == q
  {
    FimTextoPara(s, p);
  }

  lemma FimComentarioEm(s: string, p: nat, q: nat)
    requires p < q <= |s|
    requires forall k | p <= k < q - 1 :: s[k] != '\n'
    requires q < |s| ==> s[q - 1] == '\n'
    requires q == |s| ==> forall k | p <= k < q :: s[k] != '\n' || k == q - 1
    ensures FimComentario(s, p) == q
    decreases q - p
  {
    if s[p] != '\n' && p + 1 < q {
      FimComentarioEm(s, p + 1, q);
    }
  }

  /** The spaces `sp` read from position `p` of `s`. */
  lemma EspacosAte(s: string, p: nat, sp: string)
    requires p + |sp| <= |s| && s[p..p + |sp|] == sp && SoEspacos(sp)
    requires p + |sp| < |s| ==> !EhEspaco(s[p + |sp|])
    ensures FimEspacos(s, p) == p + |sp|
  {
    forall k | p <= k < p + |sp| ensures EhEspaco(s[k]) {
      assert s[k] == sp[k - p];
    }
    FimEspacosEm(s, p, p + |sp|);
  }

  /** The word `w` read from position `g` of `s`. */
  lemma PalavraAte(s: string, g: nat, w: string)
    requires g + |w| <= |s| && s[g..g + |w|] == w && SoIdentificador(w)
    requires g + |w| < |s| ==> !ParteIdentificador(s[g + |w|])
    ensures FimIdentificador(s, g) == g + |w|
  {
    forall k | g <= k < g + |w| ensures ParteIdentificador(s[k]) {
      assert s[k] == w[k - g];
    }
    FimIdentificadorEm(s, g, g + |w|);
  }

  /** Spaces and then a word, read from position `p` of `s`. */
  lemma EspacosEPalavra(s: string, p: nat, sp: string, w: string)
    requires p + |sp| + |w| <= |s|
    requires s[p..p + |sp|] == sp && s[p + |sp|..p + |sp| + |w|] == w
    requires SoEspacos(sp) && SoIdentificador(w) && |w| >= 1
    requires p + |sp| + |w| < |s| ==> !ParteIdentificador(s[p + |sp| + |w|])
    ensures FimEspacos(s, p) == p + |sp|
    ensures FimIdentificador(s, p + |sp|) == p + |sp| + |w|
  {
    var g := p + |sp|;
    assert s[g] == w[0];
    if EhEspaco(s[g]) {
      EspacoNaoEhIdentificador(s[g]);
    }
    EspacosAte(s, p, sp);
    PalavraAte(s, g, w);
  }

  /** The keyword scan at the start of `s = id + resto`. */
  lemma InicioPalavra(s: string, id: string, resto: string)
    requires s == id + resto && |id| >= 1
    requires IniciaIdentificador(id[0]) && SoIdentificador(id)
    requires resto == [] || !ParteIdentificador(resto[0])
    ensures Varrer(s, 0) == Ok(Palavra(s, id, |id|))
  {
    assert !EhEspaco(s[0]);
    FimEspacosEm(s, 0, 0);
    EspacosEPalavra(s, 0, "", id);
    assert s[0..|id|] == id;
  }

  // ---------------------------------------------------------------------
  // Literals

  /** A text literal is exactly the characters up to the next quote; no
      escape is processed. */
  lemma TextoLiteralExato(x: string, resto: string)
    requires '"' !in x
    ensures Varrer("\"" + x + "\"" + resto, 0) == Ok(Varredura(TextoLiteral(x), |x| + 2))
  {
    var s := "\"" + x + "\"" + resto;
    FimEspacosEm(s, 0, 0);
    assert forall k | 1 <= k < |x| + 1 :: s[k] != '"' by {
      forall k | 1 <= k < |x| + 1 ensures s[k] != '"' {
        assert s[k] == x[k - 1];
      }
    }
    FimTextoEm(s, 1, |x| + 1);
    assert s[1..|x| + 1] == x;
  }

  /** Input that ends before the closing quote is `StringNaoTerminada`. */
  lemma TextoNaoTerminado(x: string)
    requires '"' !in x
    ensures Varrer("\"" + x, 0) == Err(StringNaoTerminada)
  {
    var s := "\"" + x;
    FimEspacosEm(s, 0, 0);
    assert forall k | 1 <= k < |s| :: s[k] != '"' by {
      forall k | 1 <= k < |s| ensures s[k] != '"' {
        assert s[k] == x[k - 1];
      }
    }
    FimTextoEm(s, 1, |s|);
  }

  /** A number is never `ErroNumero`: what the scan accumulates (a digit,
      then digits and at most one point) always parses. */
  lemma {:induction false} NumeroSempreLe(s: string, q: nat)
    requires q < |s| && EhDigito(s[q])
    ensures var k := FimNumero(s, q, false);
            && q < k
            && VarrerNumero(s, q) == Ok(Varredura(NumeroLiteral(NumeroF64(s[q..k])), k))
  {
    var k := FimNumero(s, q, false);
    var lexema := s[q..k];
    assert k > q;
    assert EhDigito(lexema[0]);
    assert forall i | 0 <= i < |lexema| :: EhDigito(lexema[i]) || lexema[i] == '.' by {
      forall i | 0 <= i < |lexema| ensures EhDigito(lexema[i]) || lexema[i] == '.' {
        assert lexema[i] == s[q + i];
      }
    }
    assert forall i, j | 0 <= i < j < |lexema| :: !(lexema[i] == '.' && lexema[j] == '.') by {
      forall i, j | 0 <= i < j < |lexema| ensures !(lexema[i] == '.' && lexema[j] == '.') {
        assert lexema[i] == s[q + i] && lexema[j] == s[q + j];
      }
    }
    assert FormatoDecimal(lexema);
  }

  /** The number scan stops at a second point ... */
  lemma SegundoPontoPara()
    ensures Varrer("1.2.3", 0) == Ok(Varredura(NumeroLiteral(NumeroF64("1.2")), 3))
  {
    var s := "1.2.3";
    FimEspacosEm(s, 0, 0);
    assert FimNumero(s, 0, false) == 3;
    NumeroSempreLe(s, 0);
    assert s[0..3] == "1.2";
  }

  /** ... and no token starts with that point, so the whole input is
      rejected. */
  lemma SegundoPontoRecusado()
    ensures Tokens("1.2.3", 0) == Err(CaractereInesperado('.'))
  {
    var s := "1.2.3";
    SegundoPontoPara();
    FimEspacosEm(s, 3, 3);
    assert Varrer(s, 3) == Err(CaractereInesperado('.'));
    TokensPasso(s, 3);
    TokensPasso(s, 0);
  }

  // ---------------------------------------------------------------------
  // Operators and comments

  /** '>' and '<' take a following '=' and nothing else. */
  lemma RelacionalOperador(c: char, resto: string)
    requires c == '>' || c == '<'
    ensures Varrer([c] + resto, 0) ==
      if ComecaCom(resto, '=') then Ok(Varredura(if c == '>' then MaiorIgual else MenorIgual, 2))
      else Ok(Varredura(if c == '>' then Maior else Menor, 1))
  {
    FimEspacosEm([c] + resto, 0, 0);
  }

  /** '!' is only valid as the first half of "!=". */
  lemma Exclamacao(resto: string)
    ensures Varrer("!" + resto, 0) ==
      if ComecaCom(resto, '=') then Ok(Varredura(Diferente, 2)) else Err(CaractereInesperado('!'))
  {
    FimEspacosEm("!" + resto, 0, 0);
  }

  /** '=' is always one `Igual`, so "==" is two tokens. */
  lemma IgualDuplo()
    ensures Tokens("==", 0) == Ok([Igual, Igual, EOF])
  {
    FimEspacosEm("==", 2, 2);
    assert Varrer("==", 2) == Ok(Varredura(EOF, 2));
    TokensPasso("==", 2);
    FimEspacosEm("==", 1, 1);
    assert Varrer("==", 1) == Ok(Varredura(Igual, 2));
    TokensPasso("==", 1);
    FimEspacosEm("==", 0, 0);
    assert Varrer("==", 0) == Ok(Varredura(Igual, 1));
    TokensPasso("==", 0);
    assert [Igual] + ([Igual] + [EOF]) == [Igual, Igual, EOF];
  }

  /** A character that no rule starts is `CaractereInesperado` with that
      character. */
  lemma NaoListado(c: char, resto: string)
    requires !EhEspaco(c) && Simbolo(c).None? && !EhDigito(c) && !IniciaIdentificador(c)
    requires c != '/' && c != '"' && c != '>' && c != '<' && c != '!'
    ensures Varrer([c] + resto, 0) == Err(CaractereInesperado(c))
  {
    FimEspacosEm([c] + resto, 0, 0);
  }

  /** "//" skips through the next newline; the token returned is the one
      after it. */
  lemma ComentarioAteQuebra(x: string, resto: string)
    requires '\n' !in x
    ensures Varrer("//" + x + "\n" + resto, 0) == Varrer("//" + x + "\n" + resto, |x| + 3)
  {
    var s := "//" + x + "\n" + resto;
    FimEspacosEm(s, 0, 0);
    assert forall k | 1 <= k < |x| + 2 :: s[k] != '\n' by {
      forall k | 1 <= k < |x| + 2 ensures s[k] != '\n' {
        if k >= 2 {
          assert s[k] == x[k - 2];
        }
      }
    }
    FimComentarioEm(s, 1, |x| + 3);
  }

  /** A comment that runs to the end of the input leaves only `EOF`. */
  lemma ComentarioAteFim(x: string)
    requires '\n' !in x
    ensures Varrer("//" + x, 0) == Ok(Varredura(EOF, |x| + 2))
  {
    var s := "//" + x;
    FimEspacosEm(s, 0, 0);
    assert forall k | 1 <= k < |s| :: s[k] != '\n' by {
      forall k | 1 <= k < |s| ensures s[k] != '\n' {
        if k >= 2 {
          assert s[k] == x[k - 2];
        }
      }
    }
    FimComentarioEm(s, 1, |s|);
    FimEspacosEm(s, |s|, |s|);
    assert Varrer(s, |s|) == Ok(Varredura(EOF, |s|));
  }

  /** A '/' not followed by another '/' is `Dividido`. */
  lemma BarraSozinha(resto: string)
    requires !ComecaCom(resto, '/')
    ensures Varrer("/" + resto, 0) == Ok(Varredura(Dividido, 1))
  {
    FimEspacosEm("/" + resto, 0, 0);
  }

  // ---------------------------------------------------------------------
  // Multi-word keywords

  /** `s` holds spaces `sp` and then the word `w` from position `p`. */
  predicate EspacosEPalavraEm(s: string, p: nat, sp: string, w: string) {
    && p + |sp| + |w| <= |s|
    && s[p..p + |sp|] == sp && s[p + |sp|..p + |sp| + |w|] == w
    && SoEspacos(sp) && SoIdentificador(w) && |w| >= 1
    && (p + |sp| + |w| < |s| ==> !ParteIdentificador(s[p + |sp| + |w|]))
  }

  lemma DepoisDeParaCada(s: string, k: nat, sp: string)
    requires EspacosEPalavraEm(s, k, sp, "cada")
    ensures DepoisDePara(s, k) == Varredura(ParaCada, k + |sp| + 4)
  {
    EspacosEPalavra(s, k, sp, "cada");
    assert s[k + |sp|] == 'c';
  }

  lemma DepoisDeParaOutra(s: string, k: nat, sp: string, w: string)
    requires EspacosEPalavraEm(s, k, sp, w) && w != "cada"
    ensures DepoisDePara(s, k) ==
      Varredura(Identificador("para_" + (if w[0] == 'c' then "" else w)), k + |sp| + |w|)
  {
    EspacosEPalavra(s, k, sp, w);
    var g := k + |sp|;
    var h := g + |w|;
    assert s[g] == w[0] && s[g..h] == w;
    if w[0] == 'c' {
      FimIdentificadorEm(s, h, h);
      assert s[h..h] == "";
      assert "para_" + "" == "para_";
    }
  }

  lemma QuandoLeDer(s: string, k: nat, sp: string)
    requires EspacosEPalavraEm(s, k, sp, "der")
    ensures DepoisDeQuando(s, k) == DepoisDeQuandoDer(s, k + |sp| + 3)
  {
    var g := k + |sp|;
    EspacosEPalavra(s, k, sp, "der");
    assert s[g..g + 3] == "der";
    assert s[g] == 'd';
  }

  /** After "quando der": spaces and "erro" complete `QuandoDerErro`. */
  lemma DerLeErro(s: string, k: nat, sp: string)
    requires EspacosEPalavraEm(s, k, sp, "erro")
    ensures DepoisDeQuandoDer(s, k) == Varredura(QuandoDerErro, k + |sp| + 4)
  {
    EspacosEPalavra(s, k, sp, "erro");
    assert s[k + |sp|] == 'e';
  }

  /** After "quando der": a word not starting with 'e' gives the identifier
      "quando"; the "der" already read is not given back. */
  lemma DerLeOutra(s: string, k: nat, sp: string, w: string)
    requires EspacosEPalavraEm(s, k, sp, w) && w[0] != 'e'
    ensures DepoisDeQuandoDer(s, k) == Varredura(Identificador("quando"), k + |sp|)
  {
    EspacosEPalavra(s, k, sp, w);
    assert s[k + |sp|] == w[0];
  }

  lemma DepoisDeFalharCom(s: string, k: nat, sp: string)
    requires EspacosEPalavraEm(s, k, sp, "com")
    ensures DepoisDeFalhar(s, k) == Varredura(FalharCom, k + |sp| + 3)
  {
    EspacosEPalavra(s, k, sp, "com");
    assert s[k + |sp|] == 'c';
  }

  lemma ELeIgual(s: string, k: nat, sp: string)
    requires EspacosEPalavraEm(s, k, sp, "igual")
    ensures DepoisDeE(s, k) == DepoisDeEIgual(s, k + |sp| + 5)
  {
    var g := k + |sp|;
    EspacosEPalavra(s, k, sp, "igual");
    assert s[g..g + 5] == "igual";
    assert s[g] == 'i';
  }

  /** After "é igual": spaces and a character 'a' give `IgualA`, consuming
      only that one character, whatever follows it. */
  lemma IgualLeA(s: string, k: nat, sp: string)
    requires k + |sp| < |s| && s[k..k + |sp|] == sp && SoEspacos(sp) && s[k + |sp|] == 'a'
    ensures DepoisDeEIgual(s, k) == Varredura(IgualA, k + |sp| + 1)
  {
    assert forall j | k <= j < k + |sp| :: EhEspaco(s[j]) by {
      forall j | k <= j < k + |sp| ensures EhEspaco(s[j]) {
        assert s[j] == sp[j - k];
      }
    }
    FimEspacosEm(s, k, k + |sp|);
  }

  lemma DepoisDeEOutra(s: string, k: nat, sp: string, w: string)
    requires EspacosEPalavraEm(s, k, sp, w) && w[0] != 'i'
    ensures DepoisDeE(s, k) == Varredura(Identificador("é"), k + |sp|)
  {
    EspacosEPalavra(s, k, sp, w);
    assert s[k + |sp|] == w[0];
  }

  /** The keyword dispatch on the words that start a lookahead, one word
      at a time. */
  lemma PalavraPara(s: string, k: nat)
    requires k <= |s|
    ensures Palavra(s, "para", k) == DepoisDePara(s, k)
  {
  }

  lemma PalavraQuando(s: string, k: nat)
    requires k <= |s|
    ensures Palavra(s, "quando", k) == DepoisDeQuando(s, k)
  {
  }

  lemma PalavraFalhar(s: string, k: nat)
    requires k <= |s|
    ensures Palavra(s, "falhar", k) == DepoisDeFalhar(s, k)
  {
  }

  lemma PalavraE(s: string, id: string, k: nat)
    requires k <= |s| && (id == "é" || id == "e")
    ensures Palavra(s, id, k) == DepoisDeE(s, k)
  {
  }

  /** `s` starts with the word `id`, followed by spaces `sp` (at least one,
      so the word ends there) and then the word `w`. */
  predicate PalavrasEm(s: string, id: string, sp: string, w: string) {
    && |id| >= 1 && |sp| >= 1 && |s| > |id|
    && s[..|id|] == id
    && EspacosEPalavraEm(s, |id|, sp, w)
  }

  /** The words that open a lookahead are identifiers of the lengths the
      statements below count with. */
  lemma PalavrasDeAbertura()
    ensures |"para"| == 4 && IniciaIdentificador("para"[0]) && SoIdentificador("para")
    ensures |"quando"| == 6 && IniciaIdentificador("quando"[0]) && SoIdentificador("quando")
    ensures |"falhar"| == 6 && IniciaIdentificador("falhar"[0]) && SoIdentificador("falhar")
    ensures |"e"| == 1 && IniciaIdentificador("e"[0]) && SoIdentificador("e")
    ensures |"é"| == 1 && IniciaIdentificador("é"[0]) && SoIdentificador("é")
    ensures |"cada"| == 4 && |"der"| == 3 && |"igual"| == 5 && |"com"| == 3
  {
  }

  /** The scan of the first word and the dispatch that follows it. */
  lemma PrimeiraPalavra(s: string, id: string, sp: string, w: string)
    requires PalavrasEm(s, id, sp, w)
    requires IniciaIdentificador(id[0]) && SoIdentificador(id)
    ensures Varrer(s, 0) == Ok(Palavra(s, id, |id|))
  {
    EspacoNaoEhIdentificador(sp[0]);
    assert s[|id|] == sp[0];
    assert s == id + s[|id|..];
    InicioPalavra(s, id, s[|id|..]);
  }

  /** "para", spaces, "cada" is `ParaCada`. */
  lemma ParaCadaReconhecido(s: string, sp: string)
    requires PalavrasEm(s, "para", sp, "cada")
    ensures Varrer(s, 0) == Ok(Varredura(ParaCada, 8 + |sp|))
  {
    PalavrasDeAbertura();
    PrimeiraPalavra(s, "para", sp, "cada");
    PalavraPara(s, 4);
    DepoisDeParaCada(s, 4, sp);
  }

  /** "para" followed by another word: a word not starting with 'c' is glued
      to "para_"; one starting with 'c' is consumed and dropped, leaving just
      "para_". The spaces between are consumed either way. */
  lemma ParaColaPalavra(s: string, sp: string, w: string)
    requires PalavrasEm(s, "para", sp, w) && w != "cada"
    ensures Varrer(s, 0) ==
      Ok(Varredura(Identificador("para_" + (if w[0] == 'c' then "" else w)), 4 + |sp| + |w|))
  {
    PalavrasDeAbertura();
    PrimeiraPalavra(s, "para", sp, w);
    PalavraPara(s, 4);
    DepoisDeParaOutra(s, 4, sp, w);
  }

  /** "quando", spaces, "der": what follows decides. */
  lemma QuandoDer(s: string, sp1: string)
    requires PalavrasEm(s, "quando", sp1, "der")
    ensures Varrer(s, 0) == Ok(DepoisDeQuandoDer(s, 9 + |sp1|))
  {
    PalavrasDeAbertura();
    PrimeiraPalavra(s, "quando", sp1, "der");
    PalavraQuando(s, 6);
    QuandoLeDer(s, 6, sp1);
  }

  /** "é" or "e", spaces, "igual": what follows decides. */
  lemma EIgual(s: string, e: string, sp1: string)
    requires e == "é" || e == "e"
    requires PalavrasEm(s, e, sp1, "igual")
    ensures Varrer(s, 0) == Ok(DepoisDeEIgual(s, 6 + |sp1|))
  {
    PalavrasDeAbertura();
    PrimeiraPalavra(s, e, sp1, "igual");
    PalavraE(s, e, 1);
    ELeIgual(s, 1, sp1);
  }

  /** "falhar", spaces, "com" is `FalharCom`. */
  lemma FalharComReconhecido(s: string, sp: string)
    requires PalavrasEm(s, "falhar", sp, "com")
    ensures Varrer(s, 0) == Ok(Varredura(FalharCom, 9 + |sp|))
  {
    PalavrasDeAbertura();
    PrimeiraPalavra(s, "falhar", sp, "com");
    PalavraFalhar(s, 6);
    DepoisDeFalharCom(s, 6, sp);
  }

  /** A lone "e" followed by a word not starting with 'i' is read as the
      identifier "é"; the spaces after it are consumed. */
  lemma ELidoComoE(s: string, sp: string, w: string)
    requires PalavrasEm(s, "e", sp, w) && w[0] != 'i'
    ensures Varrer(s, 0) == Ok(Varredura(Identificador("é"), 1 + |sp|))
  {
    PalavrasDeAbertura();
    PrimeiraPalavra(s, "e", sp, w);
    PalavraE(s, "e", 1);
    DepoisDeEOutra(s, 1, sp, w);
  }

  // ---------------------------------------------------------------------
  // The identifier-start guard

  /** The identifier branch under the guard as the source writes it. */
  function PassoIdentificadorComoEscrito(s: string, q: nat): (r: Option<Varredura>)
    requires q < |s|
    ensures r.Some? <==> IniciaIdentificadorComoEscrito(s[q])
  {
    if IniciaIdentificadorComoEscrito(s[q]) then
      var k := FimIdentificador(s, q);
      Some(Palavra(s, s[q..k], k))
    else None
  }

  /** Under the source's guard, '÷' (inside 'á'..='ú') enters the identifier
      branch, which reads no character: the empty identifier comes back with
      the cursor unmoved, so the tokenizing loop never reaches `EOF`. */
  lemma DivisaoSemProgresso()
    ensures IniciaIdentificadorComoEscrito('÷') && IniciaIdentificadorComoEscrito('×')
    ensures PassoIdentificadorComoEscrito("÷", 0) == Some(Varredura(Identificador(""), 0))
  {
    FimIdentificadorEm("÷", 0, 0);
    assert "÷"[0..0] == "";
  }

  /** With the corrected guard, every identifier step consumes input and
      '÷' is an unexpected character. */
  lemma DivisaoRecusada(s: string, q: nat)
    requires q < |s| && IniciaIdentificador(s[q])
    ensures FimIdentificador(s, q) > q
    ensures Varrer("÷", 0) == Err(CaractereInesperado('÷'))
  {
    FimEspacosEm("÷", 0, 0);
  }
}
