/** The layout of the generated program: the preamble and the order of the
    top-level declarations, the initial value of a variable, the lines of a
    struct and the place of the exit test in a `loop`. */
module TranspiladorFormato {
  import opened Wrappers
  import opened Texto
  import opened Ast
  import opened Transpilador

  // ---------------------------------------------------------------------
  // Whole lines

  /** Each line followed by a newline, stated from the last line backwards. */
  function Concatenar(linhas: seq<string>): string {
    if linhas == [] then "" else Concatenar(linhas[..|linhas| - 1]) + linhas[|linhas| - 1] + "\n"
  }

  lemma {:induction false} ConcatenarJuntar(linhas: seq<string>)
    requires |linhas| >= 1
    ensures Concatenar(linhas) == Juntar(linhas, "\n") + "\n"
    decreases |linhas|
  {
    if |linhas| > 1 {
      ConcatenarJuntar(linhas[..|linhas| - 1]);
    }
  }

  lemma {:induction false} ConcatenarAnexa(a: seq<string>, b: seq<string>)
    ensures Concatenar(a + b) == Concatenar(a) + Concatenar(b)
    decreases |b|
  {
    if b == [] {
      assert a + b == a;
    } else {
      var b0 := b[..|b| - 1];
      assert (a + b)[..|a + b| - 1] == a + b0;
      ConcatenarAnexa(a, b0);
      Anexar(Concatenar(a), Concatenar(b0), b[|b| - 1]);
      Anexar(Concatenar(a), Concatenar(b0) + b[|b| - 1], "\n");
    }
  }

  /** Text made of whole lines splits back into those lines, plus the empty
      piece after the final newline. */
  lemma LinhasConcatenar(linhas: seq<string>)
    requires forall i | 0 <= i < |linhas| :: '\n' !in linhas[i]
    ensures Linhas(Concatenar(linhas)) == linhas + [""]
  {
    var partes := linhas + [""];
    forall i | 0 <= i < |partes|
      ensures '\n' !in partes[i]
    {
      if i < |linhas| {
        assert partes[i] == linhas[i];
      }
    }
    assert Juntar(partes, "\n") == Concatenar(linhas) by {
      if linhas != [] {
        assert partes[..|partes| - 1] == linhas;
        ConcatenarJuntar(linhas);
      }
    }
    DividirJuntar(partes, '\n');
  }

  lemma ConcatenarUm(a: string)
    ensures Concatenar([a]) == a + "\n"
  {
    assert [a][..0] == [];
    assert "" + a == a;
  }

  lemma ConcatenarDois(a: string, b: string)
    ensures Concatenar([a, b]) == a + "\n" + b + "\n"
  {
    assert [a, b][..1] == [a];
    ConcatenarUm(a);
  }

  /** Parts that are each a line and its newline join into those lines. */
  lemma {:induction false} JuntarLinhas(partes: seq<Result<string, ErroGeracao>>, linhas: seq<string>)
    requires |partes| == |linhas|
    requires forall i | 0 <= i < |partes| :: partes[i] == Ok(linhas[i] + "\n")
    ensures JuntarResultados(partes, "") == Ok(Concatenar(linhas))
    decreases |partes|
  {
    var n := |partes|;
    if n > 0 {
      JuntarLinhas(partes[..n - 1], linhas[..n - 1]);
      JuntarResultadosPasso(partes, "", n - 1);
      assert partes[..n] == partes;
      var antes := Concatenar(linhas[..n - 1]);
      if n == 1 {
        assert antes == "";
        assert "" + (linhas[0] + "\n") == linhas[0] + "\n";
      } else {
        assert antes + "" == antes;
      }
      Anexar(antes, linhas[n - 1], "\n");
    }
  }

  /** One more part after the others: the join of results grows by that
      part, or fails with the first error. */
  lemma JuntarAnexa(partes: seq<Result<string, ErroGeracao>>, x: Result<string, ErroGeracao>)
    ensures var antes := JuntarResultados(partes, "");
      JuntarResultados(partes + [x], "") ==
        if antes.Err? then antes
        else if x.Err? then Err(x.error)
        else Ok(antes.value + x.value)
  {
    var todas := partes + [x];
    var n := |partes|;
    JuntarResultadosPasso(todas, "", n);
    assert todas[..n] == partes;
    assert todas[..n + 1] == todas;
    var antes := JuntarResultados(partes, "");
    if antes.Ok? && x.Ok? {
      if n == 0 {
        assert antes.value == "";
        assert "" + x.value == x.value;
      } else {
        assert antes.value + "" == antes.value;
      }
    }
  }

  // ---------------------------------------------------------------------
  // The program

  /** An empty program is the preamble alone. */
  lemma ProgramaVazio()
    ensures CodigoRust([]) == Ok(Preambulo)
  {
    assert JuntarResultados(TextosPrograma([]), "") == Ok("");
    assert Preambulo + "" == Preambulo;
  }

  /** One more top-level declaration appends its text and a newline to the
      program, or makes the program fail with its error. */
  lemma CodigoRustAnexa(ds: seq<Declaracao>, d: Declaracao)
    ensures var antes := CodigoRust(ds);
      CodigoRust(ds + [d]) ==
        if antes.Err? then antes
        else if TextoDeclaracao(d).Err? then Err(TextoDeclaracao(d).error)
        else Ok(antes.value + TextoDeclaracao(d).value + "\n")
  {
    assert TextosPrograma(ds + [d]) == TextosPrograma(ds) + [LinhaPrograma(d)];
    JuntarAnexa(TextosPrograma(ds), LinhaPrograma(d));
    var antes := JuntarResultados(TextosPrograma(ds), "");
    if antes.Ok? && TextoDeclaracao(d).Ok? {
      var t := TextoDeclaracao(d).value;
      Anexar(Preambulo, antes.value, t + "\n");
      Anexar(Preambulo + antes.value, t, "\n");
    }
  }

  /** The texts of declarations that all generate. */
  function TextosOk(ds: seq<Declaracao>): (r: seq<string>)
    requires forall i | 0 <= i < |ds| :: TextoDeclaracao(ds[i]).Ok?
    ensures |r| == |ds|
  {
    seq(|ds|, i requires 0 <= i < |ds| => TextoDeclaracao(ds[i]).value)
  }

  /** Declarations appear in program order: the program's text is the
      preamble followed by each declaration's text on its own lines. */
  lemma CodigoRustOrdem(ds: seq<Declaracao>)
    requires forall i | 0 <= i < |ds| :: TextoDeclaracao(ds[i]).Ok?
    ensures CodigoRust(ds) == Ok(Preambulo + Concatenar(TextosOk(ds)))
  {
    JuntarLinhas(TextosPrograma(ds), TextosOk(ds));
  }

  // ---------------------------------------------------------------------
  // Variables

  /** With an initial value the declared type plays no part, and the
      declaration always generates. */
  lemma VariavelTipoIgnorado(nome: string, t1: Option<Tipo>, t2: Option<Tipo>, valor: Expressao, publico: bool)
    ensures TextoDeclaracao(Variavel(nome, t1, Some(valor), publico)).Ok?
    ensures TextoDeclaracao(Variavel(nome, t1, Some(valor), publico))
      == TextoDeclaracao(Variavel(nome, t2, Some(valor), publico))
  {
  }

  /** A variable's text starts with `pub ` exactly when it is public. */
  lemma VariavelPublica(nome: string, tipo: Option<Tipo>, valor: Option<Expressao>, publico: bool)
    ensures var r := TextoDeclaracao(Variavel(nome, tipo, valor, publico));
      r.Ok? ==> (publico <==> |r.value| >= 4 && r.value[..4] == "pub ")
  {
    var r := TextoDeclaracao(Variavel(nome, tipo, valor, publico));
    if r.Ok? {
      var inicial := if valor.Some? then TextoExpressao(valor.value) else TextoPadrao(tipo).value;
      var resto := ("let mut " + nome + " = ") + inicial + ";\n";
      assert r.value == Publico(publico) + resto;
      assert resto[0] == 'l';
      if publico {
        assert r.value[..4] == "pub ";
      } else {
        assert r.value[..4][0] == 'l';
      }
    }
  }

  /** Without an initial value the variable starts at its type's default,
      and an untyped one at `Default::default()`; `()` and `Option` have no
      default. */
  lemma VariavelPadrao(nome: string, publico: bool, tipo: Tipo)
    ensures TextoDeclaracao(Variavel(nome, None, None, publico))
      == Ok(Publico(publico) + ("let mut " + nome + " = ") + "Default::default()" + ";\n")
    ensures TextoDeclaracao(Variavel(nome, Some(Texto), None, publico))
      == Ok(Publico(publico) + ("let mut " + nome + " = ") + "String::new()" + ";\n")
    ensures TextoDeclaracao(Variavel(nome, Some(Numero), None, publico))
      == Ok(Publico(publico) + ("let mut " + nome + " = ") + "0.0" + ";\n")
    ensures TextoDeclaracao(Variavel(nome, Some(Logico), None, publico))
      == Ok(Publico(publico) + ("let mut " + nome + " = ") + "false" + ";\n")
    ensures tipo.Personalizado? ==>
      TextoDeclaracao(Variavel(nome, Some(tipo), None, publico))
      == Ok(Publico(publico) + ("let mut " + nome + " = ") + (tipo.nome + "::default()") + ";\n")
    ensures tipo.Void? || tipo.Opcional? ==>
      TextoDeclaracao(Variavel(nome, Some(tipo), None, publico)) == Err(TipoNaoSuportado(tipo))
  {
  }

  // ---------------------------------------------------------------------
  // Structs

  /** A field that fits on its line: its name and type text hold no
      newline, and its type generates. */
  predicate CampoEmLinha(c: Campo) {
    '\n' !in c.nome && TextoTipo(c.tipo).Ok? && '\n' !in TextoTipo(c.tipo).value
  }

  /** The line written for a field. */
  function LinhaCampo(c: Campo): string
    requires CampoEmLinha(c)
  {
    (if c.publico then "    pub " else "    ") + c.nome + ": " + TextoTipo(c.tipo).value + ","
  }

  function LinhasCampos(campos: seq<Campo>): (r: seq<string>)
    requires forall i | 0 <= i < |campos| :: CampoEmLinha(campos[i])
    ensures |r| == |campos|
  {
    seq(|campos|, i requires 0 <= i < |campos| => LinhaCampo(campos[i]))
  }

  lemma CampoLinha(c: Campo)
    requires CampoEmLinha(c)
    ensures TextoCampo(c) == Ok(LinhaCampo(c) + "\n")
  {
    var marca := if c.publico then "    pub " else "    ";
    var x := marca + (c.nome + ": ") + TextoTipo(c.tipo).value;
    Anexar(marca, c.nome, ": ");
    Anexar(x, ",", "\n");
    assert "," + "\n" == ",\n";
  }

  lemma CamposConcatenados(campos: seq<Campo>)
    requires forall i | 0 <= i < |campos| :: CampoEmLinha(campos[i])
    ensures JuntarResultados(TextosCampos(campos), "") == Ok(Concatenar(LinhasCampos(campos)))
  {
    forall i | 0 <= i < |campos|
      ensures TextosCampos(campos)[i] == Ok(LinhasCampos(campos)[i] + "\n")
    {
      CampoLinha(campos[i]);
    }
    JuntarLinhas(TextosCampos(campos), LinhasCampos(campos));
  }

  lemma CabecalhoLinhas(nome: string, publico: bool)
    ensures CabecalhoModelo(nome, publico)
      == Concatenar(["#[derive(Default)]", (if publico then "pub struct " else "struct ") + nome + " {"])
  {
    var marca := if publico then "pub struct " else "struct ";
    ConcatenarDois("#[derive(Default)]", marca + nome + " {");
    var x := "#[derive(Default)]" + "\n";
    if publico {
      assert x + marca == "#[derive(Default)]\npub struct ";
    } else {
      assert x + marca == "#[derive(Default)]\nstruct ";
    }
    Anexar(x, marca, nome);
    Anexar(x, marca + nome, " {");
    Anexar(x + marca + nome, " {", "\n");
    assert " {" + "\n" == " {\n";
    Anexar(x, marca + nome, " {\n");
  }

  /** The text of a struct from its lines. */
  lemma ModeloTexto(nome: string, campos: seq<Campo>, publico: bool)
    requires forall i | 0 <= i < |campos| :: CampoEmLinha(campos[i])
    ensures TextoDeclaracao(Modelo(nome, campos, publico))
      == Ok(Concatenar(["#[derive(Default)]", (if publico then "pub struct " else "struct ") + nome + " {"]
         + LinhasCampos(campos) + ["}"]))
  {
    var cabecalho := ["#[derive(Default)]", (if publico then "pub struct " else "struct ") + nome + " {"];
    CamposConcatenados(campos);
    CabecalhoLinhas(nome, publico);
    ConcatenarUm("}");
    assert "}" + "\n" == "}\n";
    ConcatenarAnexa(cabecalho, LinhasCampos(campos));
    ConcatenarAnexa(cabecalho + LinhasCampos(campos), ["}"]);
  }

  /** No line of a struct declaration holds a newline. */
  lemma ModeloSemQuebra(nome: string, campos: seq<Campo>, publico: bool)
    requires '\n' !in nome
    requires forall i | 0 <= i < |campos| :: CampoEmLinha(campos[i])
    ensures var linhas := ["#[derive(Default)]", (if publico then "pub struct " else "struct ") + nome + " {"]
        + LinhasCampos(campos) + ["}"];
      forall i | 0 <= i < |linhas| :: '\n' !in linhas[i]
  {
    var linhas := ["#[derive(Default)]", (if publico then "pub struct " else "struct ") + nome + " {"]
      + LinhasCampos(campos) + ["}"];
    forall i | 0 <= i < |linhas|
      ensures '\n' !in linhas[i]
    {
      if 2 <= i < 2 + |campos| {
        assert linhas[i] == LinhaCampo(campos[i - 2]);
      }
    }
  }

  /** The lines of a struct: the derive line, `pub struct` exactly when the
      model is public, one line per field in order, each starting with
      `pub ` exactly when that field is public, and the closing brace. */
  lemma ModeloLinhas(nome: string, campos: seq<Campo>, publico: bool)
    requires '\n' !in nome
    requires forall i | 0 <= i < |campos| :: CampoEmLinha(campos[i])
    ensures TextoDeclaracao(Modelo(nome, campos, publico)).Ok?
    ensures Linhas(TextoDeclaracao(Modelo(nome, campos, publico)).value)
      == ["#[derive(Default)]", (if publico then "pub struct " else "struct ") + nome + " {"]
         + LinhasCampos(campos) + ["}", ""]
  {
    ModeloTexto(nome, campos, publico);
    var linhas := ["#[derive(Default)]", (if publico then "pub struct " else "struct ") + nome + " {"]
      + LinhasCampos(campos) + ["}"];
    var texto := TextoDeclaracao(Modelo(nome, campos, publico)).value;
    assert texto == Concatenar(linhas);
    ModeloSemQuebra(nome, campos, publico);
    LinhasConcatenar(linhas);
    assert Linhas(texto) == linhas + [""];
    assert linhas + [""] == ["#[derive(Default)]", (if publico then "pub struct " else "struct ") + nome + " {"]
         + LinhasCampos(campos) + ["}", ""];
  }

  // ---------------------------------------------------------------------
  // Repeat-until

  /** The loop written around a body of whole lines, as lines. */
  lemma LacoTexto(linhas: seq<string>, condicao: string)
    ensures "loop {\n" + Concatenar(linhas) + "    if " + condicao + " { break; }\n}\n"
      == Concatenar(["loop {"] + linhas + ["    if " + condicao + " { break; }", "}"])
  {
    var teste := "    if " + condicao + " { break; }";
    ConcatenarUm("loop {");
    ConcatenarDois(teste, "}");
    ConcatenarAnexa(["loop {"], linhas);
    ConcatenarAnexa(["loop {"] + linhas, [teste, "}"]);
    assert "loop {" + "\n" == "loop {\n";
    assert " { break; }" + "\n" + "}" + "\n" == " { break; }\n}\n";
    var a := "loop {\n" + Concatenar(linhas);
    Anexar("    if " + condicao, " { break; }", "\n");
    Anexar("    if " + condicao, " { break; }" + "\n", "}");
    Anexar("    if " + condicao, " { break; }" + "\n" + "}", "\n");
    Anexar(a, "    if " + condicao, " { break; }\n}\n");
    Anexar(a, "    if ", condicao);
  }

  lemma RepitaTexto(corpo: Declaracao, condicao: Expressao, linhas: seq<string>)
    requires TextoDeclaracao(corpo) == Ok(Concatenar(linhas))
    ensures TextoDeclaracao(Repita(corpo, condicao))
      == Ok(Concatenar(["loop {"] + linhas + ["    if " + TextoExpressao(condicao) + " { break; }", "}"]))
  {
    LacoTexto(linhas, TextoExpressao(condicao));
  }

  /** The loop's lines have no line break when the body's lines and the
      condition have none. */
  lemma LacoSemQuebra(linhas: seq<string>, c: string)
    requires forall i | 0 <= i < |linhas| :: '\n' !in linhas[i]
    requires '\n' !in c
    ensures var todas := ["loop {"] + linhas + ["    if " + c + " { break; }", "}"];
      forall i | 0 <= i < |todas| :: '\n' !in todas[i]
  {
    var todas := ["loop {"] + linhas + ["    if " + c + " { break; }", "}"];
    forall i | 0 <= i < |todas|
      ensures '\n' !in todas[i]
    {
      if 1 <= i <= |linhas| {
        assert todas[i] == linhas[i - 1];
      }
    }
  }

  /** `repita … até c` becomes a `loop` whose body lines come first and
      whose last line breaks out when `c` holds. */
  lemma RepitaLinhas(corpo: Declaracao, condicao: Expressao, linhas: seq<string>)
    requires TextoDeclaracao(corpo) == Ok(Concatenar(linhas))
    requires forall i | 0 <= i < |linhas| :: '\n' !in linhas[i]
    requires '\n' !in TextoExpressao(condicao)
    ensures TextoDeclaracao(Repita(corpo, condicao)).Ok?
    ensures Linhas(TextoDeclaracao(Repita(corpo, condicao)).value)
      == ["loop {"] + linhas + ["    if " + TextoExpressao(condicao) + " { break; }", "}", ""]
  {
    var c := TextoExpressao(condicao);
    var todas := ["loop {"] + linhas + ["    if " + c + " { break; }", "}"];
    RepitaTexto(corpo, condicao, linhas);
    var texto := TextoDeclaracao(Repita(corpo, condicao)).value;
    assert texto == Concatenar(todas);
    LacoSemQuebra(linhas, c);
    LinhasConcatenar(todas);
    assert Linhas(texto) == todas + [""];
    assert todas + [""] == ["loop {"] + linhas + ["    if " + c + " { break; }", "}", ""];
  }
}
