/** The pieces of Rust's `str` and `char` API that the compiler and the manifest
    format rely on, stated over `seq<char>`: character classes, `trim`,
    `trim_matches`, `find`, `split`, `join` and `lines`. */
module Texto {
  import opened Wrappers

  /** Rust's `char::is_whitespace`: exactly the characters with the Unicode
      White_Space property. */
  predicate EhEspaco(c: char) {
    ('\t' <= c <= '\r') || c == ' ' || c == '\U{85}' || c == '\U{A0}' || c == '\U{1680}'
    || ('\U{2000}' <= c <= '\U{200A}') || c == '\U{2028}' || c == '\U{2029}'
    || c == '\U{202F}' || c == '\U{205F}' || c == '\U{3000}'
  }

  /** Rust's `char::is_digit(10)`. */
  predicate EhDigito(c: char) {
    '0' <= c <= '9'
  }

  /** Rust's `char::is_alphanumeric`, exact on Latin-1 (U+0000 to U+00FF):
      ASCII letters and digits, the letters ª µ º À–Ö Ø–ö ø–ÿ and the numerals
      ² ³ ¹ ¼ ½ ¾. Characters above U+00FF count as not alphanumeric. */
  predicate EhAlfanumerico(c: char) {
    EhDigito(c) || ('A' <= c <= 'Z') || ('a' <= c <= 'z')
    || c == '\U{AA}' || c == '\U{B2}' || c == '\U{B3}' || c == '\U{B5}' || c == '\U{B9}'
    || c == '\U{BA}' || ('\U{BC}' <= c <= '\U{BE}')
    || ('\U{C0}' <= c <= '\U{D6}') || ('\U{D8}' <= c <= '\U{F6}') || ('\U{F8}' <= c <= '\U{FF}')
  }

  /** The two character classes that the source trims away. */
  datatype Classe = Espacos | Aspas

  predicate Em(c: char, k: Classe) {
    match k
    case Espacos => EhEspaco(c)
    case Aspas => c == '"'
  }

  /** `trim_start_matches`: the longest suffix of `s` not starting with a
      character of class `k`. */
  function ApararInicio(s: string, k: Classe): (r: string)
    ensures |r| <= |s|
  {
    if s != [] && Em(s[0], k) then ApararInicio(s[1..], k) else s
  }

  /** What `trim_start_matches` keeps is a suffix not starting with the
      class, and everything it drops is of the class. */
  lemma {:induction false} ApararInicioSufixo(s: string, k: Classe)
    ensures var r := ApararInicio(s, k);
      && r == s[|s| - |r|..]
      && (r == [] || !Em(r[0], k))
      && (forall i | 0 <= i < |s| - |r| :: Em(s[i], k))
    decreases |s|
  {
    if s != [] && Em(s[0], k) {
      ApararInicioSufixo(s[1..], k);
    }
  }

  /** `trim_end_matches`: the longest prefix of `s` not ending with a character
      of class `k`. */
  function ApararFim(s: string, k: Classe): (r: string)
    ensures |r| <= |s|
  {
    if s != [] && Em(s[|s| - 1], k) then ApararFim(s[..|s| - 1], k) else s
  }

  /** What `trim_end_matches` keeps is a prefix not ending with the class,
      and everything it drops is of the class. */
  lemma {:induction false} ApararFimPrefixo(s: string, k: Classe)
    ensures var r := ApararFim(s, k);
      && r == s[..|r|]
      && (r == [] || !Em(r[|r| - 1], k))
      && (forall i | |r| <= i < |s| :: Em(s[i], k))
    decreases |s|
  {
    if s != [] && Em(s[|s| - 1], k) {
      ApararFimPrefixo(s[..|s| - 1], k);
    }
  }

  /** `str::trim`. */
  function Aparar(s: string): string {
    ApararFim(ApararInicio(s, Espacos), Espacos)
  }

  /** `str::trim_matches('"')`. */
  function ApararAspas(s: string): string {
    ApararFim(ApararInicio(s, Aspas), Aspas)
  }

  /** Trimming leaves a string alone exactly when it neither starts nor ends
      with a character of the class. */
  lemma ApararIntacto(s: string, k: Classe)
    requires s == [] || (!Em(s[0], k) && !Em(s[|s| - 1], k))
    ensures ApararFim(ApararInicio(s, k), k) == s
  {
  }

  /** Surrounding quotes are removed by `trim_matches('"')` when the quoted
      text itself neither starts nor ends with a quote. */
  lemma {:induction false} ApararAspasCitado(x: string)
    requires x == [] || (x[0] != '"' && x[|x| - 1] != '"')
    ensures ApararAspas("\"" + x + "\"") == x
  {
    var q := "\"" + x + "\"";
    if x == [] {
      assert q == "\"\"";
      assert ApararInicio(q, Aspas) == ApararInicio(q[1..], Aspas);
      assert q[1..][1..] == [];
    } else {
      assert ApararInicio(q, Aspas) == ApararInicio(x + "\"", Aspas) by {
        assert q[1..] == x + "\"";
      }
      assert ApararInicio(x + "\"", Aspas) == x + "\"";
      var y := x + "\"";
      assert ApararFim(y, Aspas) == ApararFim(x, Aspas) by {
        assert y[..|y| - 1] == x;
      }
      ApararIntacto(x, Aspas);
    }
  }

  /** `str::find(c)`: the index of the first occurrence of `c`. */
  function Encontrar(s: string, c: char): (r: Option<nat>)
    ensures r.Some? ==> r.value < |s| && s[r.value] == c && c !in s[..r.value]
    ensures r.None? <==> c !in s
  {
    if s == [] then None
    else if s[0] == c then Some(0)
    else
      match Encontrar(s[1..], c)
      case None => None
      case Some(k) => assert s[..k + 1] == [s[0]] + s[1..][..k]; Some(k + 1)
  }

  /** `parts.join(sep)`, stated from the last part backwards. */
  function Juntar(partes: seq<string>, sep: string): string {
    if |partes| == 0 then ""
    else if |partes| == 1 then partes[0]
    else Juntar(partes[..|partes| - 1], sep) + sep + partes[|partes| - 1]
  }

  /** Joining is also a front-to-back concatenation. */
  lemma {:induction false} JuntarFrente(p: string, partes: seq<string>, sep: string)
    requires |partes| >= 1
    ensures Juntar([p] + partes, sep) == p + sep + Juntar(partes, sep)
  {
    var n := |partes|;
    if n == 1 {
      assert ([p] + partes)[..1] == [p];
    } else {
      assert ([p] + partes)[..n] == [p] + partes[..n - 1];
      JuntarFrente(p, partes[..n - 1], sep);
    }
  }

  /** Joining one more part: the separator goes in front of it unless it is
      the first. */
  lemma JuntarPasso(partes: seq<string>, sep: string, i: nat)
    requires i < |partes|
    ensures Juntar(partes[..i + 1], sep) ==
      if i == 0 then partes[0] else Juntar(partes[..i], sep) + sep + partes[i]
  {
    assert partes[..i + 1][..i] == partes[..i];
  }

  /** Appending is associative; writers that append piece by piece use this
      to regroup what they have written. */
  lemma Anexar(a: string, b: string, c: string)
    ensures (a + b) + c == a + (b + c)
  {
  }

  /** `str::split(c)`: the pieces between occurrences of `c`; joining them
      with `c` gives `s` back, and no piece contains `c`. */
  function Dividir(s: string, c: char): (r: seq<string>)
    ensures |r| >= 1
    ensures Juntar(r, [c]) == s
    ensures forall i | 0 <= i < |r| :: c !in r[i]
    decreases |s|
  {
    match Encontrar(s, c)
    case None => [s]
    case Some(k) =>
      var resto := Dividir(s[k + 1..], c);
      JuntarFrente(s[..k], resto, [c]);
      assert s == s[..k] + [c] + s[k + 1..];
      [s[..k]] + resto
  }

  /** Splitting undoes joining, when no part contains the separator. */
  lemma {:induction false} DividirJuntar(partes: seq<string>, c: char)
    requires |partes| >= 1
    requires forall i | 0 <= i < |partes| :: c !in partes[i]
    ensures Dividir(Juntar(partes, [c]), c) == partes
  {
    if |partes| == 1 {
      assert Encontrar(partes[0], c).None?;
    } else {
      var resto := partes[1..];
      assert partes == [partes[0]] + resto;
      JuntarFrente(partes[0], resto, [c]);
      var s := Juntar(partes, [c]);
      var k := |partes[0]|;
      assert s == partes[0] + [c] + Juntar(resto, [c]);
      assert s[k] == c;
      assert s[..k] == partes[0];
      assert Encontrar(s, c) == Some(k);
      assert s[k + 1..] == Juntar(resto, [c]);
      DividirJuntar(resto, c);
    }
  }

  /** `str::lines`, up to what every caller does next: a line's trailing '\r'
      and the empty piece after a final '\n' are both removed by the `trim`
      and the empty-line test that follow, so splitting on '\n' is enough. */
  function Linhas(s: string): (r: seq<string>)
    ensures forall i | 0 <= i < |r| :: '\n' !in r[i]
  {
    Dividir(s, '\n')
  }

  function ComecaCom(s: string, c: char): bool {
    |s| > 0 && s[0] == c
  }

  function TerminaCom(s: string, c: char): bool {
    |s| > 0 && s[|s| - 1] == c
  }
}
