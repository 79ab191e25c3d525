/** Number literals. The source stores them as `f64`; this model keeps the
    decimal lexeme instead, with the two conversions the compiler performs:
    `str::parse::<f64>` on a lexeme and `f64`'s `Display` when code is emitted. */
module Numeros {
  import opened Wrappers
  import opened Texto

  /** A number literal, kept as the decimal text it was read from. */
  datatype NumeroF64 = NumeroF64(lexema: string)

  /** The decimal forms that `str::parse::<f64>` accepts among strings made of
      digits and points: at least one digit and at most one point. */
  predicate FormatoDecimal(s: string) {
    && (exists k | 0 <= k < |s| :: EhDigito(s[k]))
    && (forall k | 0 <= k < |s| :: EhDigito(s[k]) || s[k] == '.')
    && (forall i, j | 0 <= i < j < |s| :: !(s[i] == '.' && s[j] == '.'))
  }

  /** `str::parse::<f64>`, restricted to decimal forms. */
  function LerF64(s: string): (r: Option<NumeroF64>)
    ensures r.Some? <==> FormatoDecimal(s)
    ensures r.Some? ==> r.value.lexema == s
  {
    if FormatoDecimal(s) then Some(NumeroF64(s)) else None
  }

  function SemZerosIniciais(s: string): (r: string)
    ensures |r| <= |s| && r == s[|s| - |r|..]
    ensures r == [] || r[0] != '0'
  {
    if |s| > 0 && s[0] == '0' then SemZerosIniciais(s[1..]) else s
  }

  function SemZerosFinais(s: string): (r: string)
    ensures |r| <= |s| && r == s[..|r|]
    ensures r == [] || r[|r| - 1] != '0'
  {
    if |s| > 0 && s[|s| - 1] == '0' then SemZerosFinais(s[..|s| - 1]) else s
  }

  /** The integer and fraction digits of a lexeme, split at its first point. */
  function Partes(s: string): (r: (string, string))
    ensures '.' !in r.0 && (forall c | c in r.0 :: c in s) && (forall c | c in r.1 :: c in s)
  {
    match Encontrar(s, '.')
    case None => (s, "")
    case Some(k) => (s[..k], s[k + 1..])
  }

  /** `f64`'s `Display` on a decimal lexeme: no superfluous zeros, no point
      when the fraction is zero ("007.50" prints as "7.5", "3.0" as "3"). */
  function ExibirNumero(n: NumeroF64): string {
    var partes := Partes(n.lexema);
    var i := SemZerosIniciais(partes.0);
    var f := SemZerosFinais(partes.1);
    (if i == "" then "0" else i) + (if f == "" then "" else "." + f)
  }

  /** Display writes only characters of the lexeme, '0' and '.'. */
  lemma ExibirNumeroCaracteres(n: NumeroF64)
    ensures forall c | c in ExibirNumero(n) :: c in n.lexema || c == '0' || c == '.'
  {
    var p := Partes(n.lexema);
    var i := SemZerosIniciais(p.0);
    var f := SemZerosFinais(p.1);
    forall c | c in i
      ensures c in n.lexema
    {
      var k :| 0 <= k < |i| && i[k] == c;
      assert c == p.0[|p.0| - |i| + k];
    }
    forall c | c in f
      ensures c in n.lexema
    {
      var k :| 0 <= k < |f| && f[k] == c;
      assert c == p.1[k];
    }
  }

  /** Both parts of a decimal lexeme are digits only. */
  lemma PartesDigitos(s: string)
    requires FormatoDecimal(s)
    ensures forall k | 0 <= k < |SemZerosIniciais(Partes(s).0)| :: EhDigito(SemZerosIniciais(Partes(s).0)[k])
    ensures forall k | 0 <= k < |SemZerosFinais(Partes(s).1)| :: EhDigito(SemZerosFinais(Partes(s).1)[k])
  {
    var p := Partes(s);
    assert '.' !in p.1 by {
      match Encontrar(s, '.')
      case None =>
      case Some(k) =>
        forall j | 0 <= j < |p.1|
          ensures p.1[j] != '.'
        {
          assert p.1[j] == s[k + 1 + j];
        }
    }
    var i := SemZerosIniciais(p.0);
    var f := SemZerosFinais(p.1);
    forall k | 0 <= k < |i|
      ensures EhDigito(i[k])
    {
      assert i[k] == p.0[|p.0| - |i| + k];
      assert i[k] in s;
    }
    forall k | 0 <= k < |f|
      ensures EhDigito(f[k])
    {
      assert f[k] == p.1[k];
      assert f[k] in s;
    }
  }

  /** Integer digits followed by an optional point and fraction digits form a
      decimal lexeme. */
  lemma DigitosEPontoDecimal(cabeca: string, f: string)
    requires |cabeca| >= 1 && forall k | 0 <= k < |cabeca| :: EhDigito(cabeca[k])
    requires forall k | 0 <= k < |f| :: EhDigito(f[k])
    ensures FormatoDecimal(cabeca + (if f == "" then "" else "." + f))
  {
    var cauda := if f == "" then "" else "." + f;
    var r := cabeca + cauda;
    assert EhDigito(r[0]);
    forall k | 0 <= k < |r|
      ensures EhDigito(r[k]) || r[k] == '.'
      ensures r[k] == '.' ==> k == |cabeca|
    {
      if k >= |cabeca| {
        assert r[k] == cauda[k - |cabeca|];
        if k > |cabeca| {
          assert cauda[k - |cabeca|] == f[k - |cabeca| - 1];
        }
      }
    }
  }

  /** What display writes is again a decimal form that `LerF64` accepts. */
  lemma ExibirNumeroDecimal(n: NumeroF64)
    requires FormatoDecimal(n.lexema)
    ensures FormatoDecimal(ExibirNumero(n))
    ensures LerF64(ExibirNumero(n)) == Some(NumeroF64(ExibirNumero(n)))
  {
    PartesDigitos(n.lexema);
    var p := Partes(n.lexema);
    var i := SemZerosIniciais(p.0);
    var f := SemZerosFinais(p.1);
    var cabeca := if i == "" then "0" else i;
    assert forall k | 0 <= k < |cabeca| :: EhDigito(cabeca[k]);
    DigitosEPontoDecimal(cabeca, f);
  }
}
