/**
 * The few `java.lang.String` operations the core's guards rely on, with Java's
 * own character rules: `trim()` strips code units up to U+0020, `isBlank()`
 * tests `Character.isWhitespace`, and `equalsIgnoreCase` folds case one code
 * unit at a time.
 */
module Texto {

  /** Index of the first code unit `trim()` keeps (|s| if it keeps none). */
  function InicioTrim(s: string): (i: nat)
    ensures i <= |s|
    ensures forall k :: 0 <= k < i ==> s[k] <= ' '
    ensures i < |s| ==> s[i] > ' '
  {
    if s == [] || s[0] > ' ' then 0
    else
      var i := 1 + InicioTrim(s[1..]);
      assert forall k :: 1 <= k < i ==> s[k] == s[1..][k - 1];
      i
  }

  /** One past the last code unit `trim()` keeps (0 if it keeps none). */
  function FinTrim(s: string): (j: nat)
    ensures j <= |s|
    ensures forall k :: j <= k < |s| ==> s[k] <= ' '
    ensures j > 0 ==> s[j - 1] > ' '
  {
    if s == [] || s[|s| - 1] > ' ' then |s|
    else FinTrim(s[..|s| - 1])
  }

  /** `s.trim()`: the longest slice of `s` that neither starts nor ends with a code unit up to U+0020. */
  function Trim(s: string): (r: string)
    ensures |r| <= |s|
    ensures r == [] <==> forall k :: 0 <= k < |s| ==> s[k] <= ' '
    ensures r != [] ==> r[0] > ' ' && r[|r| - 1] > ' '
    ensures InicioTrim(s) + |r| <= |s| && r == s[InicioTrim(s)..InicioTrim(s) + |r|]
  {
    var i, j := InicioTrim(s), FinTrim(s);
    if i == |s| then []
    else
      assert s[i] > ' ' && i < j;
      s[i..j]
  }

  /** Trimming twice changes nothing more. */
  lemma TrimIdempotente(s: string)
    ensures Trim(Trim(s)) == Trim(s)
  {
    var t := Trim(s);
    if t != [] {
      assert InicioTrim(t) == 0;
      assert FinTrim(t) == |t|;
    }
  }

  /** `Character.isWhitespace(c)` for a UTF-16 code unit: no-break spaces are not whitespace. */
  predicate EsEspacioJava(c: char) {
    ('\U{9}' <= c <= '\U{D}') || ('\U{1C}' <= c <= '\U{20}') || c == '\U{1680}'
    || ('\U{2000}' <= c <= '\U{2006}') || ('\U{2008}' <= c <= '\U{200A}')
    || c == '\U{2028}' || c == '\U{2029}' || c == '\U{205F}' || c == '\U{3000}'
  }

  /** `s.isBlank()`: empty or only whitespace. */
  predicate EsBlanco(s: string) {
    forall k :: 0 <= k < |s| ==> EsEspacioJava(s[k])
  }

  /** `trim().isEmpty()` and `isBlank()` differ in both directions: NUL is trimmed but is not blank. */
  lemma TrimVacioNoEsBlanco()
    ensures Trim("\U{0}") == [] && !EsBlanco("\U{0}")
    ensures Trim("\U{3000}") != [] && EsBlanco("\U{3000}")
  {
    assert "\U{3000}"[0] > ' ';
  }

  predicate EsAscii(c: char) { c < '\U{80}' }

  function MayusculaAscii(c: char): (u: char)
    ensures EsAscii(c) ==> EsAscii(u)
  {
    if 'a' <= c <= 'z' then (c as int - 32) as char else c
  }

  function MinusculaAscii(c: char): (l: char)
    ensures EsAscii(c) ==> EsAscii(l)
  {
    if 'A' <= c <= 'Z' then (c as int + 32) as char else c
  }

  /**
   * The per-code-unit test of `regionMatches(true, …)` when the second code unit
   * `l` is ASCII: equal, or equal once upper-cased, or equal once upper- then
   * lower-cased. Besides the ASCII letters, four code units fold onto ASCII:
   * dotless i (U+0131) and long s (U+017F) upper-case to `I` and `S`, dotted
   * capital I (U+0130) and the Kelvin sign (U+212A) lower-case to `i` and `k`.
   */
  predicate IgualSinCaso(c: char, l: char)
    requires EsAscii(l)
  {
    c == l
    || (EsAscii(c) && MayusculaAscii(c) == MayusculaAscii(l))
    || (c == '\U{131}' && MayusculaAscii(l) == 'I')
    || (c == '\U{17F}' && MayusculaAscii(l) == 'S')
    || (c == '\U{130}' && MinusculaAscii(l) == 'i')
    || (c == '\U{212A}' && MinusculaAscii(l) == 'k')
  }

  /** `s.equalsIgnoreCase(lit)` for an ASCII literal `lit` (the only kind the core compares against). */
  predicate IgualIgnorandoCaso(s: string, lit: string)
    requires forall k :: 0 <= k < |lit| ==> EsAscii(lit[k])
  {
    |s| == |lit| && forall k :: 0 <= k < |s| ==> IgualSinCaso(s[k], lit[k])
  }

  /** For ASCII input, ignoring case is comparing the upper-cased strings. */
  lemma IgualIgnorandoCasoAscii(s: string, lit: string)
    requires forall k :: 0 <= k < |lit| ==> EsAscii(lit[k])
    requires forall k :: 0 <= k < |s| ==> EsAscii(s[k])
    ensures IgualIgnorandoCaso(s, lit) <==>
              |s| == |lit| && forall k :: 0 <= k < |s| ==> MayusculaAscii(s[k]) == MayusculaAscii(lit[k])
  {
  }

  function Digito(d: nat): (c: char)
    requires d < 10
    ensures '0' <= c <= '9'
  {
    ('0' as int + d) as char
  }

  /** The decimal digits of `n`, most significant first, with no leading zero. */
  function Digitos(n: nat): (r: string)
    ensures |r| >= 1
    ensures forall k :: 0 <= k < |r| ==> '0' <= r[k] <= '9'
    ensures |r| > 1 ==> r[0] != '0'
    decreases n
  {
    if n < 10 then [Digito(n)] else Digitos(n / 10) + [Digito(n % 10)]
  }

  /** Reading the digits back gives the number. */
  function ValorDecimal(r: string): int
    decreases |r|
  {
    if r == [] then 0 else 10 * ValorDecimal(r[..|r| - 1]) + (r[|r| - 1] as int - '0' as int)
  }

  lemma {:induction false} DigitosIda(n: nat)
    ensures ValorDecimal(Digitos(n)) == n
    decreases n
  {
    if n >= 10 {
      DigitosIda(n / 10);
      var r := Digitos(n);
      assert r[..|r| - 1] == Digitos(n / 10);
    }
  }

  /** `"" + n` for a `Long` id: an optional minus sign, then the digits. */
  function Decimal(n: int): (r: string)
    ensures |r| >= 1
  {
    if n < 0 then "-" + Digitos(-n) else Digitos(n)
  }

  /** Java's `Long.parseLong` on a text produced by `Decimal`. */
  function LeerDecimal(r: string): int {
    if r != [] && r[0] == '-' then -ValorDecimal(r[1..]) else ValorDecimal(r)
  }

  /** Reading back the text of an id gives the id. */
  lemma DecimalIdaYVuelta(n: int)
    ensures LeerDecimal(Decimal(n)) == n
  {
    var r := Decimal(n);
    if n < 0 {
      assert r[0] == '-' && r[1..] == Digitos(-n);
      DigitosIda(-n);
    } else {
      assert '0' <= r[0] <= '9';
      DigitosIda(n);
    }
  }

  /** Distinct ids give distinct texts, so a URL built from an id determines it. */
  lemma DecimalInyectivo(a: int, b: int)
    requires Decimal(a) == Decimal(b)
    ensures a == b
  {
    DecimalIdaYVuelta(a);
    DecimalIdaYVuelta(b);
  }
}
