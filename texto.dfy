/** The three JavaScript string operations the catalogue relies on:
    `String.prototype.trim`, `String.prototype.toLowerCase` and
    `String.prototype.includes`. */
module Texto {

  /** The characters `trim` removes: ECMAScript WhiteSpace (tab, vertical tab,
      form feed, space, no-break space, byte order mark and the Unicode Zs
      category) and LineTerminator (line feed, carriage return, line and
      paragraph separators). */
  predicate EsEspacio(c: char) {
    c == '\t' || c == '\n' || c == '\U{000B}' || c == '\U{000C}' || c == '\r' ||
    c == ' ' || c == '\U{00A0}' || c == '\U{1680}' ||
    ('\U{2000}' <= c <= '\U{200A}') ||
    c == '\U{2028}' || c == '\U{2029}' || c == '\U{202F}' || c == '\U{205F}' ||
    c == '\U{3000}' || c == '\U{FEFF}'
  }

  predicate SoloEspacios(s: string) {
    forall i :: 0 <= i < |s| ==> EsEspacio(s[i])
  }

  /** Drops the leading white space. */
  function TrimInicio(s: string): (r: string)
    ensures |r| <= |s| && r == s[|s| - |r|..]
    ensures r == [] || !EsEspacio(r[0])
    ensures SoloEspacios(s[..|s| - |r|])
  {
    if s == [] || !EsEspacio(s[0]) then s
    else
      var r := TrimInicio(s[1..]);
      assert s[..|s| - |r|] == [s[0]] + s[1..][..|s[1..]| - |r|];
      r
  }

  /** Drops the trailing white space. */
  function TrimFin(s: string): (r: string)
    ensures |r| <= |s| && r == s[..|r|]
    ensures r == [] || !EsEspacio(r[|r| - 1])
    ensures SoloEspacios(s[|r|..])
  {
    if s == [] || !EsEspacio(s[|s| - 1]) then s
    else
      var r := TrimFin(s[..|s| - 1]);
      assert s[|r|..] == s[..|s| - 1][|r|..] + [s[|s| - 1]];
      r
  }

  /** A slice of a suffix is a slice of the whole. */
  lemma SufijoPartido(s: string, i: int, n: int)
    requires 0 <= i <= |s| && 0 <= n <= |s| - i
    ensures s[i..][..n] == s[i..i + n] && s[i..][n..] == s[i + n..]
  {
  }

  /** `s.trim()`: the contiguous middle of `s` that neither starts nor ends
      with white space, all that surrounds it being white space. */
  function Trim(s: string): (r: string)
    ensures exists i, j :: 0 <= i <= j <= |s| && r == s[i..j] && SoloEspacios(s[..i]) && SoloEspacios(s[j..])
    ensures r == [] || (!EsEspacio(r[0]) && !EsEspacio(r[|r| - 1]))
  {
    var a := TrimInicio(s);
    var r := TrimFin(a);
    var i := |s| - |a|;
    SufijoPartido(s, i, |r|);
    assert SoloEspacios(s[..i]) && SoloEspacios(s[i + |r|..]) && r == s[i..i + |r|];
    r
  }

  /** The truthiness test `if (s.trim())`: the trimmed string is empty exactly
      when every character of `s` is white space. */
  lemma TrimVacioSiiEspacios(s: string)
    ensures Trim(s) == [] <==> SoloEspacios(s)
  {
    var i, j :| 0 <= i <= j <= |s| && Trim(s) == s[i..j] && SoloEspacios(s[..i]) && SoloEspacios(s[j..]);
    if Trim(s) == [] {
      assert i == j;
      forall k | 0 <= k < |s| ensures EsEspacio(s[k]) {
        if k < i { assert s[k] == s[..i][k]; } else { assert s[k] == s[j..][k - j]; }
      }
    } else {
      assert !EsEspacio(s[i]);
    }
  }

  /** Lower-casing of one character, restricted to ASCII letters. */
  function MinusculaChar(c: char): char {
    if 'A' <= c <= 'Z' then (c as int - 'A' as int + 'a' as int) as char else c
  }

  /** `s.toLowerCase()` on ASCII letters; every other character is kept. */
  function Minusculas(s: string): (r: string)
    ensures |r| == |s|
    ensures forall i :: 0 <= i < |s| ==> r[i] == MinusculaChar(s[i])
  {
    seq(|s|, i requires 0 <= i < |s| => MinusculaChar(s[i]))
  }

  /** Lower-casing leaves no upper-case ASCII letter and is idempotent, so a
      query that is already lower case is matched as it is. */
  lemma MinusculasIdempotente(s: string)
    ensures forall i :: 0 <= i < |s| ==> !('A' <= Minusculas(s)[i] <= 'Z')
    ensures Minusculas(Minusculas(s)) == Minusculas(s)
  {
  }

  /** `s.includes(q)`: `q` occurs in `s` at the front or further on. */
  function Incluye(s: string, q: string): (r: bool)
    ensures q == [] ==> r
    ensures r ==> |q| <= |s|
  {
    q <= s || (s != [] && Incluye(s[1..], q))
  }

  /** `q` occurs in `s` starting at index `i`. */
  predicate OcurreEn(s: string, q: string, i: int) {
    0 <= i && i + |q| <= |s| && s[i..i + |q|] == q
  }

  /** An occurrence at index 0 is a prefix. */
  lemma OcurreAlInicio(s: string, q: string)
    ensures OcurreEn(s, q, 0) <==> q <= s
  {
    if |q| <= |s| {
      assert s[0..|q|] == s[..|q|];
    }
  }

  /** An occurrence past index 0 is an occurrence in the tail, one index
      earlier. */
  lemma OcurreEnCola(s: string, q: string, i: int)
    requires s != [] && i >= 1
    ensures OcurreEn(s, q, i) <==> OcurreEn(s[1..], q, i - 1)
  {
    if i + |q| <= |s| {
      assert s[1..][i - 1..i - 1 + |q|] == s[i..i + |q|];
    }
  }

  /** `Incluye` holds exactly when `q` is a contiguous piece of `s`. */
  lemma {:induction false} IncluyeSiiSubcadena(s: string, q: string)
    ensures Incluye(s, q) <==> exists i :: OcurreEn(s, q, i)
  {
    OcurreAlInicio(s, q);
    if q <= s {
    } else if s == [] {
    } else {
      IncluyeSiiSubcadena(s[1..], q);
      forall i | OcurreEn(s, q, i) ensures OcurreEn(s[1..], q, i - 1) {
        OcurreEnCola(s, q, i);
      }
      forall i | OcurreEn(s[1..], q, i) ensures OcurreEn(s, q, i + 1) {
        OcurreEnCola(s, q, i + 1);
      }
    }
  }
}
