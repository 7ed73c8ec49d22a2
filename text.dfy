/**
 * The handful of java.lang.String operations the kernel relies on, over
 * Dafny strings. Case mapping is ASCII only.
 */
module Text {

  function LowerChar(c: char): char {
    if 'A' <= c <= 'Z' then (c as int + 32) as char else c
  }

  function UpperChar(c: char): char {
    if 'a' <= c <= 'z' then (c as int - 32) as char else c
  }

  /** String.toLowerCase */
  function Lower(s: string): string {
    seq(|s|, i requires 0 <= i < |s| => LowerChar(s[i]))
  }

  /** String.toUpperCase */
  function Upper(s: string): string {
    seq(|s|, i requires 0 <= i < |s| => UpperChar(s[i]))
  }

  /** String.equalsIgnoreCase */
  predicate EqualsIgnoreCase(a: string, b: string) {
    Lower(a) == Lower(b)
  }

  /** A literal with no lower-case letter, such as "BEDROCK_SPAWNER". */
  predicate NoLowerCase(s: string) {
    forall i :: 0 <= i < |s| ==> !('a' <= s[i] <= 'z')
  }

  /**
   * A `switch (t.toUpperCase())` against an upper-case literal and a
   * `literal.equalsIgnoreCase(t)` test select the same strings.
   */
  lemma UpperMatchesIgnoreCase(t: string, lit: string)
    requires NoLowerCase(lit)
    ensures Upper(t) == lit <==> EqualsIgnoreCase(lit, t)
  {
    if Upper(t) == lit {
      forall i | 0 <= i < |t| ensures Lower(lit)[i] == Lower(t)[i] {
        assert lit[i] == UpperChar(t[i]);
      }
    }
    if EqualsIgnoreCase(lit, t) {
      assert |lit| == |Lower(lit)| == |Lower(t)| == |t|;
      forall i | 0 <= i < |t| ensures Upper(t)[i] == lit[i] {
        assert Lower(lit)[i] == Lower(t)[i];
        assert LowerChar(lit[i]) == LowerChar(t[i]);
      }
    }
  }

  lemma LowerIdempotent(s: string)
    ensures Lower(Lower(s)) == Lower(s)
  {
  }

  lemma LowerAppend(a: string, b: string)
    ensures Lower(a + b) == Lower(a) + Lower(b)
  {
  }

  predicate StartsWith(s: string, prefix: string) {
    |prefix| <= |s| && s[..|prefix|] == prefix
  }

  /** String.contains */
  predicate Contains(s: string, part: string)
    decreases |s|
  {
    StartsWith(s, part) || (|s| > 0 && Contains(s[1..], part))
  }

  /** `part` occurs in `s` starting at position `i`. */
  predicate OccursAt(s: string, part: string, i: int) {
    0 <= i && i + |part| <= |s| && s[i..i + |part|] == part
  }

  /** Contains holds exactly when `part` occurs at some position of `s`. */
  lemma {:induction false} ContainsAt(s: string, part: string)
    ensures Contains(s, part) <==> exists i :: OccursAt(s, part, i)
    decreases |s|
  {
    if |s| > 0 {
      ContainsAt(s[1..], part);
      if exists i :: OccursAt(s, part, i) {
        var i :| OccursAt(s, part, i);
        if i > 0 {
          assert s[1..][i - 1..i - 1 + |part|] == part;
          assert OccursAt(s[1..], part, i - 1);
        } else {
          assert StartsWith(s, part);
        }
      }
      if Contains(s[1..], part) {
        var j :| OccursAt(s[1..], part, j);
        assert s[j + 1..j + 1 + |part|] == part;
        assert OccursAt(s, part, j + 1);
      }
      if StartsWith(s, part) {
        assert OccursAt(s, part, 0);
      }
    } else {
      if exists i :: OccursAt(s, part, i) {
        var i :| OccursAt(s, part, i);
        assert StartsWith(s, part);
      }
      if StartsWith(s, part) {
        assert OccursAt(s, part, 0);
      }
    }
  }

  /** An occurrence survives any text around it. */
  lemma ContainsWithin(a: string, s: string, b: string, part: string)
    requires Contains(s, part)
    ensures Contains(a + s + b, part)
  {
    ContainsAt(s, part);
    var i :| OccursAt(s, part, i);
    assert (a + s + b)[|a| + i..|a| + i + |part|] == part;
    assert OccursAt(a + s + b, part, |a| + i);
    ContainsAt(a + s + b, part);
  }

  /**
   * Character.isWhitespace: the space, line and paragraph separators other
   * than the no-break spaces U+00A0, U+2007 and U+202F, and the controls
   * U+0009 to U+000D and U+001C to U+001F.
   */
  predicate IsWhitespace(c: char) {
    c == ' ' || '\t' <= c <= '\r' || '\U{1C}' <= c <= '\U{1F}' ||
    c == '\U{1680}' || ('\U{2000}' <= c <= '\U{200A}' && c != '\U{2007}') ||
    c == '\U{2028}' || c == '\U{2029}' || c == '\U{205F}' || c == '\U{3000}'
  }

  /** String.isBlank */
  predicate IsBlank(s: string) {
    forall i :: 0 <= i < |s| ==> IsWhitespace(s[i])
  }

  function TrimStart(s: string): string
    decreases |s|
  {
    if |s| > 0 && s[0] <= ' ' then TrimStart(s[1..]) else s
  }

  function TrimEnd(s: string): string
    decreases |s|
  {
    if |s| > 0 && s[|s| - 1] <= ' ' then TrimEnd(s[..|s| - 1]) else s
  }

  /** String.trim: drops every leading and trailing character at or below U+0020. */
  function Trim(s: string): string {
    TrimEnd(TrimStart(s))
  }

  lemma {:induction false} TrimStartShape(s: string)
    ensures var r := TrimStart(s);
            |r| <= |s| && r == s[|s| - |r|..] &&
            (forall i :: 0 <= i < |s| - |r| ==> s[i] <= ' ') &&
            (r == [] || r[0] > ' ')
    decreases |s|
  {
    if |s| > 0 && s[0] <= ' ' {
      TrimStartShape(s[1..]);
    }
  }

  lemma {:induction false} TrimEndShape(s: string)
    ensures var r := TrimEnd(s);
            |r| <= |s| && r == s[..|r|] &&
            (forall i :: |r| <= i < |s| ==> s[i] <= ' ') &&
            (r == [] || r[|r| - 1] > ' ')
    decreases |s|
  {
    if |s| > 0 && s[|s| - 1] <= ' ' {
      TrimEndShape(s[..|s| - 1]);
    }
  }

  /** Trim keeps a middle slice of its input and leaves nothing to trim. */
  lemma TrimShape(s: string)
    ensures var r := Trim(s);
            exists k :: OccursAt(s, r, k)
    ensures Trim(s) == [] || (Trim(s)[0] > ' ' && Trim(s)[|Trim(s)| - 1] > ' ')
  {
    var t := TrimStart(s);
    TrimStartShape(s);
    TrimEndShape(t);
    var r := TrimEnd(t);
    var k := |s| - |t|;
    assert t == s[k..];
    assert r == t[..|r|];
    assert t[..|r|] == s[k..k + |r|];
    assert r == Trim(s);
    assert OccursAt(s, Trim(s), k);
    if r != [] {
      assert r[0] == t[0];
    }
  }

  lemma TrimNoOp(s: string)
    requires s == [] || (s[0] > ' ' && s[|s| - 1] > ' ')
    ensures Trim(s) == s
  {
  }

  lemma TrimIdempotent(s: string)
    ensures Trim(Trim(s)) == Trim(s)
  {
    TrimShape(s);
    TrimNoOp(Trim(s));
  }

  function DigitChar(d: nat): char
    requires d < 10
  {
    "0123456789"[d]
  }

  /** Decimal rendering of a natural number, as Integer.toString. */
  function NatToString(n: nat): string
    decreases n
  {
    if n < 10 then [DigitChar(n)] else NatToString(n / 10) + [DigitChar(n % 10)]
  }

  function IntToString(i: int): string {
    if i < 0 then "-" + NatToString(-i) else NatToString(i)
  }

  predicate IsDigit(c: char) {
    '0' <= c <= '9'
  }

  /** A rendered number is a non-empty string of decimal digits. */
  lemma {:induction false} NatToStringDigits(n: nat)
    ensures |NatToString(n)| > 0
    ensures forall i :: 0 <= i < |NatToString(n)| ==> IsDigit(NatToString(n)[i])
    decreases n
  {
    if n >= 10 {
      NatToStringDigits(n / 10);
    }
  }
}
