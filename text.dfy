/** The java.lang.String operations the services rely on: toLowerCase,
    contains, trim().isEmpty(), equalsIgnoreCase, compareToIgnoreCase and
    the decimal rendering of a long. */
module Text {

  /** An upper-case letter that toLowerCase maps to another character:
      ASCII A-Z and the Latin-1 capitals U+00C0..U+00DE except U+00D7. */
  predicate IsUpper(c: char) {
    ('A' <= c <= 'Z') || ('À' <= c <= 'Þ' && c != '×')
  }

  /** Character.toLowerCase on the letters IsUpper covers. */
  function LowerChar(c: char): (r: char)
    ensures IsUpper(c) ==> r as int == c as int + 32
    ensures !IsUpper(c) ==> r == c
    ensures !IsUpper(r)
  {
    if IsUpper(c) then (c as int + 32) as char else c
  }

  /** String.toLowerCase. */
  function Lower(s: string): (r: string)
    ensures |r| == |s|
    ensures forall i :: 0 <= i < |s| ==> r[i] == LowerChar(s[i])
  {
    seq(|s|, i requires 0 <= i < |s| => LowerChar(s[i]))
  }

  /** Lower-casing twice changes nothing more than lower-casing once. */
  lemma LowerIdempotent(s: string)
    ensures Lower(Lower(s)) == Lower(s)
  {
  }

  /** String.contains: `t` occurs in `s` at some offset. */
  predicate Contains(s: string, t: string) {
    exists i :: 0 <= i <= |s| && OccursAt(s, t, i)
  }

  /** `t` occurs in `s` starting at index `i`. */
  predicate OccursAt(s: string, t: string, i: int) {
    0 <= i && i + |t| <= |s| && s[i..i + |t|] == t
  }

  lemma ContainsEmpty(s: string)
    ensures Contains(s, "")
  {
    assert OccursAt(s, "", 0);
  }

  /** A string contains itself and any part of itself. */
  lemma ContainsSlice(s: string, i: int, j: int)
    requires 0 <= i <= j <= |s|
    ensures Contains(s, s[i..j])
  {
    assert OccursAt(s, s[i..j], i);
  }

  /** Lower-casing both sides keeps an occurrence: what contains finds
      case-sensitively it also finds after toLowerCase. */
  lemma ContainsLower(s: string, t: string)
    requires Contains(s, t)
    ensures Contains(Lower(s), Lower(t))
  {
    var i :| 0 <= i <= |s| && OccursAt(s, t, i);
    assert Lower(s)[i..i + |t|] == Lower(t) by {
      forall k | 0 <= k < |t|
        ensures Lower(s)[i..i + |t|][k] == Lower(t)[k]
      {
        assert s[i..i + |t|][k] == t[k];
      }
    }
    assert OccursAt(Lower(s), Lower(t), i);
  }

  /** The characters String.trim removes: everything at or below U+0020. */
  predicate IsTrimmed(c: char) {
    c <= ' '
  }

  function TrimStart(s: string): (r: string)
    ensures |r| <= |s|
    ensures r == s[|s| - |r|..]
    ensures |r| > 0 ==> !IsTrimmed(r[0])
  {
    if |s| > 0 && IsTrimmed(s[0]) then TrimStart(s[1..]) else s
  }

  function TrimEnd(s: string): (r: string)
    ensures |r| <= |s|
    ensures r == s[..|r|]
  {
    if |s| > 0 && IsTrimmed(s[|s| - 1]) then TrimEnd(s[..|s| - 1]) else s
  }

  /** String.trim. */
  function Trim(s: string): string {
    TrimEnd(TrimStart(s))
  }

  /** `s.trim().isEmpty()`: the test the services use for a blank value. */
  predicate IsBlank(s: string) {
    Trim(s) == ""
  }

  lemma {:induction false} TrimStartEmpty(s: string)
    ensures TrimStart(s) == "" <==> forall i :: 0 <= i < |s| ==> IsTrimmed(s[i])
  {
    if |s| > 0 && IsTrimmed(s[0]) {
      TrimStartEmpty(s[1..]);
      assert forall i :: 1 <= i < |s| ==> s[i] == s[1..][i - 1];
    }
  }

  /** A string is blank exactly when every character is one String.trim
      removes. */
  lemma BlankIff(s: string)
    ensures IsBlank(s) <==> forall i :: 0 <= i < |s| ==> IsTrimmed(s[i])
  {
    TrimStartEmpty(s);
    var t := TrimStart(s);
    if TrimEnd(t) == "" && t != "" {
      TrimEndEmptyAll(t);
      assert false;
    }
  }

  lemma {:induction false} TrimEndEmptyAll(s: string)
    requires TrimEnd(s) == ""
    ensures forall i :: 0 <= i < |s| ==> IsTrimmed(s[i])
  {
    if |s| > 0 {
      TrimEndEmptyAll(s[..|s| - 1]);
      assert forall i :: 0 <= i < |s| - 1 ==> s[i] == s[..|s| - 1][i];
    }
  }

  /** String.compareTo on two already case-folded strings: the difference
      of the first differing characters, else the difference of lengths. */
  function CompareChars(a: string, b: string): int
  {
    if |a| == 0 || |b| == 0 then |a| - |b|
    else if a[0] != b[0] then a[0] as int - b[0] as int
    else CompareChars(a[1..], b[1..])
  }

  /** The character fold compareToIgnoreCase and equalsIgnoreCase apply,
      Character.toLowerCase(Character.toUpperCase(c)): on the characters
      modelled it is LowerChar, except that the micro sign U+00B5, whose
      upper case is the Greek capital mu, folds to the Greek small mu. */
  function FoldChar(c: char): (r: char)
    ensures c != '\U{00B5}' ==> r == LowerChar(c)
    ensures !IsUpper(r) && r != '\U{00B5}'
  {
    if c == '\U{00B5}' then '\U{03BC}' else LowerChar(c)
  }

  function Fold(s: string): (r: string)
    ensures |r| == |s|
    ensures forall i :: 0 <= i < |s| ==> r[i] == FoldChar(s[i])
  {
    seq(|s|, i requires 0 <= i < |s| => FoldChar(s[i]))
  }

  /** Strings equal after toLowerCase are equal after the fold. */
  lemma FoldCoarserThanLower(a: string, b: string)
    requires Lower(a) == Lower(b)
    ensures Fold(a) == Fold(b)
  {
    assert |a| == |Lower(a)| == |b|;
    forall i | 0 <= i < |a|
      ensures Fold(a)[i] == Fold(b)[i]
    {
      assert Lower(a)[i] == Lower(b)[i];
      if a[i] == '\U{00B5}' || b[i] == '\U{00B5}' {
        assert LowerChar(a[i]) == LowerChar(b[i]);
      }
    }
  }

  /** String.compareToIgnoreCase: the difference of the first characters
      that differ after the fold, else the difference of lengths. */
  function CompareIgnoreCase(a: string, b: string): int {
    CompareChars(Fold(a), Fold(b))
  }

  lemma {:induction false} CompareCharsAntisymmetric(a: string, b: string)
    ensures CompareChars(a, b) == -CompareChars(b, a)
  {
    if |a| != 0 && |b| != 0 && a[0] == b[0] {
      CompareCharsAntisymmetric(a[1..], b[1..]);
    }
  }

  lemma {:induction false} CompareCharsZero(a: string, b: string)
    ensures CompareChars(a, b) == 0 <==> a == b
  {
    if |a| != 0 && |b| != 0 && a[0] == b[0] {
      CompareCharsZero(a[1..], b[1..]);
      assert a == [a[0]] + a[1..] && b == [b[0]] + b[1..];
    }
  }

  /** Swapping the operands of compareToIgnoreCase negates the result, and
      the result is zero exactly when the strings agree after the fold, in
      particular whenever they agree after toLowerCase. */
  lemma CompareIgnoreCaseProperties(a: string, b: string)
    ensures CompareIgnoreCase(a, b) == -CompareIgnoreCase(b, a)
    ensures CompareIgnoreCase(a, b) == 0 <==> Fold(a) == Fold(b)
    ensures Lower(a) == Lower(b) ==> CompareIgnoreCase(a, b) == 0
  {
    CompareCharsAntisymmetric(Fold(a), Fold(b));
    CompareCharsZero(Fold(a), Fold(b));
    if Lower(a) == Lower(b) {
      FoldCoarserThanLower(a, b);
    }
  }

  /** The micro sign and the Greek small mu differ after toLowerCase but
      compare equal ignoring case, and the micro sign sorts after every
      Latin-1 letter. */
  lemma MicroSignFolds()
    ensures Lower("\U{00B5}") != Lower("\U{03BC}")
    ensures CompareIgnoreCase("\U{00B5}", "\U{03BC}") == 0
    ensures CompareIgnoreCase("\U{00B5}", "\U{00FF}") > 0
  {
    assert Lower("\U{00B5}")[0] == '\U{00B5}';
    assert Fold("\U{00B5}") == "\U{03BC}" && Fold("\U{03BC}") == "\U{03BC}";
    assert Fold("\U{00FF}") == "\U{00FF}";
  }

  /** String.equalsIgnoreCase on a non-null argument: the same length and
      the same characters after the fold. */
  predicate EqualsIgnoreCase(a: string, b: string) {
    Fold(a) == Fold(b)
  }

  function DigitChar(d: nat): (c: char)
    requires d < 10
    ensures '0' <= c <= '9'
  {
    ('0' as int + d) as char
  }

  /** The decimal digits of a natural number, as Long.toString writes them. */
  function NatToString(n: nat): (r: string)
    ensures |r| > 0
    ensures forall i :: 0 <= i < |r| ==> '0' <= r[i] <= '9'
    ensures n > 0 ==> r[0] != '0'
  {
    if n < 10 then [DigitChar(n)] else NatToString(n / 10) + [DigitChar(n % 10)]
  }

  /** Long.toString. */
  function IntToString(n: int): (r: string)
    ensures |r| > 0
    ensures n < 0 <==> r[0] == '-'
  {
    if n < 0 then "-" + NatToString(-n) else NatToString(n)
  }

  lemma {:induction false} NatToStringInjective(m: nat, n: nat)
    requires NatToString(m) == NatToString(n)
    ensures m == n
  {
    var a, b := NatToString(m), NatToString(n);
    NatToStringLength(m);
    NatToStringLength(n);
    if m >= 10 && n >= 10 {
      assert a[..|a| - 1] == NatToString(m / 10);
      assert b[..|b| - 1] == NatToString(n / 10);
      NatToStringInjective(m / 10, n / 10);
      assert DigitChar(m % 10) == a[|a| - 1] == b[|b| - 1] == DigitChar(n % 10);
    }
  }

  lemma NatToStringLength(n: nat)
    ensures n >= 10 <==> |NatToString(n)| >= 2
  {
    if n >= 10 {
      assert |NatToString(n / 10)| > 0;
    }
  }

  /** A rendered number holds only digits and a leading minus, never a
      colon. */
  lemma IntToStringSinDosPuntos(n: int)
    ensures forall k :: 0 <= k < |IntToString(n)| ==> IntToString(n)[k] != ':'
  {
    if n < 0 {
      forall k | 0 < k < |IntToString(n)|
        ensures IntToString(n)[k] != ':'
      {
        assert IntToString(n)[k] == NatToString(-n)[k - 1];
      }
    }
  }

  /** Distinct integers render as distinct strings. */
  lemma IntToStringInjective(m: int, n: int)
    requires IntToString(m) == IntToString(n)
    ensures m == n
  {
    if m < 0 && n < 0 {
      assert NatToString(-m) == IntToString(m)[1..];
      assert NatToString(-n) == IntToString(n)[1..];
      NatToStringInjective(-m, -n);
    } else if m >= 0 && n >= 0 {
      NatToStringInjective(m, n);
    }
  }

  /** String.join. */
  function Join(sep: string, parts: seq<string>): (r: string)
    ensures parts == [] ==> r == ""
    ensures |parts| == 1 ==> r == parts[0]
  {
    if parts == [] then ""
    else if |parts| == 1 then parts[0]
    else Join(sep, parts[..|parts| - 1]) + sep + parts[|parts| - 1]
  }
}
