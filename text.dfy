/**
 * The JavaScript string operations the dashboard relies on, over `string`
 * (a sequence of Unicode scalar values): `trim`, ASCII lower-casing,
 * `includes`, `split('.').pop()`, the camel-case `replace(/([A-Z])/g, ' $1')`
 * and the decimal rendering of a whole number.
 */
module Text {

  /** The characters `String.prototype.trim` removes: ECMAScript WhiteSpace and LineTerminator. */
  predicate IsJsSpace(c: char) {
    || c == '\t' || c == '\n' || c == '\U{000B}' || c == '\U{000C}' || c == '\r' || c == ' '
    || c == '\U{00A0}' || c == '\U{1680}' || ('\U{2000}' <= c <= '\U{200A}')
    || c == '\U{2028}' || c == '\U{2029}' || c == '\U{202F}' || c == '\U{205F}'
    || c == '\U{3000}' || c == '\U{FEFF}'
  }

  predicate AllSpace(s: string) {
    forall i :: 0 <= i < |s| ==> IsJsSpace(s[i])
  }

  /** Drops leading white space; the result is the suffix that starts at the first other character. */
  function TrimStart(s: string): (r: string)
    ensures |r| <= |s| && r == s[|s| - |r|..]
    ensures AllSpace(s[..|s| - |r|])
    ensures r != [] ==> !IsJsSpace(r[0])
  {
    if s != [] && IsJsSpace(s[0]) then
      var r := TrimStart(s[1..]);
      assert forall i :: 0 < i < |s| - |r| ==> s[i] == s[1..][..|s| - 1 - |r|][i - 1];
      r
    else s
  }

  /** Drops trailing white space; the result is the prefix that ends at the last other character. */
  function TrimEnd(s: string): (r: string)
    ensures |r| <= |s| && r == s[..|r|]
    ensures AllSpace(s[|r|..])
    ensures r != [] ==> !IsJsSpace(r[|r| - 1])
  {
    if s != [] && IsJsSpace(s[|s| - 1]) then
      var r := TrimEnd(s[..|s| - 1]);
      assert s[|r|..] == s[..|s| - 1][|r|..] + [s[|s| - 1]];
      r
    else s
  }

  function Trim(s: string): string {
    TrimEnd(TrimStart(s))
  }

  /** `!s.trim()`: the string is empty after trimming, which is falsy in JavaScript. */
  predicate IsBlank(s: string) {
    Trim(s) == ""
  }

  /** A string trims to nothing exactly when every one of its characters is white space. */
  lemma BlankIffAllSpace(s: string)
    ensures IsBlank(s) <==> AllSpace(s)
  {
    var t := TrimStart(s);
    if !AllSpace(s) {
      var k :| 0 <= k < |s| && !IsJsSpace(s[k]);
      var lead := s[..|s| - |t|];
      assert |s| - |t| <= k by {
        assert forall i :: 0 <= i < |lead| ==> lead[i] == s[i];
      }
      assert TrimEnd(t) != [];
    }
  }

  /** ASCII lower-casing of one character; every other character is left alone. */
  function LowerChar(c: char): char {
    if 'A' <= c <= 'Z' then (c as int - 'A' as int + 'a' as int) as char else c
  }

  function Lower(s: string): (r: string)
    ensures |r| == |s|
    ensures forall i :: 0 <= i < |s| ==> r[i] == LowerChar(s[i])
  {
    if s == [] then [] else [LowerChar(s[0])] + Lower(s[1..])
  }

  /** `s.includes(q)`: `q` occurs in `s` as a contiguous run. */
  predicate Contains(s: string, q: string) {
    exists i :: 0 <= i <= |s| - |q| && OccursAt(s, q, i)
  }

  predicate OccursAt(s: string, q: string, i: int)
    requires 0 <= i <= |s| - |q|
  {
    s[i..i + |q|] == q
  }

  /** Every string includes the empty string. */
  lemma ContainsEmpty(s: string)
    ensures Contains(s, "")
  {
    assert OccursAt(s, "", 0);
  }

  /** The position of the last '.' in `s`, or -1 when there is none. */
  function LastDot(s: string): (k: int)
    ensures -1 <= k < |s|
    ensures k >= 0 ==> s[k] == '.'
    ensures forall j :: k < j < |s| ==> s[j] != '.'
  {
    if s == [] then -1
    else if s[|s| - 1] == '.' then |s| - 1
    else LastDot(s[..|s| - 1])
  }

  /**
   * `s.split('.').pop()`: the text after the last '.', or the whole string
   * when it has no '.'; the empty string when `s` ends with '.'.
   */
  function AfterLastDot(s: string): string {
    s[LastDot(s) + 1..]
  }

  /** Putting back the last '.' and what came before it recovers the name, so the split loses nothing. */
  lemma AfterLastDotSplits(s: string)
    requires '.' in s
    ensures '.' !in AfterLastDot(s)
    ensures s == s[..LastDot(s)] + "." + AfterLastDot(s)
  {
    var k := LastDot(s);
    var i :| 0 <= i < |s| && s[i] == '.';
    assert k >= 0;
    assert s == s[..k] + [s[k]] + s[k + 1..];
  }

  /** A name without any '.' is its own extension. */
  lemma AfterLastDotNoDot(s: string)
    requires '.' !in s
    ensures AfterLastDot(s) == s
  {
  }

  predicate IsUpperAscii(c: char) {
    'A' <= c <= 'Z'
  }

  /** `s.replace(/([A-Z])/g, ' $1')`: a space is put before every ASCII capital. */
  function SpaceBeforeCapitals(s: string): (r: string)
    ensures |r| >= |s|
  {
    if s == [] then []
    else (if IsUpperAscii(s[0]) then [' ', s[0]] else [s[0]]) + SpaceBeforeCapitals(s[1..])
  }

  /** The rewrite works piece by piece, so a key can be handled one camel-case word at a time. */
  lemma {:induction false} SpaceBeforeCapitalsAppend(a: string, b: string)
    ensures SpaceBeforeCapitals(a + b) == SpaceBeforeCapitals(a) + SpaceBeforeCapitals(b)
  {
    if a == [] {
      assert a + b == b;
    } else {
      assert (a + b)[1..] == a[1..] + b;
      SpaceBeforeCapitalsAppend(a[1..], b);
    }
  }

  /** A run without capitals, such as the head word of a camel-case key, is left as it is. */
  lemma {:induction false} NoCapitalsUnchanged(w: string)
    requires forall i :: 0 <= i < |w| ==> !IsUpperAscii(w[i])
    ensures SpaceBeforeCapitals(w) == w
  {
    if w != [] {
      assert !IsUpperAscii(w[0]);
      NoCapitalsUnchanged(w[1..]);
    }
  }

  lemma CapitalisedWord(w: string)
    requires w != [] && IsUpperAscii(w[0])
    requires forall i :: 0 < i < |w| ==> !IsUpperAscii(w[i])
    ensures SpaceBeforeCapitals(w) == [' '] + w
  {
    TailWithoutCapitals(w);
    PrefixSpace(w);
  }

  lemma PrefixSpace(w: string)
    requires w != [] && IsUpperAscii(w[0])
    requires SpaceBeforeCapitals(w[1..]) == w[1..]
    ensures SpaceBeforeCapitals(w) == [' '] + w
  {
    assert w == [w[0]] + w[1..];
  }

  lemma TailWithoutCapitals(w: string)
    requires w != []
    requires forall i :: 0 < i < |w| ==> !IsUpperAscii(w[i])
    ensures SpaceBeforeCapitals(w[1..]) == w[1..]
  {
    var rest := w[1..];
    assert forall i :: 0 <= i < |rest| ==> rest[i] == w[i + 1];
    NoCapitalsUnchanged(rest);
  }

  function RemoveSpaces(s: string): (r: string)
    ensures ' ' !in r
  {
    if s == [] then []
    else (if s[0] == ' ' then [] else [s[0]]) + RemoveSpaces(s[1..])
  }

  /** The rewrite only inserts spaces: removing all spaces undoes it. */
  lemma {:induction false} SpaceBeforeCapitalsInverse(s: string)
    ensures RemoveSpaces(SpaceBeforeCapitals(s)) == RemoveSpaces(s)
  {
    if s != [] {
      SpaceBeforeCapitalsInverse(s[1..]);
      var piece := if IsUpperAscii(s[0]) then [' ', s[0]] else [s[0]];
      RemoveSpacesAppend(piece, SpaceBeforeCapitals(s[1..]));
      RemoveSpacesAppend([s[0]], s[1..]);
      assert s == [s[0]] + s[1..];
      if IsUpperAscii(s[0]) {
        assert piece[1..] == [s[0]];
      }
    }
  }

  /** A string without spaces, such as a form key, is recovered exactly from its rewrite. */
  lemma SpaceBeforeCapitalsRoundTrip(s: string)
    requires ' ' !in s
    ensures RemoveSpaces(SpaceBeforeCapitals(s)) == s
  {
    SpaceBeforeCapitalsInverse(s);
    RemoveSpacesIdentity(s);
  }

  lemma {:induction false} RemoveSpacesAppend(a: string, b: string)
    ensures RemoveSpaces(a + b) == RemoveSpaces(a) + RemoveSpaces(b)
  {
    if a == [] {
      assert a + b == b;
    } else {
      var head := if a[0] == ' ' then [] else [a[0]];
      assert (a + b)[0] == a[0];
      assert (a + b)[1..] == a[1..] + b;
      RemoveSpacesAppend(a[1..], b);
      calc {
        RemoveSpaces(a + b);
        head + RemoveSpaces(a[1..] + b);
        head + (RemoveSpaces(a[1..]) + RemoveSpaces(b));
        (head + RemoveSpaces(a[1..])) + RemoveSpaces(b);
      }
    }
  }

  lemma {:induction false} RemoveSpacesIdentity(s: string)
    requires ' ' !in s
    ensures RemoveSpaces(s) == s
  {
    if s != [] {
      assert s[0] in s;
      var rest := s[1..];
      assert ' ' !in rest by {
        forall i | 0 <= i < |rest| ensures rest[i] != ' ' {
          assert rest[i] == s[i + 1];
        }
      }
      RemoveSpacesIdentity(s[1..]);
      assert s == [s[0]] + s[1..];
    }
  }

  predicate IsAsciiDigit(c: char) {
    '0' <= c <= '9'
  }

  predicate AllDigits(s: string) {
    forall i :: 0 <= i < |s| ==> IsAsciiDigit(s[i])
  }

  function DigitChar(d: nat): char
    requires d < 10
  {
    ('0' as int + d) as char
  }

  /** The decimal rendering JavaScript gives a whole number in a template string. */
  function NatToString(n: nat): (r: string)
    ensures r != [] && AllDigits(r)
    decreases n
  {
    if n < 10 then [DigitChar(n)] else NatToString(n / 10) + [DigitChar(n % 10)]
  }

  /** The value of a string of decimal digits. */
  function DigitsValue(s: string): nat
    requires AllDigits(s)
  {
    if s == [] then 0 else 10 * DigitsValue(s[..|s| - 1]) + (s[|s| - 1] as int - '0' as int)
  }

  /** Rendering then reading back gives the number again. */
  lemma {:induction false} NatToStringRoundTrip(n: nat)
    ensures DigitsValue(NatToString(n)) == n
    decreases n
  {
    var r := NatToString(n);
    if n >= 10 {
      NatToStringRoundTrip(n / 10);
      assert r[..|r| - 1] == NatToString(n / 10);
    } else {
      assert r[..|r| - 1] == [];
    }
  }
}
