/** The string operations the source relies on: ECMAScript `trim`, an ASCII `toUpperCase`,
    `startsWith`/`endsWith`, `slice`, `join` and (for stating results) `split`. */
module Text {

  /** The characters ECMAScript's `String.prototype.trim` removes: WhiteSpace (TAB, VT, FF,
      ZWNBSP and every Unicode space separator) and LineTerminator (LF, CR, LS, PS). */
  predicate IsSpace(c: char) {
    || c == ' ' || c == '\t' || c == '\n' || c == '\r'
    || c == '\U{000B}' || c == '\U{000C}' || c == '\U{00A0}' || c == '\U{1680}'
    || ('\U{2000}' <= c <= '\U{200A}')
    || c == '\U{2028}' || c == '\U{2029}' || c == '\U{202F}' || c == '\U{205F}'
    || c == '\U{3000}' || c == '\U{FEFF}'
  }

  predicate IsLower(c: char) {
    'a' <= c <= 'z'
  }

  predicate IsUpperLetter(c: char) {
    'A' <= c <= 'Z'
  }

  /** Upper-cases one character; only the ASCII letters a-z are mapped. */
  function UpperChar(c: char): (u: char)
    ensures !IsLower(u)
    ensures IsLower(c) ==> IsUpperLetter(u) && u as int == c as int - 32
    ensures !IsLower(c) ==> u == c
    ensures IsSpace(u) <==> IsSpace(c)
  {
    if IsLower(c) then (c as int - 32) as char else c
  }

  function ToUpper(s: string): (r: string)
    ensures |r| == |s|
    ensures forall i :: 0 <= i < |s| ==> r[i] == UpperChar(s[i])
  {
    seq(|s|, i requires 0 <= i < |s| => UpperChar(s[i]))
  }

  predicate NoLower(s: string) {
    forall i :: 0 <= i < |s| ==> !IsLower(s[i])
  }

  /** `s` starts and ends with a non-space character (or is empty). */
  predicate IsTrimmed(s: string) {
    s == [] || (!IsSpace(s[0]) && !IsSpace(s[|s| - 1]))
  }

  /** The first index at or after `i` whose character is not a space, or `|s|`. */
  function SkipSpace(s: string, i: nat): (r: nat)
    requires i <= |s|
    ensures i <= r <= |s|
    ensures r < |s| ==> !IsSpace(s[r])
    decreases |s| - i
  {
    if i < |s| && IsSpace(s[i]) then SkipSpace(s, i + 1) else i
  }

  /** The end of `s[lo..j]` once its trailing space is dropped. */
  function BackSpace(s: string, lo: nat, j: nat): (r: nat)
    requires lo <= j <= |s|
    ensures lo <= r <= j
    ensures r > lo ==> !IsSpace(s[r - 1])
  {
    if j > lo && IsSpace(s[j - 1]) then BackSpace(s, lo, j - 1) else j
  }

  /** `x` occurs in `s` at position `i`. */
  predicate InfixAt(x: string, s: string, i: int) {
    0 <= i <= |s| - |x| && s[i..i + |x|] == x
  }

  /** `x` occurs in `s` at some position. */
  ghost predicate IsInfix(x: string, s: string) {
    exists i :: InfixAt(x, s, i)
  }

  /** ECMAScript `trim`: what is left of `s` between its leading and its trailing run of
      space; it has no space at either end. */
  function Trim(s: string): (r: string)
    ensures IsTrimmed(r)
    ensures IsInfix(r, s)
  {
    var a := SkipSpace(s, 0);
    var b := BackSpace(s, a, |s|);
    assert InfixAt(s[a..b], s, a);
    s[a..b]
  }

  predicate StartsWith(s: string, p: string) {
    |p| <= |s| && s[..|p|] == p
  }

  predicate EndsWith(s: string, p: string) {
    |p| <= |s| && s[|s| - |p|..] == p
  }

  function Min(a: int, b: int): int {
    if a <= b then a else b
  }

  /** `Array.prototype.join`: the lines with `sep` between consecutive ones. */
  function Join(lines: seq<string>, sep: string): string {
    if lines == [] then ""
    else if |lines| == 1 then lines[0]
    else lines[0] + sep + Join(lines[1..], sep)
  }

  /** `String.prototype.split` on one separator character. */
  function Split(s: string, sep: char): (r: seq<string>)
    ensures |r| >= 1
  {
    if s == [] then [""]
    else if s[0] == sep then [""] + Split(s[1..], sep)
    else
      var rest := Split(s[1..], sep);
      [[s[0]] + rest[0]] + rest[1..]
  }

  // ---------------------------------------------------------------------------------------
  // Lemmas

  lemma UpperIdempotent(s: string)
    ensures NoLower(ToUpper(s))
    ensures NoLower(s) ==> ToUpper(s) == s
  {
  }

  /** Trimming text that has no space at its ends changes nothing; in particular `Trim` is idempotent. */
  lemma TrimOfTrimmed(s: string)
    requires IsTrimmed(s)
    ensures Trim(s) == s
  {
    if s != [] {
      assert SkipSpace(s, 0) == 0;
      assert BackSpace(s, 0, |s|) == |s|;
      assert s[0..|s|] == s;
    }
  }

  lemma TrimIdempotent(s: string)
    ensures Trim(Trim(s)) == Trim(s)
  {
    TrimOfTrimmed(Trim(s));
  }

  lemma {:induction false} SkipLeading(s: string, i: nat, n: nat)
    requires i <= n < |s|
    requires forall k :: i <= k < n ==> IsSpace(s[k])
    requires !IsSpace(s[n])
    ensures SkipSpace(s, i) == n
    decreases n - i
  {
    if i < n {
      SkipLeading(s, i + 1, n);
    }
  }

  lemma {:induction false} BackTrailing(s: string, lo: nat, m: nat, j: nat)
    requires lo < m <= j <= |s|
    requires forall k :: m <= k < j ==> IsSpace(s[k])
    requires !IsSpace(s[m - 1])
    ensures BackSpace(s, lo, j) == m
    decreases j
  {
    if m < j {
      BackTrailing(s, lo, m, j - 1);
    }
  }

  /** Surrounding space is exactly what `Trim` removes. */
  lemma TrimAround(a: string, x: string, b: string)
    requires forall i :: 0 <= i < |a| ==> IsSpace(a[i])
    requires forall i :: 0 <= i < |b| ==> IsSpace(b[i])
    requires IsTrimmed(x)
    requires x != []
    ensures Trim(a + x + b) == x
  {
    var s := a + x + b;
    var m := |a| + |x|;
    forall k | 0 <= k < |a| ensures IsSpace(s[k]) {
      assert s[k] == a[k];
    }
    assert s[|a|] == x[0];
    SkipLeading(s, 0, |a|);
    forall k | m <= k < |s| ensures IsSpace(s[k]) {
      assert s[k] == b[k - m];
    }
    assert s[m - 1] == x[|x| - 1];
    BackTrailing(s, |a|, m, |s|);
    assert s[|a|..m] == x;
  }

  lemma InfixTransitive(x: string, y: string, z: string)
    requires IsInfix(x, y) && IsInfix(y, z)
    ensures IsInfix(x, z)
  {
    var i :| InfixAt(x, y, i);
    var j :| InfixAt(y, z, j);
    assert y == z[j..j + |y|];
    var zs, ys := z[j + i..j + i + |x|], y[i..i + |x|];
    forall k | 0 <= k < |x| ensures zs[k] == ys[k] {
      assert y[i + k] == z[j + i + k];
    }
    assert zs == ys;
    assert InfixAt(x, z, j + i);
  }

  lemma InfixOfConcat(x: string, a: string, m: string, b: string)
    requires IsInfix(x, m)
    ensures IsInfix(x, a + m + b)
  {
    var i :| InfixAt(x, m, i);
    assert (a + m + b)[|a| + i..|a| + i + |x|] == m[i..i + |x|];
    assert InfixAt(x, a + m + b, |a| + i);
  }

  lemma InfixExtendRight(x: string, s: string, b: string)
    requires IsInfix(x, s)
    ensures IsInfix(x, s + b)
  {
    var i :| InfixAt(x, s, i);
    assert (s + b)[i..i + |x|] == s[i..i + |x|];
    assert InfixAt(x, s + b, i);
  }

  lemma InfixOfSelf(x: string)
    ensures IsInfix(x, x)
  {
    assert InfixAt(x, x, 0);
  }

  /** Every joined line occurs in the joined text. */
  lemma {:induction false} JoinContainsLines(lines: seq<string>, sep: string, k: int)
    requires 0 <= k < |lines|
    ensures IsInfix(lines[k], Join(lines, sep))
  {
    if |lines| == 1 {
      InfixOfSelf(lines[0]);
    } else if k == 0 {
      InfixOfSelf(lines[0]);
      InfixOfConcat(lines[0], "", lines[0], sep + Join(lines[1..], sep));
      assert "" + lines[0] + (sep + Join(lines[1..], sep)) == Join(lines, sep);
    } else {
      JoinContainsLines(lines[1..], sep, k - 1);
      InfixOfConcat(lines[k], lines[0] + sep, Join(lines[1..], sep), "");
      assert lines[0] + sep + Join(lines[1..], sep) + "" == Join(lines, sep);
    }
  }

  lemma {:induction false} SplitWithout(x: string, sep: char)
    requires sep !in x
    ensures Split(x, sep) == [x]
  {
    if x != [] {
      SplitWithout(x[1..], sep);
      assert [x[0]] + x[1..] == x;
    }
  }

  lemma {:induction false} SplitAfter(x: string, sep: char, t: string)
    requires sep !in x
    ensures Split(x + [sep] + t, sep) == [x] + Split(t, sep)
  {
    if x == [] {
      assert x + [sep] + t == [sep] + t;
      assert ([sep] + t)[1..] == t;
    } else {
      var s := x + [sep] + t;
      assert s[0] == x[0];
      assert s[1..] == x[1..] + [sep] + t;
      SplitAfter(x[1..], sep, t);
      assert [x[0]] + x[1..] == x;
    }
  }

  /** Splitting joined lines on the separator gives the lines back, when no line contains it. */
  lemma {:induction false} SplitJoin(lines: seq<string>, sep: char)
    requires lines != []
    requires forall k :: 0 <= k < |lines| ==> sep !in lines[k]
    ensures Split(Join(lines, [sep]), sep) == lines
  {
    if |lines| == 1 {
      SplitWithout(lines[0], sep);
    } else {
      SplitJoin(lines[1..], sep);
      SplitAfter(lines[0], sep, Join(lines[1..], [sep]));
      assert [lines[0]] + lines[1..] == lines;
    }
  }
}
