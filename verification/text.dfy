/** The few string operations of the JavaScript runtime that the application's
    decisions rest on: `trim`, ASCII `toLowerCase`, `includes`, `startsWith`,
    and the decimal rendering of a non-negative integer in a template string. */
module Text {

  /** ECMAScript WhiteSpace and LineTerminator code points: what `String.prototype.trim` strips. */
  predicate IsSpace(c: char) {
    || c == '\t' || c == '\n' || c == '\U{B}' || c == '\U{C}' || c == '\r' || c == ' '
    || c == '\U{A0}' || c == '\U{1680}' || ('\U{2000}' <= c <= '\U{200A}')
    || c == '\U{2028}' || c == '\U{2029}' || c == '\U{202F}' || c == '\U{205F}'
    || c == '\U{3000}' || c == '\U{FEFF}'
  }

  /** Every character is white space (vacuously true of the empty string). */
  predicate IsBlank(s: string) {
    forall i :: 0 <= i < |s| ==> IsSpace(s[i])
  }

  /** `t` occurs as a contiguous piece of `s` (JavaScript's `s.includes(t)`). */
  predicate Contains(s: string, t: string) {
    exists i :: 0 <= i <= |s| && OccursAt(s, t, i)
  }

  /** `t` occurs in `s` starting at index `i`. */
  predicate OccursAt(s: string, t: string, i: int) {
    0 <= i <= |s| - |t| && s[i..i + |t|] == t
  }

  /** `t` occurs in `s` at index `i` and everything around it in `s` is white space. */
  predicate TrimmedAt(s: string, t: string, i: int) {
    OccursAt(s, t, i) && IsBlank(s[..i]) && IsBlank(s[i + |t|..])
  }

  /** JavaScript's `s.startsWith(p)`. */
  predicate StartsWith(s: string, p: string) {
    |p| <= |s| && s[..|p|] == p
  }

  /** Strips leading white space: the result is a suffix of `s`, all that was cut is
      white space, and it does not itself start with white space. */
  function TrimStart(s: string): (r: string)
    ensures |r| <= |s| && r == s[|s| - |r|..]
    ensures IsBlank(s[..|s| - |r|])
    ensures r == [] || !IsSpace(r[0])
  {
    if |s| == 0 || !IsSpace(s[0]) then s
    else
      var r := TrimStart(s[1..]);
      assert s[..|s| - |r|] == [s[0]] + s[1..][..|s| - 1 - |r|];
      r
  }

  /** Strips trailing white space: the result is a prefix of `s`, all that was cut is
      white space, and it does not itself end with white space. */
  function TrimEnd(s: string): (r: string)
    ensures |r| <= |s| && r == s[..|r|]
    ensures IsBlank(s[|r|..])
    ensures r == [] || !IsSpace(r[|r| - 1])
  {
    if |s| == 0 || !IsSpace(s[|s| - 1]) then s
    else
      var r := TrimEnd(s[..|s| - 1]);
      assert s[|r|..] == s[..|s| - 1][|r|..] + [s[|s| - 1]];
      r
  }

  /** JavaScript's `s.trim()`: a contiguous piece of `s` with no white space at either
      end, everything cut from either side being white space; empty exactly when `s`
      is blank. */
  function Trim(s: string): (r: string)
    ensures Contains(s, r)
    ensures exists i :: TrimmedAt(s, r, i)
    ensures r == [] <==> IsBlank(s)
    ensures r == [] || (!IsSpace(r[0]) && !IsSpace(r[|r| - 1]))
  {
    var a := TrimStart(s);
    var r := TrimEnd(a);
    TrimPieces(s, a, r);
    r
  }

  /** The facts `Trim` promises, from those of its two halves. */
  lemma {:induction false} TrimPieces(s: string, a: string, r: string)
    requires a == TrimStart(s) && r == TrimEnd(a)
    ensures TrimmedAt(s, r, |s| - |a|)
    ensures OccursAt(s, r, |s| - |a|)
    ensures r == [] <==> IsBlank(s)
  {
    InnerPiece(s, a, r, |s| - |a|);
  }

  /** `r` is a prefix of the suffix `a` of `s`, and what lies around it in `s` is blank. */
  lemma {:induction false} InnerPiece(s: string, a: string, r: string, i: int)
    requires 0 <= i <= |s| && a == s[i..] && |r| <= |a| && r == a[..|r|]
    requires IsBlank(s[..i]) && IsBlank(a[|r|..])
    requires r == [] || !IsSpace(r[0])
    ensures OccursAt(s, r, i)
    ensures IsBlank(s[i + |r|..])
    ensures r == [] <==> IsBlank(s)
  {
    assert s[i..i + |r|] == r;
    assert s[i + |r|..] == a[|r|..];
    if r == [] {
      assert a[|r|..] == a;
      BlankConcat(s[..i], a);
      assert s == s[..i] + a;
    } else {
      assert r[0] == s[i];
    }
  }

  lemma BlankConcat(x: string, y: string)
    requires IsBlank(x) && IsBlank(y)
    ensures IsBlank(x + y)
  {
    forall j | 0 <= j < |x + y| ensures IsSpace((x + y)[j]) {
      if j < |x| {
        assert (x + y)[j] == x[j];
      } else {
        assert (x + y)[j] == y[j - |x|];
      }
    }
  }

  /** The contract of `Trim` determines it: any piece of `s` with blank surroundings and
      no white space at either end is the trimmed string. */
  lemma {:induction false} TrimDetermined(s: string, r: string, i: int)
    requires TrimmedAt(s, r, i)
    requires r == [] || (!IsSpace(r[0]) && !IsSpace(r[|r| - 1]))
    ensures r == Trim(s)
  {
    if r == [] {
      EmptyPiece(s, i);
    } else {
      var t := Trim(s);
      var j :| TrimmedAt(s, t, j);
      SamePiece(s, r, i, t, j);
    }
  }

  /** An empty piece with blank surroundings leaves nothing but white space. */
  lemma EmptyPiece(s: string, i: int)
    requires TrimmedAt(s, [], i)
    ensures IsBlank(s)
  {
    assert s == s[..i] + s[i..];
    BlankConcat(s[..i], s[i..]);
  }

  /** Two non-empty pieces of `s` with blank surroundings and no white space at their
      ends are the same piece. */
  lemma SamePiece(s: string, r: string, i: int, t: string, j: int)
    requires TrimmedAt(s, r, i) && TrimmedAt(s, t, j)
    requires r != [] && !IsSpace(r[0]) && !IsSpace(r[|r| - 1])
    requires t == [] || (!IsSpace(t[0]) && !IsSpace(t[|t| - 1]))
    ensures r == t
  {
    EndsAt(s, r, i);
    NonSpaceInside(s, t, j, i);
    NonSpaceInside(s, t, j, i + |r| - 1);
    EndsAt(s, t, j);
    NonSpaceInside(s, r, i, j);
    NonSpaceInside(s, r, i, j + |t| - 1);
  }

  /** The ends of a piece placed at `i` are characters of `s`. */
  lemma EndsAt(s: string, t: string, i: int)
    requires OccursAt(s, t, i) && t != []
    ensures s[i] == t[0] && s[i + |t| - 1] == t[|t| - 1]
  {
    assert s[i..i + |t|][0] == s[i];
    assert s[i..i + |t|][|t| - 1] == s[i + |t| - 1];
  }

  /** A character that is not white space lies inside the piece that `TrimmedAt` places. */
  lemma NonSpaceInside(s: string, t: string, j: int, k: int)
    requires TrimmedAt(s, t, j) && 0 <= k < |s| && !IsSpace(s[k])
    ensures j <= k < j + |t|
  {
  }

  /** Trimming twice is trimming once. */
  lemma TrimIdempotent(s: string)
    ensures Trim(Trim(s)) == Trim(s)
  {
    var r := Trim(s);
    if r != [] {
      assert TrimStart(r) == r;
      assert TrimEnd(r) == r;
    }
  }

  /** ASCII lower-casing of one character; every other character is kept. */
  function LowerChar(c: char): (r: char)
    ensures 'A' <= c <= 'Z' ==> 'a' <= r <= 'z' && r as int - c as int == 32
    ensures !('A' <= c <= 'Z') ==> r == c
  {
    if 'A' <= c <= 'Z' then (c as int + 32) as char else c
  }

  /** `s.toLowerCase()` restricted to ASCII letters. */
  function Lower(s: string): (r: string)
    ensures |r| == |s|
    ensures forall i :: 0 <= i < |s| ==> r[i] == LowerChar(s[i])
  {
    seq(|s|, i requires 0 <= i < |s| => LowerChar(s[i]))
  }

  /** Lower-casing is idempotent, so a lower-cased query compares the same way again. */
  lemma LowerIdempotent(s: string)
    ensures Lower(Lower(s)) == Lower(s)
  {
  }

  predicate IsDigit(c: char) {
    '0' <= c <= '9'
  }

  /** The value of a string of decimal digits, most significant first. */
  function DigitsValue(s: string): nat
    requires forall i :: 0 <= i < |s| ==> IsDigit(s[i])
  {
    if |s| == 0 then 0
    else
      var d := s[|s| - 1] as int - '0' as int;
      assert IsDigit(s[|s| - 1]);
      10 * DigitsValue(s[..|s| - 1]) + d
  }

  /** The decimal rendering of `n` in a template string (`${n}`): no sign, no
      leading zero, at least one digit. */
  function NatToString(n: nat): (r: string)
    ensures 1 <= |r|
    ensures forall i :: 0 <= i < |r| ==> IsDigit(r[i])
    ensures |r| > 1 ==> r[0] != '0'
  {
    if n < 10 then ['0' + n as char]
    else NatToString(n / 10) + ['0' + (n % 10) as char]
  }

  /** Reading the rendered digits back gives the number: the rendering loses nothing. */
  lemma {:induction false} NatToStringRoundTrip(n: nat)
    ensures DigitsValue(NatToString(n)) == n
  {
    if n >= 10 {
      var r := NatToString(n);
      assert r[..|r| - 1] == NatToString(n / 10);
      NatToStringRoundTrip(n / 10);
    }
  }

  /** Different numbers render differently, so time-stamped names do not collide. */
  lemma NatToStringInjective(m: nat, n: nat)
    requires m != n
    ensures NatToString(m) != NatToString(n)
  {
    NatToStringRoundTrip(m);
    NatToStringRoundTrip(n);
  }

  /** No rendered number contains a dot or a slash. */
  lemma NatToStringHasNo(n: nat, c: char)
    requires !IsDigit(c)
    ensures c !in NatToString(n)
  {
  }
}
