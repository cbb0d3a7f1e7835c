/** String helpers shared by the backend and front-end models: decimal rendering, substring search,
  * first-occurrence replacement, character removal, suffixes, case mapping and splitting. */
module Text {

  /** The decimal digit for 0..9. */
  function Digit(d: nat): (c: char)
    requires d < 10
    ensures '0' <= c <= '9'
  {
    "0123456789"[d]
  }

  /** The decimal rendering of a natural number, without leading zeros. */
  function NatToString(n: nat): (s: string)
    ensures |s| >= 1
    ensures forall i :: 0 <= i < |s| ==> '0' <= s[i] <= '9'
    ensures n >= 10 ==> s[0] != '0'
  {
    if n < 10 then [Digit(n)] else NatToString(n / 10) + [Digit(n % 10)]
  }

  /** The decimal rendering of an integer, with a leading '-' when it is negative
    * (Python's `str(int)` and JavaScript's `String(number)` for integers agree on it). */
  function IntToString(n: int): (s: string)
    ensures |s| >= 1
    ensures (s[0] == '-') <==> n < 0
    ensures n < 0 ==> |s| >= 2
    ensures forall i :: 1 <= i < |s| ==> '0' <= s[i] <= '9'
    ensures forall i :: 0 <= i < |s| ==> s[i] == '-' || '0' <= s[i] <= '9'
  {
    if n < 0 then "-" + NatToString(-n) else NatToString(n)
  }

  /** The value of a string of decimal digits. */
  function DigitsValue(s: string): (v: nat)
    requires forall i :: 0 <= i < |s| ==> '0' <= s[i] <= '9'
  {
    if s == [] then 0 else DigitsValue(s[..|s| - 1]) * 10 + (s[|s| - 1] as int - '0' as int)
  }

  lemma {:induction false} NatToStringValue(n: nat)
    ensures DigitsValue(NatToString(n)) == n
  {
    if n >= 10 {
      var p := NatToString(n / 10);
      var s := p + [Digit(n % 10)];
      assert s[..|s| - 1] == p;
      NatToStringValue(n / 10);
      DigitValue(n % 10);
      assert DigitsValue(s) == (n / 10) * 10 + n % 10;
    } else {
      DigitValue(n);
      assert [Digit(n)][..0] == [];
    }
  }

  /** A digit character stands for its own value. */
  lemma DigitValue(d: nat)
    requires d < 10
    ensures Digit(d) as int - '0' as int == d
  {
  }

  lemma NatToStringInjective(x: nat, y: nat)
    requires NatToString(x) == NatToString(y)
    ensures x == y
  {
    NatToStringValue(x);
    NatToStringValue(y);
  }

  /** Different integers render differently, so the rendering can be read back. */
  lemma IntToStringInjective(a: int, b: int)
    requires IntToString(a) == IntToString(b)
    ensures a == b
  {
    if a < 0 && b < 0 {
      var x: nat, y: nat := -a, -b;
      var s := IntToString(a);
      assert s == "-" + NatToString(x) == "-" + NatToString(y);
      assert s[1..] == NatToString(x) && s[1..] == NatToString(y);
      NatToStringInjective(x, y);
    } else if a >= 0 && b >= 0 {
      NatToStringInjective(a, b);
    }
  }

  /** `needle` occurs in `hay` at position `i`. */
  predicate OccursAt(needle: string, hay: string, i: nat) {
    i + |needle| <= |hay| && hay[i..i + |needle|] == needle
  }

  /** `needle` is a substring of `hay` (Python `in`, JavaScript `includes`). */
  predicate Contains(hay: string, needle: string) {
    exists i: nat :: i <= |hay| && OccursAt(needle, hay, i)
  }

  /** The position of the first occurrence of `needle` in `hay` at or after `from`, if any. */
  function IndexOfFrom(hay: string, needle: string, from: nat): (r: int)
    requires from <= |hay|
    ensures -1 <= r
    ensures r >= 0 ==> from <= r && OccursAt(needle, hay, r)
    ensures forall j: nat :: from <= j && (r < 0 || j < r) ==> !OccursAt(needle, hay, j)
    decreases |hay| - from
  {
    if OccursAt(needle, hay, from) then from
    else if from + |needle| >= |hay| then
      assert forall j: nat :: from < j ==> !OccursAt(needle, hay, j);
      -1
    else IndexOfFrom(hay, needle, from + 1)
  }

  /** JavaScript's `indexOf`: the first occurrence of `needle`, or -1. */
  function IndexOf(hay: string, needle: string): (r: int)
    ensures r >= 0 ==> OccursAt(needle, hay, r)
    ensures r < 0 <==> !Contains(hay, needle)
    ensures forall j: nat :: j < r ==> !OccursAt(needle, hay, j)
  {
    IndexOfFrom(hay, needle, 0)
  }

  /** The first occurrence, recognised: an occurrence with none before it is the one `IndexOf` finds. */
  lemma IndexOfIs(hay: string, needle: string, i: nat)
    requires OccursAt(needle, hay, i)
    requires forall j: nat :: j < i ==> !OccursAt(needle, hay, j)
    ensures IndexOf(hay, needle) == i
  {
    assert i <= |hay|;
    assert Contains(hay, needle);
  }

  /** JavaScript's `s.replace(pattern, replacement)` with a string pattern: only the first occurrence
    * is replaced, and the string is unchanged when the pattern does not occur. */
  function ReplaceFirst(s: string, pattern: string, replacement: string): (r: string)
    ensures !Contains(s, pattern) ==> r == s
    ensures Contains(s, pattern) ==>
      exists i: nat :: OccursAt(pattern, s, i) && r == s[..i] + replacement + s[i + |pattern|..]
  {
    var i := IndexOf(s, pattern);
    if i < 0 then s else s[..i] + replacement + s[i + |pattern|..]
  }

  /** Where the pattern occurs, its first occurrence is the one replaced. */
  lemma ReplaceAtIndex(s: string, pattern: string, replacement: string)
    requires IndexOf(s, pattern) >= 0
    ensures var i := IndexOf(s, pattern);
      i + |pattern| <= |s| && ReplaceFirst(s, pattern, replacement) == s[..i] + replacement + s[i + |pattern|..]
  {
  }

  /** The string with every occurrence of `c` removed (`replace(/\./g, '')` for `c == '.'`). */
  function RemoveChar(s: string, c: char): (r: string)
    ensures c !in r
    ensures |r| <= |s|
    ensures forall x :: x != c ==> multiset(r)[x] == multiset(s)[x]
  {
    if s == [] then []
    else if s[|s| - 1] == c then
      assert s == s[..|s| - 1] + [c];
      RemoveChar(s[..|s| - 1], c)
    else
      assert s == s[..|s| - 1] + [s[|s| - 1]];
      RemoveChar(s[..|s| - 1], c) + [s[|s| - 1]]
  }

  /** The last `n` elements, or all of them when there are fewer (`slice(-n)` / `[-n:]` for n > 0). */
  function LastN<T>(s: seq<T>, n: nat): (r: seq<T>)
    ensures |r| == if |s| < n then |s| else n
    ensures r == s[|s| - |r|..]
  {
    if |s| <= n then s else s[|s| - n..]
  }

  /** The first `n` elements, or all of them when there are fewer. */
  function FirstN<T>(s: seq<T>, n: nat): (r: seq<T>)
    ensures |r| == if |s| < n then |s| else n
    ensures r == s[..|r|]
  {
    if |s| <= n then s else s[..n]
  }

  /** The capital letters of Basic Latin and Latin-1 (U+00C0 to U+00DE, less the multiplication
    * sign U+00D7), whose lower-case forms lie 32 code points further on. */
  predicate IsCapital(c: char) {
    'A' <= c <= 'Z' || ('\U{00C0}' <= c <= '\U{00DE}' && c != '\U{00D7}')
  }

  /** `toLowerCase()` on one character of Basic Latin or Latin-1. */
  function LowerChar(c: char): (r: char)
    ensures IsCapital(c) ==> r as int == c as int + 32 && !IsCapital(r)
    ensures !IsCapital(c) ==> r == c
  {
    if IsCapital(c) then (c as int + 32) as char else c
  }

  /** `toLowerCase()` on the letters of Basic Latin and Latin-1. */
  function Lower(s: string): (r: string)
    ensures |r| == |s|
    ensures forall i :: 0 <= i < |s| ==> r[i] == LowerChar(s[i])
  {
    seq(|s|, i requires 0 <= i < |s| => LowerChar(s[i]))
  }

  /** Lower-casing twice is lower-casing once. */
  lemma LowerIdempotent(s: string)
    ensures Lower(Lower(s)) == Lower(s)
  {
    assert forall i :: 0 <= i < |s| ==> LowerChar(LowerChar(s[i])) == LowerChar(s[i]);
  }

  /** The small letters whose capitals are given by `IsCapital`: 'a' to 'z' and U+00E0 to U+00FE,
    * less the division sign U+00F7. */
  predicate IsSmall(c: char) {
    'a' <= c <= 'z' || ('\U{00E0}' <= c <= '\U{00FE}' && c != '\U{00F7}')
  }

  /** `toUpperCase()` on one character, for the letters whose capitals are in Latin-1. */
  function UpperChar(c: char): (r: char)
    ensures IsSmall(c) ==> r as int == c as int - 32 && IsCapital(r)
    ensures !IsSmall(c) ==> r == c
  {
    if IsSmall(c) then (c as int - 32) as char else c
  }

  /** `toUpperCase()` on the letters whose capitals are in Latin-1. */
  function Upper(s: string): (r: string)
    ensures |r| == |s|
    ensures forall i :: 0 <= i < |s| ==> r[i] == UpperChar(s[i])
  {
    seq(|s|, i requires 0 <= i < |s| => UpperChar(s[i]))
  }

  /** Upper-casing loses nothing lower-casing keeps: both spellings compare equal ignoring case. */
  lemma LowerOfUpper(s: string)
    ensures Lower(Upper(s)) == Lower(s)
  {
    assert forall i :: 0 <= i < |s| ==> LowerChar(UpperChar(s[i])) == LowerChar(s[i]);
  }

  /** Two strings joined by a separator that the first parts do not contain split back into the
    * same parts. */
  lemma SplitAtFirst(x1: string, y1: string, x2: string, y2: string, c: char)
    requires c !in x1 && c !in x2
    requires x1 + [c] + y1 == x2 + [c] + y2
    ensures x1 == x2 && y1 == y2
  {
    var s := x1 + [c] + y1;
    FirstOfJoined(x1, y1, c);
    FirstOfJoined(x2, y2, c);
    assert x1 == s[..|x1|] == x2;
    assert y1 == s[|x1| + 1..] == y2;
  }

  lemma FirstOfJoined(x: string, y: string, c: char)
    requires c !in x
    ensures FirstIndexOfChar(x + [c] + y, c) == |x|
  {
    var s := x + [c] + y;
    assert s[|x|] == c;
    assert forall k :: 0 <= k < |x| ==> s[k] == x[k];
  }

  /** Python's ordering of two strings: lexicographic by code point, a proper prefix first. */
  predicate LexLess(a: string, b: string)
    decreases |a|
  {
    if a == [] then b != []
    else if b == [] then false
    else if a[0] != b[0] then a[0] < b[0]
    else LexLess(a[1..], b[1..])
  }

  /** `LexLess` is a strict total order: no string is below itself, the order is transitive, and
    * of two different strings one is below the other. */
  lemma {:induction false} LexLessIrreflexive(a: string)
    ensures !LexLess(a, a)
    decreases |a|
  {
    if a != [] {
      LexLessIrreflexive(a[1..]);
    }
  }

  lemma {:induction false} LexLessTransitive(a: string, b: string, c: string)
    requires LexLess(a, b) && LexLess(b, c)
    ensures LexLess(a, c)
    decreases |a|
  {
    if a != [] && a[0] == b[0] && b[0] == c[0] {
      LexLessTransitive(a[1..], b[1..], c[1..]);
    }
  }

  lemma {:induction false} LexLessTotal(a: string, b: string)
    requires a != b
    ensures LexLess(a, b) || LexLess(b, a)
    decreases |a|
  {
    if a != [] && b != [] && a[0] == b[0] {
      assert a == [a[0]] + a[1..] && b == [b[0]] + b[1..];
      LexLessTotal(a[1..], b[1..]);
    }
  }

  /** The position of the first `c` in `s`, or |s| when there is none. */
  function FirstIndexOfChar(s: string, c: char): (i: nat)
    ensures i <= |s|
    ensures i < |s| ==> s[i] == c
    ensures c !in s[..i]
  {
    if s == [] then 0
    else if s[0] == c then 0
    else
      var j := FirstIndexOfChar(s[1..], c);
      assert s[..j + 1] == [s[0]] + s[1..][..j];
      j + 1
  }

  /** JavaScript's `s.split(sep)` for a one-character separator: the pieces between separators,
    * empty pieces included. */
  function Split(s: string, sep: char): (r: seq<string>)
    ensures |r| >= 1
    ensures forall k :: 0 <= k < |r| ==> sep !in r[k]
    decreases |s|
  {
    var i := FirstIndexOfChar(s, sep);
    if i == |s| then
      assert s[..i] == s;
      [s]
    else [s[..i]] + Split(s[i + 1..], sep)
  }

  /** The pieces joined back with the separator (`join(sep)`). */
  function Join(parts: seq<string>, sep: char): (s: string)
    requires |parts| >= 1
  {
    if |parts| == 1 then parts[0] else parts[0] + [sep] + Join(parts[1..], sep)
  }

  /** Splitting loses nothing: joining the pieces gives the string back. */
  lemma {:induction false} JoinSplit(s: string, sep: char)
    ensures Join(Split(s, sep), sep) == s
    decreases |s|
  {
    var i := FirstIndexOfChar(s, sep);
    if i == |s| {
      assert s[..i] == s;
    } else {
      JoinSplit(s[i + 1..], sep);
      JoinCons(s[..i], Split(s[i + 1..], sep), sep);
      assert s == s[..i] + [sep] + s[i + 1..];
    }
  }

  lemma JoinCons(first: string, rest: seq<string>, sep: char)
    requires |rest| >= 1
    ensures Join([first] + rest, sep) == first + [sep] + Join(rest, sep)
  {
    assert ([first] + rest)[1..] == rest;
  }

  /** The non-empty strings of `parts`, in order (`filter(Boolean)`). */
  function NonEmpty(parts: seq<string>): (r: seq<string>)
    ensures |r| <= |parts|
    ensures forall k :: 0 <= k < |r| ==> r[k] != [] && r[k] in parts
  {
    if parts == [] then []
    else if parts[0] == [] then NonEmpty(parts[1..])
    else [parts[0]] + NonEmpty(parts[1..])
  }
}
