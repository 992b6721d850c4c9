/** The Python `str` operations the assistant relies on, over `seq<char>`. */
module Text {

  /** Python's `str.isspace()` for one character: the characters `strip()` removes. */
  predicate IsSpace(c: char)
  {
    || c == ' '
    || '\t' <= c <= '\r'
    || '\U{1C}' <= c <= '\U{1F}'
    || c == '\U{85}' || c == '\U{A0}' || c == '\U{1680}'
    || '\U{2000}' <= c <= '\U{200A}'
    || c == '\U{2028}' || c == '\U{2029}' || c == '\U{202F}'
    || c == '\U{205F}' || c == '\U{3000}'
  }

  /** The first index at or after `i` that does not hold whitespace, or `|s|`. */
  function SkipSpaces(s: string, i: nat): (k: nat)
    requires i <= |s|
    ensures i <= k <= |s|
    ensures k < |s| ==> !IsSpace(s[k])
    ensures i < |s| && !IsSpace(s[i]) ==> k == i
    ensures forall t :: i <= t < k ==> IsSpace(s[t])
    decreases |s| - i
  {
    if i < |s| && IsSpace(s[i]) then SkipSpaces(s, i + 1) else i
  }

  /** The end of `s[lo..j]` once its trailing whitespace is dropped. */
  function SkipSpacesBack(s: string, lo: nat, j: nat): (k: nat)
    requires lo <= j <= |s|
    ensures lo <= k <= j
    ensures k > lo ==> !IsSpace(s[k - 1])
    ensures j > lo && !IsSpace(s[j - 1]) ==> k == j
    ensures forall t :: k <= t < j ==> IsSpace(s[t])
    decreases j
  {
    if j > lo && IsSpace(s[j - 1]) then SkipSpacesBack(s, lo, j - 1) else j
  }

  /** `s.strip()`: drops the surrounding whitespace and nothing else. */
  function Strip(s: string): (r: string)
    ensures |r| <= |s|
    ensures r == [] || (!IsSpace(r[0]) && !IsSpace(r[|r| - 1]))
    ensures s == [] || (!IsSpace(s[0]) && !IsSpace(s[|s| - 1])) ==> r == s
  {
    var a := SkipSpaces(s, 0);
    var b := SkipSpacesBack(s, a, |s|);
    s[a..b]
  }

  /** `strip()` keeps a slice of the text and drops only whitespace on each side. */
  lemma StripTrims(s: string)
    ensures exists a, b :: 0 <= a <= b <= |s| && Strip(s) == s[a..b] &&
                           (forall i :: 0 <= i < a ==> IsSpace(s[i])) &&
                           (forall i :: b <= i < |s| ==> IsSpace(s[i]))
  {
    var a := SkipSpaces(s, 0);
    var b := SkipSpacesBack(s, a, |s|);
    assert Strip(s) == s[a..b];
  }

  /** `sub` occurs in `s` at index `i`. */
  predicate IsAt(s: string, sub: string, i: int)
  {
    0 <= i && i + |sub| <= |s| && s[i..i + |sub|] == sub
  }

  /** `s.find(sub, start)`: the lowest index at or after `start` where `sub`
      occurs, or -1. */
  function FindFrom(s: string, sub: string, start: nat): (r: int)
    ensures r == -1 || (start <= r && IsAt(s, sub, r))
    ensures forall j {:trigger IsAt(s, sub, j)} :: start <= j && (r == -1 || j < r) ==> !IsAt(s, sub, j)
    decreases |s| - start
  {
    if start + |sub| > |s| then -1
    else if s[start..start + |sub|] == sub then start
    else FindFrom(s, sub, start + 1)
  }

  lemma NotAtWithoutFirstChar(s: string, sub: string, j: nat)
    requires sub != [] && (j >= |s| || s[j] != sub[0])
    ensures !IsAt(s, sub, j)
  {
    if j + |sub| <= |s| {
      assert s[j..j + |sub|][0] == s[j];
    }
  }

  /** `s.find(sub, start)` is `i` when `sub` sits at `i` and the text between
      `start` and `i` never holds the first character of `sub`. */
  lemma FindFromFirstChar(s: string, sub: string, start: nat, i: int)
    requires sub != [] && start <= i && IsAt(s, sub, i)
    requires forall j :: start <= j < i ==> s[j] != sub[0]
    ensures FindFrom(s, sub, start) == i
  {
    forall j | start <= j < i ensures !IsAt(s, sub, j) {
      NotAtWithoutFirstChar(s, sub, j);
    }
  }

  /** `s.find(sub, start)` is `i` when `sub` sits at `i` and nowhere between
      `start` and `i`. */
  lemma FindFromAt(s: string, sub: string, start: nat, i: int)
    requires start <= i && IsAt(s, sub, i)
    requires forall j :: start <= j < i ==> !IsAt(s, sub, j)
    ensures FindFrom(s, sub, start) == i
  {
  }

  /** Searching inside `y` of `x + y + z` finds what searching `y` alone finds. */
  lemma FindFromShift(x: string, y: string, z: string, sub: string, k: nat)
    requires FindFrom(y, sub, k) != -1
    ensures FindFrom(x + y + z, sub, |x| + k) == |x| + FindFrom(y, sub, k)
  {
    var s := x + y + z;
    var r := FindFrom(y, sub, k);
    assert IsAt(s, sub, |x| + r) by {
      assert s[|x| + r..|x| + r + |sub|] == y[r..r + |sub|];
    }
    forall j | |x| + k <= j < |x| + r ensures !IsAt(s, sub, j) {
      assert !IsAt(y, sub, j - |x|);
      assert s[j..j + |sub|] == y[j - |x|..j - |x| + |sub|];
    }
    FindFromAt(s, sub, |x| + k, |x| + r);
  }

  /** A text in which `find` fails holds `sub` nowhere. */
  lemma NotAtWhenAbsent(s: string, sub: string, k: int)
    requires FindFrom(s, sub, 0) == -1
    ensures !IsAt(s, sub, k)
  {
    if k >= 0 {
      assert !IsAt(s, sub, k);
    }
  }

  /** `sub` sits in `x + y` past `x` only where it sits in `y`. */
  lemma NotAtInSuffix(x: string, y: string, sub: string, i: int)
    requires |x| <= i && !IsAt(y, sub, i - |x|)
    ensures !IsAt(x + y, sub, i)
  {
    if i + |sub| <= |x| + |y| {
      assert (x + y)[i..i + |sub|] == y[i - |x|..i - |x| + |sub|];
    }
  }

  /** `sub` sits in `t + u` within `t` only where it sits in `t`. */
  lemma NotAtInPrefix(t: string, u: string, sub: string, i: int)
    requires 0 <= i && i + |sub| <= |t| && !IsAt(t, sub, i)
    ensures !IsAt(t + u, sub, i)
  {
    assert (t + u)[i..i + |sub|] == t[i..i + |sub|];
  }

  /** A text missing one of the characters of `sub` does not contain `sub`. */
  lemma AbsentWithoutChar(s: string, sub: string, k: nat)
    requires k < |sub| && sub[k] !in s
    ensures FindFrom(s, sub, 0) == -1
  {
    forall j: nat ensures !IsAt(s, sub, j) {
      if j + |sub| <= |s| {
        assert s[j..j + |sub|][k] == s[j + k];
      }
    }
  }

  /** Splitting a text whose first piece holds no character of `sep[0]`. */
  lemma SplitAfterPart(a: string, sep: string, b: string)
    requires sep != [] && sep[0] !in a
    ensures Split(a + sep + b, sep) == [a] + Split(b, sep)
  {
    var s := a + sep + b;
    assert s[|a|..|a| + |sep|] == sep;
    forall j | 0 <= j < |a| ensures s[j] != sep[0] {
      assert s[j] == a[j];
    }
    FindFromFirstChar(s, sep, 0, |a|);
    assert s[..|a|] == a && s[|a| + |sep|..] == b;
  }

  /** Splitting `sep a sep b sep` where neither piece holds `sep[0]`. */
  lemma SeparatedPair(a: string, b: string, sep: string)
    requires sep != [] && sep[0] !in a && sep[0] !in b
    ensures var parts := Split(sep + a + sep + b + sep, sep);
      |parts| == 4 && parts[0] == [] && parts[1] == a && parts[2] == b && parts[3] == []
  {
    var empty: string := [];
    var tail3 := b + sep;
    var tail2 := a + sep + tail3;
    var tail1 := sep + tail2;
    assert Split(tail3, sep) == [b, empty] by {
      SplitEmpty(sep);
      assert tail3 == b + sep + empty;
      SplitAfterPart(b, sep, empty);
    }
    assert Split(tail2, sep) == [a, b, empty] by {
      SplitAfterPart(a, sep, tail3);
    }
    var parts := Split(tail1, sep);
    assert |parts| == 4 && parts[0] == [] && parts[1] == a && parts[2] == b && parts[3] == [] by {
      SplitLeadingSep(sep, tail2);
    }
    Regroup(sep, a, b);
  }

  lemma SplitLeadingSep(sep: string, rest: string)
    requires sep != []
    ensures Split(sep + rest, sep) == [[]] + Split(rest, sep)
  {
    var s := sep + rest;
    assert s[..|sep|] == sep;
    FindFromFirstChar(s, sep, 0, 0);
    assert s[..0] == [] && s[|sep|..] == rest;
  }

  lemma Regroup(sep: string, a: string, b: string)
    ensures sep + (a + sep + (b + sep)) == sep + a + sep + b + sep
  {
  }

  lemma SplitEmpty(sep: string)
    requires sep != []
    ensures Split([], sep) == [[]]
  {
  }

  /** `sub in s` */
  predicate Contains(s: string, sub: string)
  {
    FindFrom(s, sub, 0) != -1
  }

  /** `s.rfind(c)` for a one-character needle: the highest index holding `c`, or -1. */
  function RFindChar(s: string, c: char): (r: int)
    ensures -1 <= r < |s|
    ensures r >= 0 ==> s[r] == c
    ensures forall j :: r < j < |s| ==> s[j] != c
  {
    if s == [] then -1
    else if s[|s| - 1] == c then |s| - 1
    else RFindChar(s[..|s| - 1], c)
  }

  /** `s.split(sep)` for a non-empty separator. */
  function Split(s: string, sep: string): (parts: seq<string>)
    requires sep != []
    ensures |parts| >= 1
    decreases |s|
  {
    var i := FindFrom(s, sep, 0);
    if i == -1 then [s] else [s[..i]] + Split(s[i + |sep|..], sep)
  }

  /** The first piece ends where the separator first occurs, and there is one
      piece exactly when the separator does not occur. */
  lemma SplitFirst(s: string, sep: string)
    requires sep != []
    ensures |Split(s, sep)| == 1 <==> FindFrom(s, sep, 0) == -1
    ensures FindFrom(s, sep, 0) == -1 ==> Split(s, sep) == [s]
    ensures FindFrom(s, sep, 0) != -1 ==> Split(s, sep)[0] == s[..FindFrom(s, sep, 0)]
  {
  }

  /** `sep.join(parts)` */
  function Join(parts: seq<string>, sep: string): string
  {
    if parts == [] then []
    else if |parts| == 1 then parts[0]
    else parts[0] + sep + Join(parts[1..], sep)
  }

  lemma JoinCons(p: string, tail: seq<string>, sep: string)
    requires |tail| >= 1
    ensures Join([p] + tail, sep) == p + sep + Join(tail, sep)
  {
    var parts := [p] + tail;
    assert |parts| >= 2 && parts[0] == p && parts[1..] == tail;
  }

  lemma SliceAround(s: string, i: nat, j: nat)
    requires i <= j <= |s|
    ensures s == s[..i] + s[i..j] + s[j..]
  {
  }

  /** Splitting and joining back on the same separator gives the text back. */
  lemma {:induction false} JoinSplit(s: string, sep: string)
    requires sep != []
    ensures Join(Split(s, sep), sep) == s
    decreases |s|
  {
    var i := FindFrom(s, sep, 0);
    if i != -1 {
      var rest := s[i + |sep|..];
      JoinSplit(rest, sep);
      var tail := Split(rest, sep);
      assert Split(s, sep) == [s[..i]] + tail;
      JoinCons(s[..i], tail, sep);
      SliceAround(s, i, i + |sep|);
    }
  }


  lemma PrefixSlice(s: string, i: nat, j: nat, n: nat)
    requires j + n <= i <= |s|
    ensures s[..i][j..j + n] == s[j..j + n]
  {
  }

  /** The text before the first occurrence of `sub` does not contain it. */
  lemma BeforeFirstFree(s: string, sub: string, i: int)
    requires sub != [] && i == FindFrom(s, sub, 0) && i != -1
    ensures !Contains(s[..i], sub)
  {
    var p := s[..i];
    forall j: nat ensures !IsAt(p, sub, j) {
      if j + |sub| <= |p| {
        PrefixSlice(s, i, j, |sub|);
        assert !IsAt(s, sub, j);
      }
    }
  }

  /** No piece of a split still holds the separator. */
  lemma {:induction false} SplitPartsFree(s: string, sep: string, k: nat)
    requires sep != []
    requires k < |Split(s, sep)|
    ensures !Contains(Split(s, sep)[k], sep)
    decreases |s|
  {
    var i := FindFrom(s, sep, 0);
    if i == -1 {
    } else if k == 0 {
      BeforeFirstFree(s, sep, i);
    } else {
      SplitPartsFree(s[i + |sep|..], sep, k - 1);
    }
  }

  /** Python's `str.lower()` on one character, for the ASCII letters. */
  function LowerChar(c: char): char
  {
    if 'A' <= c <= 'Z' then (c as int - 'A' as int + 'a' as int) as char else c
  }

  /** `s.lower()` */
  function Lower(s: string): (r: string)
    ensures |r| == |s|
    ensures forall i :: 0 <= i < |s| ==> r[i] == LowerChar(s[i])
  {
    seq(|s|, i requires 0 <= i < |s| => LowerChar(s[i]))
  }

  /** `s.replace(c, '')` for a one-character pattern. */
  function RemoveChar(s: string, c: char): (r: string)
    ensures c !in r
    ensures c !in s ==> r == s
    ensures |r| <= |s|
  {
    if s == [] then []
    else if s[0] == c then RemoveChar(s[1..], c)
    else [s[0]] + RemoveChar(s[1..], c)
  }

  /** On one character, `replace(c, '')` drops it exactly when it is `c`; with
      `RemoveCharAppend` this fixes the result on every text. */
  lemma RemoveCharOne(x: char, c: char)
    ensures RemoveChar([x], c) == if x == c then [] else [x]
  {
    assert [x][1..] == [];
  }

  /** Every character other than `c` survives `replace(c, '')`, and no other
      character appears. */
  lemma {:induction false} RemoveCharKeeps(s: string, c: char, x: char)
    requires x != c
    ensures x in RemoveChar(s, c) <==> x in s
  {
    if s != [] {
      RemoveCharKeeps(s[1..], c, x);
      assert s == [s[0]] + s[1..];
    }
  }

  lemma {:induction false} RemoveCharAppend(x: string, y: string, c: char)
    ensures RemoveChar(x + y, c) == RemoveChar(x, c) + RemoveChar(y, c)
  {
    if x != [] {
      assert (x + y)[1..] == x[1..] + y;
      RemoveCharAppend(x[1..], y, c);
    } else {
      assert x + y == y;
    }
  }
}
