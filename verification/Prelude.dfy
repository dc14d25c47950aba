/** Option and Result values, the code-point order of strings, and a sorting
    function with the fact that a strict order leaves only one sorted arrangement. */
module Prelude {

  datatype Option<+T> = None | Some(value: T)

  datatype Result<+T, +E> = Ok(value: T) | Err(error: E)

  function Min(a: int, b: int): int { if a < b then a else b }

  function Max(a: int, b: int): int { if a < b then b else a }

  /** Instants are counted in microseconds. */
  const SECOND := 1_000_000

  /** The whole seconds of an instant, cut off towards zero. */
  function Seconds(at: int): int { if at >= 0 then at / SECOND else -(-at / SECOND) }

  /** The elements of s outside gone, in their original order. */
  function Without(s: seq<string>, gone: set<string>): (r: seq<string>)
    ensures forall x :: x in r <==> x in s && x !in gone
  {
    if s == [] then []
    else (if s[0] in gone then [] else [s[0]]) + Without(s[1..], gone)
  }

  lemma {:induction false} WithoutTwice(s: seq<string>, a: set<string>, b: set<string>)
    ensures Without(Without(s, a), b) == Without(s, a + b)
  {
    if s != [] {
      WithoutTwice(s[1..], a, b);
      var rest := Without(s[1..], a);
      assert [] + rest == rest && ([s[0]] + rest)[1..] == rest;
    }
  }

  lemma {:induction false} WithoutNothing(s: seq<string>)
    ensures Without(s, {}) == s
  {
    if s != [] {
      WithoutNothing(s[1..]);
    }
  }

  ghost predicate Distinct<T>(s: seq<T>) {
    forall i, j :: 0 <= i < j < |s| ==> s[i] != s[j]
  }

  /** Removing k of the distinct elements of s leaves |s| - k. */
  lemma {:induction false} WithoutLength(s: seq<string>, gone: seq<string>)
    requires Distinct(s) && Distinct(gone)
    requires forall x :: x in gone ==> x in s
    ensures |Without(s, set x | x in gone)| + |gone| == |s|
  {
    if gone == [] {
      assert (set x | x in gone) == {};
      WithoutNothing(s);
    } else {
      var init, last := gone[..|gone| - 1], gone[|gone| - 1];
      assert gone == init + [last];
      WithoutLength(s, init);
      var left := Without(s, set x | x in init);
      assert forall i :: 0 <= i < |init| ==> init[i] == gone[i] && init[i] != last;
      assert (set x | x in gone) == (set x | x in init) + {last};
      WithoutTwice(s, set x | x in init, {last});
      WithoutDistinct(s, set x | x in init);
      WithoutOne(left, last);
    }
  }

  lemma {:induction false} WithoutDistinct(s: seq<string>, gone: set<string>)
    requires Distinct(s)
    ensures Distinct(Without(s, gone))
  {
    if s != [] {
      assert Distinct(s[1..]);
      WithoutDistinct(s[1..], gone);
      var rest := Without(s[1..], gone);
      assert s[0] !in s[1..];
      assert forall i :: 0 <= i < |rest| ==> rest[i] in rest;
    }
  }

  lemma {:induction false} WithoutOne(s: seq<string>, x: string)
    requires Distinct(s) && x in s
    ensures |Without(s, {x})| == |s| - 1
  {
    assert Distinct(s[1..]);
    if s[0] == x {
      assert x !in s[1..];
      WithoutAbsent(s[1..], {x});
    } else {
      WithoutOne(s[1..], x);
    }
  }

  lemma {:induction false} WithoutAbsent(s: seq<string>, gone: set<string>)
    requires forall x :: x in gone ==> x !in s
    ensures Without(s, gone) == s
  {
    if s != [] {
      assert s[0] in s;
      assert forall x :: x in gone ==> x !in s[1..];
      WithoutAbsent(s[1..], gone);
    }
  }

  // ---------------------------------------------------------------- strings

  /** Code-point order, the order in which Python compares and sorts text. */
  predicate StrLt(a: string, b: string) {
    if b == [] then false
    else if a == [] then true
    else if a[0] != b[0] then a[0] < b[0]
    else StrLt(a[1..], b[1..])
  }

  lemma {:induction false} StrLtTransitive(a: string, b: string, c: string)
    requires StrLt(a, b) && StrLt(b, c)
    ensures StrLt(a, c)
  {
    if a != [] && a[0] == b[0] && b[0] == c[0] {
      StrLtTransitive(a[1..], b[1..], c[1..]);
    }
  }

  lemma {:induction false} StrLtAsymmetric(a: string, b: string)
    requires StrLt(a, b)
    ensures !StrLt(b, a) && a != b
  {
    if a != [] && a[0] == b[0] {
      StrLtAsymmetric(a[1..], b[1..]);
    }
  }

  lemma {:induction false} StrLtTotal(a: string, b: string)
    requires a != b
    ensures StrLt(a, b) || StrLt(b, a)
  {
    if a != [] && b != [] && a[0] == b[0] {
      assert a == [a[0]] + a[1..] && b == [b[0]] + b[1..];
      StrLtTotal(a[1..], b[1..]);
    }
  }

  function UpperChar(c: char): char {
    if 'a' <= c <= 'z' then c - 32 as char else c
  }

  /** ASCII upper-casing of a text. */
  function Upper(s: string): string {
    seq(|s|, i requires 0 <= i < |s| => UpperChar(s[i]))
  }

  lemma {:induction false} UpperOfCapitals(s: string)
    requires forall i :: 0 <= i < |s| ==> !('a' <= s[i] <= 'z')
    ensures Upper(s) == s
  {
  }

  /** White space, as text stripping removes it: every character Unicode counts as such. */
  predicate Blank(c: char) {
    || c == ' ' || '\U{9}' <= c <= '\U{D}' || '\U{1C}' <= c <= '\U{1F}' || c == '\U{85}' || c == '\U{A0}'
    || c == '\U{1680}' || '\U{2000}' <= c <= '\U{200A}' || c == '\U{2028}' || c == '\U{2029}'
    || c == '\U{202F}' || c == '\U{205F}' || c == '\U{3000}'
  }

  predicate NotBlank(s: string) { exists i :: 0 <= i < |s| && !Blank(s[i]) }

  function Strip(s: string): string {
    if s == [] then [] else if Blank(s[0]) then Strip(s[1..]) else if Blank(s[|s| - 1]) then Strip(s[..|s| - 1]) else s
  }

  lemma {:induction false} StripTwice(s: string)
    ensures Strip(Strip(s)) == Strip(s)
  {
    if s != [] {
      if Blank(s[0]) {
        StripTwice(s[1..]);
      } else if Blank(s[|s| - 1]) {
        StripTwice(s[..|s| - 1]);
      }
    }
  }

  /** Stripping takes blanks off both ends, all of them and nothing else. */
  lemma {:induction false} StripTakesBlanks(s: string) returns (front: nat, back: nat)
    ensures front <= back <= |s| && Strip(s) == s[front..back]
    ensures forall i :: 0 <= i < front || back <= i < |s| ==> Blank(s[i])
    ensures front < back ==> !Blank(s[front]) && !Blank(s[back - 1])
    decreases |s|
  {
    hide Blank;
    front, back := 0, |s|;
    if s != [] && Blank(s[0]) {
      var f, b := StripTakesBlanks(s[1..]);
      front, back := f + 1, b + 1;
      assert s[1..][f..b] == s[front..back];
      forall i | 0 <= i < front || back <= i < |s| ensures Blank(s[i]) { if i > 0 { assert s[i] == s[1..][i - 1]; } }
    } else if s != [] && Blank(s[|s| - 1]) {
      front, back := StripTakesBlanks(s[..|s| - 1]);
      assert s[..|s| - 1][front..back] == s[front..back];
    }
  }

  lemma {:induction false} StripBlankBefore(s: string)
    ensures Strip(" " + s) == Strip(s) && " " + s != s
  {
    assert (" " + s)[1..] == s;
    assert |" " + s| == |s| + 1;
  }

  // ---------------------------------------------------------------- sorting

  ghost predicate Transitive<T(!new)>(lt: (T, T) -> bool) {
    forall x, y, z :: lt(x, y) && lt(y, z) ==> lt(x, z)
  }

  ghost predicate Asymmetric<T(!new)>(lt: (T, T) -> bool) {
    forall x, y :: lt(x, y) ==> !lt(y, x)
  }

  ghost predicate Comparable<T>(lt: (T, T) -> bool, s: seq<T>) {
    forall i, j :: 0 <= i < j < |s| ==> lt(s[i], s[j]) || lt(s[j], s[i])
  }

  ghost predicate Ascending<T>(lt: (T, T) -> bool, s: seq<T>) {
    forall i, j :: 0 <= i < j < |s| ==> lt(s[i], s[j])
  }

  function Insert<T(!new)>(lt: (T, T) -> bool, x: T, s: seq<T>): (r: seq<T>)
    ensures |r| == |s| + 1
    ensures forall y :: y in r <==> y == x || y in s
  {
    if s == [] || lt(x, s[0]) then [x] + s
    else [s[0]] + Insert(lt, x, s[1..])
  }

  function Sort<T(!new)>(lt: (T, T) -> bool, s: seq<T>): (r: seq<T>)
    ensures |r| == |s|
    ensures forall y :: y in r <==> y in s
  {
    if s == [] then [] else Insert(lt, s[0], Sort(lt, s[1..]))
  }

  lemma {:induction false} InsertAscends<T(!new)>(lt: (T, T) -> bool, x: T, s: seq<T>)
    requires Transitive(lt) && Ascending(lt, s)
    requires forall y :: y in s ==> lt(x, y) || lt(y, x)
    ensures Ascending(lt, Insert(lt, x, s))
  {
    if s == [] || lt(x, s[0]) {
      var r := [x] + s;
      forall i, j | 0 <= i < j < |r| ensures lt(r[i], r[j]) {
        if i == 0 && j > 1 {
          assert lt(x, s[0]) && lt(s[0], s[j - 1]);
        }
      }
    } else {
      InsertAscends(lt, x, s[1..]);
      var rest := Insert(lt, x, s[1..]);
      var r := [s[0]] + rest;
      forall i, j | 0 <= i < j < |r| ensures lt(r[i], r[j]) {
        if i == 0 {
          assert rest[j - 1] in rest;
          assert s[0] in s;
        }
      }
    }
  }

  lemma {:induction false} SortAscends<T(!new)>(lt: (T, T) -> bool, s: seq<T>)
    requires Transitive(lt) && Comparable(lt, s)
    ensures Ascending(lt, Sort(lt, s))
  {
    if s != [] {
      SortAscends(lt, s[1..]);
      forall y | y in s[1..] ensures lt(s[0], y) || lt(y, s[0]) {
        var j :| 1 <= j < |s| && s[j] == y;
      }
      InsertAscends(lt, s[0], Sort(lt, s[1..]));
    }
  }

  /** Two ascending arrangements of the same elements are the same sequence. */
  lemma {:induction false} AscendingUnique<T(!new)>(lt: (T, T) -> bool, a: seq<T>, b: seq<T>)
    requires Asymmetric(lt) && Ascending(lt, a) && Ascending(lt, b)
    requires forall x :: x in a <==> x in b
    ensures a == b
  {
    SameMembersEmpty(a, b);
    if a != [] {
      assert a[0] in b;
      var j :| 0 <= j < |b| && b[j] == a[0];
      assert b[0] in a;
      var i :| 0 <= i < |a| && a[i] == b[0];
      assert i == 0 || j == 0;
      assert a[0] == b[0];
      forall x ensures x in a[1..] <==> x in b[1..] {
        TailMember(lt, a, x);
        TailMember(lt, b, x);
      }
      AscendingUnique(lt, a[1..], b[1..]);
      assert a == [a[0]] + a[1..] && b == [b[0]] + b[1..];
    }
  }

  lemma SameMembersEmpty<T>(a: seq<T>, b: seq<T>)
    requires forall x :: x in a <==> x in b
    ensures a == [] <==> b == []
  {
    if |a| > 0 { assert a[0] in b; }
    if |b| > 0 { assert b[0] in a; }
  }

  lemma TailMember<T(!new)>(lt: (T, T) -> bool, a: seq<T>, x: T)
    requires Asymmetric(lt) && Ascending(lt, a) && a != []
    ensures x in a[1..] <==> x in a && x != a[0]
  {
    if x in a[1..] {
      var k :| 1 <= k < |a| && a[k] == x;
      assert lt(a[0], a[k]);
    }
  }

  /** Sorting is independent of the order in which the elements arrive. */
  lemma {:induction false} SortIgnoresOrder<T(!new)>(lt: (T, T) -> bool, s: seq<T>, t: seq<T>)
    requires Transitive(lt) && Asymmetric(lt) && Comparable(lt, s) && Comparable(lt, t)
    requires forall x :: x in s <==> x in t
    ensures Sort(lt, s) == Sort(lt, t)
  {
    SortAscends(lt, s);
    SortAscends(lt, t);
    AscendingUnique(lt, Sort(lt, s), Sort(lt, t));
  }
}
