/** Facts about sequences shared by the key tracker and the envelope validator. */
module Sequences {

  /** No element occurs twice. */
  predicate NoDuplicates<T(==)>(s: seq<T>)
  {
    forall i, j :: 0 <= i < j < |s| ==> s[i] != s[j]
  }

  /** `a` is `b` with some elements deleted, the rest kept in order. */
  predicate IsSubsequence<T(==)>(a: seq<T>, b: seq<T>)
    decreases |b|
  {
    if a == [] then true
    else if b == [] then false
    else if a[0] == b[0] then IsSubsequence(a[1..], b[1..])
    else IsSubsequence(a, b[1..])
  }

  /** `s` with every occurrence of `x` removed, as `Array.prototype.filter(k => k !== x)`. */
  function Without<T(==)>(s: seq<T>, x: T): (r: seq<T>)
    ensures |r| <= |s|
  {
    if s == [] then []
    else if s[0] == x then Without(s[1..], x)
    else [s[0]] + Without(s[1..], x)
  }

  /** Removing `x` keeps every other occurrence, in order, and drops every `x`. */
  lemma {:induction false} WithoutCharacterized<T>(s: seq<T>, x: T)
    ensures IsSubsequence(Without(s, x), s)
    ensures x !in Without(s, x)
    ensures forall y :: y != x ==> multiset(Without(s, x))[y] == multiset(s)[y]
  {
    if s != [] {
      WithoutCharacterized(s[1..], x);
      assert s == [s[0]] + s[1..];
      if s[0] != x {
        var r := Without(s, x);
        assert r[0] == s[0] && r[1..] == Without(s[1..], x);
      }
    }
  }

  /** Membership after removal: exactly the elements other than `x`. */
  lemma {:induction false} WithoutMembers<T>(s: seq<T>, x: T)
    ensures forall y :: y in Without(s, x) <==> y in s && y != x
  {
    if s != [] {
      WithoutMembers(s[1..], x);
      assert s == [s[0]] + s[1..];
    }
  }

  /** Removal keeps a duplicate-free sequence duplicate-free. */
  lemma {:induction false} WithoutNoDuplicates<T>(s: seq<T>, x: T)
    requires NoDuplicates(s)
    ensures NoDuplicates(Without(s, x))
  {
    if s != [] {
      assert NoDuplicates(s[1..]) by {
        forall i, j | 0 <= i < j < |s[1..]| ensures s[1..][i] != s[1..][j] {
          assert s[1..][i] == s[i + 1] && s[1..][j] == s[j + 1];
        }
      }
      WithoutNoDuplicates(s[1..], x);
      WithoutMembers(s[1..], x);
      if s[0] != x {
        var rest := Without(s[1..], x);
        assert s[0] !in s[1..] by {
          forall i | 0 <= i < |s[1..]| ensures s[1..][i] != s[0] {
            assert s[1..][i] == s[i + 1];
          }
        }
        assert s[0] !in rest;
        var r := [s[0]] + rest;
        forall i, j | 0 <= i < j < |r| ensures r[i] != r[j] {
          if i == 0 {
            assert r[j] == rest[j - 1];
          } else {
            assert r[i] == rest[i - 1] && r[j] == rest[j - 1];
          }
        }
      }
    }
  }

  /** Appending one element to the larger sequence keeps a subsequence, and may extend it. */
  lemma {:induction false} SubsequenceOfExtension<T>(a: seq<T>, b: seq<T>, x: T)
    requires IsSubsequence(a, b)
    ensures IsSubsequence(a, b + [x])
    ensures IsSubsequence(a + [x], b + [x])
    decreases |b|
  {
    if a == [] {
      assert a + [x] == [x];
      SingletonSubsequence(b, x);
    } else {
      assert (b + [x])[1..] == b[1..] + [x];
      assert (a + [x])[0] == a[0] && (a + [x])[1..] == a[1..] + [x];
      if a[0] == b[0] {
        SubsequenceOfExtension(a[1..], b[1..], x);
      } else {
        SubsequenceOfExtension(a, b[1..], x);
      }
    }
  }

  /** A sequence's last element alone is a subsequence of it. */
  lemma {:induction false} SingletonSubsequence<T>(b: seq<T>, x: T)
    ensures IsSubsequence([x], b + [x])
    decreases |b|
  {
    if b != [] && b[0] != x {
      assert (b + [x])[1..] == b[1..] + [x];
      SingletonSubsequence(b[1..], x);
    }
  }
}
