/** Small value types and Python built-ins shared by the three core modules. */
module Common {

  datatype Option<T> = None | Some(value: T)

  function Abs(x: real): (r: real)
    ensures 0.0 <= r && (r == x || r == -x)
  {
    if x < 0.0 then -x else x
  }

  /** Python's `int(x)` on a float: truncation toward zero. */
  function Trunc(x: real): (r: int)
    ensures 0.0 <= x ==> r as real <= x < r as real + 1.0
    ensures x < 0.0 ==> r as real - 1.0 < x <= r as real
    ensures 0.0 <= x ==> 0 <= r
    ensures x <= 0.0 ==> r <= 0
  {
    if 0.0 <= x then x.Floor else -((-x).Floor)
  }

  lemma TruncOfInt(n: int)
    ensures Trunc(n as real) == n
  {
  }

  /** Python's `sub in s` for strings. */
  predicate IsSubstring(sub: string, s: string)
    decreases |s|
  {
    |sub| <= |s| && (sub == s[..|sub|] || IsSubstring(sub, s[1..]))
  }

  /** `sub` occurs in `s` starting at index `i`. */
  predicate OccursAt(sub: string, s: string, i: int)
  {
    0 <= i <= |s| - |sub| && s[i..i + |sub|] == sub
  }

  /** `IsSubstring` holds exactly when `sub` occurs at some position of `s`. */
  lemma {:induction false} IsSubstringIffOccurs(sub: string, s: string)
    ensures IsSubstring(sub, s) <==> exists i :: OccursAt(sub, s, i)
    decreases |s|
  {
    if |sub| <= |s| && sub != s[..|sub|] {
      IsSubstringIffOccurs(sub, s[1..]);
      if IsSubstring(sub, s[1..]) {
        var i :| OccursAt(sub, s[1..], i);
        assert s[1..][i..i + |sub|] == s[i + 1..i + 1 + |sub|];
        assert OccursAt(sub, s, i + 1);
      }
      if exists i :: OccursAt(sub, s, i) {
        var i :| OccursAt(sub, s, i);
        assert i != 0;
        assert s[1..][i - 1..i - 1 + |sub|] == s[i..i + |sub|];
        assert OccursAt(sub, s[1..], i - 1);
      }
    } else if |sub| <= |s| {
      assert OccursAt(sub, s, 0);
    }
  }

  /** Concatenation regroups freely; stated over any element type so that no element is looked into. */
  lemma ConcatAssoc<T>(a: seq<T>, b: seq<T>, c: seq<T>)
    ensures (a + b) + c == a + (b + c)
  {
  }

  /** An element put in front: its length, head and tail. */
  lemma ConsParts<T>(x: T, s: seq<T>)
    ensures |[x] + s| == |s| + 1 && ([x] + s)[0] == x && ([x] + s)[1..] == s
  {
  }

  /** An element put at the end: its length, prefix and last element. */
  lemma SnocParts<T>(s: seq<T>, x: T)
    ensures |s + [x]| == |s| + 1 && (s + [x])[..|s|] == s && (s + [x])[|s|] == x
  {
  }

  /** A sequence that starts with `a + b` splits after `a`. */
  lemma PrefixSplit<T>(s: seq<T>, a: seq<T>, b: seq<T>)
    requires |a| + |b| <= |s| && s[..|a| + |b|] == a + b
    ensures s[..|a|] == a && s[|a|..] == b + s[|a| + |b|..]
  {
    assert s[..|a|] == s[..|a| + |b|][..|a|];
    assert s[|a|..] == s[|a|..|a| + |b|] + s[|a| + |b|..];
    assert s[|a|..|a| + |b|] == s[..|a| + |b|][|a|..];
  }

  /** Dropping the first part of a concatenation leaves the second. */
  lemma DropConcat<T>(a: seq<T>, b: seq<T>)
    ensures (a + b)[|a|..] == b && (a + b)[..|a|] == a
  {
  }

  /** `a` is obtained from `b` by deleting elements: an order-preserving subsequence. */
  ghost predicate IsSubsequence<T>(a: seq<T>, b: seq<T>)
    decreases |b|
  {
    if a == [] then true
    else if b == [] then false
    else (a[0] == b[0] && IsSubsequence(a[1..], b[1..])) || IsSubsequence(a, b[1..])
  }

  lemma {:induction false} SubsequenceOfSelf<T>(a: seq<T>)
    ensures IsSubsequence(a, a)
    decreases |a|
  {
    if a != [] {
      SubsequenceOfSelf(a[1..]);
    }
  }

  lemma {:induction false} SubsequenceMembers<T>(a: seq<T>, b: seq<T>)
    requires IsSubsequence(a, b)
    ensures forall x :: x in a ==> x in b
    decreases |b|
  {
    if a != [] && b != [] {
      if a[0] == b[0] && IsSubsequence(a[1..], b[1..]) {
        SubsequenceMembers(a[1..], b[1..]);
        forall x | x in a ensures x in b {
          if x != a[0] { assert x in a[1..]; }
        }
      } else {
        SubsequenceMembers(a, b[1..]);
      }
    }
  }

  lemma {:induction false} SubsequenceOfPrefix<T>(a: seq<T>, b: seq<T>, n: nat)
    requires IsSubsequence(a, b) && n <= |a|
    ensures IsSubsequence(a[..n], b)
    decreases |b|
  {
    if n > 0 && b != [] {
      if a[0] == b[0] && IsSubsequence(a[1..], b[1..]) {
        SubsequenceOfPrefix(a[1..], b[1..], n - 1);
        assert a[..n][1..] == a[1..][..n - 1];
      } else {
        SubsequenceOfPrefix(a, b[1..], n);
      }
    }
  }

  lemma {:induction false} SubsequenceTransitive<T>(a: seq<T>, b: seq<T>, c: seq<T>)
    requires IsSubsequence(a, b) && IsSubsequence(b, c)
    ensures IsSubsequence(a, c)
    decreases |c|
  {
    if a != [] {
      assert b != [] && c != [];
      if b[0] == c[0] && IsSubsequence(b[1..], c[1..]) {
        if a[0] == b[0] && IsSubsequence(a[1..], b[1..]) {
          SubsequenceTransitive(a[1..], b[1..], c[1..]);
        } else {
          SubsequenceTransitive(a, b[1..], c[1..]);
        }
      } else {
        SubsequenceTransitive(a, b, c[1..]);
      }
    }
  }
}
