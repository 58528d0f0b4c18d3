/** Subsequences of lists, and lists thinned by index. */
module Lists {

  /** Whether the list is got from the other by leaving items out. */
  predicate Subsequence<T(==)>(a: seq<T>, b: seq<T>)
    decreases |b|
  {
    if a == [] then true
    else if b == [] then false
    else if a[0] == b[0] then Subsequence(a[1..], b[1..])
    else Subsequence(a, b[1..])
  }

  lemma {:induction false} SkipHead<T>(a: seq<T>, b: seq<T>)
    requires b != [] && Subsequence(a, b[1..])
    ensures Subsequence(a, b) && (a != [] ==> Subsequence(a[1..], b[1..]))
    decreases |b|
  {
    if a != [] {
      if a[0] == b[1..][0] {
        if |b| > 2 || a[1..] == [] {
          SkipHead(a[1..], b[1..]);
        }
      } else {
        SkipHead(a, b[1..]);
        assert Subsequence(a[1..], b[1..][1..]);
        SkipHead(a[1..], b[1..]);
      }
    }
  }

  lemma {:induction false} SkipHeads<T>(a: seq<T>, b: seq<T>, n: nat)
    requires n <= |b| && Subsequence(a, b[n..])
    ensures Subsequence(a, b)
    decreases n
  {
    if n == 0 {
      assert b[0..] == b;
    } else {
      assert b[n - 1..][1..] == b[n..];
      SkipHead(a, b[n - 1..]);
      SkipHeads(a, b, n - 1);
    }
  }

  lemma {:induction false} SubsequenceTransitive<T>(a: seq<T>, b: seq<T>, c: seq<T>)
    requires Subsequence(a, b) && Subsequence(b, c)
    ensures Subsequence(a, c)
    decreases |c|
  {
    if a != [] {
      if b[0] != c[0] {
        SubsequenceTransitive(a, b, c[1..]);
        SkipHead(a, c);
      } else if a[0] == b[0] {
        SubsequenceTransitive(a[1..], b[1..], c[1..]);
      } else {
        SubsequenceTransitive(a, b[1..], c[1..]);
      }
    }
  }

  lemma {:induction false} SubsequenceSelf<T>(a: seq<T>)
    ensures Subsequence(a, a)
  {
    if a != [] {
      SubsequenceSelf(a[1..]);
    }
  }

  lemma {:induction false} SubsequenceConcat<T>(a: seq<T>, b: seq<T>, c: seq<T>, d: seq<T>)
    requires Subsequence(a, b) && Subsequence(c, d)
    ensures Subsequence(a + c, b + d)
    decreases |b|
  {
    if b == [] {
      assert a + c == c && b + d == d;
    } else if a == [] {
      assert a + c == c && (b + d)[|b|..] == d;
      SkipHeads(c, b + d, |b|);
    } else {
      assert (b + d)[1..] == b[1..] + d && (a + c)[1..] == a[1..] + c;
      if a[0] == b[0] {
        SubsequenceConcat(a[1..], b[1..], c, d);
      } else {
        SubsequenceConcat(a, b[1..], c, d);
      }
    }
  }

  lemma {:induction false} SubsequenceMember<T>(a: seq<T>, b: seq<T>, x: T)
    requires Subsequence(a, b) && x in a
    ensures x in b
    decreases |b|
  {
    if a[0] == b[0] {
      if x != a[0] {
        SubsequenceMember(a[1..], b[1..], x);
      }
    } else {
      SubsequenceMember(a, b[1..], x);
    }
  }

  /** The items at the given indices, in order. */
  function KeepAt<T>(s: seq<T>, at: set<nat>): (r: seq<T>)
    ensures |r| <= |s|
  {
    if s == [] then []
    else KeepAt(s[..|s| - 1], at) + if |s| - 1 in at then [s[|s| - 1]] else []
  }

  lemma {:induction false} KeepAtIsSubsequence<T>(s: seq<T>, at: set<nat>)
    ensures Subsequence(KeepAt(s, at), s)
  {
    if s != [] {
      var front, last := s[..|s| - 1], [s[|s| - 1]];
      KeepAtIsSubsequence(front, at);
      SubsequenceSelf(last);
      SubsequenceConcat(KeepAt(front, at), front, if |s| - 1 in at then last else [], last);
      assert front + last == s;
    }
  }

  lemma {:induction false} KeepAtAll<T>(s: seq<T>, at: set<nat>)
    requires forall i :: 0 <= i < |s| ==> i in at
    ensures KeepAt(s, at) == s
  {
    if s != [] {
      KeepAtAll(s[..|s| - 1], at);
      assert s == s[..|s| - 1] + [s[|s| - 1]];
    }
  }

  /** Only the membership of indices into the list matters. */
  lemma {:induction false} KeepAtAgree<T>(s: seq<T>, at: set<nat>, at': set<nat>)
    requires forall i :: 0 <= i < |s| ==> (i in at <==> i in at')
    ensures KeepAt(s, at) == KeepAt(s, at')
  {
    if s != [] {
      KeepAtAgree(s[..|s| - 1], at, at');
    }
  }

  lemma KeepAtStep<T>(s: seq<T>, i: nat, at: set<nat>)
    requires i < |s|
    ensures KeepAt(s[..i + 1], at) == KeepAt(s[..i], at) + if i in at then [s[i]] else []
  {
    assert s[..i + 1][..i] == s[..i];
  }

  ghost predicate NoDuplicates<T>(s: seq<T>) {
    forall i, j :: 0 <= i < j < |s| ==> s[i] != s[j]
  }

  lemma CountedOnce<T>(s: seq<T>, k: nat)
    requires NoDuplicates(s) && k < |s|
    ensures multiset(s)[s[k]] == 1
  {
    assert s == s[..k] + [s[k]] + s[k + 1..];
    assert s[k] !in s[..k] && s[k] !in s[k + 1..];
  }

  lemma CountedTwice<T>(s: seq<T>, i: nat, j: nat)
    requires i < j < |s| && s[i] == s[j]
    ensures multiset(s)[s[i]] >= 2
  {
    assert s == s[..j] + s[j..];
    assert s[i] == s[..j][i] && s[j] == s[j..][0];
    assert s[i] in multiset(s[..j]) && s[i] in multiset(s[j..]);
  }

  /** A permutation has the same members and repeats none. */
  lemma PermutationKeeps<T(!new)>(s: seq<T>, r: seq<T>)
    requires multiset(r) == multiset(s) && NoDuplicates(s)
    ensures NoDuplicates(r) && |r| == |s| && forall x :: x in r <==> x in s
  {
    forall x ensures x in r <==> x in s {
      assert x in r <==> x in multiset(r);
      assert x in s <==> x in multiset(s);
    }
    assert |r| == |multiset(r)| && |s| == |multiset(s)|;
    forall i, j | 0 <= i < j < |r| ensures r[i] != r[j] {
      assert r[i] in r;
      var k :| 0 <= k < |s| && s[k] == r[i];
      CountedOnce(s, k);
      if r[i] == r[j] {
        CountedTwice(r, i, j);
      }
    }
  }

  lemma SubsetIsNoLarger<T>(s: set<T>, t: set<T>)
    requires s <= t
    ensures |s| <= |t|
  {
    assert t == s + (t - s);
  }
}
