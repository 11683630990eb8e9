/** Filters and subsequences, shared by the logs and queues. */
module Sequences {

  function Only<T>(s: seq<T>, p: T -> bool): seq<T> {
    if s == [] then []
    else
      var last := s[|s| - 1];
      var before := Only(s[..|s| - 1], p);
      if p(last) then before + [last] else before
  }

  /** `a` is what is left of `b` after removing some elements. */
  ghost predicate Sub<T>(a: seq<T>, b: seq<T>)
    decreases |b|
  {
    if a == [] then true
    else if b == [] then false
    else
      || (a[|a| - 1] == b[|b| - 1] && Sub(a[..|a| - 1], b[..|b| - 1]))
      || Sub(a, b[..|b| - 1])
  }

  function Removed<T>(s: seq<T>, i: nat): seq<T>
    requires i < |s|
  {
    s[..i] + s[i + 1..]
  }

  ghost predicate Distinct<T>(s: seq<T>) {
    forall i, j :: 0 <= i < j < |s| ==> s[i] != s[j]
  }

  lemma {:induction false} OnlyConcat<T>(a: seq<T>, b: seq<T>, p: T -> bool)
    ensures Only(a + b, p) == Only(a, p) + Only(b, p)
    decreases |b|
  {
    if b == [] {
      assert a + b == a;
    } else {
      OnlyConcat(a, b[..|b| - 1], p);
      assert (a + b)[..|a + b| - 1] == a + b[..|b| - 1];
    }
  }

  lemma {:induction false} OnlyKeepsMembers<T>(s: seq<T>, p: T -> bool, x: T)
    requires x in s && p(x)
    ensures x in Only(s, p)
    decreases |s|
  {
    if s[|s| - 1] != x {
      OnlyKeepsMembers(s[..|s| - 1], p, x);
    }
  }

  lemma {:induction false} OnlyOfOnly<T>(s: seq<T>, p: T -> bool, q: T -> bool, both: T -> bool)
    requires forall x :: x in s ==> both(x) == (p(x) && q(x))
    ensures Only(Only(s, p), q) == Only(s, both)
    decreases |s|
  {
    if s != [] {
      var last, before := s[|s| - 1], s[..|s| - 1];
      OnlyOfOnly(before, p, q, both);
      if p(last) {
        assert (Only(before, p) + [last])[..|Only(before, p)|] == Only(before, p);
      }
    }
  }

  lemma {:induction false} OnlyAgrees<T>(s: seq<T>, p: T -> bool, q: T -> bool)
    requires forall x :: x in s ==> p(x) == q(x)
    ensures Only(s, p) == Only(s, q)
    decreases |s|
  {
    if s != [] {
      OnlyAgrees(s[..|s| - 1], p, q);
    }
  }

  lemma {:induction false} OnlyAll<T>(s: seq<T>, p: T -> bool)
    requires forall x :: x in s ==> p(x)
    ensures Only(s, p) == s
    decreases |s|
  {
    if s != [] {
      OnlyAll(s[..|s| - 1], p);
    }
  }

  lemma {:induction false} OnlyMembers<T>(s: seq<T>, p: T -> bool)
    ensures |Only(s, p)| <= |s| && forall x :: x in Only(s, p) ==> x in s && p(x)
    decreases |s|
  {
    if s != [] {
      OnlyMembers(s[..|s| - 1], p);
    }
  }

  lemma OnlyAppended<T>(s: seq<T>, x: T, p: T -> bool)
    ensures Only(s + [x], p) == Only(s, p) + (if p(x) then [x] else [])
  {
    assert (s + [x])[..|s|] == s;
  }

  lemma OnlyOfParts<T>(s: seq<T>, a: seq<T>, x: T, b: seq<T>, p: T -> bool)
    requires s == a + [x] + b
    ensures Only(s, p) == Only(a, p) + (if p(x) then [x] else []) + Only(b, p)
    ensures Only(a + b, p) == Only(a, p) + Only(b, p)
  {
    OnlyAppended(a, x, p);
    OnlyConcat(a + [x], b, p);
    OnlyConcat(a, b, p);
  }

  lemma SplitAt<T>(s: seq<T>, i: nat)
    requires i < |s|
    ensures s == s[..i] + [s[i]] + s[i + 1..]
  {
    var parts := s[..i] + [s[i]] + s[i + 1..];
    assert |parts| == |s|;
    assert forall k :: 0 <= k < |s| ==> parts[k] == s[k];
  }

  /** Removing one element removes it from the filter, or leaves the filter alone. */
  lemma OnlyRemoved<T>(s: seq<T>, i: nat, p: T -> bool)
    requires i < |s|
    ensures Only(s, p) == Only(s[..i], p) + (if p(s[i]) then [s[i]] else []) + Only(s[i + 1..], p)
    ensures Only(Removed(s, i), p) == Only(s[..i], p) + Only(s[i + 1..], p)
  {
    SplitAt(s, i);
    OnlyOfParts(s, s[..i], s[i], s[i + 1..], p);
  }

  lemma {:induction false} OnlyIsSub<T>(s: seq<T>, p: T -> bool)
    ensures Sub(Only(s, p), s)
    decreases |s|
  {
    if s != [] {
      OnlyIsSub(s[..|s| - 1], p);
      var before := Only(s[..|s| - 1], p);
      assert (before + [s[|s| - 1]])[..|before|] == before;
    }
  }

  lemma {:induction false} SubReflexive<T>(s: seq<T>)
    ensures Sub(s, s)
    decreases |s|
  {
    if s != [] {
      SubReflexive(s[..|s| - 1]);
    }
  }

  lemma {:induction false} SubTransitive<T>(a: seq<T>, b: seq<T>, c: seq<T>)
    requires Sub(a, b) && Sub(b, c)
    ensures Sub(a, c)
    decreases |c|
  {
    if a != [] {
      if b[|b| - 1] == c[|c| - 1] && Sub(b[..|b| - 1], c[..|c| - 1]) {
        if a[|a| - 1] == b[|b| - 1] && Sub(a[..|a| - 1], b[..|b| - 1]) {
          SubTransitive(a[..|a| - 1], b[..|b| - 1], c[..|c| - 1]);
        } else {
          SubTransitive(a, b[..|b| - 1], c[..|c| - 1]);
        }
      } else {
        SubTransitive(a, b, c[..|c| - 1]);
      }
    }
  }

  lemma {:induction false} SubConcat<T>(a: seq<T>, b: seq<T>, tail: seq<T>)
    requires Sub(a, b)
    ensures Sub(a + tail, b + tail)
    decreases |tail|
  {
    if tail == [] {
      assert a + tail == a && b + tail == b;
    } else {
      var t := tail[..|tail| - 1];
      SubConcat(a, b, t);
      assert (a + tail)[..|a + tail| - 1] == a + t && (b + tail)[..|b + tail| - 1] == b + t;
    }
  }

  lemma RemovedIsSub<T>(s: seq<T>, i: nat)
    requires i < |s|
    ensures Sub(Removed(s, i), s)
  {
    SubReflexive(s[..i]);
    assert s[..i + 1][..i] == s[..i];
    assert Sub(s[..i], s[..i + 1]);
    SubConcat(s[..i], s[..i + 1], s[i + 1..]);
    assert s == s[..i + 1] + s[i + 1..];
  }

  lemma {:induction false} SubMembers<T>(a: seq<T>, b: seq<T>)
    requires Sub(a, b)
    ensures |a| <= |b| && forall x :: x in a ==> x in b
    decreases |b|
  {
    if a != [] {
      if a[|a| - 1] == b[|b| - 1] && Sub(a[..|a| - 1], b[..|b| - 1]) {
        SubMembers(a[..|a| - 1], b[..|b| - 1]);
        assert a == a[..|a| - 1] + [a[|a| - 1]];
      } else {
        SubMembers(a, b[..|b| - 1]);
      }
    }
  }

  lemma {:induction false} SubDistinct<T>(a: seq<T>, b: seq<T>)
    requires Sub(a, b) && Distinct(b)
    ensures Distinct(a)
    decreases |b|
  {
    if a != [] {
      if a[|a| - 1] == b[|b| - 1] && Sub(a[..|a| - 1], b[..|b| - 1]) {
        SubDistinct(a[..|a| - 1], b[..|b| - 1]);
        SubMembers(a[..|a| - 1], b[..|b| - 1]);
        forall i, j | 0 <= i < j < |a| ensures a[i] != a[j] {
          if j == |a| - 1 {
            assert a[..|a| - 1][i] in b[..|b| - 1];
          }
        }
      } else {
        SubDistinct(a, b[..|b| - 1]);
      }
    }
  }

  lemma {:induction false} OnlyNone<T>(s: seq<T>, p: T -> bool)
    requires forall x :: x in s ==> !p(x)
    ensures Only(s, p) == []
    decreases |s|
  {
    if s != [] {
      OnlyNone(s[..|s| - 1], p);
    }
  }
}
