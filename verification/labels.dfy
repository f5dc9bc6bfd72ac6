/** SortedJSON (internal/contract.go): the canonical form under which job and worker
    rows are pooled.  The JSON text is modelled by the sorted list it encodes. */
module Labels {

  /** Go's `<=` on strings. */
  predicate Leq(a: string, b: string) {
    a == "" || (b != "" && (a[0] < b[0] || (a[0] == b[0] && Leq(a[1..], b[1..]))))
  }

  predicate Greater(a: string, b: string) { !Leq(a, b) }

  lemma {:induction false} LeqTotal(a: string, b: string)
    ensures Leq(a, b) || Leq(b, a)
    ensures Leq(a, b) && Leq(b, a) ==> a == b
  {
    if a != "" && b != "" {
      LeqTotal(a[1..], b[1..]);
      assert a == [a[0]] + a[1..] && b == [b[0]] + b[1..];
    }
  }

  /** Byte order: a prefix comes first, otherwise the first difference decides. */
  lemma {:induction false} LeqIsLexicographic(a: string, b: string)
    ensures Leq(a, b) <==>
            a <= b || exists k :: 0 <= k < |a| && k < |b| && a[..k] == b[..k] && a[k] < b[k]
  {
    if a != "" && b != "" {
      LeqIsLexicographic(a[1..], b[1..]);
      if a[0] == b[0] {
        if k :| 0 <= k < |a[1..]| && k < |b[1..]| && a[1..][..k] == b[1..][..k] && a[1..][k] < b[1..][k] {
          assert a[..k + 1] == [a[0]] + a[1..][..k] && b[..k + 1] == [b[0]] + b[1..][..k];
          assert a[k + 1] < b[k + 1];
        }
        if k :| 0 <= k < |a| && k < |b| && a[..k] == b[..k] && a[k] < b[k] {
          assert a[1..][..k - 1] == a[..k][1..] && b[1..][..k - 1] == b[..k][1..];
          assert a[1..][k - 1] < b[1..][k - 1];
        }
        assert a == [a[0]] + a[1..] && b == [b[0]] + b[1..];
      } else if a[0] < b[0] {
        assert a[..0] == b[..0];
      } else {
        forall k | 0 < k < |a| && k < |b| ensures a[..k] != b[..k] {
          assert a[..k][0] == a[0] && b[..k][0] == b[0];
        }
      }
    }
  }

  lemma {:induction false} LeqTransitive(a: string, b: string, c: string)
    requires Leq(a, b) && Leq(b, c)
    ensures Leq(a, c)
  {
    if a != "" && a[0] == b[0] == c[0] {
      LeqTransitive(a[1..], b[1..], c[1..]);
    }
  }

  /** `s` with `x` placed behind every element that is not greater. */
  function Insert(s: seq<string>, x: string): seq<string> {
    if s == [] || Leq(s[|s| - 1], x) then s + [x]
    else Insert(s[..|s| - 1], x) + [s[|s| - 1]]
  }

  function Canonical(labels: seq<string>): seq<string> {
    if labels == [] then [] else Insert(Canonical(labels[..|labels| - 1]), labels[|labels| - 1])
  }

  ghost predicate Sorted(s: seq<string>) {
    forall i, j :: 0 <= i <= j < |s| ==> Leq(s[i], s[j])
  }

  lemma {:induction false} InsertSplits(s: seq<string>, x: string, j: nat)
    requires j <= |s|
    requires forall k :: j <= k < |s| ==> Greater(s[k], x)
    requires j > 0 ==> Leq(s[j - 1], x)
    ensures Insert(s, x) == s[..j] + [x] + s[j..]
  {
    if j < |s| {
      var t := s[..|s| - 1];
      InsertSplits(t, x, j);
      assert s[..j] == t[..j] && s[j..] == t[j..] + [s[|s| - 1]];
    }
  }

  lemma {:induction false} InsertSorts(s: seq<string>, x: string)
    requires Sorted(s)
    ensures Sorted(Insert(s, x))
    ensures multiset(Insert(s, x)) == multiset(s) + multiset{x}
  {
    if s == [] {
      LeqTotal(x, x);
    } else {
      var last, t := s[|s| - 1], s[..|s| - 1];
      assert s == t + [last];
      if Leq(last, x) {
        LeqTotal(x, x);
        forall i | 0 <= i < |s| ensures Leq(s[i], x) {
          LeqTransitive(s[i], last, x);
        }
      } else {
        InsertSorts(t, x);
        LeqTotal(x, last);
        LeqTotal(last, last);
        var u := Insert(t, x);
        forall i | 0 <= i < |u| ensures Leq(u[i], last) {
          assert u[i] in multiset(u);
          assert u[i] in t || u[i] == x;
        }
      }
    }
  }

  lemma {:induction false} CanonicalSorts(labels: seq<string>)
    ensures Sorted(Canonical(labels))
    ensures multiset(Canonical(labels)) == multiset(labels)
  {
    if labels != [] {
      var t, x := labels[..|labels| - 1], labels[|labels| - 1];
      CanonicalSorts(t);
      InsertSorts(Canonical(t), x);
      assert labels == t + [x];
    }
  }

  lemma SameLast(a: seq<string>, b: seq<string>)
    requires Sorted(a) && Sorted(b) && multiset(a) == multiset(b) && a != [] && b != []
    ensures a[|a| - 1] == b[|b| - 1]
  {
    var x, y := a[|a| - 1], b[|b| - 1];
    assert x in multiset(b) && y in multiset(a);
    assert Leq(x, y) && Leq(y, x);
    LeqTotal(x, y);
  }

  lemma DropLast(s: seq<string>)
    requires s != []
    ensures multiset(s[..|s| - 1]) == multiset(s) - multiset{s[|s| - 1]}
  {
    assert s == s[..|s| - 1] + [s[|s| - 1]];
  }

  lemma SamePrefix(a: seq<string>, b: seq<string>)
    requires Sorted(a) && Sorted(b) && multiset(a) == multiset(b) && a != [] && b != []
    ensures var a', b' := a[..|a| - 1], b[..|b| - 1];
      && Sorted(a') && Sorted(b') && multiset(a') == multiset(b')
      && a == a' + [a[|a| - 1]] && b == b' + [a[|a| - 1]]
  {
    SameLast(a, b);
    DropLast(a);
    DropLast(b);
  }

  lemma {:induction false} SortedUnique(a: seq<string>, b: seq<string>)
    requires Sorted(a) && Sorted(b) && multiset(a) == multiset(b)
    ensures a == b
  {
    assert |a| == |multiset(a)| == |b|;
    if a != [] {
      SamePrefix(a, b);
      SortedUnique(a[..|a| - 1], b[..|b| - 1]);
    }
  }

  /** Two label lists share a pool key exactly when one is a permutation of the other. */
  lemma KeyIffPermutation(a: seq<string>, b: seq<string>)
    ensures Canonical(a) == Canonical(b) <==> multiset(a) == multiset(b)
  {
    CanonicalSorts(a);
    CanonicalSorts(b);
    if multiset(a) == multiset(b) {
      SortedUnique(Canonical(a), Canonical(b));
    }
  }

  /** Reading a stored key back and keying it again gives the same key. */
  lemma KeyIdempotent(a: seq<string>)
    ensures Canonical(Canonical(a)) == Canonical(a)
  {
    CanonicalSorts(a);
    KeyIffPermutation(Canonical(a), a);
  }

  /** The inner loop: swap element `i` down into the sorted prefix before it. */
  method Sink(a: array<string>, i: nat)
    requires i < a.Length
    modifies a
    ensures a[..i + 1] == Insert(old(a[..i]), old(a[i]))
    ensures a[i + 1..] == old(a[i + 1..])
  {
    ghost var done, x := a[..i], a[i];
    var j := i;
    while j > 0 && Greater(a[j - 1], a[j])
      invariant 0 <= j <= i && a[j] == x
      invariant forall k :: 0 <= k < j ==> a[k] == done[k]
      invariant forall k :: j < k <= i ==> a[k] == done[k - 1]
      invariant forall k :: j <= k < i ==> Greater(done[k], x)
      invariant forall k :: i < k < a.Length ==> a[k] == old(a[k])
    {
      a[j - 1], a[j] := a[j], a[j - 1];
      j := j - 1;
    }
    assert a[i + 1..] == old(a[i + 1..]);
    InsertSplits(done, x, j);
    ghost var sunk := done[..j] + [x] + done[j..];
    assert forall k :: 0 <= k <= i ==> a[k] == sunk[k];
    assert a[..i + 1] == sunk;
  }

  /** The copy-and-swap sort of the source. */
  method SortedJSON(labels: seq<string>) returns (key: seq<string>)
    ensures key == Canonical(labels)
  {
    var sorted := new string[|labels|](i requires 0 <= i < |labels| => labels[i]);
    assert sorted[..] == labels;
    if labels == [] {
      return [];
    }
    CanonicalUnfolds(labels, 0);
    assert sorted[..1] == Canonical(labels[..1]);
    var i := 1;
    while i < sorted.Length
      invariant 1 <= i <= |labels| == sorted.Length
      invariant sorted[..i] == Canonical(labels[..i])
      invariant sorted[i..] == labels[i..]
    {
      assert sorted[i] == sorted[i..][0] == labels[i];
      CanonicalUnfolds(labels, i);
      Sink(sorted, i);
      assert sorted[i + 1..] == labels[i..][1..] == labels[i + 1..];
      i := i + 1;
    }
    assert labels[..i] == labels && sorted[..i] == sorted[..];
    key := sorted[..];
  }

  lemma CanonicalUnfolds(labels: seq<string>, i: nat)
    requires i < |labels|
    ensures Canonical(labels[..i + 1]) == Insert(Canonical(labels[..i]), labels[i])
  {
    assert labels[..i + 1][..i] == labels[..i];
  }
}
