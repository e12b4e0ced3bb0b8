/** In-order subsequences, stated by the indices at which the elements are found, and filters. */
module Sequences {

  ghost predicate Embeds<T>(ix: seq<nat>, a: seq<T>, b: seq<T>) {
    && |ix| == |a|
    && (forall k :: 0 <= k < |ix| ==> ix[k] < |b| && a[k] == b[ix[k]])
    && (forall j, k :: 0 <= j < k < |ix| ==> ix[j] < ix[k])
  }

  ghost predicate Subsequence<T>(a: seq<T>, b: seq<T>) {
    exists ix :: Embeds(ix, a, b)
  }

  lemma EmptySubsequence<T>(b: seq<T>)
    ensures Subsequence([], b)
  {
    assert Embeds([], [], b);
  }

  lemma SubsequenceRefl<T>(a: seq<T>)
    ensures Subsequence(a, a)
  {
    assert Embeds(seq(|a|, i requires 0 <= i < |a| => i), a, a);
  }

  lemma SubsequenceSkip<T>(a: seq<T>, b: seq<T>, x: T)
    requires Subsequence(a, b)
    ensures Subsequence(a, b + [x])
  {
    var ix: seq<nat> :| Embeds(ix, a, b);
    assert Embeds(ix, a, b + [x]);
  }

  lemma SubsequenceBoth<T>(a: seq<T>, b: seq<T>, x: T)
    requires Subsequence(a, b)
    ensures Subsequence(a + [x], b + [x])
  {
    var ix: seq<nat> :| Embeds(ix, a, b);
    var ix': seq<nat> := ix + [|b|];
    assert Embeds(ix', a + [x], b + [x]);
  }

  lemma SubsequencePrepended<T>(a: seq<T>, b: seq<T>, x: T)
    requires Subsequence(a, b)
    ensures Subsequence(a, [x] + b)
  {
    var ix: seq<nat> :| Embeds(ix, a, b);
    var ix': seq<nat> := seq(|ix|, k requires 0 <= k < |ix| => ix[k] + 1);
    assert Embeds(ix', a, [x] + b);
  }

  lemma SubsequenceSameHead<T>(a: seq<T>, b: seq<T>, x: T)
    requires Subsequence(a, b)
    ensures Subsequence([x] + a, [x] + b)
  {
    var ix: seq<nat> :| Embeds(ix, a, b);
    var ix': seq<nat> := seq(|ix| + 1, k requires 0 <= k < |ix| + 1 => if k == 0 then 0 else ix[k - 1] + 1);
    assert Embeds(ix', [x] + a, [x] + b);
  }

  lemma EmbeddingIsSteep(ix: seq<nat>, k: nat)
    requires forall i, j :: 0 <= i < j < |ix| ==> ix[i] < ix[j]
    requires k < |ix|
    ensures k <= ix[k]
  {
    if k > 0 {
      EmbeddingIsSteep(ix, k - 1);
    }
  }

  /** A subsequence is never longer, and one of full length is the whole sequence. */
  lemma SubsequenceLength<T>(a: seq<T>, b: seq<T>)
    requires Subsequence(a, b)
    ensures |a| <= |b|
    ensures |a| == |b| ==> a == b
  {
    var ix: seq<nat> :| Embeds(ix, a, b);
    if |a| > 0 {
      EmbeddingIsSteep(ix, |a| - 1);
    }
    if |a| == |b| {
      forall k | 0 <= k < |a| ensures a[k] == b[k] {
        EmbeddingIsTight(ix, k, |b|);
      }
    }
  }

  lemma {:induction false} EmbeddingIsTight(ix: seq<nat>, k: nat, n: nat)
    requires forall i, j :: 0 <= i < j < |ix| ==> ix[i] < ix[j]
    requires |ix| == n && (forall i :: 0 <= i < n ==> ix[i] < n)
    requires k < n
    ensures ix[k] == k
    decreases n - k
  {
    EmbeddingIsSteep(ix, k);
    if k + 1 < n {
      EmbeddingIsTight(ix, k + 1, n);
    }
  }

  lemma SubsequenceTrans<T>(a: seq<T>, b: seq<T>, c: seq<T>)
    requires Subsequence(a, b) && Subsequence(b, c)
    ensures Subsequence(a, c)
  {
    var f: seq<nat> :| Embeds(f, a, b);
    var g: seq<nat> :| Embeds(g, b, c);
    assert Embeds(seq(|f|, i requires 0 <= i < |f| => g[f[i]]), a, c);
  }

  /** The elements that `keep` accepts, in order. */
  function Filter<T>(keep: T -> bool, s: seq<T>): seq<T> {
    if s == [] then []
    else if keep(s[|s| - 1]) then Filter(keep, s[..|s| - 1]) + [s[|s| - 1]]
    else Filter(keep, s[..|s| - 1])
  }

  lemma FilterOne<T>(keep: T -> bool, s: seq<T>, x: T)
    ensures Filter(keep, s + [x]) == if keep(x) then Filter(keep, s) + [x] else Filter(keep, s)
  {
    assert (s + [x])[..|s|] == s;
  }

  lemma {:induction false} FilterAppend<T>(keep: T -> bool, a: seq<T>, b: seq<T>)
    ensures Filter(keep, a + b) == Filter(keep, a) + Filter(keep, b)
  {
    if b == [] {
      assert a + b == a;
    } else {
      var n := |b| - 1;
      FilterAppend(keep, a, b[..n]);
      FilterOne(keep, a + b[..n], b[n]);
      assert a + b == (a + b[..n]) + [b[n]];
    }
  }

  lemma {:induction false} FilterMembers<T>(keep: T -> bool, s: seq<T>)
    ensures forall x :: x in Filter(keep, s) <==> x in s && keep(x)
  {
    if s != [] {
      FilterMembers(keep, s[..|s| - 1]);
      assert s == s[..|s| - 1] + [s[|s| - 1]];
    }
  }

  lemma {:induction false} FilterAll<T>(keep: T -> bool, s: seq<T>)
    requires forall i :: 0 <= i < |s| ==> keep(s[i])
    ensures Filter(keep, s) == s
  {
    if s != [] {
      FilterAll(keep, s[..|s| - 1]);
      assert s == s[..|s| - 1] + [s[|s| - 1]];
    }
  }

  lemma {:induction false} FilterNone<T>(keep: T -> bool, s: seq<T>)
    requires forall i :: 0 <= i < |s| ==> !keep(s[i])
    ensures Filter(keep, s) == []
  {
    if s != [] {
      FilterNone(keep, s[..|s| - 1]);
    }
  }
}
