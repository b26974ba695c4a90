/** Continuation ("N1+") counts read off the shape of a suffix-tree node:
    how many distinct symbols extend a pattern, and for Modified Kneser-Ney
    how those extensions split by their own frequency. */
module Continuation {
  import opened Index

  /** The first edge symbols of a node's children are in strictly increasing
      (lexicographic child) order and none is the text sentinel 0. */
  predicate Ordered(ch: seq<Sym>)
  {
    && (forall i, j :: 0 <= i < j < |ch| ==> ch[i] < ch[j])
    && (forall i :: 0 <= i < |ch| ==> ch[i] >= Terminator)
  }

  /** Number of entries of `ch` other than the terminator. */
  function NonTerminators(ch: seq<Sym>): (k: nat)
    ensures k <= |ch|
  {
    if ch == [] then 0
    else NonTerminators(ch[..|ch| - 1]) + (if ch[|ch| - 1] != Terminator then 1 else 0)
  }

  /** The degree/terminator rule: at a branch point (pattern length equals the
      node's depth) the degree, less one when the first child's edge starts with
      the terminator; mid-edge, one extension unless the next symbol is the
      terminator. A branch point without children contributes nothing. */
  function N1PlusBack(rev: Tree, v: seq<Sym>, patSize: nat): (c: nat)
    ensures patSize == rev.depth(v) ==> c <= rev.Degree(v)
    ensures patSize == rev.depth(v) && rev.Degree(v) > 0 ==>
              (c + 1 == rev.Degree(v) <==> rev.children(v)[0] == Terminator)
    ensures patSize == rev.depth(v) && rev.Degree(v) > 0 ==>
              (c == rev.Degree(v) <==> rev.children(v)[0] != Terminator)
    ensures patSize != rev.depth(v) ==> c <= 1
    ensures patSize != rev.depth(v) ==> (c == 1 <==> rev.edge(v, patSize + 1) != Terminator)
  {
    if patSize == rev.depth(v) then
      var deg := rev.Degree(v);
      if deg > 0 && rev.children(v)[0] == Terminator then deg - 1 else deg
    else
      if rev.edge(v, patSize + 1) != Terminator then 1 else 0
  }

  /** The KN branch of N1PlusFront: the same rule, applied to the forward tree. */
  function N1PlusFrontKn(fwd: Tree, v: seq<Sym>, patSize: nat): (n: nat)
    ensures patSize == fwd.depth(v) ==> n <= fwd.Degree(v)
    ensures patSize == fwd.depth(v) && fwd.Degree(v) > 0 ==>
              (n == fwd.Degree(v) <==> fwd.children(v)[0] != Terminator)
    ensures patSize != fwd.depth(v) ==> (n == 1 <==> fwd.edge(v, patSize + 1) != Terminator)
    ensures patSize != fwd.depth(v) ==> n <= 1
  {
    N1PlusBack(fwd, v, patSize)
  }

  /** N1PlusFrontBack_Back: the rule on the reverse tree at the node of the
      reversed pattern `v` matched to its full length, or 0 when `v` does not occur. */
  function N1PlusFrontBackBack(rev: Tree, v: seq<Sym>): (c: nat)
    ensures rev.size(v) == 0 ==> c == 0
    ensures rev.size(v) > 0 && |v| == rev.depth(v) ==> c <= rev.Degree(v)
    ensures rev.size(v) > 0 && |v| == rev.depth(v) && rev.Degree(v) > 0 ==>
              (c == rev.Degree(v) <==> rev.children(v)[0] != Terminator)
    ensures rev.size(v) > 0 && |v| != rev.depth(v) ==>
              (c == 1 <==> rev.edge(v, |v| + 1) != Terminator)
    ensures rev.size(v) > 0 && |v| != rev.depth(v) ==> c <= 1
  {
    if rev.size(v) > 0 then N1PlusBack(rev, v, |v|) else 0
  }

  /** In ordered children only the first can be the terminator, so checking
      the first child is the same as counting the non-terminator children. */
  lemma {:induction false} OrderedNonTerminators(ch: seq<Sym>)
    requires Ordered(ch) && ch != []
    ensures NonTerminators(ch) == |ch| - (if ch[0] == Terminator then 1 else 0)
  {
    if |ch| > 1 {
      var init := ch[..|ch| - 1];
      assert Ordered(init);
      OrderedNonTerminators(init);
      assert ch[|ch| - 1] > ch[0] >= Terminator;
    }
  }

  /** At a branch point with ordered children, N1PlusBack counts exactly the
      children whose edge does not start with the terminator. */
  lemma BranchCountsNonTerminators(t: Tree, v: seq<Sym>, patSize: nat)
    requires patSize == t.depth(v) && Ordered(t.children(v))
    ensures N1PlusBack(t, v, patSize) == NonTerminators(t.children(v))
  {
    if t.children(v) != [] {
      OrderedNonTerminators(t.children(v));
    }
  }

  /** The symbols that can follow the pattern at node `v`: every child's first
      edge symbol at a branch point, the single next edge symbol mid-edge. */
  function Extensions(t: Tree, v: seq<Sym>, patSize: nat): (ext: seq<Sym>)
    ensures patSize == t.depth(v) ==> ext == t.children(v)
    ensures patSize != t.depth(v) ==> ext == [t.edge(v, patSize + 1)]
  {
    if patSize == t.depth(v) then t.children(v) else [t.edge(v, patSize + 1)]
  }

  /** Frequency class of a count: 1, 2, 3 (three or more), and 0 for no occurrence. */
  function Bucket(freq: int): (b: nat)
    ensures b <= 3
    ensures b == 0 <==> freq <= 0
    ensures b == 1 <==> freq == 1
    ensures b == 2 <==> freq == 2
    ensures b == 3 <==> freq >= 3
  {
    if freq >= 3 then 3 else if freq == 2 then 2 else if freq == 1 then 1 else 0
  }

  /** Number of non-terminator symbols `s` of `syms` whose extended pattern
      `pat + [s]` lies in frequency class `k`. */
  function CountBucket(t: Tree, pat: seq<Sym>, syms: seq<Sym>, k: nat): (n: nat)
    ensures n <= NonTerminators(syms)
  {
    if syms == [] then 0
    else
      var s := syms[|syms| - 1];
      CountBucket(t, pat, syms[..|syms| - 1], k)
        + (if s != Terminator && Bucket(t.size(pat + [s])) == k then 1 else 0)
  }

  /** Every non-terminator extension falls into exactly one frequency class. */
  lemma {:induction false} BucketsPartition(t: Tree, pat: seq<Sym>, syms: seq<Sym>)
    ensures CountBucket(t, pat, syms, 0) + CountBucket(t, pat, syms, 1)
            + CountBucket(t, pat, syms, 2) + CountBucket(t, pat, syms, 3)
            == NonTerminators(syms)
  {
    if syms != [] {
      BucketsPartition(t, pat, syms[..|syms| - 1]);
    }
  }

  /** No extension of class 0 when every non-terminator extension occurs. */
  lemma {:induction false} NoZeroBucket(t: Tree, pat: seq<Sym>, syms: seq<Sym>)
    requires forall i :: 0 <= i < |syms| && syms[i] != Terminator ==> t.size(pat + [syms[i]]) > 0
    ensures CountBucket(t, pat, syms, 0) == 0
  {
    if syms != [] {
      NoZeroBucket(t, pat, syms[..|syms| - 1]);
    }
  }

  /** MKN's three classes never hold more than the non-terminator extensions;
      when every such extension occurs at a branch point with ordered children,
      they add up to exactly the KN continuation count. */
  lemma MknBucketsBound(t: Tree, v: seq<Sym>, pat: seq<Sym>)
    ensures var ext := Extensions(t, v, |pat|);
            CountBucket(t, pat, ext, 1) + CountBucket(t, pat, ext, 2)
              + CountBucket(t, pat, ext, 3) <= NonTerminators(ext)
    ensures var ext := Extensions(t, v, |pat|);
            |pat| == t.depth(v) && Ordered(ext)
            && (forall i :: 0 <= i < |ext| && ext[i] != Terminator ==> t.size(pat + [ext[i]]) > 0)
            ==> CountBucket(t, pat, ext, 1) + CountBucket(t, pat, ext, 2)
                  + CountBucket(t, pat, ext, 3) == N1PlusFrontKn(t, v, |pat|)
  {
    var ext := Extensions(t, v, |pat|);
    BucketsPartition(t, pat, ext);
    if |pat| == t.depth(v) && Ordered(ext)
       && (forall i :: 0 <= i < |ext| && ext[i] != Terminator ==> t.size(pat + [ext[i]]) > 0)
    {
      NoZeroBucket(t, pat, ext);
      BranchCountsNonTerminators(t, v, |pat|);
    }
  }

  /** N1PlusFront: under KN the degree/terminator rule; under MKN each
      non-terminator extension is pushed onto the pattern, counted into N1, N2
      or N3 by the frequency of the extended pattern, and popped again. */
  method N1PlusFront(fwd: Tree, v: seq<Sym>, pat: seq<Sym>, isMkn: bool)
    returns (n: nat, n1: nat, n2: nat, n3: nat)
    ensures !isMkn ==> n == N1PlusFrontKn(fwd, v, |pat|) && n1 == 0 && n2 == 0 && n3 == 0
    ensures isMkn ==> n == 0
    ensures isMkn ==> n1 == CountBucket(fwd, pat, Extensions(fwd, v, |pat|), 1)
    ensures isMkn ==> n2 == CountBucket(fwd, pat, Extensions(fwd, v, |pat|), 2)
    ensures isMkn ==> n3 == CountBucket(fwd, pat, Extensions(fwd, v, |pat|), 3)
  {
    n, n1, n2, n3 := 0, 0, 0, 0;
    var patSize := |pat|;
    var p := pat;
    if patSize == fwd.depth(v) {
      if !isMkn {
        n := fwd.Degree(v);
        if n > 0 && fwd.children(v)[0] == Terminator {
          n := n - 1;
        }
      } else {
        var ch := fwd.children(v);
        var i := 0;
        while i < |ch|
          invariant 0 <= i <= |ch|
          invariant p == pat
          invariant n1 == CountBucket(fwd, pat, ch[..i], 1)
          invariant n2 == CountBucket(fwd, pat, ch[..i], 2)
          invariant n3 == CountBucket(fwd, pat, ch[..i], 3)
        {
          var symbol := ch[i];
          assert ch[..i + 1][..i] == ch[..i];
          if symbol != Terminator {
            p := p + [symbol];
            var freq := fwd.size(p);
            if freq == 1 {
              n1 := n1 + 1;
            } else if freq == 2 {
              n2 := n2 + 1;
            } else if freq >= 3 {
              n3 := n3 + 1;
            }
            p := p[..|p| - 1];
          }
          i := i + 1;
        }
        assert ch[..|ch|] == ch;
      }
    } else {
      var symbol := fwd.edge(v, patSize + 1);
      if !isMkn {
        if symbol != Terminator {
          n := 1;
        }
      } else {
        assert [symbol][..0] == [];
        if symbol != Terminator {
          p := p + [symbol];
          var freq := fwd.size(p);
          if freq == 1 {
            n1 := n1 + 1;
          } else if freq == 2 {
            n2 := n2 + 1;
          } else if freq >= 3 {
            n3 := n3 + 1;
          }
          p := p[..|p| - 1];
        }
      }
    }
    assert p == pat;
  }
}
