/** Properties of the recursive back-off: termination depth, fallback on a
    failed context extension, the unknown-word cases, the state a fresh query
    ends in, and non-negativity of every probability. */
module EstimatorProps {
  import opened Index
  import opened Continuation
  import opened Estimator

  /** For a pattern no longer than the order every level but the unigram one
      recurses, so the recursion visits exactly |pat| levels. */
  lemma {:induction false} LevelsOfShortPattern(start: Sym, ngramsize: nat, unk: bool, pat: seq<Sym>)
    requires Scorable(pat, start) && |pat| <= ngramsize
    ensures Levels(start, ngramsize, unk, pat) == |pat|
    decreases |pat|
  {
    if |pat| >= 2 {
      assert Recurses(Dispatch(start, ngramsize, unk, pat));
      LevelsOfShortPattern(start, ngramsize, unk, pat[1..]);
    }
  }

  /** When prepending the leading symbol to the forward context finds nothing,
      highestorder returns the back-off probability unchanged. */
  lemma HighestOrderFallback(idx: Lm, syms: Symbols, level: nat, unk: bool, pat: seq<Sym>, st: State, ngramsize: nat)
    requires idx.Valid() && Scorable(pat, syms.start) && |pat| >= 2
    ensures var inner := Pkn(idx, syms, level, unk, pat[1..], st, ngramsize);
            inner.Ok? && FwdCount(idx.fwd, inner.value.st.node, pat[0]) == 0 ==>
              var r := HighestOrder(idx, syms, level, unk, pat, st, ngramsize);
              r.Ok? && r.value.prob == inner.value.prob && r.value.st.node == inner.value.st.node
  {
  }

  /** The same fallback in lowerorder, whose forward node is then lost. */
  lemma LowerOrderFallback(idx: Lm, syms: Symbols, level: nat, unk: bool, pat: seq<Sym>, st: State, ngramsize: nat)
    requires idx.Valid() && Scorable(pat, syms.start) && |pat| >= 2
    ensures var inner := Pkn(idx, syms, Dec64(level), unk, pat[1..], st, ngramsize);
            inner.Ok? && FwdCount(idx.fwd, inner.value.st.node, pat[0]) == 0 ==>
              var r := LowerOrder(idx, syms, level, unk, pat, st, ngramsize);
              r.Ok? && r.value.prob == inner.value.prob && r.value.st.node == Lost
  {
  }

  /** For an unknown-flagged query only the interpolation term survives in
      highestorder, with the discount of the full order or of the
      start-prefixed shorter pattern. */
  lemma HighestOrderUnknown(idx: Lm, syms: Symbols, level: nat, pat: seq<Sym>, st: State, ngramsize: nat)
    requires idx.Valid() && Scorable(pat, syms.start) && |pat| >= 2
    ensures var inner := Pkn(idx, syms, level, true, pat[1..], st, ngramsize);
            inner.Ok? && inner.value.st.node.At? && FwdCount(idx.fwd, inner.value.st.node, pat[0]) > 0 ==>
              var ctx := [pat[0]] + inner.value.st.node.s;
              var D := HighestDiscount(idx, ngramsize, |pat|);
              var r := HighestOrder(idx, syms, level, true, pat, st, ngramsize);
              r.Ok? && r.value.st.node == At(ctx)
              && r.value.prob == (D * (N1PlusFrontKn(idx.fwd, ctx, |pat| - 1) as real) / (idx.fwd.size(ctx) as real))
                                 * inner.value.prob
  {
    var inner := Pkn(idx, syms, level, true, pat[1..], st, ngramsize);
    if inner.Ok? && inner.value.st.node.At? && FwdCount(idx.fwd, inner.value.st.node, pat[0]) > 0 {
      var ctx := [pat[0]] + inner.value.st.node.s;
      var D := HighestDiscount(idx, ngramsize, |pat|);
      var n1 := N1PlusFrontKn(idx.fwd, ctx, |pat| - 1);
      var p := Interpolate(0.0, D, n1, idx.fwd.size(ctx), inner.value.prob);
      assert HighestOrder(idx, syms, level, true, pat, st, ngramsize).value.prob == p;
    }
  }

  /** For an unknown-flagged query only the interpolation term survives in
      lowerorder too, weighted by discount(level - 1, true) over the joint count. */
  lemma LowerOrderUnknown(idx: Lm, syms: Symbols, level: nat, pat: seq<Sym>, st: State, ngramsize: nat)
    requires idx.Valid() && Scorable(pat, syms.start) && |pat| >= 2
    ensures var inner := Pkn(idx, syms, Dec64(level), true, pat[1..], st, ngramsize);
            inner.Ok? && inner.value.st.node.At? && FwdCount(idx.fwd, inner.value.st.node, pat[0]) > 0 ==>
              var ctx := [pat[0]] + inner.value.st.node.s;
              var joint := JointContinuation(idx, ctx, |pat| - 1);
              var r := LowerOrder(idx, syms, level, true, pat, st, ngramsize);
              (joint == 0 <==> r.Err?)
              && (r.Ok? ==> r.value.prob == (idx.discount(Dec64(level), true) * (N1PlusFrontKn(idx.fwd, ctx, |pat| - 1) as real)
                                              / (joint as real)) * inner.value.prob)
  {
  }

  /** An unknown unigram scores discount(1, true) / N1plus_dotdot from any
      state, and leaves the state untouched. */
  lemma UnknownUnigram(idx: Lm, syms: Symbols, level: nat, w: Sym, st: State, ngramsize: nat)
    requires idx.Valid() && w != syms.start
    ensures Pkn(idx, syms, level, true, [w], st, ngramsize)
            == Ok(Scored(idx.discount(1, true) / idx.n1PlusDotDot, st))
  {
  }

  /** A known unigram is scored by the left-continuation count of its only
      symbol, after one reverse extension and one step of d. */
  lemma KnownUnigram(idx: Lm, syms: Symbols, level: nat, w: Sym, st: State, ngramsize: nat)
    requires idx.Valid() && w != syms.start
    ensures var r := Pkn(idx, syms, level, false, [w], st, ngramsize);
            var rev2 := RevExtend(idx.rev, st.nodeRev, w);
            r == Ok(Scored((N1PlusBack(idx.rev, rev2, 1) as real) / idx.n1PlusDotDot, State(st.node, rev2, st.d + 1)))
  {
  }

  /** Every symbol of `pat` after the first is other than the start symbol. */
  predicate StartOnlyFirst(pat: seq<Sym>, start: Sym)
  {
    forall i :: 1 <= i < |pat| ==> pat[i] != start
  }

  /** The context suffix pat[i..|pat| - 1]. */
  function Context(pat: seq<Sym>, i: nat): seq<Sym>
    requires i < |pat|
  {
    pat[i..|pat| - 1]
  }

  /** Every suffix of the pattern occurs (in the reverse tree) and every
      proper context suffix occurs (in the forward tree). */
  predicate AllOccur(idx: Lm, pat: seq<Sym>)
  {
    && (forall i :: 0 <= i < |pat| ==> idx.rev.size(Reverse(pat[i..])) > 0)
    && (forall i :: 0 <= i < |pat| - 1 ==> idx.fwd.size(Context(pat, i)) > 0)
  }

  /** The occurrence facts of a pattern hold for its tail. */
  lemma AllOccurTail(idx: Lm, pat: seq<Sym>)
    requires |pat| >= 1 && AllOccur(idx, pat)
    ensures AllOccur(idx, pat[1..])
  {
    var tail := pat[1..];
    forall i | 0 <= i < |tail| ensures idx.rev.size(Reverse(tail[i..])) > 0 {
      assert tail[i..] == pat[i + 1..];
    }
    forall i | 0 <= i < |tail| - 1 ensures idx.fwd.size(Context(tail, i)) > 0 {
      assert Context(tail, i) == Context(pat, i + 1);
    }
  }

  lemma ReverseUnfold(pat: seq<Sym>)
    requires |pat| >= 1
    ensures Reverse(pat[1..]) + [pat[0]] == Reverse(pat)
  {
  }

  /** The state after a highestorder level whose two extensions succeed. */
  lemma HighestOrderExtends(idx: Lm, syms: Symbols, level: nat, unk: bool, pat: seq<Sym>, st: State, ngramsize: nat)
    requires idx.Valid() && Scorable(pat, syms.start) && |pat| >= 2
    ensures var inner := Pkn(idx, syms, level, unk, pat[1..], st, ngramsize);
            inner.Ok? && inner.value.st.node.At?
            && idx.rev.size(inner.value.st.nodeRev + [pat[0]]) > 0
            && FwdCount(idx.fwd, inner.value.st.node, pat[0]) > 0 ==>
              var r := HighestOrder(idx, syms, level, unk, pat, st, ngramsize);
              r.Ok? && r.value.st == State(At([pat[0]] + inner.value.st.node.s),
                                           inner.value.st.nodeRev + [pat[0]], inner.value.st.d)
  {
  }

  /** The state after a lowerorder level whose two extensions succeed: d steps. */
  lemma LowerOrderExtends(idx: Lm, syms: Symbols, level: nat, unk: bool, pat: seq<Sym>, st: State, ngramsize: nat)
    requires idx.Valid() && Scorable(pat, syms.start) && |pat| >= 2
    ensures var inner := Pkn(idx, syms, Dec64(level), unk, pat[1..], st, ngramsize);
            var r := LowerOrder(idx, syms, level, unk, pat, st, ngramsize);
            inner.Ok? && inner.value.st.node.At?
            && idx.rev.size(inner.value.st.nodeRev + [pat[0]]) > 0
            && FwdCount(idx.fwd, inner.value.st.node, pat[0]) > 0 && r.Ok? ==>
              r.value.st == State(At([pat[0]] + inner.value.st.node.s),
                                  inner.value.st.nodeRev + [pat[0]], inner.value.st.d + 1)
  {
  }

  /** What a query of `pat` from both roots (and counter `d`) ends in when it
      succeeds: the reverse node matches the whole reversed pattern, the
      forward node its context, and d counts every level except a
      highestorder one. */
  predicate EndsMatching(idx: Lm, syms: Symbols, level: nat, pat: seq<Sym>, d: nat, ngramsize: nat)
    requires idx.Valid() && Scorable(pat, syms.start)
  {
    var r := Pkn(idx, syms, level, false, pat, State(At([]), [], d), ngramsize);
    r.Ok? ==>
      && r.value.st.nodeRev == Reverse(pat)
      && r.value.st.node == At(pat[..|pat| - 1])
      && r.value.st.d == d + |pat| - (if Dispatch(syms.start, ngramsize, false, pat) == Highest then 1 else 0)
  }

  /** The inductive step of FreshQueryMatchesPattern. */
  lemma FreshQueryStep(idx: Lm, syms: Symbols, level: nat, pat: seq<Sym>, d: nat, ngramsize: nat)
    requires idx.Valid() && Scorable(pat, syms.start) && 2 <= |pat| <= ngramsize
    requires StartOnlyFirst(pat, syms.start) && AllOccur(idx, pat)
    requires EndsMatching(idx, syms, if Dispatch(syms.start, ngramsize, false, pat) == Highest then level else Dec64(level),
                          pat[1..], d, ngramsize)
    ensures EndsMatching(idx, syms, level, pat, d, ngramsize)
  {
    var st := State(At([]), [], d);
    var k := Dispatch(syms.start, ngramsize, false, pat);
    var lvl := if k == Highest then level else Dec64(level);
    var tail := pat[1..];
    var inner := Pkn(idx, syms, lvl, false, tail, st, ngramsize);
    if inner.Ok? {
      assert Dispatch(syms.start, ngramsize, false, tail) != Highest;
      ReverseUnfold(pat);
      assert pat[0..] == pat;
      assert [pat[0]] + tail[..|tail| - 1] == pat[..|pat| - 1];
      assert Context(pat, 0) == pat[..|pat| - 1];
      if k == Highest {
        HighestOrderExtends(idx, syms, level, false, pat, st, ngramsize);
      } else {
        LowerOrderExtends(idx, syms, level, false, pat, st, ngramsize);
      }
    }
  }

  /** A query started from both roots whose every extension succeeds ends with
      the reverse node matching the whole (reversed) pattern and the forward
      node matching its context; d counts every level except a highestorder one. */
  lemma {:induction false} FreshQueryMatchesPattern(idx: Lm, syms: Symbols, level: nat, pat: seq<Sym>, d: nat, ngramsize: nat)
    requires idx.Valid() && Scorable(pat, syms.start) && |pat| <= ngramsize
    requires StartOnlyFirst(pat, syms.start) && AllOccur(idx, pat)
    ensures EndsMatching(idx, syms, level, pat, d, ngramsize)
    decreases |pat|
  {
    if |pat| == 1 {
      assert pat[0..] == pat;
      assert Reverse([pat[0]]) == [pat[0]];
    } else {
      var k := Dispatch(syms.start, ngramsize, false, pat);
      var lvl := if k == Highest then level else Dec64(level);
      var tail := pat[1..];
      AllOccurTail(idx, pat);
      FreshQueryMatchesPattern(idx, syms, lvl, tail, d, ngramsize);
      FreshQueryStep(idx, syms, level, pat, d, ngramsize);
    }
  }

  /** With non-negative discounts every probability pkn returns is non-negative. */
  lemma {:induction false} PknNonNegative(idx: Lm, syms: Symbols, level: nat, unk: bool, pat: seq<Sym>, st: State, ngramsize: nat)
    requires idx.Valid() && Scorable(pat, syms.start)
    requires forall o, b :: idx.discount(o, b) >= 0.0
    ensures var r := Pkn(idx, syms, level, unk, pat, st, ngramsize);
            r.Ok? ==> r.value.prob >= 0.0
    decreases |pat|
  {
    var k := Dispatch(syms.start, ngramsize, unk, pat);
    if k == Highest {
      PknNonNegative(idx, syms, level, unk, pat[1..], st, ngramsize);
    } else if k == Lower {
      PknNonNegative(idx, syms, Dec64(level), unk, pat[1..], st, ngramsize);
    }
  }
}
