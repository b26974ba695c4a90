/** The recursive Kneser-Ney back-off of knm.hpp, as functions of an explicit
    query state. Each level first scores the pattern without its leading
    symbol, then extends the reverse node and the forward context node by
    that leading symbol, and returns its probability together with the
    updated state. */
module Estimator {
  import opened Index
  import opened Continuation

  /** The forward-tree node of a query: the context string it matches, or the
      node made from the empty range a failed backward search leaves behind. */
  datatype FwdNode = At(s: seq<Sym>) | Lost

  /** The state pkn threads by reference: the forward node, the reverse node
      (named by the reversed string it matches) and the depth counter d. */
  datatype State = State(node: FwdNode, nodeRev: seq<Sym>, d: nat)

  /** Both nodes at their roots and d == 0, as every scored query starts. */
  const Root: State := State(At([]), [], 0)

  /** A probability and the state after computing it. */
  datatype Scored = Scored(prob: real, st: State)

  /** The case pkn dispatches to. */
  datatype Case = Highest | Lower | Lowest | LowestUnk | NoCase

  predicate Recurses(k: Case)
  {
    k == Highest || k == Lower
  }

  /** A pattern pkn can score: non-empty and not ending with the start symbol,
      so that every recursive call still has a symbol to look at. */
  predicate Scorable(pat: seq<Sym>, start: Sym)
  {
    |pat| >= 1 && pat[|pat| - 1] != start
  }

  /** pkn's choice of case for a pattern of the given length. */
  function Dispatch(start: Sym, ngramsize: nat, unk: bool, pat: seq<Sym>): (k: Case)
    requires |pat| >= 1
    ensures k == Highest <==> (|pat| == ngramsize && ngramsize != 1) || pat[0] == start
    ensures k == Lower <==> k != Highest && 1 < |pat| < ngramsize
    ensures k == Lowest <==> !Recurses(k) && (|pat| == 1 || ngramsize == 1) && !unk
    ensures k == LowestUnk <==> !Recurses(k) && (|pat| == 1 || ngramsize == 1) && unk
    ensures Recurses(k) && Scorable(pat, start) ==> |pat| >= 2
    ensures Scorable(pat, start) && |pat| == 1 ==> k == Lowest || k == LowestUnk
  {
    if (|pat| == ngramsize && ngramsize != 1) || pat[0] == start then Highest
    else if |pat| < ngramsize && |pat| != 1 then Lower
    else if |pat| == 1 || ngramsize == 1 then (if !unk then Lowest else LowestUnk)
    else NoCase
  }

  /** Number of pkn activations for a pattern: the recursion reaches a
      non-recursive case within |pat| levels. */
  function Levels(start: Sym, ngramsize: nat, unk: bool, pat: seq<Sym>): (k: nat)
    requires Scorable(pat, start)
    ensures 1 <= k <= |pat|
    ensures k == 1 <==> !Recurses(Dispatch(start, ngramsize, unk, pat))
    decreases |pat|
  {
    if Recurses(Dispatch(start, ngramsize, unk, pat)) then 1 + Levels(start, ngramsize, unk, pat[1..])
    else 1
  }

  /** forward_search on the reverse tree: the node string grows by `sym` when
      the extended string occurs, and is left as it was otherwise. */
  function RevExtend(rev: Tree, r: seq<Sym>, sym: Sym): (r2: seq<Sym>)
    ensures rev.size(r + [sym]) > 0 ==> r2 == r + [sym] && rev.size(r2) > 0
    ensures rev.size(r + [sym]) == 0 ==> r2 == r
  {
    if rev.size(r + [sym]) > 0 then r + [sym] else r
  }

  /** Occurrences found by backward search prepending `sym` to the forward node. */
  function FwdCount(fwd: Tree, node: FwdNode, sym: Sym): (c: nat)
    ensures node.Lost? ==> c == 0
    ensures node.At? ==> c == fwd.size([sym] + node.s)
  {
    match node
    case At(s) => fwd.size([sym] + s)
    case Lost => 0
  }

  /** max(c - D, 0), forced to 0 for a query flagged unknown. */
  function Numerator(unk: bool, c: real, D: real): (r: real)
    ensures r >= 0.0
    ensures unk ==> r == 0.0
    ensures !unk && c - D > 0.0 ==> r == c - D
    ensures !unk && c - D <= 0.0 ==> r == 0.0
  {
    if !unk && c - D > 0.0 then c - D else 0.0
  }

  /** Sum, over the non-terminator symbols `syms` extending context `ctx` to
      the right, of the left-continuation count of `ctx + [s]` in the reverse tree. */
  function SumBack(rev: Tree, ctx: seq<Sym>, syms: seq<Sym>): (n: nat)
    ensures NonTerminators(syms) == 0 ==> n == 0
  {
    if syms == [] then 0
    else
      var s := syms[|syms| - 1];
      SumBack(rev, ctx, syms[..|syms| - 1])
        + (if s != Terminator then N1PlusFrontBackBack(rev, Reverse(ctx + [s])) else 0)
  }

  /** N1PlusFrontBack: the joint front/back continuation count of a context,
      taken over the right extensions the forward node offers. */
  function JointContinuation(idx: Lm, ctx: seq<Sym>, ctxSize: nat): (n: nat)
    ensures NonTerminators(Extensions(idx.fwd, ctx, ctxSize)) == 0 ==> n == 0
  {
    SumBack(idx.rev, ctx, Extensions(idx.fwd, ctx, ctxSize))
  }

  /** A context whose node offers no continuation (with ordered children) has
      joint count 0, so lowerorder reports an inconsistency rather than
      dividing by it. */
  lemma JointZeroWithoutExtensions(idx: Lm, ctx: seq<Sym>, ctxSize: nat)
    requires Ordered(Extensions(idx.fwd, ctx, ctxSize))
    requires N1PlusFrontKn(idx.fwd, ctx, ctxSize) == 0
    ensures JointContinuation(idx, ctx, ctxSize) == 0
  {
    if ctxSize == idx.fwd.depth(ctx) {
      BranchCountsNonTerminators(idx.fwd, ctx, ctxSize);
    }
  }

  /** The discount highestorder applies: the full order's, or for a shorter
      pattern (one starting with the start symbol) the special row of its length. */
  function HighestDiscount(idx: Lm, ngramsize: nat, patSize: nat): real
  {
    if patSize == ngramsize then idx.discount(ngramsize, false) else idx.discount(patSize, true)
  }

  /** The back-off formula shared by highestorder and lowerorder:
      numerator / denominator + (D * N1plus_front / denominator) * backoff. */
  function Interpolate(numerator: real, D: real, n1PlusFront: nat, denominator: nat, backoff: real): (p: real)
    requires denominator > 0
    ensures numerator >= 0.0 && D >= 0.0 && backoff >= 0.0 ==> p >= 0.0
    ensures numerator == 0.0 ==> p == (D * (n1PlusFront as real) / (denominator as real)) * backoff
  {
    var den := denominator as real;
    assert D >= 0.0 ==> D * (n1PlusFront as real) >= 0.0;
    numerator / den + (D * (n1PlusFront as real) / den) * backoff
  }

  /** pkn: dispatch to one of the four cases; a pattern matching none scores 0. */
  function Pkn(idx: Lm, syms: Symbols, level: nat, unk: bool, pat: seq<Sym>, st: State, ngramsize: nat)
    : (r: Result<Scored>)
    requires idx.Valid() && Scorable(pat, syms.start)
    decreases |pat|, 1
  {
    match Dispatch(syms.start, ngramsize, unk, pat)
    case Highest => HighestOrder(idx, syms, level, unk, pat, st, ngramsize)
    case Lower => LowerOrder(idx, syms, level, unk, pat, st, ngramsize)
    case Lowest => Ok(LowestOrder(idx, pat[|pat| - 1], st))
    case LowestUnk => Ok(Scored(LowestOrderUnk(idx), st))
    case NoCase => Ok(Scored(0.0, st))
  }

  /** highestorder: raw counts. */
  function HighestOrder(idx: Lm, syms: Symbols, level: nat, unk: bool, pat: seq<Sym>, st: State, ngramsize: nat)
    : (r: Result<Scored>)
    requires idx.Valid() && Scorable(pat, syms.start) && |pat| >= 2
    decreases |pat|, 0
  {
    match Pkn(idx, syms, level, unk, pat[1..], st, ngramsize)
    case Err(e) => Err(e)
    case Ok(back) =>
      var st1 := back.st;
      var w := pat[0];
      var rev2 := RevExtend(idx.rev, st1.nodeRev, w);
      var c: real := if idx.rev.size(st1.nodeRev + [w]) > 0 then idx.rev.size(rev2) as real else 0.0;
      var D := HighestDiscount(idx, ngramsize, |pat|);
      var numerator := Numerator(unk, c, D);
      if FwdCount(idx.fwd, st1.node, w) > 0 then
        var ctx := [w] + st1.node.s;
        var denominator := idx.fwd.size(ctx);
        var n1PlusFront := N1PlusFrontKn(idx.fwd, ctx, |pat| - 1);
        Ok(Scored(Interpolate(numerator, D, n1PlusFront, denominator, back.prob), State(At(ctx), rev2, st1.d)))
      else
        Ok(Scored(back.prob, State(st1.node, rev2, st1.d)))
  }

  /** lowerorder: continuation counts, normalised by the joint count. */
  function LowerOrder(idx: Lm, syms: Symbols, level: nat, unk: bool, pat: seq<Sym>, st: State, ngramsize: nat)
    : (r: Result<Scored>)
    requires idx.Valid() && Scorable(pat, syms.start) && |pat| >= 2
    decreases |pat|, 0
  {
    var level' := Dec64(level);
    match Pkn(idx, syms, level', unk, pat[1..], st, ngramsize)
    case Err(e) => Err(e)
    case Ok(back) =>
      var st1 := back.st;
      var w := pat[0];
      var rev2 := RevExtend(idx.rev, st1.nodeRev, w);
      var c: real := if idx.rev.size(st1.nodeRev + [w]) > 0 then N1PlusBack(idx.rev, rev2, |pat|) as real else 0.0;
      var D := idx.discount(level', true);
      var numerator := Numerator(unk, c, D);
      if FwdCount(idx.fwd, st1.node, w) > 0 then
        var ctx := [w] + st1.node.s;
        var n1PlusFront := N1PlusFrontKn(idx.fwd, ctx, |pat| - 1);
        var joint := JointContinuation(idx, ctx, |pat| - 1);
        if joint == 0 then Err(IndexInconsistency(ctx))
        else Ok(Scored(Interpolate(numerator, D, n1PlusFront, joint, back.prob), State(At(ctx), rev2, st1.d + 1)))
      else
        Ok(Scored(back.prob, State(Lost, rev2, st1.d)))
  }

  /** lowestorder: the left-continuation count of the last symbol over N1plus_dotdot. */
  function LowestOrder(idx: Lm, last: Sym, st: State): (r: Scored)
    requires idx.Valid()
    ensures r.prob >= 0.0
    ensures r.st.d == st.d + 1 && r.st.node == st.node
    ensures r.st.nodeRev == RevExtend(idx.rev, st.nodeRev, last)
    ensures r.prob * idx.n1PlusDotDot == N1PlusBack(idx.rev, r.st.nodeRev, 1) as real
  {
    var rev2 := RevExtend(idx.rev, st.nodeRev, last);
    var numerator := N1PlusBack(idx.rev, rev2, 1);
    Scored(numerator as real / idx.n1PlusDotDot, State(st.node, rev2, st.d + 1))
  }

  /** lowestorder_unk: discount(1, true) over N1plus_dotdot, whatever the state. */
  function LowestOrderUnk(idx: Lm): (p: real)
    requires idx.Valid()
    ensures p * idx.n1PlusDotDot == idx.discount(1, true)
    ensures idx.discount(1, true) >= 0.0 ==> p >= 0.0
  {
    idx.discount(1, true) / idx.n1PlusDotDot
  }
}
