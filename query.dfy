/** The by-reference query state of knm.hpp as an object: highestorder,
    lowerorder and lowestorder update the forward node, the reverse node and
    d in place, and each is proved to compute what the Estimator functions
    say of the state it started from. */
module Knm {
  import opened Index
  import opened Continuation
  import opened Estimator

  /** A method's result together with the state it leaves, in the form the
      Estimator functions return. */
  function Observe(r: Result<real>, st: State): (o: Result<Scored>)
    ensures r.Ok? <==> o.Ok?
    ensures r.Ok? ==> o.value == Scored(r.value, st)
  {
    match r
    case Ok(p) => Ok(Scored(p, st))
    case Err(e) => Err(e)
  }

  class Query {
    var node: FwdNode
    var nodeRev: seq<Sym>
    var d: nat

    /** The node/node_rev/d triple as a value. */
    function Current(): State
      reads this
    {
      State(node, nodeRev, d)
    }

    /** Both roots and d = 0. */
    constructor ()
      ensures Current() == Root
    {
      node := At([]);
      nodeRev := [];
      d := 0;
    }

    /** forward_search on the reverse tree: appends `sym` to the reverse node
        when that string occurs; returns the number of occurrences found. */
    method ForwardSearch(rev: Tree, sym: Sym) returns (count: nat)
      modifies this
      ensures count == rev.size(old(nodeRev) + [sym])
      ensures nodeRev == RevExtend(rev, old(nodeRev), sym)
      ensures node == old(node) && d == old(d)
    {
      count := rev.size(nodeRev + [sym]);
      if count > 0 {
        nodeRev := nodeRev + [sym];
      }
    }

    /** backward_search from the forward node's range: the number of
        occurrences of `sym` prepended to the node's string. */
    method BackwardSearch(fwd: Tree, sym: Sym) returns (count: nat)
      ensures count == FwdCount(fwd, node, sym)
    {
      match node
      case At(s) => count := fwd.size([sym] + s);
      case Lost => count := 0;
    }

    method Pkn(idx: Lm, syms: Symbols, level: nat, unk: bool, pat: seq<Sym>, ngramsize: nat)
      returns (r: Result<real>)
      requires idx.Valid() && Scorable(pat, syms.start)
      modifies this
      ensures Observe(r, Current()) == Estimator.Pkn(idx, syms, level, unk, pat, old(Current()), ngramsize)
      decreases |pat|, 1
    {
      var size := |pat|;
      if (size == ngramsize && ngramsize != 1) || pat[0] == syms.start {
        r := HighestOrder(idx, syms, level, unk, pat, ngramsize);
      } else if size < ngramsize && size != 1 {
        r := LowerOrder(idx, syms, level, unk, pat, ngramsize);
      } else if size == 1 || ngramsize == 1 {
        if !unk {
          var p := LowestOrder(idx, pat[size - 1]);
          r := Ok(p);
        } else {
          r := Ok(LowestOrderUnk(idx));
        }
      } else {
        r := Ok(0.0);
      }
    }

    method HighestOrder(idx: Lm, syms: Symbols, level: nat, unk: bool, pat: seq<Sym>, ngramsize: nat)
      returns (r: Result<real>)
      requires idx.Valid() && Scorable(pat, syms.start) && |pat| >= 2
      modifies this
      ensures Observe(r, Current()) == Estimator.HighestOrder(idx, syms, level, unk, pat, old(Current()), ngramsize)
      decreases |pat|, 0
    {
      var back := Pkn(idx, syms, level, unk, pat[1..], ngramsize);
      if back.Err? {
        return back;
      }
      var backoffProb := back.value;
      var c: real := 0.0;
      var found := ForwardSearch(idx.rev, pat[0]);
      if found > 0 {
        c := idx.rev.size(nodeRev) as real;
      }
      var patternSize := |pat|;
      var D: real;
      if patternSize == ngramsize {
        D := idx.discount(ngramsize, false);
      } else {
        D := idx.discount(patternSize, true);
      }
      var numerator: real := 0.0;
      if !unk && c - D > 0.0 {
        numerator := c - D;
      }
      var count := BackwardSearch(idx.fwd, pat[0]);
      if count > 0 {
        node := At([pat[0]] + node.s);
        var denominator := idx.fwd.size(node.s);
        var n1PlusFront := N1PlusFrontKn(idx.fwd, node.s, |pat| - 1);
        r := Ok(Interpolate(numerator, D, n1PlusFront, denominator, backoffProb));
      } else {
        r := Ok(backoffProb);
      }
    }

    method LowerOrder(idx: Lm, syms: Symbols, level: nat, unk: bool, pat: seq<Sym>, ngramsize: nat)
      returns (r: Result<real>)
      requires idx.Valid() && Scorable(pat, syms.start) && |pat| >= 2
      modifies this
      ensures Observe(r, Current()) == Estimator.LowerOrder(idx, syms, level, unk, pat, old(Current()), ngramsize)
      decreases |pat|, 0
    {
      var lvl := Dec64(level);
      var back := Pkn(idx, syms, lvl, unk, pat[1..], ngramsize);
      if back.Err? {
        return back;
      }
      var backoffProb := back.value;
      var c: real := 0.0;
      var found := ForwardSearch(idx.rev, pat[0]);
      if found > 0 {
        c := N1PlusBack(idx.rev, nodeRev, |pat|) as real;
      }
      var D := idx.discount(lvl, true);
      var numerator: real := 0.0;
      if !unk && c - D > 0.0 {
        numerator := c - D;
      }
      var count := BackwardSearch(idx.fwd, pat[0]);
      if count > 0 {
        node := At([pat[0]] + node.s);
        var n1PlusFront := N1PlusFrontKn(idx.fwd, node.s, |pat| - 1);
        var backN1PlusFront := JointContinuation(idx, node.s, |pat| - 1);
        d := d + 1;
        if backN1PlusFront == 0 {
          r := Err(IndexInconsistency(node.s));
        } else {
          r := Ok(Interpolate(numerator, D, n1PlusFront, backN1PlusFront, backoffProb));
        }
      } else {
        node := Lost;
        r := Ok(backoffProb);
      }
    }

    method LowestOrder(idx: Lm, last: Sym) returns (p: real)
      requires idx.Valid()
      modifies this
      ensures Scored(p, Current()) == Estimator.LowestOrder(idx, last, old(Current()))
    {
      var _ := ForwardSearch(idx.rev, last);
      d := d + 1;
      var denominator := idx.n1PlusDotDot;
      var numerator := N1PlusBack(idx.rev, nodeRev, 1);
      p := numerator as real / denominator;
    }
  }
}
