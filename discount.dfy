/** The discount selection of the MKN/KN draft: which precomputed constant
    discounts an n-gram of a given raw count. */
module Discounting {
  import Continuation

  /** Per-order counts-of-counts (n1, n2, n3), the MKN discounts (D1, D2, D3)
      and the single KN discount Y, each indexed by n-gram order. */
  datatype DiscountTable = DiscountTable(
    isMkn: bool,
    n1: seq<nat>, n2: seq<nat>, n3: seq<nat>,
    d1: seq<real>, d2: seq<real>, d3: seq<real>,
    y: seq<real>)
  {
    /** Every table has an entry for order `ngramsize`. */
    predicate Covers(ngramsize: nat)
    {
      && ngramsize < |n1| && ngramsize < |n2| && ngramsize < |n3|
      && ngramsize < |d1| && ngramsize < |d2| && ngramsize < |d3|
      && ngramsize < |y|
    }

    /** The MKN discount of a frequency class, or `current` when that class
        is empty (or is class 0). */
    function ClassDiscount(ngramsize: nat, b: nat, current: real): real
      requires Covers(ngramsize)
    {
      if b == 1 && n1[ngramsize] != 0 then d1[ngramsize]
      else if b == 2 && n2[ngramsize] != 0 then d2[ngramsize]
      else if b == 3 && n3[ngramsize] != 0 then d3[ngramsize]
      else current
    }
  }

  /** The discount for raw count `c`, given the discount `current` held
      before the call: under KN the order's Y; under MKN D1, D2 or D3 for
      c == 1, 2, >= 3 when the matching count-of-count is nonzero, and
      otherwise `current` is kept. */
  function SelectDiscount(t: DiscountTable, ngramsize: nat, c: int, current: real): (d: real)
    requires t.Covers(ngramsize)
    ensures !t.isMkn ==> d == t.y[ngramsize]
    ensures t.isMkn ==> d == t.ClassDiscount(ngramsize, Continuation.Bucket(c), current)
    ensures t.isMkn ==> d == t.d1[ngramsize] || d == t.d2[ngramsize] || d == t.d3[ngramsize] || d == current
    ensures t.isMkn && c <= 0 ==> d == current
  {
    if t.isMkn then
      if c == 1 then
        if t.n1[ngramsize] != 0 then t.d1[ngramsize] else current
      else if c == 2 then
        if t.n2[ngramsize] != 0 then t.d2[ngramsize] else current
      else if c >= 3 then
        if t.n3[ngramsize] != 0 then t.d3[ngramsize] else current
      else current
    else t.y[ngramsize]
  }

  /** Holder of the global `D` that `discount` assigns. */
  class Discounter {
    var D: real

    constructor (initial: real)
      ensures D == initial
    {
      D := initial;
    }

    /** discount(c): assigns D and returns it. */
    method Discount(t: DiscountTable, ngramsize: nat, c: int) returns (r: real)
      requires t.Covers(ngramsize)
      modifies this
      ensures D == SelectDiscount(t, ngramsize, c, old(D))
      ensures r == D
    {
      if t.isMkn {
        if c == 1 {
          if t.n1[ngramsize] != 0 {
            D := t.d1[ngramsize];
          }
        } else if c == 2 {
          if t.n2[ngramsize] != 0 {
            D := t.d2[ngramsize];
          }
        } else if c >= 3 {
          if t.n3[ngramsize] != 0 {
            D := t.d3[ngramsize];
          }
        }
      } else {
        D := t.y[ngramsize];
      }
      r := D;
    }
  }

  /** Under KN the discount does not depend on the count. */
  lemma KnIgnoresCount(t: DiscountTable, ngramsize: nat, c1: int, c2: int, cur1: real, cur2: real)
    requires t.Covers(ngramsize) && !t.isMkn
    ensures SelectDiscount(t, ngramsize, c1, cur1) == SelectDiscount(t, ngramsize, c2, cur2)
  {
  }
}
