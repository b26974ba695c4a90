/** The compressed index pair of a cstlm language model, seen as an oracle.
    A node of either suffix tree is named by the string it currently matches:
    the forward tree by the pattern itself (backward search prepends a symbol),
    the reverse tree by the reversed pattern (forward search appends a symbol). */
module Index {

  /** A token id of the corpus. */
  type Sym = nat

  /** The edge symbol that leads only to end-of-corpus occurrences. */
  const Terminator: Sym := 1

  /** The id the sentence scorer treats as an unknown word. */
  const UnkSentinel: Sym := 77777

  /** The largest value of a 64-bit unsigned counter. */
  const MaxU64: nat := 0xFFFF_FFFF_FFFF_FFFF

  /** One suffix tree, answering the queries the scorer makes of a node. */
  datatype Tree = Tree(
    size: seq<Sym> -> nat,          // occurrences of the matched string (rb - lb + 1)
    depth: seq<Sym> -> nat,         // string depth of the node reached by that string
    children: seq<Sym> -> seq<Sym>, // first edge symbol of each child, in child order
    edge: (seq<Sym>, nat) -> Sym)   // symbol at a 1-based position of the node's path label
  {
    /** Number of children of the node reached by `v`. */
    function Degree(v: seq<Sym>): nat
    {
      |children(v)|
    }
  }

  /** The loaded index: both trees, the discount lookup and the precomputed
      two-symbol continuation total `N1plus_dotdot`. */
  datatype Lm = Lm(
    fwd: Tree,
    rev: Tree,
    discount: (nat, bool) -> real,
    n1PlusDotDot: real)
  {
    /** The precomputed total is positive for any non-empty corpus. */
    predicate Valid()
    {
      n1PlusDotDot > 0.0
    }
  }

  /** The reserved sentence-framing symbols. */
  datatype Symbols = Symbols(start: Sym, end: Sym)
  {
    /** Framing symbols are distinct from each other and from the unknown-word id. */
    predicate Valid()
    {
      start != end && start != UnkSentinel && end != UnkSentinel
    }
  }

  /** Why scoring of one sentence was abandoned. */
  datatype Error = IndexInconsistency(context: seq<Sym>)

  datatype Result<T> = Ok(value: T) | Err(error: Error)

  /** The reversal of a sequence. */
  function Reverse(s: seq<Sym>): (r: seq<Sym>)
    ensures |r| == |s|
    ensures forall i :: 0 <= i < |s| ==> r[i] == s[|s| - 1 - i]
  {
    if s == [] then [] else Reverse(s[1..]) + [s[0]]
  }

  /** `x - 1` on a 64-bit unsigned counter, wrapping at zero: the result is
      congruent to `x - 1` modulo 2^64 and stays within the counter's range. */
  function Dec64(x: nat): (r: nat)
    ensures (r + 1) % (MaxU64 + 1) == x % (MaxU64 + 1)
    ensures x <= MaxU64 ==> r <= MaxU64
  {
    if x == 0 then MaxU64 else x - 1
  }
}
