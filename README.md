# cstlm Kneser-Ney back-off, modelled in Dafny

cstlm is a language model built on a pair of compressed suffix trees over a
corpus. One tree indexes the text forward and the other indexes it
reversed. This project models its Kneser-Ney (KN) and modified Kneser-Ney
(MKN) query engine.

- **The recursive back-off**, from `include/knm.hpp`. `pkn` dispatches one
  n-gram to `highestorder`, `lowerorder`, `lowestorder` or `lowestorder_unk`.
  Each higher level first scores the pattern without its leading symbol. It
  then extends the reverse-tree node and the forward context node on the
  left by that symbol. If the forward extension finds nothing, it falls back
  to the back-off value.
- **The sentence scorer.** `run_query_knm` slides a window over the
  sentence. The window holds at most `ngramsize` symbols when the start
  symbol is only in front, and one more per inner start symbol. It scores each window with a fresh
  query and keeps the counter `M` of scored tokens. `gate` frames the
  sentence with the start and end symbols before scoring it.
- **The continuation-count rules of the MKN draft**, from
  `src/query-index-knm.cpp`:
  - `N1PlusBack`, `N1PlusFrontBack_Back` and the KN branch of `N1PlusFront`
    count the distinct one-symbol extensions of a node, giving the terminator
    symbol no count;
  - the MKN branch of `N1PlusFront` buckets those extensions by frequency;
  - `discount` selects the discount for a count;
  - `run_queries` accumulates `M` over a pattern file.

The suffix trees are an oracle (`Index.Tree`): total functions giving, for
the string a node matches, its occurrence count, its string depth, its
children's first edge symbols and the edge symbol at a position.

- A forward-tree node is named by the string it matches, and backward search
  prepends a symbol to it. `Estimator.FwdCount` is the count that search
  returns: the occurrences of the left-extended string from a live node,
  and none from the `Lost` node that a failed search leaves behind.
  `Knm.Query.BackwardSearch` is the same count, read from the query's
  current forward node.
- A reverse-tree node is named by the reversed string, and forward search
  appends a symbol to it. `Estimator.RevExtend` is the node it leaves: the
  extended string when that occurs, the old string otherwise.
- `Continuation.Ordered` says a node's children have strictly increasing
  first edge symbols, none of them the text sentinel 0. The draft itself
  tests for edges that start with 0, so this is an assumption about the
  index. `BranchCountsNonTerminators`, `MknBucketsBound` and
  `JointZeroWithoutExtensions` rely on it.
- `Continuation.Extensions` lists the symbols that can follow a node: its
  children's first edge symbols at a branch point, and the single next edge
  symbol mid-edge.
- The by-reference `node`, `node_rev` and `d` that the C++ threads through
  the recursion form an explicit `Estimator.State`. Every specification
  function returns it beside the probability.
- `Knm.Query` is the same state as an object whose methods update it in
  place. Each method is proved to compute exactly what the corresponding
  `Estimator` function says of the state it started from.
- Probabilities are exact `real`s. `log10` is a parameter of the scorer.

Where the draft file is incomplete, the model takes the evident meaning.

- `N1PlusFront` returns `(N, N1, N2, N3)` as a tuple. The source writes
  `return N, N1, N2, N3`, a comma expression.
- The MKN bucket frequency is a repair, not what the draft computes. The
  draft takes `freq` from `leftbound`/`rightbound`, which it has just reset
  to the full range, while `backward_search` writes its result into
  `lb, rb`. So `freq` as written is the size of the whole text. The model
  uses the occurrence count of the extended pattern instead.
- The joint count `N1PlusFrontBack`, whose implementation is not part of this
  model, is the sum over the context's non-terminator right extensions `s` of
  `N1PlusFrontBack_Back` applied to the reversed `context + [s]`.
- The per-order discounts of the loaded index (`idx.discount`) are abstract.
  `Estimator.HighestDiscount` chooses between them as highestorder does:
  `discount(ngramsize)` for a full-order pattern, and `discount(size, true)`
  for a shorter one that starts with the start symbol.
- The index members `N1PlusFront` and `N1PlusBack` that `knm.hpp` calls are
  declared in a header that is not part of this model. The model gives them
  the KN rules of the MKN query file: `Continuation.N1PlusFrontKn` and
  `Continuation.N1PlusBack`.

## Model

| member | source | states |
|---|---|---|
| `Index.Dec64` | include/knm.hpp:79 | `level - 1` on the uint64 `level`: the result plus one is congruent to `level` modulo 2^64, and a value within the 64-bit range stays within it |
| `Estimator.Dispatch` | include/knm.hpp:148-159 | for each case, the case chosen holds exactly when pkn's guard for it holds: highestorder for a full-order pattern (order > 1) or one starting with the start symbol; lowerorder for 1 < size < order; otherwise the unigram case, `lowestorder_unk` exactly when flagged unknown; a scorable unigram never recurses |
| `Estimator.Levels` | include/knm.hpp:146-159 | the recursion reaches a non-recursive case in between 1 and `size` activations, and in exactly one activation iff the first case chosen does not recurse |
| `EstimatorProps.LevelsOfShortPattern` | include/knm.hpp:148-158 | a pattern no longer than the order takes exactly `size` activations: every level above the unigram recurses on `pattern_begin + 1` |
| `Estimator.Numerator` | include/knm.hpp:50-53 | the numerator is `c - D` when positive and not unknown, and 0 otherwise (so never negative, and 0 whenever unknown) |
| `Estimator.JointContinuation` | include/knm.hpp:96-97 | the joint front/back count is 0 when the context has no non-terminator right extension |
| `Estimator.JointZeroWithoutExtensions` | include/knm.hpp:96-105 | a context whose front continuation count is 0 (children in sorted order) has joint count 0 as well, which is why lowerorder reports an error instead of dividing |
| `Estimator.Interpolate` | include/knm.hpp:60 | the back-off formula is non-negative for non-negative inputs, and with a zero numerator it is `D * N1plus_front / denominator * backoff` |
| `Estimator.LowestOrder` | include/knm.hpp:113-129 | the unigram probability times `N1plus_dotdot` is `N1PlusBack` of the reverse node extended by the last symbol alone; d advances by one, the forward node is untouched, and the probability is non-negative |
| `Estimator.LowestOrderUnk` | include/knm.hpp:132-138 | the unknown unigram probability times `N1plus_dotdot` is `discount(1, true)`, so it does not depend on any node |
| `EstimatorProps.HighestOrderFallback` | include/knm.hpp:55-64 | when prepending the leading symbol to the forward context finds nothing, highestorder returns the back-off probability unchanged and keeps the forward node |
| `EstimatorProps.LowerOrderFallback` | include/knm.hpp:93-110 | the same fallback in lowerorder: the back-off probability exactly, with the forward node lost |
| `EstimatorProps.HighestOrderUnknown` | include/knm.hpp:43-61 | for an unknown query only the interpolation term is left, weighted by `discount(ngramsize)` for a full-order pattern and `discount(size, true)` for a shorter one |
| `EstimatorProps.LowerOrderUnknown` | include/knm.hpp:79-105 | for an unknown query lowerorder gives `discount(level - 1, true) * N1plus_front / joint * backoff`, and an error exactly when the joint count is 0 |
| `EstimatorProps.UnknownUnigram` | include/knm.hpp:153-158 | an unknown unigram scores `discount(1, true) / N1plus_dotdot` from any state and leaves the state as it was |
| `EstimatorProps.KnownUnigram` | include/knm.hpp:122-128 | a known unigram scores `N1PlusBack` of its one symbol over `N1plus_dotdot`, after one reverse extension and one step of d |
| `EstimatorProps.HighestOrderExtends` | include/knm.hpp:40-58 | when both extensions succeed, highestorder leaves both nodes extended by the leading symbol and d unchanged |
| `EstimatorProps.LowerOrderExtends` | include/knm.hpp:83-102 | when both extensions succeed, lowerorder leaves both nodes extended by the leading symbol and d advanced by one |
| `EstimatorProps.FreshQueryMatchesPattern` | include/knm.hpp:26-111 | a query from both roots whose every suffix occurs ends with the reverse node on the whole reversed pattern and the forward node on its context; d counts every level except a highestorder one |
| `EstimatorProps.PknNonNegative` | include/knm.hpp:141-161 | with non-negative discounts, every probability pkn returns is non-negative |
| `Knm.Query.constructor` | include/knm.hpp:177-179 | a query starts with both nodes at their roots and d = 0 |
| `Knm.Query.ForwardSearch` | include/knm.hpp:40 | returns the occurrence count of the extended reverse string and moves the reverse node to it when it occurs; nothing else changes |
| `Knm.Query.Pkn` | include/knm.hpp:140-161 | the probability and the new node, reverse node and d are those `Estimator.Pkn` gives for the old state |
| `Knm.Query.HighestOrder` | include/knm.hpp:26-66 | the probability and the new state are those `Estimator.HighestOrder` gives for the old state |
| `Knm.Query.LowerOrder` | include/knm.hpp:68-111 | the probability and the new state are those `Estimator.LowerOrder` gives for the old state |
| `Knm.Query.LowestOrder` | include/knm.hpp:113-129 | the probability and the new state are those `Estimator.LowestOrder` gives for the old state |
| `Continuation.N1PlusBack` | src/query-index-knm.cpp:227-247 | at a branch point: the degree less one iff the first child's edge is the terminator, the degree iff it is not, never more than the degree; mid-edge: 1 iff the next edge symbol is not the terminator, else 0 |
| `Continuation.N1PlusFrontKn` | src/query-index-knm.cpp:160-168 | the KN front count on the forward tree: at a branch point never more than the degree, and the full degree iff the first child's edge is not the terminator; mid-edge at most 1, and 1 iff the next edge symbol is not the terminator |
| `Continuation.N1PlusFrontBackBack` | src/query-index-knm.cpp:65-92 | an absent reverse string counts 0; a present one matched to its full length counts at most the degree, the full degree iff the first child is not the terminator; mid-edge at most 1, and 1 iff the next edge symbol is not the terminator |
| `Continuation.BranchCountsNonTerminators` | src/query-index-knm.cpp:233-239 | at a branch point with sorted children the rule counts exactly the non-terminator children |
| `Continuation.Bucket` | src/query-index-knm.cpp:183-188 | frequency 1, 2, >= 3 fall in buckets 1, 2, 3; frequency 0 falls in none of them |
| `Continuation.CountBucket` | src/query-index-knm.cpp:173-192 | a bucket never holds more than the number of non-terminator extensions |
| `Continuation.BucketsPartition` | src/query-index-knm.cpp:173-192 | every non-terminator extension lands in exactly one bucket: the four bucket counts add up to the number of non-terminator extensions |
| `Continuation.NoZeroBucket` | src/query-index-knm.cpp:179-188 | when every non-terminator extension occurs, none has frequency 0 |
| `Continuation.MknBucketsBound` | src/query-index-knm.cpp:201-221 | N1 + N2 + N3 is at most the number of non-terminator extensions, and equals the KN front count at a branch point with sorted children that all occur |
| `Continuation.N1PlusFront` | src/query-index-knm.cpp:154-225 | under KN: the KN front count and zero buckets; under MKN: N = 0 and N1/N2/N3 the bucket counts of the node's extensions, with `pat` restored after every push |
| `Discounting.SelectDiscount` | src/query-index-knm.cpp:134-152 | under KN the order's Y whatever the count; under MKN D1/D2/D3 of the order for c = 1, 2, >= 3 when the matching n1/n2/n3 is nonzero, and the previous D otherwise (in particular for c <= 0) |
| `Discounting.Discounter.Discount` | src/query-index-knm.cpp:134-152 | assigns D the selected discount for the previous D and returns it |
| `Discounting.KnIgnoresCount` | src/query-index-knm.cpp:148-150 | under KN the discount does not depend on the count or on the previous D |
| `Scorer.Push` | include/knm.hpp:169-174 | the pushed symbol is always the last one of the window |
| `Scorer.DeqAfter` | include/knm.hpp:167-174 | after any push the deque ends with the last symbol pushed |
| `Scorer.Windows` | include/knm.hpp:168-176 | one window is scored per pushed symbol that is not the start symbol, and each is non-empty and does not end with it |
| `Scorer.DeqHoldsLastN` | include/knm.hpp:169-174 | with the start symbol at most in front, the deque holds exactly the last `ngramsize` symbols pushed, or all of them while it fills |
| `Scorer.ScoredWindowIsLastN` | include/knm.hpp:168-176 | with the start symbol at most in front, each push after the first scores the window of the last `ngramsize` symbols |
| `Scorer.WindowsAtMostN` | include/knm.hpp:172-174 | with the start symbol at most in front, no scored window holds more than `ngramsize` symbols |
| `Scorer.InnerStartsOverfill` | include/knm.hpp:169-174 | a start symbol inside the sentence is pushed without a pop: with order 2, the words 5 6 <s> <s> 7 score a last window of four symbols, `6 <s> <s> 7` |
| `Scorer.UnkWindowsCountUnknowns` | include/knm.hpp:181-184 | the windows flagged unknown are exactly the pushed unknown-word ids |
| `Scorer.Accumulate` | include/knm.hpp:181-188 | `M` drops by one per unknown window scored: exactly once per unknown window when the sentence succeeds, and never more often when it fails |
| `Scorer.ScoreSentence` | include/knm.hpp:164-190 | the same bound on `M` for the windows of a whole sentence |
| `Scorer.SentenceStep` | include/knm.hpp:168-188 | pushing the start symbol scores nothing; pushing anything else scores the resulting deque from both roots and adds its log-probability |
| `Scorer.FailureSticks` | include/knm.hpp:186-188 | once a prefix of the sentence has failed, the sentence's outcome is that failure |
| `Scorer.ScoreWindow` | include/knm.hpp:175-187 | a window is scored by pkn on a fresh query at both roots with d = 0 |
| `Scorer.PushWord` | include/knm.hpp:168-188 | one loop iteration leaves the deque and the running outcome those of the sentence read one symbol further |
| `Scorer.RunQueryKnm` | include/knm.hpp:163-191 | the returned score and `M` are `ScoreSentence` of the word vector |
| `Scorer.Gate` | include/knm.hpp:193-204 | the sentence becomes `<s> pattern </s>`, `M` starts at the original length + 1, and the result is that sentence's score |
| `Scorer.GateCount` | include/knm.hpp:196-201 | after gate, M is at least 1, and on success it is the original length + 1 less the number of unknown words |
| `Scorer.GateWindows` | include/knm.hpp:196-201 | a gated sentence without inner start symbols scores one window per word plus one for the end symbol, each after the start symbol holding the last `ngramsize` framed symbols |
| `Scorer.AccumulateM` | src/query-index-knm.cpp:437-440 | `M` is the sum over the sentences of their lengths less one |
| `Scorer.ScoredTokensCountsWindows` | src/query-index-knm.cpp:439-440 | for sentences that each begin with their only start symbol, that total is the number of windows the scorer scores |

## Left out

- Command-line parsing, reading the pattern file, console output and index loading: input and output.
- The sdsl search routines (`backward_search`, `forward_search`, `node`, `select_child`, `sibling`) are foreign code. They are replaced by the `Index.Tree` oracle, and `char_pos` (internal to them) is not modelled.
- The effect of `d` on sdsl's forward search is not modelled. The extension of the reverse node depends only on the string it matches, while `d` itself is threaded and advanced as in the source.
- `log10` is an abstract parameter, and `pow` and the perplexity value are not modelled: transcendental floating point. Probabilities are exact reals, not IEEE doubles.
- Timing with `std::chrono`.
- The draft `pkn` and `run_query_knm` in the MKN query file are not modelled: they use unresolved placeholders and undeclared globals.
- `N1PlusFrontBack_Front` is not modelled: it recurses on itself with arguments of the wrong type and no decreasing measure. The joint count `lowerorder` uses is defined instead from `N1PlusFrontBack_Back`, as described above.
- The `freq == 1 && rightbound != leftbound` guard is not modelled: `freq` is `rightbound - leftbound + 1`, so `freq == 1` means the two bounds are equal and the guard can never fire.
- The `#if 0` `conditional_probability` block is not modelled.
- `Discounting.SelectDiscount`: the `int` return type of `discount` would truncate the discount to an integer; the model returns the exact discount.
- `Discounting.SelectDiscount`: when no branch assigns it, the source reads the uninitialised global `D`; the model keeps the previous `D`, which the caller supplies.
- `Estimator.LowerOrder`: after a failed backward search the source makes `node` from whatever range the failed search left in `lb, rb`. The library's behaviour there is not part of this model, and the source itself leaves it open. The model makes that node `Lost`, from which no later extension succeeds. So every outer level of the same query takes the back-off path.
- `Estimator.RevExtend`: after a failed `forward_search` the model keeps `node_rev` where it was. The library code that decides this is not part of this model. The count `c` of every outer level depends on this choice.
- `Estimator.LowerOrder`: a joint count of 0 would make the C++ divide by zero and produce inf or NaN. The model returns `Err(IndexInconsistency)` instead, and the scorer stops at that window.
- `Scorer.RunQueryKnm`: `M` is unbounded. The decrement wraps at 2^64 as the uint64 does, but the 32-bit `int M` of `run_queries` is not given a width.
- `Continuation.N1PlusBack`: the count is bounded by the degree only at a branch point. Mid-edge it is at most 1, and it can be 1 at a node of degree 0 (a leaf reached mid-edge).
- `EstimatorProps.PknNonNegative`: only non-negativity is proved. An upper bound of 1 would need facts about the corpus counts that the oracle does not carry.
- `Scorer.WindowsAtMostN`: the bound holds only when the start symbol is at most the first symbol. A start symbol later in the sentence is appended without a pop, so a window can hold `ngramsize + k` symbols after `k` inner start symbols. `Scorer.InnerStartsOverfill` exhibits one with `k = 2`.
- `Index.Lm.Valid` requires `N1plus_dotdot > 0`, because `lowestorder` and `lowestorder_unk` divide by it. For an empty corpus, where it is 0, the source would give inf or NaN, and that case is not modelled.
- `Scorer.RunQueryKnm`, `Scorer.Gate` and the deque functions require `ngramsize >= 1`. With order 0 the source pops the deque empty and then reads `pattern.back()` of an empty vector, which is undefined behaviour and is not modelled.
- `Estimator.HighestOrder`: the one-argument call `idx.discount(ngramsize)` is read as `discount(ngramsize, false)`. The default value of that flag is declared in a header that is not part of this model.
- The values of the start and end symbols are defined in `constants.hpp`, which is not part of this model. They are the fields of `Index.Symbols`, distinct from each other and from the unknown-word id 77777.
