/** The sentence scorer of knm.hpp (run_query_knm and gate) and the scored
    token count of run_queries: a sliding window over the framed sentence,
    one fresh pkn query per window, and the count M of scored tokens that the
    perplexity is normalised by. */
module Scorer {
  import opened Index
  import opened Estimator
  import Knm

  /** Number of symbols of `s` other than `x`. */
  function CountOther(s: seq<Sym>, x: Sym): (k: nat)
    ensures k <= |s|
  {
    if s == [] then 0
    else CountOther(s[..|s| - 1], x) + (if s[|s| - 1] != x then 1 else 0)
  }

  /** Number of occurrences of `x` in `s`. */
  function Count(s: seq<Sym>, x: Sym): (k: nat)
    ensures k <= |s|
  {
    if s == [] then 0
    else Count(s[..|s| - 1], x) + (if s[|s| - 1] == x then 1 else 0)
  }

  lemma {:induction false} CountConcat(a: seq<Sym>, b: seq<Sym>, x: Sym)
    ensures Count(a + b, x) == Count(a, x) + Count(b, x)
    decreases |b|
  {
    if b == [] {
      assert a + b == a;
    } else {
      var b' := b[..|b| - 1];
      assert (a + b)[..|a + b| - 1] == a + b';
      CountConcat(a, b', x);
    }
  }

  /** The deque after pushing `w`: a start symbol is appended; any other
      symbol is appended and the oldest one dropped once the deque holds more
      than `ngramsize` symbols. */
  function Push(win: seq<Sym>, w: Sym, start: Sym, ngramsize: nat): (v: seq<Sym>)
    requires ngramsize >= 1
    ensures |v| >= 1 && v[|v| - 1] == w
  {
    var v := win + [w];
    if w != start && |v| > ngramsize then v[1..] else v
  }

  /** The deque after pushing every symbol of `words` onto an empty one. */
  function DeqAfter(start: Sym, ngramsize: nat, words: seq<Sym>): (v: seq<Sym>)
    requires ngramsize >= 1
    ensures words != [] ==> |v| >= 1 && v[|v| - 1] == words[|words| - 1]
  {
    if words == [] then []
    else Push(DeqAfter(start, ngramsize, words[..|words| - 1]), words[|words| - 1], start, ngramsize)
  }

  /** The windows scored, in order, while pushing `words`: one per symbol
      that is not the start symbol, holding the deque after that push. */
  function Windows(start: Sym, ngramsize: nat, words: seq<Sym>): (ws: seq<seq<Sym>>)
    requires ngramsize >= 1
    ensures |ws| == CountOther(words, start)
    ensures forall i :: 0 <= i < |ws| ==> Scorable(ws[i], start)
  {
    if words == [] then []
    else
      var prev := Windows(start, ngramsize, words[..|words| - 1]);
      if words[|words| - 1] == start then prev
      else prev + [DeqAfter(start, ngramsize, words)]
  }

  /** The last `n` symbols of `s` (all of them when there are fewer). */
  function LastN(s: seq<Sym>, n: nat): (r: seq<Sym>)
    ensures |r| == if |s| <= n then |s| else n
  {
    if |s| <= n then s else s[|s| - n..]
  }

  lemma LastNOfSuffix(u: seq<Sym>, j: nat, n: nat)
    requires j <= |u| && (|u| <= n ==> j == 0) && (|u| > n ==> |u| - j >= n)
    ensures LastN(u[j..], n) == LastN(u, n)
  {
    if |u| > n {
      assert u[j..][|u| - j - n..] == u[|u| - n..];
    } else {
      assert u[0..] == u;
    }
  }

  lemma LastNAppend(a: seq<Sym>, b: seq<Sym>, n: nat)
    ensures LastN(LastN(a, n) + b, n) == LastN(a + b, n)
  {
    var k := |LastN(a, n)|;
    assert LastN(a, n) + b == (a + b)[|a| - k..];
    LastNOfSuffix(a + b, |a| - k, n);
  }

  /** Pushing onto a deque of at most `ngramsize` symbols keeps the last `ngramsize`. */
  lemma PushKeepsLastN(win: seq<Sym>, w: Sym, start: Sym, ngramsize: nat)
    requires ngramsize >= 1 && |win| <= ngramsize && w != start
    ensures Push(win, w, start, ngramsize) == LastN(win + [w], ngramsize)
  {
  }

  /** With the start symbol at most in front, the deque holds exactly the
      last `ngramsize` symbols pushed (all of them while it fills). */
  lemma {:induction false} DeqHoldsLastN(start: Sym, ngramsize: nat, words: seq<Sym>)
    requires ngramsize >= 1
    requires forall k :: 1 <= k < |words| ==> words[k] != start
    ensures DeqAfter(start, ngramsize, words) == LastN(words, ngramsize)
  {
    if |words| == 1 {
      assert words[..0] == [];
    } else if |words| >= 2 {
      var prefix := words[..|words| - 1];
      var w := words[|words| - 1];
      var d := DeqAfter(start, ngramsize, prefix);
      assert d == LastN(prefix, ngramsize) by {
        DeqHoldsLastN(start, ngramsize, prefix);
      }
      assert DeqAfter(start, ngramsize, words) == Push(d, w, start, ngramsize);
      assert Push(d, w, start, ngramsize) == LastN(d + [w], ngramsize) by {
        PushKeepsLastN(d, w, start, ngramsize);
      }
      assert LastN(d + [w], ngramsize) == LastN(words, ngramsize) by {
        LastNAppend(prefix, [w], ngramsize);
        assert prefix + [w] == words;
      }
    }
  }

  /** With the start symbol at most in front, each push after the first
      scores the window of the last `ngramsize` symbols. */
  lemma ScoredWindowIsLastN(start: Sym, ngramsize: nat, words: seq<Sym>)
    requires ngramsize >= 1 && |words| >= 2
    requires forall k :: 1 <= k < |words| ==> words[k] != start
    ensures Windows(start, ngramsize, words)
            == Windows(start, ngramsize, words[..|words| - 1]) + [LastN(words, ngramsize)]
  {
    DeqHoldsLastN(start, ngramsize, words);
  }

  /** With the start symbol at most in front, no scored window holds more
      than `ngramsize` symbols. */
  lemma {:induction false} WindowsAtMostN(start: Sym, ngramsize: nat, words: seq<Sym>)
    requires ngramsize >= 1
    requires forall k :: 1 <= k < |words| ==> words[k] != start
    ensures var ws := Windows(start, ngramsize, words);
            forall i :: 0 <= i < |ws| ==> |ws[i]| <= ngramsize
  {
    if |words| == 1 {
      assert words[..0] == [];
    } else if |words| >= 2 {
      WindowsAtMostN(start, ngramsize, words[..|words| - 1]);
      ScoredWindowIsLastN(start, ngramsize, words);
    }
  }

  /** The deques while pushing 5 6 <s> <s> 7 with order 2 (start symbol 0):
      the two start symbols are appended without a pop. */
  lemma OverfillDeques()
    ensures DeqAfter(0, 2, [5, 6, 0, 0]) == [5, 6, 0, 0]
    ensures DeqAfter(0, 2, [5, 6, 0, 0, 7]) == [6, 0, 0, 7]
  {
    assert [5][..0] == [] && [5, 6][..1] == [5] && [5, 6, 0][..2] == [5, 6];
    assert [5, 6, 0, 0][..3] == [5, 6, 0] && [5, 6, 0, 0, 7][..4] == [5, 6, 0, 0];
    assert DeqAfter(0, 2, [5]) == [5];
    assert DeqAfter(0, 2, [5, 6]) == [5, 6];
    assert DeqAfter(0, 2, [5, 6, 0]) == [5, 6, 0];
  }

  /** Two of the first four symbols of 5 6 <s> <s> 7 are scored. */
  lemma OverfillPrefixCount()
    ensures CountOther([5, 6, 0, 0], 0) == 2
  {
    assert [5][..0] == [] && [5, 6][..1] == [5] && [5, 6, 0][..2] == [5, 6];
    assert [5, 6, 0, 0][..3] == [5, 6, 0];
    assert CountOther([5], 0) == 1;
    assert CountOther([5, 6], 0) == 2;
    assert CountOther([5, 6, 0], 0) == 2;
  }

  /** Without the start-symbol restriction the bound fails: each start symbol
      after the first adds one more symbol, so with order 2 the word sequence
      5 6 <s> <s> 7 scores a last window of four symbols. */
  lemma InnerStartsOverfill()
    ensures var ws := Windows(0, 2, [5, 6, 0, 0, 7]);
            |ws| == 3 && ws[2] == [6, 0, 0, 7] && |ws[2]| == 2 + 2
  {
    OverfillDeques();
    OverfillPrefixCount();
    var words: seq<Sym> := [5, 6, 0, 0, 7];
    assert words[..4] == [5, 6, 0, 0];
  }

  /** A window whose last symbol is the unknown-word id. */
  predicate EndsUnknown(w: seq<Sym>)
  {
    |w| >= 1 && w[|w| - 1] == UnkSentinel
  }

  /** Number of windows whose last symbol is the unknown-word id. */
  function UnkWindows(ws: seq<seq<Sym>>): (k: nat)
    ensures k <= |ws|
  {
    if ws == [] then 0
    else UnkWindows(ws[..|ws| - 1]) + (if EndsUnknown(ws[|ws| - 1]) then 1 else 0)
  }

  /** The unknown-flagged windows are exactly the pushed unknown words. */
  lemma {:induction false} UnkWindowsCountUnknowns(start: Sym, ngramsize: nat, words: seq<Sym>)
    requires ngramsize >= 1 && start != UnkSentinel
    ensures UnkWindows(Windows(start, ngramsize, words)) == Count(words, UnkSentinel)
  {
    if words != [] {
      var prefix := words[..|words| - 1];
      var prev := Windows(start, ngramsize, prefix);
      UnkWindowsCountUnknowns(start, ngramsize, prefix);
      if words[|words| - 1] != start {
        var ws := prev + [DeqAfter(start, ngramsize, words)];
        assert ws[..|ws| - 1] == prev;
      }
    }
  }

  /** What scoring a sequence of windows yields: the log-probability sum (or
      the error that abandoned the sentence) and the counter M. */
  datatype Outcome = Outcome(score: Result<real>, m: nat)

  /** pkn's probability for pattern `w`, on a fresh query at both roots. */
  function PknProb(idx: Lm, syms: Symbols, ngramsize: nat, unk: bool, w: seq<Sym>): Result<real>
    requires idx.Valid() && Scorable(w, syms.start)
  {
    match Pkn(idx, syms, |w|, unk, w, Root, ngramsize)
    case Ok(s) => Ok(s.prob)
    case Err(e) => Err(e)
  }

  /** The result of scoring each window, flagged unknown when it ends with the unknown id. */
  function WindowProbs(idx: Lm, syms: Symbols, ngramsize: nat, ws: seq<seq<Sym>>): (rs: seq<Result<real>>)
    requires idx.Valid()
    requires forall i :: 0 <= i < |ws| ==> Scorable(ws[i], syms.start)
    ensures |rs| == |ws|
  {
    if ws == [] then []
    else
      var w := ws[|ws| - 1];
      assert Scorable(w, syms.start);
      WindowProbs(idx, syms, ngramsize, ws[..|ws| - 1]) + [PknProb(idx, syms, ngramsize, w[|w| - 1] == UnkSentinel, w)]
  }

  /** One loop step of run_query_knm after an outcome `o`: nothing once the
      sentence has failed; otherwise decrement M for an unknown window and
      add log10 of its probability, or fail with its error. */
  function Step(log10: real -> real, o: Outcome, w: seq<Sym>, r: Result<real>): Outcome
    requires |w| >= 1
  {
    if o.score.Err? then o
    else
      var m := if w[|w| - 1] == UnkSentinel then Dec64(o.m) else o.m;
      match r
      case Err(e) => Outcome(Err(e), m)
      case Ok(p) => Outcome(Ok(o.score.value + log10(p)), m)
  }

  /** Fold the window results in order, starting from score 0 and counter `M`. */
  function Accumulate(log10: real -> real, ws: seq<seq<Sym>>, rs: seq<Result<real>>, M: nat): (o: Outcome)
    requires |rs| == |ws| && forall i :: 0 <= i < |ws| ==> |ws[i]| >= 1
    ensures M >= UnkWindows(ws) ==> o.m >= M - UnkWindows(ws)
    ensures M >= UnkWindows(ws) && o.score.Ok? ==> o.m == M - UnkWindows(ws)
  {
    if ws == [] then Outcome(Ok(0.0), M)
    else Step(log10, Accumulate(log10, ws[..|ws| - 1], rs[..|rs| - 1], M), ws[|ws| - 1], rs[|rs| - 1])
  }

  /** run_query_knm's outcome for `words` from counter `M`: every window
      scored by a fresh pkn query, the first error abandoning the rest. */
  function ScoreSentence(idx: Lm, syms: Symbols, log10: real -> real, ngramsize: nat, words: seq<Sym>, M: nat): (o: Outcome)
    requires idx.Valid() && ngramsize >= 1
    ensures var ws := Windows(syms.start, ngramsize, words);
            && (M >= UnkWindows(ws) ==> o.m >= M - UnkWindows(ws))
            && (M >= UnkWindows(ws) && o.score.Ok? ==> o.m == M - UnkWindows(ws))
  {
    var ws := Windows(syms.start, ngramsize, words);
    Accumulate(log10, ws, WindowProbs(idx, syms, ngramsize, ws), M)
  }

  /** Pushing one more symbol: a start symbol changes nothing; any other
      symbol scores the deque it produces. */
  lemma SentenceStep(idx: Lm, syms: Symbols, log10: real -> real, ngramsize: nat, words: seq<Sym>, M: nat)
    requires idx.Valid() && ngramsize >= 1 && words != []
    ensures var prefix := words[..|words| - 1];
            var v := DeqAfter(syms.start, ngramsize, words);
            ScoreSentence(idx, syms, log10, ngramsize, words, M)
            == if words[|words| - 1] == syms.start then ScoreSentence(idx, syms, log10, ngramsize, prefix, M)
               else Step(log10, ScoreSentence(idx, syms, log10, ngramsize, prefix, M), v,
                         PknProb(idx, syms, ngramsize, v[|v| - 1] == UnkSentinel, v))
  {
    var prefix := words[..|words| - 1];
    if words[|words| - 1] != syms.start {
      var prev := Windows(syms.start, ngramsize, prefix);
      var ws := Windows(syms.start, ngramsize, words);
      assert ws[..|ws| - 1] == prev;
      var rs := WindowProbs(idx, syms, ngramsize, ws);
      assert rs[..|rs| - 1] == WindowProbs(idx, syms, ngramsize, prev);
    }
  }

  /** Once a prefix of the sentence has failed, the sentence's outcome is that failure. */
  lemma {:induction false} FailureSticks(idx: Lm, syms: Symbols, log10: real -> real, ngramsize: nat,
                                         words: seq<Sym>, j: nat, M: nat)
    requires idx.Valid() && ngramsize >= 1 && j <= |words|
    requires ScoreSentence(idx, syms, log10, ngramsize, words[..j], M).score.Err?
    ensures ScoreSentence(idx, syms, log10, ngramsize, words, M)
            == ScoreSentence(idx, syms, log10, ngramsize, words[..j], M)
    decreases |words|
  {
    if j == |words| {
      assert words[..j] == words;
    } else {
      var prefix := words[..|words| - 1];
      assert prefix[..j] == words[..j];
      FailureSticks(idx, syms, log10, ngramsize, prefix, j, M);
      SentenceStep(idx, syms, log10, ngramsize, words, M);
    }
  }

  /** One window's pkn query, on a fresh query object at both roots. */
  method ScoreWindow(idx: Lm, syms: Symbols, unk: bool, pattern: seq<Sym>, ngramsize: nat) returns (r: Result<real>)
    requires idx.Valid() && Scorable(pattern, syms.start)
    ensures r == PknProb(idx, syms, ngramsize, unk, pattern)
  {
    var q := new Knm.Query();
    r := q.Pkn(idx, syms, |pattern|, unk, pattern, ngramsize);
  }

  /** One iteration of run_query_knm's loop: push `word` onto the deque and,
      unless it is the start symbol, score the resulting window. `words` is
      the sentence read so far, ending with `word`. */
  method PushWord(idx: Lm, syms: Symbols, log10: real -> real, ngramsize: nat,
                  patternDeq: seq<Sym>, word: Sym, score: real, m: nat, ghost words: seq<Sym>, ghost M: nat)
    returns (deq: seq<Sym>, newScore: Result<real>, newM: nat)
    requires idx.Valid() && ngramsize >= 1
    requires words != [] && words[|words| - 1] == word
    requires patternDeq == DeqAfter(syms.start, ngramsize, words[..|words| - 1])
    requires ScoreSentence(idx, syms, log10, ngramsize, words[..|words| - 1], M) == Outcome(Ok(score), m)
    ensures deq == DeqAfter(syms.start, ngramsize, words)
    ensures Outcome(newScore, newM) == ScoreSentence(idx, syms, log10, ngramsize, words, M)
  {
    SentenceStep(idx, syms, log10, ngramsize, words, M);
    deq := patternDeq + [word];
    newScore, newM := Ok(score), m;
    if word == syms.start {
      return;
    }
    if |deq| > ngramsize {
      deq := deq[1..];
    }
    var pattern := deq;
    var size := |pattern|;
    var unk := false;
    if pattern[size - 1] == UnkSentinel {
      unk := true;
      newM := Dec64(newM);
    }
    var s := ScoreWindow(idx, syms, unk, pattern, ngramsize);
    match s
    case Err(e) => newScore := Err(e);
    case Ok(p) => newScore := Ok(score + log10(p));
  }

  /** run_query_knm: slide the window over `wordVec`, score every window not
      produced by a start-symbol push, and add up log10 of the scores. */
  method RunQueryKnm(idx: Lm, syms: Symbols, log10: real -> real, wordVec: seq<Sym>, M: nat, ngramsize: nat)
    returns (finalScore: Result<real>, mOut: nat)
    requires idx.Valid() && ngramsize >= 1
    ensures Outcome(finalScore, mOut) == ScoreSentence(idx, syms, log10, ngramsize, wordVec, M)
  {
    var score: real := 0.0;
    var m := M;
    var patternDeq: seq<Sym> := [];
    var i := 0;
    while i < |wordVec|
      invariant 0 <= i <= |wordVec|
      invariant patternDeq == DeqAfter(syms.start, ngramsize, wordVec[..i])
      invariant ScoreSentence(idx, syms, log10, ngramsize, wordVec[..i], M) == Outcome(Ok(score), m)
    {
      assert wordVec[..i + 1][..i] == wordVec[..i];
      var next;
      patternDeq, next, m := PushWord(idx, syms, log10, ngramsize, patternDeq, wordVec[i], score, m, wordVec[..i + 1], M);
      if next.Err? {
        FailureSticks(idx, syms, log10, ngramsize, wordVec, i + 1, M);
        return next, m;
      }
      score := next.value;
      i := i + 1;
    }
    assert wordVec[..i] == wordVec;
    finalScore, mOut := Ok(score), m;
  }

  /** gate: frame the sentence with the start and end symbols, start M at
      the original length + 1, and score it. */
  method Gate(idx: Lm, syms: Symbols, log10: real -> real, pattern: seq<Sym>, ngramsize: nat)
    returns (framed: seq<Sym>, sentenceProb: Result<real>, M: nat)
    requires idx.Valid() && ngramsize >= 1
    ensures framed == [syms.start] + pattern + [syms.end]
    ensures Outcome(sentenceProb, M)
            == ScoreSentence(idx, syms, log10, ngramsize, framed, |pattern| + 1)
  {
    var patternSize := |pattern|;
    framed := pattern + [syms.end];
    framed := [syms.start] + framed;
    var m := patternSize + 1;
    sentenceProb, M := RunQueryKnm(idx, syms, log10, framed, m, ngramsize);
  }

  /** After gate, M is the number of scored tokens that are not unknown: the
      words and the end symbol, less one per unknown word. It never reaches 0,
      so the perplexity exponent is defined. */
  lemma GateCount(idx: Lm, syms: Symbols, log10: real -> real, pattern: seq<Sym>, ngramsize: nat)
    requires idx.Valid() && syms.Valid() && ngramsize >= 1
    ensures var framed := [syms.start] + pattern + [syms.end];
            var o := ScoreSentence(idx, syms, log10, ngramsize, framed, |pattern| + 1);
            && o.m >= 1
            && (o.score.Ok? ==> o.m == |pattern| + 1 - Count(pattern, UnkSentinel))
  {
    var framed := [syms.start] + pattern + [syms.end];
    UnkWindowsCountUnknowns(syms.start, ngramsize, framed);
    CountConcat([syms.start] + pattern, [syms.end], UnkSentinel);
    CountConcat([syms.start], pattern, UnkSentinel);
    assert Count([syms.start], UnkSentinel) == 0;
    assert Count([syms.end], UnkSentinel) == 0;
  }

  /** In a gated sentence with no start symbol among its words there is one
      scored window per word plus one for the end symbol, and each push
      after the start symbol scores the last `ngramsize` framed symbols. */
  lemma GateWindows(syms: Symbols, pattern: seq<Sym>, ngramsize: nat)
    requires syms.Valid() && ngramsize >= 1
    requires forall k :: 0 <= k < |pattern| ==> pattern[k] != syms.start
    ensures var framed := [syms.start] + pattern + [syms.end];
            && |Windows(syms.start, ngramsize, framed)| == |pattern| + 1
            && forall j :: 2 <= j <= |framed| ==>
                 Windows(syms.start, ngramsize, framed[..j])
                 == Windows(syms.start, ngramsize, framed[..j - 1]) + [LastN(framed[..j], ngramsize)]
  {
    var framed := [syms.start] + pattern + [syms.end];
    assert forall k :: 1 <= k < |framed| ==> framed[k] != syms.start;
    CountOtherAfterStart(syms.start, framed);
    forall j | 2 <= j <= |framed|
      ensures Windows(syms.start, ngramsize, framed[..j])
              == Windows(syms.start, ngramsize, framed[..j - 1]) + [LastN(framed[..j], ngramsize)]
    {
      var u := framed[..j];
      assert u[..|u| - 1] == framed[..j - 1];
      ScoredWindowIsLastN(syms.start, ngramsize, u);
    }
  }

  /** A sequence that starts with its only start symbol has one symbol
      other than start fewer than its length. */
  lemma {:induction false} CountOtherAfterStart(start: Sym, p: seq<Sym>)
    requires |p| >= 1 && p[0] == start
    requires forall k :: 1 <= k < |p| ==> p[k] != start
    ensures CountOther(p, start) == |p| - 1
  {
    if |p| >= 2 {
      CountOtherAfterStart(start, p[..|p| - 1]);
    } else {
      assert p[..0] == [];
    }
  }

  /** The scored token total over all sentences: each sentence's length less
      one for its start symbol. */
  function ScoredTokens(patterns: seq<seq<Sym>>): int
  {
    if patterns == [] then 0
    else ScoredTokens(patterns[..|patterns| - 1]) + (|patterns[|patterns| - 1]| - 1)
  }

  /** run_queries' accumulation of M over the sentences of a pattern file. */
  method AccumulateM(patterns: seq<seq<Sym>>) returns (M: int)
    ensures M == ScoredTokens(patterns)
  {
    M := 0;
    var i := 0;
    while i < |patterns|
      invariant 0 <= i <= |patterns|
      invariant M == ScoredTokens(patterns[..i])
    {
      assert patterns[..i + 1][..i] == patterns[..i];
      M := M + |patterns[i]| - 1;
      i := i + 1;
    }
    assert patterns[..|patterns|] == patterns;
  }

  /** Number of scored windows over all sentences. */
  function TotalWindows(start: Sym, ngramsize: nat, patterns: seq<seq<Sym>>): nat
    requires ngramsize >= 1
  {
    if patterns == [] then 0
    else TotalWindows(start, ngramsize, patterns[..|patterns| - 1])
         + |Windows(start, ngramsize, patterns[|patterns| - 1])|
  }

  /** For sentences that each begin with the only start symbol they hold, the
      total M equals the number of windows the scorer scores. */
  lemma {:induction false} ScoredTokensCountsWindows(start: Sym, ngramsize: nat, patterns: seq<seq<Sym>>)
    requires ngramsize >= 1
    requires forall j :: 0 <= j < |patterns| ==> |patterns[j]| >= 1 && patterns[j][0] == start
    requires forall j, k :: 0 <= j < |patterns| && 1 <= k < |patterns[j]| ==> patterns[j][k] != start
    ensures ScoredTokens(patterns) == TotalWindows(start, ngramsize, patterns)
  {
    if patterns != [] {
      var p := patterns[|patterns| - 1];
      ScoredTokensCountsWindows(start, ngramsize, patterns[..|patterns| - 1]);
      CountOtherAfterStart(start, p);
    }
  }
}
