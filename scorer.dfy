/**
 * The per-document scorer `getSpamProbability`: a sum of per-word log-odds over the
 * accepted tokens, turned into a probability by the logistic function.
 * `Math.log` and `Math.pow(Math.E, _)` are not modelled; they are the two functions
 * of a `FloatMath` value the caller supplies.
 */
module Scorer {
  import opened Text
  import opened Corpus
  import opened Indexer

  /** What the scorer reads: the two trained tables, the stop words and the two training sizes. */
  datatype Trained = Trained(
    spamFreq: Table, hamFreq: Table, stopWords: seq<string>,
    spamLength: int, hamLength: int)

  /** The tables as training leaves them: every count between 1 and its class's number of files. */
  ghost predicate WellFormed(t: Trained) {
    Bounded(t.spamFreq, t.spamLength) && Bounded(t.hamFreq, t.hamLength)
  }

  /** Stand-ins for `Math.log` and `x -> Math.pow(Math.E, x)`. */
  datatype FloatMath = FloatMath(log: real -> real, powE: real -> real)

  /** The two facts about `Math.pow(Math.E, _)` the model relies on: e^0 = 1 and e^x >= 0. */
  ghost predicate Sound(m: FloatMath) {
    m.powE(0.0) == 1.0 && forall x :: m.powE(x) >= 0.0
  }

  /** The token is letters-only after lower-casing and not a stop word (the test at line 93). */
  predicate Accepted(t: Trained, tok: string) {
    var w := Lowercase(tok);
    MatchesLetters(w) && w !in t.stopWords
  }

  /** The token is accepted and its word was seen in both training sets (the guard at line 99). */
  predicate IsEvidence(t: Trained, tok: string) {
    var w := Lowercase(tok);
    Accepted(t, tok) && Get(t.spamFreq, w) != 0 && Get(t.hamFreq, w) != 0
  }

  /** Pr(S|W) from the two rates spamFreq/spamLength and hamFreq/hamLength. */
  function RawProbability(spamFreq: real, hamFreq: real, spamLength: real, hamLength: real): (p: real)
    requires spamFreq > 0.0 && hamFreq > 0.0 && spamLength > 0.0 && hamLength > 0.0
    ensures 0.0 < p < 1.0
    ensures p * (spamFreq * hamLength + hamFreq * spamLength) == spamFreq * hamLength
  {
    var spamContainsWord := spamFreq / spamLength;
    var hamContainsWord := hamFreq / hamLength;
    assert spamContainsWord > 0.0 && hamContainsWord > 0.0;
    RatioBounds(spamContainsWord, hamContainsWord);
    RatioCrossMultiplied(spamFreq, hamFreq, spamLength, hamLength);
    spamContainsWord / (spamContainsWord + hamContainsWord)
  }

  lemma RatioBounds(s: real, h: real)
    requires s > 0.0 && h > 0.0
    ensures 0.0 < s / (s + h) < 1.0
  {
  }

  lemma RatioCrossMultiplied(sf: real, hf: real, sl: real, hl: real)
    requires sf > 0.0 && hf > 0.0 && sl > 0.0 && hl > 0.0
    ensures (sf / sl) / (sf / sl + hf / hl) * (sf * hl + hf * sl) == sf * hl
  {
    var s, h := sf / sl, hf / hl;
    assert s * sl == sf && h * hl == hf;
    assert sf * hl + hf * sl == (s + h) * (sl * hl);
    assert sf * hl == s * (sl * hl);
  }

  /**
   * The rarity correction: the result stays in (0,1) and its distance from 0.5 is the raw
   * distance scaled by k / (4 + k), k = spamFreq + hamFreq, that is, pulled towards 0.5.
   */
  function CorrectedProbability(spamFreq: real, hamFreq: real, p: real): (q: real)
    requires spamFreq >= 0.0 && hamFreq >= 0.0 && 0.0 < p < 1.0
    ensures 0.0 < q < 1.0
    ensures q - 0.5 == (spamFreq + hamFreq) / (4.0 + spamFreq + hamFreq) * (p - 0.5)
  {
    var k := spamFreq + hamFreq;
    assert 0.0 <= k * p <= k;
    var q := (2.0 + k * p) / (4.0 + k);
    assert q * (4.0 + k) == 2.0 + k * p;
    assert (q - 0.5) * (4.0 + k) == k * (p - 0.5);
    q
  }

  /** The corrected probability of a word found in both tables. */
  function WordProbability(t: Trained, w: string): (q: real)
    requires WellFormed(t)
    requires Get(t.spamFreq, w) != 0 && Get(t.hamFreq, w) != 0
    ensures 0.0 < q < 1.0
  {
    var spamFreq := t.spamFreq[w] as real;
    var hamFreq := t.hamFreq[w] as real;
    CorrectedProbability(spamFreq, hamFreq,
      RawProbability(spamFreq, hamFreq, t.spamLength as real, t.hamLength as real))
  }

  /** For a word found in both tables, both counts, both training sizes and both rates are positive. */
  lemma EvidenceRates(t: Trained, w: string, spamFreq: real, hamFreq: real, spamLength: real, hamLength: real)
    requires WellFormed(t)
    requires Get(t.spamFreq, w) != 0 && Get(t.hamFreq, w) != 0
    requires spamFreq == t.spamFreq[w] as real && hamFreq == t.hamFreq[w] as real
    requires spamLength == t.spamLength as real && hamLength == t.hamLength as real
    ensures spamFreq > 0.0 && hamFreq > 0.0 && spamLength > 0.0 && hamLength > 0.0
    ensures spamFreq / spamLength > 0.0 && hamFreq / hamLength > 0.0
  {
  }

  /**
   * Lines 101-104 step by step: the two rates `s` and `h`, the raw probability `p` and the
   * corrected probability `q` computed from them is `WordProbability`.
   */
  lemma WordProbabilityFormula(t: Trained, w: string, spamFreq: real, hamFreq: real, spamLength: real, hamLength: real,
                               s: real, h: real, p: real, q: real)
    requires WellFormed(t)
    requires Get(t.spamFreq, w) != 0 && Get(t.hamFreq, w) != 0
    requires spamFreq == t.spamFreq[w] as real && hamFreq == t.hamFreq[w] as real
    requires spamLength == t.spamLength as real && hamLength == t.hamLength as real
    requires spamLength > 0.0 && hamLength > 0.0 && s == spamFreq / spamLength && h == hamFreq / hamLength
    requires s + h > 0.0 && p == s / (s + h)
    requires 4.0 + spamFreq + hamFreq > 0.0 && q == (2.0 + (spamFreq + hamFreq) * p) / (4.0 + spamFreq + hamFreq)
    ensures q == WordProbability(t, w)
  {
  }

  /** A token's contribution to `n`: the word's log-odds if it is evidence, 0 otherwise. */
  function TokenLogOdds(t: Trained, m: FloatMath, tok: string): (n: real)
    requires WellFormed(t)
  {
    if IsEvidence(t, tok) then
      var q := WordProbability(t, Lowercase(tok));
      m.log(1.0 - q) - m.log(q)
    else 0.0
  }

  /** The value of `n` after the scanner has read `doc`. */
  function LogOdds(t: Trained, m: FloatMath, doc: Document): (n: real)
    requires WellFormed(t)
    decreases |doc|
  {
    if doc == [] then 0.0
    else LogOdds(t, m, doc[..|doc| - 1]) + TokenLogOdds(t, m, doc[|doc| - 1])
  }

  /** `1 / (1 + e^n)`. */
  function Logistic(m: FloatMath, n: real): (p: real)
    requires Sound(m)
    ensures 0.0 < p <= 1.0
    ensures n == 0.0 ==> p == 0.5
  {
    assert m.powE(n) >= 0.0;
    1.0 / (1.0 + m.powE(n))
  }

  /** The spam probability of a document. */
  function Probability(t: Trained, m: FloatMath, doc: Document): (p: real)
    requires WellFormed(t) && Sound(m)
  {
    Logistic(m, LogOdds(t, m, doc))
  }

  /** The tokens of `doc` that count as evidence, in order. */
  function EvidenceTokens(t: Trained, doc: Document): (e: Document)
    decreases |doc|
  {
    if doc == [] then []
    else EvidenceTokens(t, doc[..|doc| - 1]) + (if IsEvidence(t, doc[|doc| - 1]) then [doc[|doc| - 1]] else [])
  }

  // ---------------------------------------------------------------- lemmas

  /** Reading one more token adds its contribution to `n`. */
  lemma LogOddsStep(t: Trained, m: FloatMath, doc: Document, j: nat)
    requires WellFormed(t) && j < |doc|
    ensures LogOdds(t, m, doc[..j + 1]) == LogOdds(t, m, doc[..j]) + TokenLogOdds(t, m, doc[j])
  {
    assert doc[..j + 1][..j] == doc[..j];
  }

  /** Reading an evidence token adds `log(1 - q) - log(q)` for its corrected probability q. */
  lemma EvidenceStep(t: Trained, m: FloatMath, doc: Document, j: nat, n: real, q: real)
    requires WellFormed(t) && j < |doc| && n == LogOdds(t, m, doc[..j])
    requires IsEvidence(t, doc[j]) && q == WordProbability(t, Lowercase(doc[j]))
    ensures n + m.log(1.0 - q) - m.log(q) == LogOdds(t, m, doc[..j + 1])
  {
    LogOddsStep(t, m, doc, j);
  }

  /** Reading a token that is not evidence leaves `n` as it was. */
  lemma NeutralStep(t: Trained, m: FloatMath, doc: Document, j: nat, n: real)
    requires WellFormed(t) && j < |doc| && n == LogOdds(t, m, doc[..j])
    requires !IsEvidence(t, doc[j])
    ensures n == LogOdds(t, m, doc[..j + 1])
  {
    LogOddsStep(t, m, doc, j);
  }

  /** `n` is additive over concatenated token sequences. */
  lemma {:induction false} LogOddsAppend(t: Trained, m: FloatMath, a: Document, b: Document)
    requires WellFormed(t)
    ensures LogOdds(t, m, a + b) == LogOdds(t, m, a) + LogOdds(t, m, b)
    decreases |b|
  {
    if b == [] {
      assert a + b == a;
    } else {
      var n := |b| - 1;
      assert (a + b)[..|a + b| - 1] == a + b[..n];
      LogOddsAppend(t, m, a, b[..n]);
    }
  }

  /**
   * A token that is not evidence (not letters-only, a stop word, or missing from either
   * table) can be removed from anywhere in a document without changing its score.
   */
  lemma IgnoredTokenNoEffect(t: Trained, m: FloatMath, a: Document, tok: string, b: Document)
    requires WellFormed(t) && Sound(m)
    requires !IsEvidence(t, tok)
    ensures LogOdds(t, m, a + [tok] + b) == LogOdds(t, m, a + b)
    ensures Probability(t, m, a + [tok] + b) == Probability(t, m, a + b)
  {
    LogOddsAppend(t, m, a + [tok], b);
    LogOddsAppend(t, m, a, [tok]);
    LogOddsAppend(t, m, a, b);
    assert [tok][..0] == [];
  }

  /** A stop word never influences a score, whatever the tables say about it. */
  lemma StopWordNoEffect(t: Trained, m: FloatMath, a: Document, tok: string, b: Document)
    requires WellFormed(t) && Sound(m)
    requires Lowercase(tok) in t.stopWords
    ensures Probability(t, m, a + [tok] + b) == Probability(t, m, a + b)
  {
    IgnoredTokenNoEffect(t, m, a, tok, b);
  }

  /** Only the evidence tokens matter: `n` over the document equals `n` over its evidence tokens. */
  lemma {:induction false} OnlyEvidenceCounts(t: Trained, m: FloatMath, doc: Document)
    requires WellFormed(t)
    ensures LogOdds(t, m, doc) == LogOdds(t, m, EvidenceTokens(t, doc))
    decreases |doc|
  {
    if doc != [] {
      var n := |doc| - 1;
      OnlyEvidenceCounts(t, m, doc[..n]);
      var e := EvidenceTokens(t, doc[..n]);
      if IsEvidence(t, doc[n]) {
        var e' := e + [doc[n]];
        assert EvidenceTokens(t, doc) == e';
        assert e'[..|e'| - 1] == e && e'[|e'| - 1] == doc[n];
        assert LogOdds(t, m, e') == LogOdds(t, m, e) + TokenLogOdds(t, m, doc[n]);
      } else {
        assert EvidenceTokens(t, doc) == e;
      }
    }
  }

  lemma {:induction false} NoEvidenceTokens(t: Trained, doc: Document)
    requires forall k :: 0 <= k < |doc| ==> !IsEvidence(t, doc[k])
    ensures EvidenceTokens(t, doc) == []
    decreases |doc|
  {
    if doc != [] {
      NoEvidenceTokens(t, doc[..|doc| - 1]);
    }
  }

  /** A document none of whose tokens is evidence has n = 0 and scores exactly 0.5. */
  lemma NoEvidenceIsNeutral(t: Trained, m: FloatMath, doc: Document)
    requires WellFormed(t) && Sound(m)
    requires forall k :: 0 <= k < |doc| ==> !IsEvidence(t, doc[k])
    ensures LogOdds(t, m, doc) == 0.0
    ensures Probability(t, m, doc) == 0.5
  {
    NoEvidenceTokens(t, doc);
    OnlyEvidenceCounts(t, m, doc);
  }

  /** Every score lies in (0, 1]. */
  lemma ProbabilityInRange(t: Trained, m: FloatMath, doc: Document)
    requires WellFormed(t) && Sound(m)
    ensures 0.0 < Probability(t, m, doc) <= 1.0
  {
  }
}
