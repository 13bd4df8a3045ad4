/**
 * The training indexer `getTrainData`: one pass over the files of a folder,
 * updating a word -> count table with the rule
 *   first sighting            -> 1
 *   later sighting in file i  -> min(i + 1, count + 1).
 * The rule is reproduced as written; the lemmas relate the counts it produces
 * to the number of files, to the number of occurrences and to document frequency.
 */
module Indexer {
  import opened Wrappers
  import opened Text
  import opened Corpus

  type Table = map<string, int>

  function Min(a: int, b: int): (m: int) { if a <= b then a else b }

  /** A table's value for `w`, an absent key counting as 0 (the `get(word) == null` case). */
  function Get(freq: Table, w: string): (n: int) {
    if w in freq then freq[w] else 0
  }

  // ---------------------------------------------------------------- specification

  /** The `put` for an accepted word `w` met while scanning file `i`. */
  function Bump(freq: Table, w: string, i: int): (r: Table) {
    if w in freq then freq[w := Min(i + 1, freq[w] + 1)] else freq[w := 1]
  }

  /** One token of file `i`: lower-cased, and counted only when it is letters-only. */
  function IndexToken(freq: Table, t: string, i: int): (r: Table) {
    var w := Lowercase(t);
    if MatchesLetters(w) then Bump(freq, w, i) else freq
  }

  /** The inner `while (scanner.hasNext())` loop over the tokens of file `i`. */
  function IndexDocument(freq: Table, doc: Document, i: int): (r: Table)
    decreases |doc|
  {
    if doc == [] then freq
    else IndexToken(IndexDocument(freq, doc[..|doc| - 1], i), doc[|doc| - 1], i)
  }

  /** The table after the outer loop has finished every file of `docs`, in order. */
  function IndexFolder(docs: seq<Document>): (freq: Table)
    decreases |docs|
  {
    if docs == [] then map[]
    else IndexDocument(IndexFolder(docs[..|docs| - 1]), docs[|docs| - 1], |docs| - 1)
  }

  // ---------------------------------------------------------------- the method

  /**
   * `getTrainData`: a null listing throws NullPointerException, a file that cannot be
   * opened throws FileNotFoundException; otherwise the table built by the two loops.
   */
  method GetTrainData(folder: Folder) returns (r: Result<Table, Error>)
    ensures folder.None? ==> r == Failure(FolderMissing)
    ensures folder.Some? && !Readable(folder.value) ==> r == Failure(DocumentUnreadable)
    ensures folder.Some? && Readable(folder.value) ==> r == Success(IndexFolder(Documents(folder.value)))
  {
    if folder.None? {
      return Failure(FolderMissing);
    }
    var files := folder.value;
    var frequency: Table := map[];
    for i := 0 to |files|
      invariant Readable(files[..i])
      invariant frequency == IndexFolder(Documents(files[..i]))
    {
      if files[i].content.None? {
        return Failure(DocumentUnreadable);
      }
      var words := files[i].content.value;
      ghost var before := frequency;
      var j := 0;
      while j < |words|
        invariant j <= |words|
        invariant frequency == IndexDocument(before, words[..j], i)
      {
        var word := Lowercase(words[j]);
        if MatchesLetters(word) {
          if word in frequency {
            frequency := frequency[word := Min(i + 1, frequency[word] + 1)];
          } else {
            frequency := frequency[word := 1];
          }
        }
        assert words[..j + 1][..j] == words[..j];
        j := j + 1;
      }
      assert words[..j] == words;
      ghost var docs := Documents(files[..i + 1]);
      assert docs[..i] == Documents(files[..i]);
    }
    assert files[..|files|] == files;
    return Success(frequency);
  }

  // ---------------------------------------------------------------- counting

  /** Whether token `t` is counted under key `w`. */
  predicate Hits(t: string, w: string) {
    Lowercase(t) == w && MatchesLetters(w)
  }

  /** The number of tokens of `doc` counted under `w`. */
  function Count(doc: Document, w: string): nat
    decreases |doc|
  {
    if doc == [] then 0
    else Count(doc[..|doc| - 1], w) + (if Hits(doc[|doc| - 1], w) then 1 else 0)
  }

  /** The number of tokens of the whole folder counted under `w`. */
  function Occurrences(docs: seq<Document>, w: string): nat
    decreases |docs|
  {
    if docs == [] then 0 else Occurrences(docs[..|docs| - 1], w) + Count(docs[|docs| - 1], w)
  }

  /** Document frequency: the number of files with at least one token counted under `w`. */
  function DocFrequency(docs: seq<Document>, w: string): nat
    decreases |docs|
  {
    if docs == [] then 0
    else DocFrequency(docs[..|docs| - 1], w) + (if Count(docs[|docs| - 1], w) > 0 then 1 else 0)
  }

  /** Every key is a lower-case letters-only word. */
  ghost predicate KeysWellFormed(freq: Table) {
    forall w :: w in freq ==> IsIndexKey(w)
  }

  /** Every stored count lies in 1..hi. */
  ghost predicate Bounded(freq: Table, hi: int) {
    forall w :: w in freq ==> 1 <= freq[w] <= hi
  }

  // ---------------------------------------------------------------- lemmas

  lemma {:induction false} IndexDocumentKeys(freq: Table, doc: Document, i: int)
    requires KeysWellFormed(freq)
    ensures KeysWellFormed(IndexDocument(freq, doc, i))
    decreases |doc|
  {
    if doc != [] {
      IndexDocumentKeys(freq, doc[..|doc| - 1], i);
      var t := doc[|doc| - 1];
      if MatchesLetters(Lowercase(t)) {
        AcceptedTokenIsKey(t);
      }
    }
  }

  /** Keys of a trained table are non-empty lower-case ASCII words: digits and punctuation never get in. */
  lemma {:induction false} IndexKeysAreWords(docs: seq<Document>)
    ensures KeysWellFormed(IndexFolder(docs))
    decreases |docs|
  {
    if docs != [] {
      IndexKeysAreWords(docs[..|docs| - 1]);
      IndexDocumentKeys(IndexFolder(docs[..|docs| - 1]), docs[|docs| - 1], |docs| - 1);
    }
  }

  lemma {:induction false} IndexDocumentBounded(freq: Table, doc: Document, i: nat)
    requires Bounded(freq, i + 1)
    ensures Bounded(IndexDocument(freq, doc, i), i + 1)
    decreases |doc|
  {
    if doc != [] {
      IndexDocumentBounded(freq, doc[..|doc| - 1], i);
    }
  }

  /** After file `i` every count is in 1..i+1; so the final counts never exceed the number of files. */
  lemma {:induction false} IndexCountBounds(docs: seq<Document>)
    ensures Bounded(IndexFolder(docs), |docs|)
    decreases |docs|
  {
    if docs != [] {
      var n := |docs| - 1;
      IndexCountBounds(docs[..n]);
      IndexDocumentBounded(IndexFolder(docs[..n]), docs[n], n);
    }
  }

  /**
   * One token changes only its own key, and (while the counts are within the bound for
   * file `i`) by +0 or +1, an absent key counting 0, so a new key gets 1; no key is removed;
   * a rejected token changes nothing.
   */
  lemma IndexTokenStep(freq: Table, t: string, i: nat)
    requires Bounded(freq, i + 1)
    ensures var r := IndexToken(freq, t, i);
      && freq.Keys <= r.Keys
      && (forall w :: w in r && w != Lowercase(t) ==> w in freq && r[w] == freq[w])
      && (forall w :: w in freq ==> r[w] == freq[w] || r[w] == freq[w] + 1)
      && (forall w :: Get(r, w) == Get(freq, w) || Get(r, w) == Get(freq, w) + 1)
      && (MatchesLetters(Lowercase(t)) ==> Lowercase(t) in r)
      && (!MatchesLetters(Lowercase(t)) ==> r == freq)
      && (MatchesLetters(Lowercase(t)) && Lowercase(t) !in freq ==> r[Lowercase(t)] == 1)
      && Bounded(r, i + 1)
  {
  }

  lemma {:induction false} IndexDocumentMonotone(freq: Table, doc: Document, i: nat)
    requires Bounded(freq, i + 1)
    ensures var r := IndexDocument(freq, doc, i);
      freq.Keys <= r.Keys && forall w :: w in freq ==> freq[w] <= r[w]
    decreases |doc|
  {
    if doc != [] {
      var prefix := doc[..|doc| - 1];
      IndexDocumentMonotone(freq, prefix, i);
      IndexDocumentBounded(freq, prefix, i);
      IndexTokenStep(IndexDocument(freq, prefix, i), doc[|doc| - 1], i);
    }
  }

  /** While indexing, keys are never removed and counts never decrease: each prefix's table is below the next. */
  lemma {:induction false} IndexFolderMonotone(docs: seq<Document>, j: nat)
    requires j <= |docs|
    ensures var early, late := IndexFolder(docs[..j]), IndexFolder(docs);
      early.Keys <= late.Keys && forall w :: w in early ==> early[w] <= late[w]
    decreases |docs|
  {
    if j < |docs| {
      var n := |docs| - 1;
      assert docs[..n][..j] == docs[..j];
      IndexFolderMonotone(docs[..n], j);
      IndexCountBounds(docs[..n]);
      IndexDocumentMonotone(IndexFolder(docs[..n]), docs[n], n);
    } else {
      assert docs[..j] == docs;
    }
  }

  /**
   * Within one file the count of `w` grows by at most the number of its occurrences there,
   * and by at least one if it occurs and its count was still at most `i`.
   */
  lemma {:induction false} IndexDocumentCount(freq: Table, doc: Document, i: nat, w: string)
    requires Bounded(freq, i + 1)
    ensures Get(IndexDocument(freq, doc, i), w) <= Get(freq, w) + Count(doc, w)
    ensures Get(IndexDocument(freq, doc, i), w) >= Get(freq, w)
    ensures Count(doc, w) > 0 && Get(freq, w) <= i ==> Get(IndexDocument(freq, doc, i), w) >= Get(freq, w) + 1
    decreases |doc|
  {
    if doc != [] {
      var prefix := doc[..|doc| - 1];
      IndexDocumentCount(freq, prefix, i, w);
      IndexDocumentBounded(freq, prefix, i);
    }
  }

  /**
   * The counts sit between document frequency and raw frequency:
   * DocFrequency <= count <= Occurrences, and an absent key has count 0.
   */
  lemma {:induction false} IndexCountBetween(docs: seq<Document>, w: string)
    ensures DocFrequency(docs, w) <= Get(IndexFolder(docs), w) <= Occurrences(docs, w)
    decreases |docs|
  {
    if docs != [] {
      var n := |docs| - 1;
      IndexCountBetween(docs[..n], w);
      IndexCountBounds(docs[..n]);
      IndexDocumentCount(IndexFolder(docs[..n]), docs[n], n, w);
    }
  }

  /** A word is a key exactly when some token of the folder is counted under it. */
  lemma KeyIffOccurs(docs: seq<Document>, w: string)
    ensures w in IndexFolder(docs) <==> Occurrences(docs, w) > 0
  {
    IndexCountBetween(docs, w);
    IndexCountBounds(docs);
    OccursOnlyInSomeDocument(docs, w);
  }

  lemma {:induction false} OccursOnlyInSomeDocument(docs: seq<Document>, w: string)
    ensures Occurrences(docs, w) > 0 <==> DocFrequency(docs, w) > 0
    decreases |docs|
  {
    if docs != [] {
      OccursOnlyInSomeDocument(docs[..|docs| - 1], w);
    }
  }

  /** When no file repeats `w`, the count is exactly its document frequency. */
  lemma {:induction false} OncePerFileIsDocFrequency(docs: seq<Document>, w: string)
    requires forall k :: 0 <= k < |docs| ==> Count(docs[k], w) <= 1
    ensures Get(IndexFolder(docs), w) == DocFrequency(docs, w)
  {
    IndexCountBetween(docs, w);
    OncePerFileOccurrences(docs, w);
  }

  lemma {:induction false} OncePerFileOccurrences(docs: seq<Document>, w: string)
    requires forall k :: 0 <= k < |docs| ==> Count(docs[k], w) <= 1
    ensures Occurrences(docs, w) == DocFrequency(docs, w)
    decreases |docs|
  {
    if docs != [] {
      var n := |docs| - 1;
      assert forall k :: 0 <= k < n ==> docs[..n][k] == docs[k];
      OncePerFileOccurrences(docs[..n], w);
    }
  }

  /**
   * The rule is not document frequency: a word repeated inside the second file is
   * counted twice although it occurs in one file only.
   */
  lemma RepeatedWordOvercounts()
    ensures var docs := [[], ["a", "a"]];
      Get(IndexFolder(docs), "a") == 2 && DocFrequency(docs, "a") == 1
  {
    var docs: seq<Document> := [[], ["a", "a"]];
    assert MatchesLetters("a");
    assert Lowercase("a") == "a";
    assert docs[..1] == [[]];
    assert IndexFolder(docs[..1]) == map[];
    assert ["a", "a"][..1] == ["a"];
    assert ["a"][..0] == [];
    assert IndexDocument(map[], ["a"], 1) == map["a" := 1];
    assert IndexDocument(map[], ["a", "a"], 1) == map["a" := 2];
    assert Count(["a"], "a") == 1;
    assert Count(["a", "a"], "a") == 2;
    assert Count([], "a") == 0;
  }

  /** Within the first file every count is capped at 1: "free free free" gives "free" the count 1. */
  lemma RepeatedWordInOneFile()
    ensures IndexFolder([["free", "free", "free"]]) == map["free" := 1]
  {
    assert Lowercase("free") == "free" && MatchesLetters("free");
    var doc := ["free", "free", "free"];
    var docs: seq<Document> := [doc];
    assert docs[..0] == [];
    assert doc[..2] == ["free", "free"] && doc[..2][..1] == ["free"] && ["free"][..0] == [];
    assert IndexDocument(map[], ["free"], 0) == map["free" := 1];
    assert IndexDocument(map[], ["free", "free"], 0) == map["free" := 1];
    assert IndexDocument(map[], doc, 0) == map["free" := 1];
  }

  /** A folder of one file holding one lower-case word gives that word the count 1. */
  lemma SingleWordFile(w: string)
    requires IsIndexKey(w)
    ensures IndexFolder([[w]]) == map[w := 1]
  {
    KeyIsLowercase(w);
    var doc: Document := [w];
    var docs: seq<Document> := [doc];
    assert docs[..0] == [] && doc[..0] == [];
    assert IndexToken(map[], w, 0) == map[w := 1];
    assert IndexDocument(map[], doc, 0) == map[w := 1];
  }
}
