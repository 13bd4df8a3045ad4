/**
 * The `SpamDetection` task object: `init` loads the stop words, trains the three
 * tables, merges the two ham tables, scores every test file, tallies the outcomes
 * and appends one row per test file to the results table.
 */
module Detection {
  import opened Wrappers
  import opened Text
  import opened Corpus
  import opened Indexer
  import opened Merge
  import opened Scorer

  /** One row of the results table. */
  datatype TestFile = TestFile(filename: string, spamProbability: real, actualClass: string)

  /**
   * `rows` are the rows for the first |rows| files of a folder: each file could be opened,
   * and row k names file k, carries its spam probability and the folder's class label.
   */
  ghost predicate ScoredRows(t: Trained, m: FloatMath, files: seq<File>, actualClass: string, rows: seq<TestFile>) {
    && WellFormed(t) && Sound(m)
    && |rows| <= |files|
    && forall k :: 0 <= k < |rows| ==>
         && files[k].content.Some?
         && rows[k] == TestFile(files[k].name, Probability(t, m, files[k].content.value), actualClass)
  }

  /** How many rows score below the threshold. */
  function CountBelow(rows: seq<TestFile>, threshold: real): (n: nat)
    decreases |rows|
  {
    if rows == [] then 0
    else CountBelow(rows[..|rows| - 1], threshold) + (if rows[|rows| - 1].spamProbability < threshold then 1 else 0)
  }

  /** How many rows reach the threshold. */
  function CountAtLeast(rows: seq<TestFile>, threshold: real): (n: nat)
    decreases |rows|
  {
    if rows == [] then 0
    else CountAtLeast(rows[..|rows| - 1], threshold) + (if rows[|rows| - 1].spamProbability >= threshold then 1 else 0)
  }

  /** How the training phase of `init` (lines 37-47) ends: the first failure it meets, if any. */
  function TrainOutcome(stopWordFile: Option<seq<string>>, d: Directory): (o: Outcome<Error>)
    ensures o.Pass? <==>
      && stopWordFile.Some?
      && FolderError(d.trainHam).None? && FolderError(d.trainSpam).None? && FolderError(d.trainHam2).None?
    ensures stopWordFile.None? ==> o == Fail(ResourceMissing)
    ensures stopWordFile.Some? && FolderError(d.trainHam).Some? ==> o == Fail(FolderError(d.trainHam).value)
    ensures stopWordFile.Some? && FolderError(d.trainHam).None? && FolderError(d.trainSpam).Some?
      ==> o == Fail(FolderError(d.trainSpam).value)
    ensures (stopWordFile.Some? && FolderError(d.trainHam).None? && FolderError(d.trainSpam).None?
             && FolderError(d.trainHam2).Some?) ==> o == Fail(FolderError(d.trainHam2).value)
  {
    if stopWordFile.None? then Fail(ResourceMissing)
    else if FolderError(d.trainHam).Some? then Fail(FolderError(d.trainHam).value)
    else if FolderError(d.trainSpam).Some? then Fail(FolderError(d.trainSpam).value)
    else if FolderError(d.trainHam2).Some? then Fail(FolderError(d.trainHam2).value)
    else Pass
  }

  /** How the testing phase (lines 50-73) ends: the ham folder is listed and read first. */
  function TestOutcome(d: Directory): (o: Outcome<Error>)
    ensures o.Pass? <==> FolderError(d.testHam).None? && FolderError(d.testSpam).None?
    ensures FolderError(d.testHam).Some? ==> o == Fail(FolderError(d.testHam).value)
    ensures FolderError(d.testHam).None? && FolderError(d.testSpam).Some? ==> o == Fail(FolderError(d.testSpam).value)
  {
    if FolderError(d.testHam).Some? then Fail(FolderError(d.testHam).value)
    else if FolderError(d.testSpam).Some? then Fail(FolderError(d.testSpam).value)
    else Pass
  }

  /** How `init` ends: the first failure in the order the source meets them, or normal completion. */
  function RunOutcome(stopWordFile: Option<seq<string>>, d: Directory): (o: Outcome<Error>)
    ensures o.Pass? <==> TrainOutcome(stopWordFile, d).Pass? && TestOutcome(d).Pass?
    ensures TrainOutcome(stopWordFile, d).Fail? ==> o == TrainOutcome(stopWordFile, d)
    ensures TrainOutcome(stopWordFile, d).Pass? ==> o == TestOutcome(d)
  {
    if TrainOutcome(stopWordFile, d).Fail? then TrainOutcome(stopWordFile, d) else TestOutcome(d)
  }

  // ---------------------------------------------------------------- lemmas

  lemma AppendAssociates<T>(a: seq<T>, b: seq<T>, c: seq<T>)
    ensures a + b + c == a + (b + c)
  {
  }

  /** Counting one more row. */
  lemma CountStep(rows: seq<TestFile>, row: TestFile, threshold: real)
    ensures CountBelow(rows + [row], threshold)
      == CountBelow(rows, threshold) + (if row.spamProbability < threshold then 1 else 0)
    ensures CountAtLeast(rows + [row], threshold)
      == CountAtLeast(rows, threshold) + (if row.spamProbability >= threshold then 1 else 0)
  {
    assert (rows + [row])[..|rows|] == rows;
  }

  /** Every row is either below the threshold or not: true negatives plus false positives is the ham file count. */
  lemma {:induction false} TalliesPartition(rows: seq<TestFile>, threshold: real)
    ensures CountBelow(rows, threshold) + CountAtLeast(rows, threshold) == |rows|
    decreases |rows|
  {
    if rows != [] {
      TalliesPartition(rows[..|rows| - 1], threshold);
    }
  }

  /** Scoring the next file of the folder extends the rows by its row. */
  lemma ScoredRowsStep(t: Trained, m: FloatMath, files: seq<File>, actualClass: string, rows: seq<TestFile>, p: real)
    requires ScoredRows(t, m, files, actualClass, rows) && |rows| < |files|
    requires files[|rows|].content.Some? && p == Probability(t, m, files[|rows|].content.value)
    ensures ScoredRows(t, m, files, actualClass, rows + [TestFile(files[|rows|].name, p, actualClass)])
  {
  }

  /** The true positives never exceed the number of spam test files. */
  lemma TruePositivesBounded(rows: seq<TestFile>, threshold: real)
    ensures CountAtLeast(rows, threshold) <= |rows|
  {
    TalliesPartition(rows, threshold);
  }

  /** The tie-break: a ham document without evidence scores 0.5 and counts as a false positive. */
  lemma NeutralHamIsFalsePositive(t: Trained, m: FloatMath, f: File, rows: seq<TestFile>)
    requires ScoredRows(t, m, [f], "Ham", rows) && |rows| == 1
    requires f.content.Some?
    requires forall k :: 0 <= k < |f.content.value| ==> !IsEvidence(t, f.content.value[k])
    ensures rows == [TestFile(f.name, 0.5, "Ham")]
    ensures CountBelow(rows, 0.5) == 0 && CountAtLeast(rows, 0.5) == 1
  {
    NoEvidenceIsNeutral(t, m, f.content.value);
    assert rows[0] == TestFile(f.name, 0.5, "Ham");
    assert rows[..0] == [];
  }

  /**
   * Spam training file "free free free", ham training file "hello": "free" is counted once,
   * is absent from the ham table, so the test document "free" scores exactly 0.5.
   */
  lemma SingleSpamWordScenario(m: FloatMath)
    requires Sound(m)
    ensures var spam, ham := IndexFolder([["free", "free", "free"]]), IndexFolder([["hello"]]);
      && spam == map["free" := 1]
      && "free" !in ham
      && var t := Trained(spam, ham, [], 1, 1);
         WellFormed(t) && Probability(t, m, ["free"]) == 0.5
  {
    RepeatedWordInOneFile();
    SingleWordFile("hello");
    var t := Trained(map["free" := 1], map["hello" := 1], [], 1, 1);
    assert !IsEvidence(t, "free");
    NoEvidenceIsNeutral(t, m, ["free"]);
  }

  /**
   * A word seen in any number c of the spam files and in no ham file never reaches the
   * corrected formula: it is not evidence, and a document made of it scores exactly 0.5.
   */
  lemma SpamOnlyWordScenario(m: FloatMath, w: string, c: int, spamLength: int, ham: Table, hamLength: int)
    requires Sound(m) && IsIndexKey(w)
    requires 1 <= c <= spamLength
    requires Bounded(ham, hamLength) && w !in ham
    ensures var t := Trained(map[w := c], ham, [], spamLength, hamLength);
      WellFormed(t) && Probability(t, m, [w]) == 0.5
  {
    var t := Trained(map[w := c], ham, [], spamLength, hamLength);
    KeyIsLowercase(w);
    assert !IsEvidence(t, w);
    NoEvidenceIsNeutral(t, m, [w]);
  }

  // ---------------------------------------------------------------- the task object

  class SpamDetection {
    const mainDirectory: Directory
    var trainHamFreq: Table
    var trainSpamFreq: Table
    var stopWords: seq<string>
    var truePositives: int
    var trueNegatives: int
    var falsePositive: int
    var trainHamFolder: Folder
    var trainHamFolder2: Folder
    var trainSpamFolder: Folder
    var testHamFolder: Folder
    var testSpamFolder: Folder
    /** `table.getItems()`: the rows of the results table. */
    var items: seq<TestFile>

    constructor (mainDirectory: Directory, items: seq<TestFile>)
      ensures this.mainDirectory == mainDirectory && this.items == items
      ensures trainHamFreq == map[] && trainSpamFreq == map[] && stopWords == []
      ensures truePositives == 0 && trueNegatives == 0 && falsePositive == 0
      ensures trainHamFolder.None? && trainHamFolder2.None? && trainSpamFolder.None?
      ensures testHamFolder.None? && testSpamFolder.None?
    {
      this.mainDirectory := mainDirectory;
      this.items := items;
      trainHamFreq, trainSpamFreq, stopWords := map[], map[], [];
      truePositives, trueNegatives, falsePositive := 0, 0, 0;
      trainHamFolder, trainHamFolder2, trainSpamFolder := None, None, None;
      testHamFolder, testSpamFolder := None, None;
    }

    /** What the scorer reads from this object, with the two training sizes it is given. */
    function Snapshot(spamLength: int, hamLength: int): (t: Trained)
      reads this`trainSpamFreq, this`trainHamFreq, this`stopWords
    {
      Trained(trainSpamFreq, trainHamFreq, stopWords, spamLength, hamLength)
    }

    /** `loadStopWords`: appends every token of the stop-word file, or throws if it cannot be opened. */
    method LoadStopWords(stopWordFile: Option<seq<string>>) returns (o: Outcome<Error>)
      modifies this`stopWords
      ensures stopWordFile.None? ==> o == Fail(ResourceMissing) && stopWords == old(stopWords)
      ensures stopWordFile.Some? ==> o == Pass && stopWords == old(stopWords) + stopWordFile.value
    {
      if stopWordFile.None? {
        return Fail(ResourceMissing);
      }
      var words := stopWordFile.value;
      for i := 0 to |words|
        invariant stopWords == old(stopWords) + words[..i]
      {
        stopWords := stopWords + [words[i]];
        assert words[..i + 1] == words[..i] + [words[i]];
      }
      assert words[..|words|] == words;
      return Pass;
    }

    /** `getTrainSpamLength`: the number of spam training files, one per document the spam table was built from. */
    function GetTrainSpamLength(): (n: nat)
      reads this`trainSpamFolder
      requires trainSpamFolder.Some?
      ensures Readable(trainSpamFolder.value) ==> n == |Documents(trainSpamFolder.value)|
    {
      |trainSpamFolder.value|
    }

    /** `getTrainHamLength`: both ham folders together, one per document either ham table was built from. */
    function GetTrainHamLength(): (n: nat)
      reads this`trainHamFolder, this`trainHamFolder2
      requires trainHamFolder.Some? && trainHamFolder2.Some?
      ensures n >= |trainHamFolder.value| && n >= |trainHamFolder2.value|
      ensures Readable(trainHamFolder.value) && Readable(trainHamFolder2.value) ==>
        n == |Documents(trainHamFolder.value)| + |Documents(trainHamFolder2.value)|
    {
      |trainHamFolder.value| + |trainHamFolder2.value|
    }

    /** Line 47: every entry of `ham2` is merged into the ham table by `Integer::sum`, in any key order. */
    method MergeHam2(ham2: Table)
      modifies this`trainHamFreq
      ensures trainHamFreq == MergeSum(old(trainHamFreq), ham2)
    {
      var rest := ham2.Keys;
      ghost var done: set<string> := {};
      while rest != {}
        invariant rest + done == ham2.Keys && rest !! done
        invariant trainHamFreq.Keys == old(trainHamFreq).Keys + done
        invariant forall w :: w in trainHamFreq ==>
          trainHamFreq[w] == Get(old(trainHamFreq), w) + (if w in done then ham2[w] else 0)
        decreases rest
      {
        var key :| key in rest;
        var value := ham2[key];
        if key in trainHamFreq {
          trainHamFreq := trainHamFreq[key := trainHamFreq[key] + value];
        } else {
          trainHamFreq := trainHamFreq[key := value];
        }
        rest := rest - {key};
        done := done + {key};
      }
    }

    /** `getSpamProbability`: the `while (scanner.hasNext())` loop accumulating `n`, then `1 / (1 + e^n)`. */
    method GetSpamProbability(file: File, spamLength: int, hamLength: int, m: FloatMath)
      returns (r: Result<real, Error>)
      requires Sound(m) && WellFormed(Snapshot(spamLength, hamLength))
      ensures file.content.None? ==> r == Failure(DocumentUnreadable)
      ensures file.content.Some? ==>
        r == Success(Probability(Snapshot(spamLength, hamLength), m, file.content.value))
    {
      if file.content.None? {
        return Failure(DocumentUnreadable);
      }
      ghost var t := Snapshot(spamLength, hamLength);
      var words := file.content.value;
      var n: real := 0.0;
      var j := 0;
      while j < |words|
        invariant j <= |words|
        invariant n == LogOdds(t, m, words[..j])
      {
        var word := Lowercase(words[j]);
        ghost var n0 := n;
        if MatchesLetters(word) && word !in stopWords {
          var spamFreq: real := if word in trainSpamFreq then trainSpamFreq[word] as real else 0.0;
          var hamFreq: real := if word in trainHamFreq then trainHamFreq[word] as real else 0.0;
          if spamFreq != 0.0 && hamFreq != 0.0 {
            EvidenceRates(t, word, spamFreq, hamFreq, spamLength as real, hamLength as real);
            var spamContainsWord := spamFreq / spamLength as real;
            var hamContainsWord := hamFreq / hamLength as real;
            var spamProbability := spamContainsWord / (spamContainsWord + hamContainsWord);
            ghost var raw := spamProbability;
            spamProbability := (2.0 + (spamFreq + hamFreq) * spamProbability) / (4.0 + spamFreq + hamFreq);
            WordProbabilityFormula(t, word, spamFreq, hamFreq, spamLength as real, hamLength as real,
              spamContainsWord, hamContainsWord, raw, spamProbability);
            n := n + m.log(1.0 - spamProbability) - m.log(spamProbability);
            EvidenceStep(t, m, words, j, n0, spamProbability);
          } else {
            var spamProbability := 0.5;
            n := n + m.log(1.0 - spamProbability) - m.log(spamProbability);
            NeutralStep(t, m, words, j, n0);
          }
        } else {
          NeutralStep(t, m, words, j, n0);
        }
        j := j + 1;
      }
      assert words[..j] == words;
      assert m.powE(n) >= 0.0;
      return Success(1.0 / (1.0 + m.powE(n)));
    }

    /**
     * Lines 55-64: score each ham test file, count it a true negative below 0.5, else a false
     * positive, and append its row. The ghost result `rows` names the rows appended.
     */
    method TestHam(files: seq<File>, spamLength: int, hamLength: int, m: FloatMath)
      returns (o: Outcome<Error>, ghost rows: seq<TestFile>)
      requires Sound(m) && WellFormed(Snapshot(spamLength, hamLength))
      modifies this`items, this`trueNegatives, this`falsePositive
      ensures o.Pass? <==> Readable(files)
      ensures o.Fail? ==> o.error == DocumentUnreadable
      ensures o.Pass? ==>
        && |rows| == |files| && ScoredRows(Snapshot(spamLength, hamLength), m, files, "Ham", rows)
        && items == old(items) + rows
        && trueNegatives == old(trueNegatives) + CountBelow(rows, 0.5)
        && falsePositive == old(falsePositive) + CountAtLeast(rows, 0.5)
    {
      ghost var t := Snapshot(spamLength, hamLength);
      rows := [];
      for i := 0 to |files|
        invariant |rows| == i && ScoredRows(t, m, files, "Ham", rows)
        invariant items == old(items) + rows
        invariant trueNegatives == old(trueNegatives) + CountBelow(rows, 0.5)
        invariant falsePositive == old(falsePositive) + CountAtLeast(rows, 0.5)
      {
        var r := GetSpamProbability(files[i], spamLength, hamLength, m);
        if r.Failure? {
          assert !Readable(files) by {
            assert files[i].content.None?;
          }
          return Fail(r.error), rows;
        }
        var spamProbability := r.value;
        var testFile := TestFile(files[i].name, spamProbability, "Ham");
        ScoredRowsStep(t, m, files, testFile.actualClass, rows, spamProbability);
        if spamProbability < 0.5 {
          trueNegatives := trueNegatives + 1;
        } else {
          falsePositive := falsePositive + 1;
        }
        CountStep(rows, testFile, 0.5);
        AppendAssociates(old(items), rows, [testFile]);
        items := items + [testFile];
        rows := rows + [testFile];
      }
      return Pass, rows;
    }

    /**
     * Lines 66-73: score each spam test file, count it a true positive at 0.5 or above, and
     * append its row. The ghost result `rows` names the rows appended.
     */
    method TestSpam(files: seq<File>, spamLength: int, hamLength: int, m: FloatMath)
      returns (o: Outcome<Error>, ghost rows: seq<TestFile>)
      requires Sound(m) && WellFormed(Snapshot(spamLength, hamLength))
      modifies this`items, this`truePositives
      ensures o.Pass? <==> Readable(files)
      ensures o.Fail? ==> o.error == DocumentUnreadable
      ensures o.Pass? ==>
        && |rows| == |files| && ScoredRows(Snapshot(spamLength, hamLength), m, files, "Spam", rows)
        && items == old(items) + rows
        && truePositives == old(truePositives) + CountAtLeast(rows, 0.5)
    {
      ghost var t := Snapshot(spamLength, hamLength);
      rows := [];
      for i := 0 to |files|
        invariant |rows| == i && ScoredRows(t, m, files, "Spam", rows)
        invariant items == old(items) + rows
        invariant truePositives == old(truePositives) + CountAtLeast(rows, 0.5)
      {
        var r := GetSpamProbability(files[i], spamLength, hamLength, m);
        if r.Failure? {
          assert !Readable(files) by {
            assert files[i].content.None?;
          }
          return Fail(r.error), rows;
        }
        var spamProbability := r.value;
        var testFile := TestFile(files[i].name, spamProbability, "Spam");
        ScoredRowsStep(t, m, files, testFile.actualClass, rows, spamProbability);
        if spamProbability >= 0.5 {
          truePositives := truePositives + 1;
        }
        CountStep(rows, testFile, 0.5);
        AppendAssociates(old(items), rows, [testFile]);
        items := items + [testFile];
        rows := rows + [testFile];
      }
      return Pass, rows;
    }

    /** The state the training phase leaves: folders recorded, tables built from them. */
    ghost predicate TrainedFrom(d: Directory)
      reads this`trainHamFolder, this`trainHamFolder2, this`trainSpamFolder, this`trainHamFreq, this`trainSpamFreq
    {
      && trainHamFolder == d.trainHam && trainHamFolder2 == d.trainHam2 && trainSpamFolder == d.trainSpam
      && FolderError(d.trainHam).None? && FolderError(d.trainHam2).None? && FolderError(d.trainSpam).None?
      && trainSpamFreq == IndexFolder(Documents(d.trainSpam.value))
      && trainHamFreq == MergeSum(IndexFolder(Documents(d.trainHam.value)), IndexFolder(Documents(d.trainHam2.value)))
    }

    /** The scorer's view once training is done: the tables with `getTrainSpamLength()` and `getTrainHamLength()`. */
    function TrainedSnapshot(): (t: Trained)
      reads this`trainHamFolder, this`trainHamFolder2, this`trainSpamFolder
      reads this`trainSpamFreq, this`trainHamFreq, this`stopWords
      requires trainSpamFolder.Some? && trainHamFolder.Some? && trainHamFolder2.Some?
    {
      Snapshot(GetTrainSpamLength(), GetTrainHamLength())
    }

    /** The training counts are within the folder sizes, so every division the scorer makes is defined. */
    lemma TrainedIsWellFormed(d: Directory)
      requires TrainedFrom(d)
      ensures WellFormed(TrainedSnapshot())
    {
      var ham, ham2 := Documents(d.trainHam.value), Documents(d.trainHam2.value);
      IndexCountBounds(ham);
      IndexCountBounds(ham2);
      IndexCountBounds(Documents(d.trainSpam.value));
      MergeBounded(IndexFolder(ham), IndexFolder(ham2), |ham|, |ham2|);
    }

    /** Lines 37-47: load the stop words, index the three training folders, merge the ham tables. */
    method Train(stopWordFile: Option<seq<string>>) returns (o: Outcome<Error>)
      modifies this`stopWords, this`trainHamFolder, this`trainHamFolder2, this`trainSpamFolder
      modifies this`trainHamFreq, this`trainSpamFreq
      ensures o == TrainOutcome(stopWordFile, mainDirectory)
      ensures o.Pass? ==> TrainedFrom(mainDirectory) && stopWords == old(stopWords) + stopWordFile.value
    {
      o := LoadStopWords(stopWordFile);
      if o.Fail? {
        return;
      }
      trainHamFolder := mainDirectory.trainHam;
      trainHamFolder2 := mainDirectory.trainHam2;
      trainSpamFolder := mainDirectory.trainSpam;

      var ham := GetTrainData(trainHamFolder);
      if ham.Failure? {
        return Fail(ham.error);
      }
      trainHamFreq := ham.value;
      var spam := GetTrainData(trainSpamFolder);
      if spam.Failure? {
        return Fail(spam.error);
      }
      trainSpamFreq := spam.value;
      var ham2 := GetTrainData(trainHamFolder2);
      if ham2.Failure? {
        return Fail(ham2.error);
      }
      MergeHam2(ham2.value);
    }

    /**
     * Lines 50-73: list the two test folders and score the ham files, then the spam files.
     * The ghost results name the rows appended for each folder.
     */
    method Test(m: FloatMath) returns (o: Outcome<Error>, ghost hamRows: seq<TestFile>, ghost spamRows: seq<TestFile>)
      requires Sound(m)
      requires trainSpamFolder.Some? && trainHamFolder.Some? && trainHamFolder2.Some?
      requires WellFormed(TrainedSnapshot())
      modifies this`testHamFolder, this`testSpamFolder
      modifies this`items, this`trueNegatives, this`falsePositive, this`truePositives
      ensures o == TestOutcome(mainDirectory)
      ensures o.Pass? ==>
        Tested(old(TrainedSnapshot()), m, old(items), old(trueNegatives), old(falsePositive), old(truePositives), hamRows, spamRows)
    {
      testHamFolder := mainDirectory.testHam;
      testSpamFolder := mainDirectory.testSpam;
      var trainSpamLength, trainHamLength := GetTrainSpamLength(), GetTrainHamLength();
      ghost var t := TrainedSnapshot();
      spamRows := [];
      if testHamFolder.None? {
        return Fail(FolderMissing), [], [];
      }
      var hamFiles := testHamFolder.value;
      o, hamRows := TestHam(hamFiles, trainSpamLength, trainHamLength, m);
      if o.Fail? {
        return;
      }
      if testSpamFolder.None? {
        return Fail(FolderMissing), hamRows, [];
      }
      var spamFiles := testSpamFolder.value;
      o, spamRows := TestSpam(spamFiles, trainSpamLength, trainHamLength, m);
      if o.Pass? {
        AppendAssociates(old(items), hamRows, spamRows);
      }
    }

    /**
     * What a completed testing phase leaves: the ham rows then the spam rows appended to the
     * table; the counters moved by the ham rows below and at 0.5 and the spam rows at 0.5.
     */
    ghost predicate Tested(t: Trained, m: FloatMath, items0: seq<TestFile>, trueNegatives0: int, falsePositive0: int,
                           truePositives0: int, hamRows: seq<TestFile>, spamRows: seq<TestFile>)
      reads this`testHamFolder, this`testSpamFolder
      reads this`items, this`trueNegatives, this`falsePositive, this`truePositives
    {
      && testHamFolder == mainDirectory.testHam && testSpamFolder == mainDirectory.testSpam
      && testHamFolder.Some? && testSpamFolder.Some?
      && |hamRows| == |testHamFolder.value| && ScoredRows(t, m, testHamFolder.value, "Ham", hamRows)
      && |spamRows| == |testSpamFolder.value| && ScoredRows(t, m, testSpamFolder.value, "Spam", spamRows)
      && items == items0 + hamRows + spamRows
      && trueNegatives == trueNegatives0 + CountBelow(hamRows, 0.5)
      && falsePositive == falsePositive0 + CountAtLeast(hamRows, 0.5)
      && truePositives == truePositives0 + CountAtLeast(spamRows, 0.5)
    }

    /** `init`: the whole run, ending in the first failure the source meets or in the full results. */
    method Init(stopWordFile: Option<seq<string>>, m: FloatMath)
      returns (o: Outcome<Error>, ghost hamRows: seq<TestFile>, ghost spamRows: seq<TestFile>)
      requires Sound(m)
      modifies this
      ensures o == RunOutcome(stopWordFile, mainDirectory)
      ensures o.Pass? ==> TrainedFrom(mainDirectory) && stopWords == old(stopWords) + stopWordFile.value
      ensures o.Pass? ==>
        Tested(TrainedSnapshot(), m, old(items), old(trueNegatives), old(falsePositive), old(truePositives), hamRows, spamRows)
    {
      hamRows, spamRows := [], [];
      o := Train(stopWordFile);
      if o.Fail? {
        return;
      }
      TrainedIsWellFormed(mainDirectory);
      o, hamRows, spamRows := Test(m);
    }

    /**
     * After a completed run every ham test file is tallied exactly once, no spam test file
     * more than once, and the table gained one row per test file: ham rows first, then spam.
     */
    lemma TallyAccounting(m: FloatMath, items0: seq<TestFile>, tn0: int, fp0: int, tp0: int,
                          hamRows: seq<TestFile>, spamRows: seq<TestFile>)
      requires Sound(m) && trainSpamFolder.Some? && trainHamFolder.Some? && trainHamFolder2.Some?
      requires Tested(TrainedSnapshot(), m, items0, tn0, fp0, tp0, hamRows, spamRows)
      ensures trueNegatives - tn0 + (falsePositive - fp0) == |testHamFolder.value|
      ensures 0 <= truePositives - tp0 <= |testSpamFolder.value|
      ensures |items| == |items0| + |testHamFolder.value| + |testSpamFolder.value|
      ensures forall k :: |items0| <= k < |items0| + |testHamFolder.value| ==> items[k].actualClass == "Ham"
      ensures forall k :: |items0| + |testHamFolder.value| <= k < |items| ==> items[k].actualClass == "Spam"
    {
      TalliesPartition(hamRows, 0.5);
      TruePositivesBounded(spamRows, 0.5);
      forall k | |items0| <= k < |items0| + |hamRows|
        ensures items[k].actualClass == "Ham"
      {
        assert items[k] == hamRows[k - |items0|];
      }
      forall k | |items0| + |hamRows| <= k < |items|
        ensures items[k].actualClass == "Spam"
      {
        assert items[k] == spamRows[k - |items0| - |hamRows|];
      }
    }
  }
}
