# Spam detection: a verified model of the word-frequency filter

The repository is a small JavaFX application whose one algorithm lives in
`src/SpamDetection/SpamDetection.java`. Its `init` method does four things, in this order:

1. It loads a stop-word list.
2. It indexes three training folders (`train/ham`, `train/ham2`, `train/spam`) into word-count
   tables with an unusual counting rule.
3. It adds the second ham table into the first, key by key.
4. It scores every file of `test/ham` and `test/spam` with a naive-Bayes log-odds sum. Each
   score is tallied against the threshold 0.5, and each file becomes one row of the results table.

This project models that class in Dafny, in the class's own imperative form:

- `Detection.SpamDetection` is a class. Its fields are the Java fields (the two tables, the stop
  words, the three counters, the five folders) plus `items`, which stands for
  `table.getItems()`. Its methods update those fields with the same loops as the source.
- The loops are proved against specification functions: `Indexer.IndexFolder` for
  `getTrainData`, `Merge.MergeSum` for the merge, `Scorer.LogOdds` / `Scorer.Probability` for
  `getSpamProbability`, and `Detection.ScoredRows` with `CountBelow` / `CountAtLeast` for the tally
  loops. The `loadStopWords` loop is proved to append the file's tokens, in order, to the old
  list.
- Lemmas about those functions state what the source promises: count bounds, key shape,
  monotonicity, merge by sum, what counts as evidence, the neutral score, and tally accounting.

Modules, one per file:

| module | file | models |
|---|---|---|
| `Wrappers` | wrappers.dfy | `Option`, `Result`, `Outcome` |
| `Text` | text.dfy | `toLowerCase` on ASCII and the test `matches("^[a-zA-Z]+$")` |
| `Corpus` | corpus.dfy | folders, files, token sequences, and the three failure kinds |
| `Indexer` | indexer.dfy | `getTrainData` and the counting lemmas |
| `Merge` | merge.dfy | line 47, `ham2.forEach(... merge(key, value, Integer::sum))` |
| `Scorer` | scorer.dfy | the arithmetic of `getSpamProbability` |
| `Detection` | detection.dfy | the `SpamDetection` object: `init`, the tally loops, the loaders |

How the outside world is represented:

- A folder is `Option<seq<File>>`. `None` is `listFiles()` returning null, which makes the
  source throw `NullPointerException`.
- A file's content is `Option<seq<string>>`. `None` means the `Scanner` cannot open the file
  (`FileNotFoundException`). `Some(tokens)` holds the tokens `scanner.next()` returns, in order.
- The stop-word file is an `Option<seq<string>>` in the same way.
- Failures come back as `Outcome`/`Result` values, in the order the source meets them.
  `Detection.RunOutcome` says which failure a run ends with.
- `Math.log` and `x -> Math.pow(Math.E, x)` are the two fields of a `Scorer.FloatMath` value the
  caller supplies.
- `Scorer.Sound` is the only thing the model assumes of them: `powE(0) = 1` and every
  `powE(x) >= 0`.
- All other arithmetic of the scorer is exact `real` arithmetic.
- `Corpus.Documents` turns a folder whose files can all be opened into its token sequences, one
  per file, in listing order.

The length getters, `GetTrainSpamLength` and `GetTrainHamLength` (lines 164-175), are functions
on the folder fields. Their values reach the scorer through `TrainedSnapshot` and `Snapshot`.
`TrainedIsWellFormed` states what they guarantee: every stored count is at least 1 and at most
its class's number of training files, so every division the scorer makes is defined.

Three details of the code and the model:

- The rarity-corrected formula is used only for a word found in both tables. A word in the spam
  table but absent from the ham table fails the `spamFreq != 0 && hamFreq != 0` guard (line 99)
  and contributes `log(0.5) - log(0.5) = 0`. `Detection.SpamOnlyWordScenario` proves that a
  document of such a word scores exactly 0.5, for any key word, any count from 1 to the number
  of spam files, and any ham table that lacks the word.
- In the model, scores lie in (0, 1]. The value 1 is reached only when `powE(n)` is 0. In Java
  doubles, `1 + Math.pow(Math.E, n)` already rounds to 1 once `e^n` is below 2^-53, that is for
  `n` below about -36.7, so spam-heavy documents often score exactly 1.0 there. The exact-real
  model does not capture that rounding (see the floating-point line under "## Left out"). The
  Java doubles can also give 0.0 (see the `Scorer.Logistic` line there).
- Stop words are compared as the list holds them. `stopWords.contains(word)` is tested with the
  lower-cased token, and the stop words themselves are never lower-cased.

The indexing rule is reproduced literally:

- first sighting → 1;
- a later sighting in file `i` → `min(i + 1, count + 1)`.

The lemmas place the resulting count between the word's document frequency and its number of
occurrences. `Indexer.OncePerFileIsDocFrequency` proves it equals document frequency when no
file repeats the word. `Indexer.RepeatedWordOvercounts` gives a two-file folder where it does not.

## Model

| member | source | states |
|---|---|---|
| Text.ToLower | src/SpamDetection/SpamDetection.java:90 | lower-casing maps an ASCII capital to its own lower-case letter (code + 32), keeps lower-case letters, keeps every non-letter, and keeps letters letters |
| Text.Lowercase | src/SpamDetection/SpamDetection.java:131 | `toLowerCase` keeps the length and lower-cases each character independently |
| Text.AcceptedTokenIsKey | src/SpamDetection/SpamDetection.java:131-134 | a token that passes the letters-only test after lower-casing is a non-empty lower-case ASCII word, and lower-casing it again changes nothing |
| Text.NonLetterRejected | src/SpamDetection/SpamDetection.java:134 | a token containing any character that is not an ASCII letter (digit, punctuation) is never accepted |
| Text.KeyIsLowercase | src/SpamDetection/SpamDetection.java:131-134 | a lower-case letters-only word is its own lower-case form and is accepted |
| Corpus.FolderError | src/SpamDetection/SpamDetection.java:125-128 | reading a folder fails exactly when the listing is null or some file cannot be opened; a null listing is `FolderMissing`, an unopenable file `DocumentUnreadable` |
| Indexer.GetTrainData | src/SpamDetection/SpamDetection.java:123-145 | a null listing fails with `FolderMissing`, an unopenable file with `DocumentUnreadable`; otherwise the nested loops return exactly `IndexFolder` of the folder's documents |
| Indexer.IndexKeysAreWords | src/SpamDetection/SpamDetection.java:131-134 | every key of a trained table is a non-empty lower-case ASCII word |
| Indexer.IndexDocumentBounded | src/SpamDetection/SpamDetection.java:136-140 | scanning file `i` keeps every count within 1..i+1 |
| Indexer.IndexCountBounds | src/SpamDetection/SpamDetection.java:127-140 | every count of a trained table is at least 1 and at most the number of files |
| Indexer.IndexTokenStep | src/SpamDetection/SpamDetection.java:134-140 | one token changes only its own key, by +0 or +1 with an absent key counting 0; a first sighting stores exactly 1; every count stays within 1..i+1; no key is removed; an accepted token's word becomes a key; a rejected token leaves the table unchanged |
| Indexer.IndexDocumentMonotone | src/SpamDetection/SpamDetection.java:130-142 | scanning a file removes no key and decreases no count |
| Indexer.IndexFolderMonotone | src/SpamDetection/SpamDetection.java:127-143 | the table after any prefix of the files is contained in the final table, key-wise below it |
| Indexer.IndexDocumentCount | src/SpamDetection/SpamDetection.java:130-142 | within one file a word's count grows by at most its occurrences there, and by at least 1 if it occurs while its count is at most `i` |
| Indexer.IndexCountBetween | src/SpamDetection/SpamDetection.java:127-143 | document frequency <= stored count <= number of occurrences, an absent key counting 0 |
| Indexer.KeyIffOccurs | src/SpamDetection/SpamDetection.java:127-143 | a word is a key exactly when some accepted token of the folder lower-cases to it |
| Indexer.OncePerFileIsDocFrequency | src/SpamDetection/SpamDetection.java:135-140 | when no file repeats the word, the stored count is exactly its document frequency |
| Indexer.RepeatedWordOvercounts | src/SpamDetection/SpamDetection.java:135-140 | files `[]` and `["a","a"]` give "a" the count 2 although it is in one file: the rule is not document frequency |
| Indexer.RepeatedWordInOneFile | src/SpamDetection/SpamDetection.java:136-139 | in the first file a word is counted at most once, so "free free free" gives the count 1 |
| Indexer.SingleWordFile | src/SpamDetection/SpamDetection.java:136-139 | a one-file folder of one lower-case word gives that word the count 1 and no other key |
| Merge.MergeSum | src/SpamDetection/SpamDetection.java:47 | the merged table's keys are the union of both tables' keys and each value is the sum, an absent key counting 0 |
| Merge.MergeKeepsOneSided | src/SpamDetection/SpamDetection.java:47 | a key in only one table keeps its value, a key in both gets the sum, a key in neither stays absent |
| Merge.MergeCommutes | src/SpamDetection/SpamDetection.java:47 | merging by sum is commutative |
| Merge.MergeAssociates | src/SpamDetection/SpamDetection.java:47 | merging by sum is associative |
| Merge.MergeBounded | src/SpamDetection/SpamDetection.java:47 | counts in 1..x and 1..y merge into counts in 1..x+y, the bound `getTrainHamLength` returns |
| Detection.SpamDetection.MergeHam2 | src/SpamDetection/SpamDetection.java:47 | the `forEach`/`merge` loop, visiting the keys in any order, leaves the ham table equal to `MergeSum` of the old table and `ham2` |
| Scorer.RawProbability | src/SpamDetection/SpamDetection.java:101-103 | Pr(S\|W) from positive counts and sizes lies strictly in (0,1) and equals spamFreq·hamLength / (spamFreq·hamLength + hamFreq·spamLength) |
| Scorer.CorrectedProbability | src/SpamDetection/SpamDetection.java:104 | the rarity correction stays in (0,1) and moves the raw probability towards 0.5 by the factor k / (4 + k), k = spamFreq + hamFreq |
| Scorer.WordProbability | src/SpamDetection/SpamDetection.java:99-104 | a word found in both well-formed tables has a corrected probability strictly in (0,1) |
| Scorer.EvidenceRates | src/SpamDetection/SpamDetection.java:95-102 | for a word found in both well-formed tables, both counts, both training sizes and both rates are positive, so every division at lines 101-104 is defined |
| Scorer.WordProbabilityFormula | src/SpamDetection/SpamDetection.java:101-104 | the values lines 101-104 compute, step by step, end in `WordProbability` |
| Scorer.Logistic | src/SpamDetection/SpamDetection.java:112 | `1 / (1 + e^n)` lies in (0,1] and is exactly 0.5 when n = 0 |
| Scorer.LogOddsStep | src/SpamDetection/SpamDetection.java:89-111 | reading one more token adds that token's contribution to `n` |
| Scorer.EvidenceStep | src/SpamDetection/SpamDetection.java:99-105 | an evidence token adds `log(1 - q) - log(q)` for its corrected probability q |
| Scorer.NeutralStep | src/SpamDetection/SpamDetection.java:93-110 | a token that is not letters-only, is a stop word, or is missing from a table leaves `n` unchanged |
| Scorer.LogOddsAppend | src/SpamDetection/SpamDetection.java:86-111 | `n` over a concatenation is the sum of `n` over the parts |
| Scorer.IgnoredTokenNoEffect | src/SpamDetection/SpamDetection.java:93-110 | a token that is not evidence can be removed from anywhere in a document without changing `n` or the score |
| Scorer.StopWordNoEffect | src/SpamDetection/SpamDetection.java:93 | a stop word never changes a score, whatever the tables say about it |
| Scorer.OnlyEvidenceCounts | src/SpamDetection/SpamDetection.java:89-111 | `n` over a document equals `n` over its evidence tokens alone |
| Scorer.NoEvidenceTokens | src/SpamDetection/SpamDetection.java:93-99 | a document none of whose tokens is evidence has no evidence tokens |
| Scorer.NoEvidenceIsNeutral | src/SpamDetection/SpamDetection.java:99-112 | a document without evidence has n = 0 and scores exactly 0.5 |
| Scorer.ProbabilityInRange | src/SpamDetection/SpamDetection.java:112 | every score lies in (0,1] |
| Detection.SpamDetection.GetSpamProbability | src/SpamDetection/SpamDetection.java:85-113 | an unopenable file fails with `DocumentUnreadable`; otherwise the loop returns exactly `Probability` of the file's tokens under the current tables |
| Detection.SpamDetection.LoadStopWords | src/SpamDetection/SpamDetection.java:152-157 | a missing stop-word file fails with `ResourceMissing` and adds nothing; otherwise every token is appended in order |
| Detection.SpamDetection.constructor | src/SpamDetection/SpamDetection.java:14-28 | a new task object has empty tables and stop words, zero counters and the given directory and table rows |
| Detection.SpamDetection.GetTrainSpamLength | src/SpamDetection/SpamDetection.java:164-166 | the number of spam training files, which is the number of documents the spam table was indexed from |
| Detection.SpamDetection.GetTrainHamLength | src/SpamDetection/SpamDetection.java:173-175 | the number of files of both ham folders, at least each folder's own count, and the total number of documents the two ham tables were indexed from |
| Detection.SpamDetection.TrainedIsWellFormed | src/SpamDetection/SpamDetection.java:54 | after training, every count lies between 1 and `getTrainSpamLength()` (spam) or `getTrainHamLength()` (ham), so the scorer's divisions are defined |
| Detection.SpamDetection.Train | src/SpamDetection/SpamDetection.java:37-47 | training ends with `TrainOutcome`; on success the stop words are appended, the three folders recorded, the spam table indexed and the ham table the merge of the two ham indexes |
| Detection.TrainOutcome | src/SpamDetection/SpamDetection.java:37-46 | training succeeds exactly when the stop-word file and all three training folders can be read; the failure reported is the first in the order stop-word file, `train/ham`, `train/spam`, `train/ham2` |
| Detection.TestOutcome | src/SpamDetection/SpamDetection.java:55-73 | testing succeeds exactly when both test folders can be read; a ham-folder failure is the one reported, and a spam-folder failure is reported only when the ham folder can be read |
| Detection.RunOutcome | src/SpamDetection/SpamDetection.java:36-74 | a run succeeds exactly when training and testing both succeed; a training failure is reported before any testing failure |
| Detection.SpamDetection.TestHam | src/SpamDetection/SpamDetection.java:55-64 | each ham file gets one row with its score, in order; true negatives grow by the rows below 0.5 and false positives by the rows at or above it; an unopenable file fails |
| Detection.SpamDetection.TestSpam | src/SpamDetection/SpamDetection.java:66-73 | each spam file gets one row with its score, in order; true positives grow by the rows at or above 0.5; an unopenable file fails |
| Detection.ScoredRowsStep | src/SpamDetection/SpamDetection.java:56-57 | scoring the next file extends the rows by exactly its row |
| Detection.SpamDetection.Test | src/SpamDetection/SpamDetection.java:50-73 | testing ends with `TestOutcome`; on success the ham rows and then the spam rows are appended and the three counters moved by them |
| Detection.SpamDetection.Init | src/SpamDetection/SpamDetection.java:36-74 | `init` ends with `RunOutcome`; on success the tables are trained from the directory and every test file has been scored and tallied: ham rows first, then spam rows, each with the file's model probability |
| Detection.TalliesPartition | src/SpamDetection/SpamDetection.java:58-62 | every row is either below 0.5 or not; so true negatives plus false positives equals the number of ham rows |
| Detection.TruePositivesBounded | src/SpamDetection/SpamDetection.java:69-71 | true positives never exceed the number of spam rows |
| Detection.SpamDetection.TallyAccounting | src/SpamDetection/SpamDetection.java:55-73 | after a run, true negatives plus false positives equals the number of ham test files; 0 <= true positives <= the number of spam test files; one row per test file; all "Ham" rows come before all "Spam" rows |
| Detection.NeutralHamIsFalsePositive | src/SpamDetection/SpamDetection.java:58-62 | a ham file with no evidence scores exactly 0.5 and counts as a false positive, not a true negative |
| Detection.SingleSpamWordScenario | src/SpamDetection/SpamDetection.java:95-112 | spam training file "free free free" and ham file "hello": "free" is counted 1 and is not in the ham table, so the document "free" scores exactly 0.5 |
| Detection.SpamOnlyWordScenario | src/SpamDetection/SpamDetection.java:95-108 | a key word in any 1..`spamLength` of the spam files and in no ham file is not evidence; a document made of it scores exactly 0.5 |

## Left out

- `src/SpamDetection/Controller.java` and `src/SpamDetection/Main.java` are not part of this
  model. They are JavaFX user-interface glue: the directory chooser, the table columns, and the
  accuracy and precision display.
- The `Task` superclass, `call()` and the background thread: concurrency and presentation only.
- `getTestSpamLength` and `getTestHamLength` (lines 182-193) are not called anywhere in the
  repository's code. The user interface lists the test folders itself.
- File I/O: `Scanner`, `File.listFiles` and the path strings are replaced by the `Folder` values
  of a `Directory` and by the stop-word file's token list.
- The enumeration order of `listFiles()` is taken as given by the `seq`. Nothing more
  constrains it.
- `Math.log` and `Math.pow(Math.E, _)` are parameters. There is no floating-point rounding:
  the scorer's arithmetic is exact `real` arithmetic. In particular the model does not capture
  that `1 + e^n` rounds to 1 for `n` below about -36.7, which makes Java scores of exactly 1.0
  common for spam-heavy documents.
- Scorer.Logistic: `powE` is real-valued and non-negative, so the model proves `0 < p <= 1`.
  A Java score of exactly 1 comes already from rounding `1 + e^n` to 1 (for `n` below about
  -36.7), long before `Math.pow(Math.E, n)` underflows to 0. It
  overflows to +Infinity for `n` above about 709.78, and then `1 / (1 + Infinity)` is 0.0. So a
  long document of ham-leaning evidence words scores exactly 0 in Java. The lower bound
  `0 < p` of `Scorer.Logistic` and `Scorer.ProbabilityInRange` does not hold for the Java
  doubles in that case.
- Java's Unicode `toLowerCase` and its regular-expression engine: only ASCII case mapping is
  modelled. Any other character is kept as is, and the letters-only test is an ASCII predicate.
  Two consequences:
  - The model assumes a default locale that is not Turkish or Azerbaijani. Under those
    locales `toLowerCase` maps 'I' to the non-ASCII dotless 'ı', so line 134 rejects "IT".
    `Text.ToLower` maps it to 'i'.
  - Text.NonLetterRejected holds only for the ASCII mapping. In Java, U+212A (KELVIN SIGN)
    lower-cases to the ASCII 'k', so a token containing it is accepted and stored as a word
    with 'k'.
- Overflow of the Java `int` counts and counters is not modelled: the counts are bounded by the
  number of files.
- Detection.SpamDetection.Init, Train, Test, TestHam and TestSpam: after a failure, the contracts
  state only which failure it is. They do not state the partly updated fields the source leaves
  behind: rows already appended, counters already moved, tables or stop words already replaced.
- Detection.SpamDetection.GetSpamProbability: it requires the tables to be well-formed (every
  count between 1 and its class's training size). `Init` establishes this through
  `TrainedIsWellFormed`. A direct call with other tables, where the source could divide by
  zero, is not modelled.
- Detection.SpamDetection.TestHam, TestSpam, Test and Init return the rows they append as ghost
  results. This is only so their contracts can name the rows; the source returns nothing.
