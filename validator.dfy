/**
 * The profection-corpus check of validate_profection_batch.js: every profection
 * file of houses 2 to 6 must hold a text for each sign by day and by night. The
 * file system is a parameter: what each file holds once read and parsed.
 */
module Validator {
  import opened Types
  import Interpretations

  /** The key suffixes, day first. */
  const Suffixes: seq<string> := ["_Day", "_Night"]

  /** The houses whose files are checked, in order. */
  const ValidatedHouses: seq<int> := [2, 3, 4, 5, 6]

  /** The keys every file must have: each sign name with each suffix. */
  function ExpectedKeySet(): set<string>
  {
    set i, j | 0 <= i < |SignNames| && 0 <= j < |Suffixes| :: SignNames[i] + Suffixes[j]
  }

  /** The keys built from the first `n` signs, and from the first `m` suffixes of sign `n`. */
  function KeysSoFar(n: int, m: int): set<string>
    requires 0 <= n <= |SignNames| && 0 <= m <= |Suffixes|
  {
    (set i, j | 0 <= i < n && 0 <= j < |Suffixes| :: SignNames[i] + Suffixes[j])
    + (set j | 0 <= j < m && n < |SignNames| :: SignNames[n] + Suffixes[j])
  }

  /** The nested loops that fill `expectedKeys`. */
  method ExpectedKeys() returns (keys: set<string>)
    ensures keys == ExpectedKeySet()
  {
    keys := {};
    for i := 0 to |SignNames|
      invariant keys == KeysSoFar(i, 0)
    {
      for j := 0 to |Suffixes|
        invariant keys == KeysSoFar(i, j)
      {
        KeysStep(i, j);
        keys := keys + {SignNames[i] + Suffixes[j]};
      }
      KeysNextSign(i);
    }
    KeysAllSigns();
  }

  /** Adding the key of sign `i` and suffix `j` extends the keys built so far by one. */
  lemma KeysStep(i: int, j: int)
    requires 0 <= i < |SignNames| && 0 <= j < |Suffixes|
    ensures KeysSoFar(i, j) + {SignNames[i] + Suffixes[j]} == KeysSoFar(i, j + 1)
  {
  }

  /** Finishing the suffixes of sign `i` is starting sign `i + 1`. */
  lemma KeysNextSign(i: int)
    requires 0 <= i < |SignNames|
    ensures KeysSoFar(i, |Suffixes|) == KeysSoFar(i + 1, 0)
  {
  }

  /** Once every sign is done, the keys are the expected set. */
  lemma KeysAllSigns()
    ensures KeysSoFar(|SignNames|, 0) == ExpectedKeySet()
  {
  }

  /** An expected key is the profection key of its sign, day for "_Day" and night for "_Night". */
  lemma ExpectedKeyIsProfectionKey(i: int, j: int)
    requires 0 <= i < |SignNames| && 0 <= j < |Suffixes|
    ensures SignNames[i] + Suffixes[j] == Interpretations.ProfectionKey(SignNames[i], j == 0)
  {
  }

  /** Different signs or suffixes give different keys. */
  lemma ExpectedKeysDistinct(i1: int, j1: int, i2: int, j2: int)
    requires 0 <= i1 < |SignNames| && 0 <= j1 < |Suffixes| && 0 <= i2 < |SignNames| && 0 <= j2 < |Suffixes|
    requires SignNames[i1] + Suffixes[j1] == SignNames[i2] + Suffixes[j2]
    ensures i1 == i2 && j1 == j2
  {
    ExpectedKeyIsProfectionKey(i1, j1);
    ExpectedKeyIsProfectionKey(i2, j2);
    Interpretations.ProfectionKeyInjective(SignNames[i1], j1 == 0, SignNames[i2], j2 == 0);
    SignNamesDistinct(i1, i2);
  }

  /** The expected keys listed one by one: sign `n / 2` with suffix `n % 2`. */
  function KeyList(): (keys: seq<string>)
    ensures |keys| == 24
  {
    seq(24, n requires 0 <= n < 24 => SignNames[n / 2] + Suffixes[n % 2])
  }

  /** A list without repeats has as many distinct elements as entries. */
  lemma {:induction false} DistinctCount(s: seq<string>)
    requires forall a, b :: 0 <= a < b < |s| ==> s[a] != s[b]
    ensures |set x | x in s| == |s|
  {
    if s != [] {
      var init := s[..|s| - 1];
      DistinctCount(init);
      assert (set x | x in s) == (set x | x in init) + {s[|s| - 1]};
      assert s[|s| - 1] !in init;
    }
  }

  /** The listed keys are pairwise distinct. */
  lemma KeyListDistinct()
    ensures forall a, b :: 0 <= a < b < 24 ==> KeyList()[a] != KeyList()[b]
  {
    var keys := KeyList();
    forall a, b | 0 <= a < b < 24
      ensures keys[a] != keys[b]
    {
      if keys[a] == keys[b] {
        ExpectedKeysDistinct(a / 2, a % 2, b / 2, b % 2);
      }
    }
  }

  /** The listed keys are exactly the expected keys. */
  lemma KeyListIsExpected()
    ensures (set x | x in KeyList()) == ExpectedKeySet()
  {
    var keys := KeyList();
    forall i, j | 0 <= i < |SignNames| && 0 <= j < |Suffixes|
      ensures SignNames[i] + Suffixes[j] in keys
    {
      KeyListAt(2 * i + j);
      assert (2 * i + j) / 2 == i && (2 * i + j) % 2 == j;
    }
    forall n | 0 <= n < |keys|
      ensures keys[n] in ExpectedKeySet()
    {
      KeyListAt(n);
    }
  }

  /** Entry `n` of the key list is sign `n / 2` with suffix `n % 2`. */
  lemma KeyListAt(n: int)
    requires 0 <= n < 24
    ensures 0 <= n / 2 < |SignNames| && 0 <= n % 2 < |Suffixes|
    ensures KeyList()[n] == SignNames[n / 2] + Suffixes[n % 2]
  {
  }

  /** There are 24 expected keys: the 12 signs by day and by night. */
  lemma ExpectedKeyCount()
    ensures |ExpectedKeySet()| == 24
  {
    KeyListDistinct();
    DistinctCount(KeyList());
    KeyListIsExpected();
  }

  /** What reading a file gives: nothing parsable (bad JSON, or `null`), or the keys of the parsed value. */
  datatype FileState = Unparsable | Parsed(keys: set<string>)

  /** What the check reports for one house. */
  datatype HouseOutcome =
    | NoFile
    | ReadError
    | Checked(missing: set<string>, extra: set<string>)

  /** The file was read and no expected key is missing: the 'PASSED' line. */
  predicate Passed(outcome: HouseOutcome)
  {
    outcome.Checked? && outcome.missing == {}
  }

  /** The outcomes that set `hasError`. */
  predicate Failed(outcome: HouseOutcome)
  {
    !Passed(outcome)
  }

  /**
   * One iteration of the per-house loop: a missing file, an unreadable one, or the
   * expected keys it lacks and the keys it has beyond them.
   */
  function CheckHouse(files: map<int, FileState>, house: int, expected: set<string>): (outcome: HouseOutcome)
    ensures house !in files <==> outcome == NoFile
    ensures outcome.Checked? <==> house in files && files[house].Parsed?
    ensures outcome.Checked? ==>
      && outcome.missing !! files[house].keys
      && outcome.missing + (expected * files[house].keys) == expected
      && outcome.extra !! expected
      && outcome.extra + (expected * files[house].keys) == files[house].keys
  {
    if house !in files then NoFile
    else match files[house]
      case Unparsable => ReadError
      case Parsed(actual) => Checked(expected - actual, actual - expected)
  }

  /** A file passes exactly when it holds every expected key; keys beyond them never make it fail. */
  lemma PassedIffComplete(files: map<int, FileState>, house: int, expected: set<string>)
    ensures Passed(CheckHouse(files, house, expected)) <==>
      house in files && files[house].Parsed? && expected <= files[house].keys
  {
  }

  /** Whether any checked house fails. */
  predicate BatchFails(files: map<int, FileState>)
  {
    exists i :: 0 <= i < |ValidatedHouses| && Failed(CheckHouse(files, ValidatedHouses[i], ExpectedKeySet()))
  }

  /**
   * The script: the outcome of each of houses 2 to 6, in order, and the exit code,
   * 1 exactly when some house failed.
   */
  method ValidateProfectionBatch(files: map<int, FileState>) returns (outcomes: seq<HouseOutcome>, exitCode: int)
    ensures |outcomes| == |ValidatedHouses|
    ensures forall i :: 0 <= i < |outcomes| ==> outcomes[i] == CheckHouse(files, ValidatedHouses[i], ExpectedKeySet())
    ensures exitCode == (if BatchFails(files) then 1 else 0)
  {
    var expectedKeys := ExpectedKeys();
    var hasError := false;
    outcomes := [];
    for i := 0 to |ValidatedHouses|
      invariant |outcomes| == i
      invariant forall k :: 0 <= k < i ==> outcomes[k] == CheckHouse(files, ValidatedHouses[k], expectedKeys)
      invariant hasError <==> exists k :: 0 <= k < i && Failed(outcomes[k])
    {
      var houseNum := ValidatedHouses[i];
      var outcome: HouseOutcome;
      if houseNum !in files {
        hasError := true;
        outcome := NoFile;
      } else {
        match files[houseNum]
        case Unparsable =>
          hasError := true;
          outcome := ReadError;
        case Parsed(actualKeys) =>
          var missingKeys := expectedKeys - actualKeys;
          var extraKeys := actualKeys - expectedKeys;
          if missingKeys != {} {
            hasError := true;
          }
          outcome := Checked(missingKeys, extraKeys);
      }
      outcomes := outcomes + [outcome];
    }
    exitCode := if hasError then 1 else 0;
  }

  /** Only the files of houses 2 to 6 matter: the files of the other houses never change the exit code. */
  lemma OnlyHousesTwoToSix(files1: map<int, FileState>, files2: map<int, FileState>)
    requires forall h :: 2 <= h <= 6 ==> (h in files1 <==> h in files2)
    requires forall h :: 2 <= h <= 6 && h in files1 ==> files1[h] == files2[h]
    ensures BatchFails(files1) <==> BatchFails(files2)
  {
    forall i | 0 <= i < |ValidatedHouses|
      ensures CheckHouse(files1, ValidatedHouses[i], ExpectedKeySet()) == CheckHouse(files2, ValidatedHouses[i], ExpectedKeySet())
    {
    }
  }

  /**
   * A passing profection file whose keys are those of the corpus's table for the
   * house has an entry for every sign by day and by night, so the profection lookup
   * never falls back to its missing-key text for want of a key.
   */
  lemma PassedFileServesEveryKey(c: Interpretations.Corpus, files: map<int, FileState>, house: int, i: int, isDayChart: bool)
    requires Passed(CheckHouse(files, house, ExpectedKeySet()))
    requires house in c.profections && files[house].keys == c.profections[house].Keys
    requires 0 <= i < |SignNames|
    ensures Interpretations.ProfectionKey(SignNames[i], isDayChart) in c.profections[house]
  {
    var j := if isDayChart then 0 else 1;
    ExpectedKeyIsProfectionKey(i, j);
    assert SignNames[i] + Suffixes[j] in ExpectedKeySet();
  }
}
