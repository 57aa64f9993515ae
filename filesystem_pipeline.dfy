/**
 * The naming rules of the filesystem-coupled stage: which subfolders a stage
 * reads from and writes to, which listed files it reads, and what each
 * output file is called. Paths, directory listings, reading and writing and
 * the JSON codec are outside the model; a result's `id` is an abstract string.
 */
module FileSystemPipeline {
  import opened Wrappers
  import opened Stages

  // ---------------------------------------------------------------------------
  // Decimal rendering of non-negative integers (Python's `str` on an `int`)
  // ---------------------------------------------------------------------------

  predicate IsDigits(s: string) {
    forall i :: 0 <= i < |s| ==> '0' <= s[i] <= '9'
  }

  function DigitChar(d: nat): (c: char)
    requires d < 10
    ensures '0' <= c <= '9'
  {
    ('0' as int + d) as char
  }

  /** The decimal digits of `n`, most significant first, without leading zeros. */
  function NatToString(n: nat): (s: string)
    ensures |s| > 0 && IsDigits(s)
    ensures s[0] == '0' <==> n == 0
  {
    if n < 10 then [DigitChar(n)] else NatToString(n / 10) + [DigitChar(n % 10)]
  }

  /** The number a string of decimal digits denotes. */
  function ParseNat(s: string): nat
    requires IsDigits(s)
  {
    if |s| == 0 then 0 else 10 * ParseNat(s[..|s| - 1]) + (s[|s| - 1] as int - '0' as int)
  }

  /** Reading back the decimal rendering of `n` gives `n`. */
  lemma {:induction false} ParseNatToString(n: nat)
    ensures ParseNat(NatToString(n)) == n
  {
    if n >= 10 {
      var s := NatToString(n);
      assert s[..|s| - 1] == NatToString(n / 10);
      ParseNatToString(n / 10);
    }
  }

  /** Different numbers have different decimal renderings. */
  lemma NatToStringInjective(m: nat, n: nat)
    requires NatToString(m) == NatToString(n)
    ensures m == n
  {
    ParseNatToString(m);
    ParseNatToString(n);
  }

  // ---------------------------------------------------------------------------
  // Subfolders
  // ---------------------------------------------------------------------------

  /**
   * `given or f"stage_{index}"`: a supplied non-empty folder name is kept; an
   * absent or empty one (both falsy) becomes `stage_` followed by `index`.
   */
  function SubfolderOrDefault(given: Option<string>, index: nat): (folder: string)
    ensures folder != ""
    ensures given.Some? && given.value != "" ==> folder == given.value
    ensures given.None? || given.value == "" ==> folder == "stage_" + NatToString(index)
  {
    if given.Some? && given.value != "" then given.value else "stage_" + NatToString(index)
  }

  /**
   * Under the defaults, the folder stage `i` writes is the folder stage `j`
   * reads exactly when `j` is the next stage.
   */
  lemma DefaultFoldersChain(i: nat, j: nat)
    ensures SubfolderOrDefault(None, i + 1) == SubfolderOrDefault(None, j) <==> j == i + 1
  {
    var a, b := SubfolderOrDefault(None, i + 1), SubfolderOrDefault(None, j);
    if a == b {
      assert a[6..] == NatToString(i + 1);
      assert b[6..] == NatToString(j);
      NatToStringInjective(i + 1, j);
    }
  }

  // ---------------------------------------------------------------------------
  // Input files
  // ---------------------------------------------------------------------------

  predicate EndsWith(s: string, suffix: string) {
    |suffix| <= |s| && s[|s| - |suffix|..] == suffix
  }

  /** The listed names ending in ".json", in listing order. */
  function JsonFiles(listing: seq<string>): seq<string> {
    if |listing| == 0 then []
    else (if EndsWith(listing[0], ".json") then [listing[0]] else []) + JsonFiles(listing[1..])
  }

  /** Filtering a listing keeps the order of its parts. */
  lemma {:induction false} JsonFilesAppend(a: seq<string>, b: seq<string>)
    ensures JsonFiles(a + b) == JsonFiles(a) + JsonFiles(b)
  {
    if |a| == 0 {
      assert a + b == b;
    } else {
      assert (a + b)[1..] == a[1..] + b;
      JsonFilesAppend(a[1..], b);
    }
  }

  /** A name is read exactly when it is listed and ends in ".json". */
  lemma {:induction false} JsonFilesMembers(listing: seq<string>, name: string)
    ensures name in JsonFiles(listing) <==> name in listing && EndsWith(name, ".json")
  {
    if |listing| > 0 {
      JsonFilesMembers(listing[1..], name);
      assert listing == [listing[0]] + listing[1..];
    }
  }

  // ---------------------------------------------------------------------------
  // Output file names
  // ---------------------------------------------------------------------------

  /**
   * The file a result is written to, from its `id`, its 1-based position in
   * the result batch of one input, and that batch's size: `{id}.json` for the
   * only result of a batch, `{id}_{index}.json` otherwise.
   */
  function OutputFilename(id: string, resultIndex: nat, resultCount: nat): (name: string)
    ensures EndsWith(name, ".json")
    ensures name == id + ".json" <==> resultIndex == 1 && resultCount == 1
    ensures !(resultIndex == 1 && resultCount == 1) ==> name == id + "_" + NatToString(resultIndex) + ".json"
  {
    if resultIndex == 1 && resultCount == 1 then id + ".json"
    else id + "_" + NatToString(resultIndex) + ".json"
  }

  /** The results of one input's batch are written to pairwise different files. */
  lemma OutputFilenamesDistinct(id: string, count: nat, i: nat, j: nat)
    requires 1 <= i <= count && 1 <= j <= count && i != j
    ensures OutputFilename(id, i, count) != OutputFilename(id, j, count)
  {
    var a, b := OutputFilename(id, i, count), OutputFilename(id, j, count);
    if a == b {
      var ni, nj := NatToString(i), NatToString(j);
      assert a == id + "_" + ni + ".json";
      assert b == id + "_" + nj + ".json";
      assert a[|id| + 1..|a| - 5] == ni;
      assert b[|id| + 1..|b| - 5] == nj;
      NatToStringInjective(i, j);
    }
  }

  /**
   * When ids contain no underscore, an output file name determines the id,
   * whether it was a batch's only result, and otherwise its position.
   */
  lemma OutputFilenameUnambiguous(id1: string, i1: nat, c1: nat, id2: string, i2: nat, c2: nat)
    requires '_' !in id1 && '_' !in id2
    requires OutputFilename(id1, i1, c1) == OutputFilename(id2, i2, c2)
    ensures id1 == id2
    ensures (i1 == 1 && c1 == 1) <==> (i2 == 1 && c2 == 1)
    ensures !(i1 == 1 && c1 == 1) ==> i1 == i2
  {
    var name := OutputFilename(id1, i1, c1);
    var stem := name[..|name| - 5];
    var single1, single2 := i1 == 1 && c1 == 1, i2 == 1 && c2 == 1;
    var tail1, tail2 := "_" + NatToString(i1), "_" + NatToString(i2);
    assert stem == if single1 then id1 else id1 + tail1;
    assert stem == if single2 then id2 else id2 + tail2;
    if single1 && !single2 {
      UnderscoreAfter(id2, NatToString(i2));
      assert false;
    } else if !single1 && single2 {
      UnderscoreAfter(id1, NatToString(i1));
      assert false;
    } else if !single1 && !single2 {
      if |id1| < |id2| {
        UnderscoreAfter(id1, NatToString(i1));
        CharOfPrefix(id2, tail2, |id1|);
        assert false;
      } else if |id2| < |id1| {
        UnderscoreAfter(id2, NatToString(i2));
        CharOfPrefix(id1, tail1, |id2|);
        assert false;
      }
      assert stem[..|id1|] == id1 && stem[..|id2|] == id2;
      assert stem[|id1| + 1..] == NatToString(i1) && stem[|id2| + 1..] == NatToString(i2);
      NatToStringInjective(i1, i2);
    }
  }

  /** The separator written after an id sits right after it. */
  lemma UnderscoreAfter(id: string, digits: string)
    ensures (id + ("_" + digits))[|id|] == '_'
  {
  }

  /** A character in the first part of a concatenation is a character of that part. */
  lemma CharOfPrefix(a: string, b: string, k: int)
    ensures 0 <= k < |a| ==> (a + b)[k] == a[k] && a[k] in a
  {
  }

  // ---------------------------------------------------------------------------
  // The stage adapter
  // ---------------------------------------------------------------------------

  /** `FileSystemCoupledPipelineStage`: one pipeline stage bound to a document root's subfolders. */
  class FileSystemCoupledStage<V, T> {
    const stage: Stage<V, T>
    /** The stage's 0-based position in the pipeline. */
    const stageIndex: nat
    /** The number of stages in the pipeline. */
    const stageCount: nat
    /** The subfolder whose ".json" files are the stage's inputs. */
    var inputSubfolder: string
    /** The subfolder the stage's results are written to. */
    var outputSubfolder: string

    /**
     * The dataclass initialiser followed by `__post_init__`, which replaces
     * an absent or empty subfolder by `stage_{i}` for input and
     * `stage_{i+1}` for output.
     */
    constructor (stage: Stage<V, T>, stageIndex: nat, stageCount: nat,
                 inputSubfolder: Option<string>, outputSubfolder: Option<string>)
      ensures this.stage == stage && this.stageIndex == stageIndex && this.stageCount == stageCount
      ensures this.inputSubfolder == SubfolderOrDefault(inputSubfolder, stageIndex)
      ensures this.outputSubfolder == SubfolderOrDefault(outputSubfolder, stageIndex + 1)
    {
      this.stage := stage;
      this.stageIndex := stageIndex;
      this.stageCount := stageCount;
      this.inputSubfolder := SubfolderOrDefault(inputSubfolder, stageIndex);
      this.outputSubfolder := SubfolderOrDefault(outputSubfolder, stageIndex + 1);
    }

    /** `FileSystemCoupledPipeline.lift`: the adapter for stage `stageIndex` of `stageCount`, with default subfolders. */
    static method Lift(stage: Stage<V, T>, stageIndex: nat, stageCount: nat) returns (a: FileSystemCoupledStage<V, T>)
      ensures fresh(a)
      ensures a.stage == stage && a.stageIndex == stageIndex && a.stageCount == stageCount
      ensures a.inputSubfolder == "stage_" + NatToString(stageIndex)
      ensures a.outputSubfolder == "stage_" + NatToString(stageIndex + 1)
    {
      a := new FileSystemCoupledStage(stage, stageIndex, stageCount, None, None);
    }

    /**
     * The loop of `generate_inputs`: the names of the files it reads from the
     * stage's input subfolder, in listing order. `listDir` gives the names
     * `os.listdir` returns for a subfolder of the document root.
     */
    method InputFiles(listDir: string -> seq<string>) returns (files: seq<string>)
      ensures files == JsonFiles(listDir(inputSubfolder))
    {
      var listing := listDir(inputSubfolder);
      files := [];
      for j := 0 to |listing|
        invariant files == JsonFiles(listing[..j])
      {
        assert listing[..j + 1] == listing[..j] + [listing[j]];
        JsonFilesAppend(listing[..j], [listing[j]]);
        if EndsWith(listing[j], ".json") {
          files := files + [listing[j]];
        }
      }
      assert listing[..|listing|] == listing;
    }
  }
}
