# A verified model of the in-memory pipeline engine

This project models the core of a stage-based data-processing pipeline
library written in Python. A *stage* is a "fat function" that turns one input
into a sequence of results. A *pipeline* is an ordered list of stages whose
declared input and result types must chain: the pipeline's input type feeds
the first stage, each stage's result type feeds the next, and the last stage
yields the pipeline's result type. The engine checks that chain once, when the
pipeline is built. Running a pipeline on one input starts from the batch
`[input]`. Each stage, in order, replaces the batch with the concatenation of
its results on every element (fan-out and flatten).

The model has six Dafny modules:

- `Wrappers` (`wrappers.dfy`): `Option` and `Result`.
- `Stages` (`stage.dfy`): the `Stage` datatype. A value of type `V` flows
  through a stage, and the declared types are tags of type `T`, compared only
  for equality. The variants are:
  - `IdentityStage`;
  - a stage that overrides `run` with a total function;
  - a *hooked* stage built from the optional `produce`/`transform`/`consume`
    hooks. The pipeline's tests exercise these hooks, but `pipeline.py`
    defines no `produce`, `transform` or `consume` dispatch, so the hooked
    stage's behaviour is pinned by those tests only. Calls to `consume` are recorded as an output
    trace.
- `Pipeline` (`pipeline.dfy`):
  - the type-chain validation fold (`FoldTypes`, `ValidateStages`);
  - construction with the identity default (`Construct`, and
    `InMemoryPipeline.Create`, which returns a `Result` because the Python
    constructor can raise);
  - the executor `InMemoryPipeline.Run`, a loop over the stages around the
    `Flatten` loop over the batch. It is proved equal to the recursive
    specification `RunStages`, and its consume trace equal to `ConsumedStages`;
  - composition, identity and annihilation lemmas about `RunStages`.
- `Library` (`library.dfy`): the text that `FormatPrintToConsole.to_string`
  builds. The parameter `render` stands for Python's `str`.
- `FileSystemPipeline` (`filesystem_pipeline.dfy`): the naming rules of the
  filesystem-coupled stage. These are:
  - the default `stage_{i}` / `stage_{i+1}` subfolders;
  - the `.json` filter over a directory listing;
  - the choice between `{id}.json` and `{id}_{index}.json`;
  - `NatToString`, which stands for Python's `str` on an `int`, with its
    inverse `ParseNat`.
- `Scenarios` (`scenarios.dfy`): three scenarios from the pipeline's tests,
  stated on the model.

Errors are values. `StageError` is `NoStages` (the `ValueError`),
`InputMismatch(index, expected, actual)` (the `TypeError` for a stage's
input), or `OutputMismatch(expected, actual)` (the `TypeError` for the last
stage's result).

## Model

| member | source | states |
|---|---|---|
| `Stages.Stage.Run` | pipeline/pipeline/pipeline.py:35-38 | An identity stage returns exactly `[x]`. A hooked stage with no `produce` and no `transform` passes `x` through. Otherwise its results are the produced values followed by the transformed values and nothing else: a prefix equal to `produce`, a suffix equal to `transform(x)`, and a length equal to the sum of their lengths. With `produce` only, the result is the produced sequence whatever the input. |
| `Stages.ConsumeKeepsResults` | pipeline/tests/test_pipeline.py:167-184 | Adding a `consume` hook does not change a stage's results. It sees exactly those results. |
| `Stages.ProduceIgnoresInput` | pipeline/tests/test_pipeline.py:94-103 | A stage with `produce` and no `transform` returns the produced values for every input. |
| `Pipeline.FoldTypesMeaning` | pipeline/pipeline/pipeline.py:56-63 | Suppose the `reduce` fold starts at stage k with the right running type. It succeeds iff every remaining stage's declared input equals the type flowing into it, and then yields the last stage's result type. Otherwise it raises at the first stage that breaks the chain, naming that stage, the expected type and the declared type. |
| `Pipeline.LinksOkIsChain` | pipeline/pipeline/pipeline.py:56-63 | The running-type description of a well-typed chain equals the pairwise one: the first input matches, each result type is the next stage's input, and the last result matches. |
| `Pipeline.ValidateSucceedsIff` | pipeline/pipeline/pipeline.py:50-68 | Validation succeeds iff the list is a non-empty well-typed chain from the declared input to the declared result type. On success it returns the list unchanged. It fails with the "at least one stage" error exactly on the empty list. |
| `Pipeline.ValidateReportsFirstMismatch` | pipeline/pipeline/pipeline.py:53-66 | An input `TypeError` names the first stage, in list order, whose declared input differs from the running type, and every earlier stage chains correctly. A result-type `TypeError` arises only when every input check passed, and it carries the last stage's result type and the declared one. |
| `Pipeline.InitialStages` | pipeline/pipeline/pipeline.py:46-48 | The list `list(stages or [...])` is empty exactly when the argument is truthy and yields nothing, as an empty generator does. A truthy argument's elements are used as they are. |
| `Pipeline.ConstructNoStagesIff` | pipeline/pipeline/pipeline.py:46-54 | The constructor raises the "at least one stage" error exactly for a truthy argument that yields no stages. A constructed pipeline holds at least one stage. |
| `Pipeline.ConstructNeverEmpty` | pipeline/pipeline/pipeline.py:46-54 | With no argument or a list of stages, the "at least one stage" error cannot come out of the constructor. |
| `Pipeline.DefaultPipeline` | pipeline/pipeline/pipeline.py:48 | With a falsy argument (no stages, or an empty list), the pipeline is exactly `[IdentityStage[In, In]]`. It validates iff the declared input and result types agree, and otherwise it fails with the result-type error. |
| `Pipeline.FlatMapAppend` | pipeline/pipeline/pipeline.py:83-89 | Flattening one stage over a batch distributes over concatenation of batches, which keeps per-element order. |
| `Pipeline.Flatten` | pipeline/pipeline/pipeline.py:83-89 | The `flatten` generator drained by `list(...)` yields the in-order concatenation of `stage(r)` over the batch. Its `consume` calls see exactly that batch when the stage consumes, and nothing otherwise. |
| `Pipeline.RunStagesAppend` | pipeline/pipeline/pipeline.py:87-91 | Running the stages on a concatenated batch gives the concatenation of the runs. |
| `Pipeline.RunStagesPerElement` | pipeline/pipeline/pipeline.py:87-91 | Each element of a batch goes through the pipeline independently of the others, and the outputs are concatenated in batch order. |
| `Pipeline.RunStagesEmptyBatch` | pipeline/pipeline/pipeline.py:87-91 | An empty batch stays empty through every stage. |
| `Pipeline.RunStagesConcat` | pipeline/pipeline/pipeline.py:87-91 | Running `first + second` equals running `second` on the batch that `first` produced. |
| `Pipeline.Composition` | pipeline/pipeline/pipeline.py:87-91 | Running `first + second` on `x` equals running `second` on each element of `first`'s result on its own, with the outputs concatenated in order. |
| `Pipeline.FlatMapOfSink` | pipeline/pipeline/pipeline.py:89 | A stage that returns `[]` for every value flattens any batch to `[]`. |
| `Pipeline.Annihilation` | pipeline/pipeline/pipeline.py:87-91 | If any stage returns `[]` for every value, the whole pipeline returns `[]`. |
| `Pipeline.FlatMapIdentity` | pipeline/pipeline/pipeline.py:35-38 | An identity stage passes any batch through unchanged. |
| `Pipeline.IdentityIsNeutral` | pipeline/pipeline/pipeline.py:87-91 | Inserting an identity stage anywhere in the list leaves every run's result unchanged. |
| `Pipeline.ConsumedStagesSkip` | pipeline/pipeline/pipeline.py:87-91 | If no stage has a `consume` hook, a run consumes nothing. |
| `Pipeline.LastConsumerSeesResults` | pipeline/tests/test_pipeline.py:187-218 | If only the last stage has a `consume` hook, it is handed exactly the pipeline's final results, in order. |
| `Pipeline.RunStagesFrom` | pipeline/pipeline/pipeline.py:88-89 | Running the stages from position i on equals flattening through stage i and then running the later stages, and the consume trace splits the same way. |
| `Pipeline.InMemoryPipeline.FromValidated` | pipeline/pipeline/pipeline.py:48 | Storing a list that validation accepted sets `self.stages` to it and keeps the type-chain invariant. |
| `Pipeline.InMemoryPipeline.Create` | pipeline/pipeline/pipeline.py:45-68 | Construction fails with exactly the validation error, or yields a fresh pipeline. That pipeline holds the defaulted, validated stage list and satisfies the type-chain invariant. |
| `Pipeline.InMemoryPipeline.Run` | pipeline/pipeline/pipeline.py:82-91 | The loop starting from `[input]` returns `RunStages(stages, [input])`, that is `flatMap(sN, … flatMap(s1, [input]))`. The consume calls it makes are `ConsumedStages(stages, [input])`, stage by stage and element by element. |
| `Library.NoFormatters` | pipeline/tests/test_library.py:22-25 | With no formatters, the text is the default rendering of the value. |
| `Library.AbsentFormattersAddNothing` | pipeline/pipeline/library.py:36-38 | An absent prefix or postfix formatter contributes the empty string. |
| `Library.ContentReplacesDefault` | pipeline/pipeline/library.py:37 | A content formatter replaces the default rendering: the text is prefix, then formatter output, then postfix, and it does not depend on the default rendering. |
| `FileSystemPipeline.DigitChar` | pipeline/pipeline/filesystem_pipeline.py:25-26 | A digit value below 10 becomes a decimal digit character. |
| `FileSystemPipeline.NatToString` | pipeline/pipeline/filesystem_pipeline.py:25-26 | The decimal rendering of a non-negative integer is a non-empty string of digits. It starts with `0` only for the number 0. |
| `FileSystemPipeline.ParseNatToString` | pipeline/pipeline/filesystem_pipeline.py:25-26 | Reading back the decimal rendering of `n` gives `n`. |
| `FileSystemPipeline.NatToStringInjective` | pipeline/pipeline/filesystem_pipeline.py:48 | Different numbers render differently. |
| `FileSystemPipeline.SubfolderOrDefault` | pipeline/pipeline/filesystem_pipeline.py:25-26 | A supplied non-empty folder is kept. An absent or empty (falsy) one becomes `stage_` followed by the index. The result is never empty. |
| `FileSystemPipeline.DefaultFoldersChain` | pipeline/pipeline/filesystem_pipeline.py:25-26 | Under the defaults, stage i's output folder is stage j's input folder exactly when j = i + 1. |
| `FileSystemPipeline.JsonFilesAppend` | pipeline/pipeline/filesystem_pipeline.py:32-33 | The `.json` filter keeps listing order across parts of a listing. |
| `FileSystemPipeline.JsonFilesMembers` | pipeline/pipeline/filesystem_pipeline.py:32-33 | A name is read iff it is listed and ends in `.json`. |
| `FileSystemPipeline.OutputFilename` | pipeline/pipeline/filesystem_pipeline.py:44-48 | Every output name ends in `.json`. The name is `id + ".json"` exactly when `(result_index, result_count) == (1, 1)`. Every other pair, including `(1, n>1)`, gives `id + "_" + str(result_index) + ".json"`. |
| `FileSystemPipeline.OutputFilenamesDistinct` | pipeline/pipeline/filesystem_pipeline.py:44-48 | The results of one input's batch, at positions 1 to n, are written to pairwise different files. |
| `FileSystemPipeline.OutputFilenameUnambiguous` | pipeline/pipeline/filesystem_pipeline.py:44-48 | For ids without `_`, an output name determines the id and whether the result was the only one in its batch. If it was not, the name also determines its position. |
| `FileSystemPipeline.FileSystemCoupledStage.constructor` | pipeline/pipeline/filesystem_pipeline.py:19-26 | Initialisation plus `__post_init__` stores the stage, its index and its count. It sets the input folder to the defaulted `stage_{i}` and the output folder to the defaulted `stage_{i+1}`. |
| `FileSystemPipeline.FileSystemCoupledStage.Lift` | pipeline/pipeline/filesystem_pipeline.py:52-53 | `lift` builds a fresh adapter for the stage at the given index and count, with folders `stage_{i}` and `stage_{i+1}`. |
| `FileSystemPipeline.FileSystemCoupledStage.InputFiles` | pipeline/pipeline/filesystem_pipeline.py:30-35 | The `generate_inputs` loop reads exactly the `.json` names listed in the stage's input subfolder, in listing order. |
| `Scenarios.MixedStagesScenario` | pipeline/tests/test_pipeline.py:221-248 | Three hooked stages run on 5 give `[17, 9]`: the produced 20 comes before the transformed value. The consuming last stage sees `[17, 9]`. |
| `Scenarios.MismatchedChainScenario` | pipeline/tests/test_pipeline.py:60-70 | `Pipeline[int, int]` over an `int -> int` stage then a `str -> int` stage fails at stage 1, expecting `int` and finding `str`. |
| `Scenarios.ValidChainScenario` | pipeline/tests/test_pipeline.py:50-57 | An `int -> int`, `int -> str`, `str -> str` chain is accepted by `Pipeline[int, str]`. |

## Left out

- The `>>` combinator and the stage's `produce`/`transform`/`consume` dispatch are exercised by the tests, but `pipeline.py` defines neither: its `PipelineStage` declares only an abstract `run` and `__call__`. The combinator is not modelled. The dispatch appears only as the test-pinned `Hooked` stage.
- `ContextualPipeline`, `ContextualPipelineStage` and their run loop are not modelled: `filesystem_pipeline.py` imports them from `.pipeline`, and `pipeline.py` does not define them. This covers threading a context through the adapters, calling `process_output` with a 1-based index and the batch size, and `produce` pre-empting `generate_inputs`. Only the naming logic of the filesystem adapter and its `lift` are modelled.
- The runtime emulation of generic type parameters through a metaclass is not modelled. Declared types are equality-comparable tags carried by each stage and pipeline.
- Real I/O is not modelled: `os.listdir` (a `listDir` parameter of `InputFiles`), `os.path.join`, `open`, `os.makedirs`, the msgspec JSON encoder and decoder, `print` in `FormatPrintToConsole.consume`, and all of `WriteJsonToFile`. `InputFiles` returns the names it would read, not the decoded objects. Paths under the document root are not built.
- The text of the `TypeError` and `ValueError` messages is not modelled. Errors carry the stage index and the two type tags instead.
- Exceptions raised by a stage's own code are not modelled: stage functions are total. Generator laziness is not modelled either: results are computed as whole lists, in the same order.
- `Stages.Stage.Run`: for a stage that overrides `run`, the model says nothing beyond "it returns what the function returns", because the base class leaves `run` abstract.
- `FileSystemPipeline.OutputFilename`: result indices and counts are natural numbers. The negative integers Python would accept are not modelled, because the caller numbers results from 1.
- `Pipeline.InMemoryPipeline.FromValidated` requires a list that validation accepted. The Python constructor validates and raises instead, which `Pipeline.InMemoryPipeline.Create` models.
- `pipeline/pipeline/__init__.py` only re-exports names. It imports `Pipeline`, `to_filename`, `PipelineStageEnhancer` and `EnhancedPipeline` from `.pipeline`, which does not define them, so it is not part of this model.
