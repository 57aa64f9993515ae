/**
 * The in-memory pipeline engine: type-chain validation at construction and
 * fan-out/flatten execution of a validated stage list.
 */
module Pipeline {
  import opened Wrappers
  import opened Stages

  /** Why constructing a pipeline fails. */
  datatype StageError<T> =
    /** `ValueError`: the stage list handed to validation is empty. */
    | NoStages
    /** `TypeError`: the stage at `index` declares `actual` as input where `expected` flows in. */
    | InputMismatch(index: nat, expected: T, actual: T)
    /** `TypeError`: the last stage's result type `actual` is not the declared result type `expected`. */
    | OutputMismatch(expected: T, actual: T)

  // ---------------------------------------------------------------------------
  // Type-chain validation
  // ---------------------------------------------------------------------------

  /** The type that flows into stage `k` when the pipeline declares `inT` as its input. */
  function Expected<V, T>(inT: T, stages: seq<Stage<V, T>>, k: nat): T
    requires k <= |stages|
  {
    if k == 0 then inT else stages[k - 1].OutType()
  }

  /** Every one of the first `n` stages declares the type that flows into it. */
  ghost predicate LinksOk<V, T>(inT: T, stages: seq<Stage<V, T>>, n: nat)
    requires n <= |stages|
  {
    forall j :: 0 <= j < n ==> stages[j].InType() == Expected(inT, stages, j)
  }

  /**
   * A well-typed chain: at least one stage, the first accepts `inT`, each
   * stage's result type is the next one's input type, and the last yields `outT`.
   */
  ghost predicate ChainValid<V, T>(inT: T, outT: T, stages: seq<Stage<V, T>>) {
    && |stages| > 0
    && stages[0].InType() == inT
    && (forall k :: 0 <= k < |stages| - 1 ==> stages[k].OutType() == stages[k + 1].InType())
    && stages[|stages| - 1].OutType() == outT
  }

  /**
   * `reduce(validate_type, stages[k..], expected)`: the running expected type
   * after stage `k` onwards, or the `TypeError` of the first stage whose
   * declared input differs from it.
   */
  function FoldTypes<V, T(==)>(stages: seq<Stage<V, T>>, k: nat, expected: T): Result<T, StageError<T>>
    requires k <= |stages|
    decreases |stages| - k
  {
    if k == |stages| then Success(expected)
    else if expected != stages[k].InType() then Failure(InputMismatch(k, expected, stages[k].InType()))
    else FoldTypes(stages, k + 1, stages[k].OutType())
  }

  /** `_validate_stages`: the stage list itself when it is a well-typed chain from `inT` to `outT`. */
  function ValidateStages<V, T(==)>(inT: T, outT: T, stages: seq<Stage<V, T>>): Result<seq<Stage<V, T>>, StageError<T>> {
    if |stages| == 0 then Failure(NoStages)
    else
      match FoldTypes(stages, 0, inT)
      case Failure(e) => Failure(e)
      case Success(t) =>
        if outT != t then Failure(OutputMismatch(outT, stages[|stages| - 1].OutType()))
        else Success(stages)
  }

  /** What the fold computes from stage `k` on, given that `expected` flows into stage `k`. */
  lemma {:induction false} FoldTypesMeaning<V, T>(inT: T, stages: seq<Stage<V, T>>, k: nat, expected: T)
    requires k <= |stages| && expected == Expected(inT, stages, k) && LinksOk(inT, stages, k)
    ensures var r := FoldTypes(stages, k, expected);
      && (r.Success? <==> LinksOk(inT, stages, |stages|))
      && (r.Success? ==> r.value == Expected(inT, stages, |stages|))
      && (r.Failure? ==>
            && r.error.InputMismatch?
            && k <= r.error.index < |stages|
            && LinksOk(inT, stages, r.error.index)
            && r.error.expected == Expected(inT, stages, r.error.index)
            && r.error.actual == stages[r.error.index].InType()
            && r.error.expected != r.error.actual)
    decreases |stages| - k
  {
    if k < |stages| && expected == stages[k].InType() {
      assert LinksOk(inT, stages, k + 1);
      FoldTypesMeaning(inT, stages, k + 1, stages[k].OutType());
    }
  }

  /** The link-by-link description and the chain description of a well-typed list agree. */
  lemma LinksOkIsChain<V, T>(inT: T, outT: T, stages: seq<Stage<V, T>>)
    requires |stages| > 0
    ensures ChainValid(inT, outT, stages) <==>
      LinksOk(inT, stages, |stages|) && Expected(inT, stages, |stages|) == outT
  {
    if LinksOk(inT, stages, |stages|) {
      forall k | 0 <= k < |stages| - 1 ensures stages[k].OutType() == stages[k + 1].InType() {
        assert stages[k + 1].InType() == Expected(inT, stages, k + 1);
      }
    }
    if ChainValid(inT, outT, stages) {
      forall j | 0 <= j < |stages| ensures stages[j].InType() == Expected(inT, stages, j) {
        if j > 0 {
          assert stages[j - 1].OutType() == stages[j - 1 + 1].InType();
        }
      }
    }
  }

  /** Validation succeeds exactly on well-typed chains, and then returns the list unchanged. */
  lemma ValidateSucceedsIff<V, T>(inT: T, outT: T, stages: seq<Stage<V, T>>)
    ensures ValidateStages(inT, outT, stages).Success? <==> ChainValid(inT, outT, stages)
    ensures ValidateStages(inT, outT, stages).Success? ==> ValidateStages(inT, outT, stages).value == stages
    ensures ValidateStages(inT, outT, stages) == Failure(NoStages) <==> |stages| == 0
  {
    if |stages| > 0 {
      FoldTypesMeaning(inT, stages, 0, inT);
      LinksOkIsChain(inT, outT, stages);
    }
  }

  /**
   * A failing validation names the first stage, in list order, whose declared
   * input differs from the type flowing into it; the declared result type is
   * reported only when every input check passed.
   */
  lemma ValidateReportsFirstMismatch<V, T>(inT: T, outT: T, stages: seq<Stage<V, T>>)
    ensures var r := ValidateStages(inT, outT, stages);
      && (r.Failure? && r.error.InputMismatch? ==>
            && r.error.index < |stages|
            && LinksOk(inT, stages, r.error.index)
            && r.error.expected == Expected(inT, stages, r.error.index)
            && r.error.actual == stages[r.error.index].InType()
            && r.error.expected != r.error.actual)
      && (r.Failure? && r.error.OutputMismatch? ==>
            && |stages| > 0
            && LinksOk(inT, stages, |stages|)
            && r.error.expected == outT
            && r.error.actual == stages[|stages| - 1].OutType()
            && r.error.actual != outT)
  {
    if |stages| > 0 {
      FoldTypesMeaning(inT, stages, 0, inT);
    }
  }

  // ---------------------------------------------------------------------------
  // Construction
  // ---------------------------------------------------------------------------

  /**
   * The `stages` argument of `__init__` as the constructor sees it: whether
   * it is truthy, and the elements `list` draws from it. `None` and an empty
   * list or tuple are falsy with no elements; a generator is truthy even
   * when it yields nothing.
   */
  datatype StagesArgument<!V, T> = StagesArgument(truthy: bool, elements: seq<Stage<V, T>>)

  /** No argument: the default `None`. */
  function NoArgument<V, T>(): StagesArgument<V, T> {
    StagesArgument(false, [])
  }

  /** A list or tuple of stages, which is truthy exactly when it is non-empty. */
  function ListArgument<V, T>(stages: seq<Stage<V, T>>): StagesArgument<V, T> {
    StagesArgument(|stages| > 0, stages)
  }

  /** `list(stages or [IdentityStage[In, In]()])`: a falsy argument becomes one identity stage. */
  function InitialStages<V, T>(inT: T, given: StagesArgument<V, T>): (s: seq<Stage<V, T>>)
    ensures |s| == 0 <==> given.truthy && |given.elements| == 0
    ensures given.truthy ==> s == given.elements
  {
    if given.truthy then given.elements else [Identity(inT)]
  }

  /** `PipelineBase.__init__`: the stage list it stores, or the error it raises. */
  function Construct<V, T(==)>(inT: T, outT: T, given: StagesArgument<V, T>): Result<seq<Stage<V, T>>, StageError<T>> {
    ValidateStages(inT, outT, InitialStages(inT, given))
  }

  /**
   * The "at least one stage" error comes out of the constructor exactly for a
   * truthy argument that yields no stages, and a constructed pipeline always
   * holds at least one stage.
   */
  lemma ConstructNoStagesIff<V, T>(inT: T, outT: T, given: StagesArgument<V, T>)
    ensures Construct(inT, outT, given) == Failure(NoStages) <==> given.truthy && given.elements == []
    ensures Construct(inT, outT, given).Success? ==> |Construct(inT, outT, given).value| > 0
  {
    ValidateSucceedsIff(inT, outT, InitialStages(inT, given));
  }

  /**
   * For no argument or a list of stages, the "at least one stage" error
   * cannot come out of the constructor.
   */
  lemma ConstructNeverEmpty<V, T>(inT: T, outT: T, stages: Option<seq<Stage<V, T>>>)
    ensures var given := if stages.None? then NoArgument() else ListArgument(stages.value);
      Construct(inT, outT, given) != Failure(NoStages)
  {
    var given := if stages.None? then NoArgument() else ListArgument(stages.value);
    ConstructNoStagesIff(inT, outT, given);
  }

  /**
   * With a falsy argument (no stages, or an empty list), the pipeline holds
   * exactly one identity stage, and it validates exactly when the declared input and result types agree.
   */
  lemma DefaultPipeline<V, T>(inT: T, outT: T, given: StagesArgument<V, T>)
    requires !given.truthy
    ensures Construct(inT, outT, given).Success? <==> inT == outT
    ensures Construct(inT, outT, given).Success? ==> Construct(inT, outT, given).value == [Identity(inT)]
    ensures Construct(inT, outT, given).Failure? ==> Construct(inT, outT, given).error == OutputMismatch(outT, inT)
  {
    var stages: seq<Stage<V, T>> := [Identity(inT)];
    assert InitialStages(inT, given) == stages;
    assert FoldTypes(stages, 1, inT) == Success(inT);
  }

  // ---------------------------------------------------------------------------
  // Execution
  // ---------------------------------------------------------------------------

  /** The in-order concatenation of `stage(r)` over every `r` of the batch. */
  function FlatMap<V, T>(stage: Stage<V, T>, batch: seq<V>): seq<V> {
    if |batch| == 0 then [] else stage.Run(batch[0]) + FlatMap(stage, batch[1..])
  }

  /** What the stage's `consume` hook sees while the batch is flattened. */
  function BatchConsumed<V, T>(stage: Stage<V, T>, batch: seq<V>): seq<V> {
    if stage.Consumes() then FlatMap(stage, batch) else []
  }

  /** The batch after running every stage in order: `flatMap(sN, ... flatMap(s1, batch))`. */
  function RunStages<V, T>(stages: seq<Stage<V, T>>, batch: seq<V>): seq<V> {
    if |stages| == 0 then batch else RunStages(stages[1..], FlatMap(stages[0], batch))
  }

  /** Every value handed to a `consume` hook during a run, in call order. */
  function ConsumedStages<V, T>(stages: seq<Stage<V, T>>, batch: seq<V>): seq<V> {
    if |stages| == 0 then []
    else BatchConsumed(stages[0], batch) + ConsumedStages(stages[1..], FlatMap(stages[0], batch))
  }

  /** Running each element of the batch through the whole pipeline on its own and concatenating. */
  function RunEach<V, T>(stages: seq<Stage<V, T>>, batch: seq<V>): seq<V> {
    if |batch| == 0 then [] else RunStages(stages, [batch[0]]) + RunEach(stages, batch[1..])
  }

  /** Flattening distributes over concatenation of batches: per-element order is kept. */
  lemma {:induction false} FlatMapAppend<V, T>(stage: Stage<V, T>, a: seq<V>, b: seq<V>)
    ensures FlatMap(stage, a + b) == FlatMap(stage, a) + FlatMap(stage, b)
  {
    if |a| > 0 {
      assert (a + b)[1..] == a[1..] + b;
      FlatMapAppend(stage, a[1..], b);
    } else {
      assert a + b == b;
    }
  }

  /** The `flatten` generator drained into a list: one pass over the batch. */
  method Flatten<V, T>(stage: Stage<V, T>, batch: seq<V>) returns (next: seq<V>, consumed: seq<V>)
    ensures next == FlatMap(stage, batch)
    ensures consumed == BatchConsumed(stage, batch)
  {
    next, consumed := [], [];
    for j := 0 to |batch|
      invariant next == FlatMap(stage, batch[..j])
      invariant consumed == BatchConsumed(stage, batch[..j])
    {
      assert batch[..j + 1] == batch[..j] + [batch[j]];
      FlatMapAppend(stage, batch[..j], [batch[j]]);
      next := next + stage.Run(batch[j]);
      consumed := consumed + stage.Consumed(batch[j]);
    }
    assert batch[..|batch|] == batch;
  }

  /** Running a pipeline distributes over concatenation of input batches. */
  lemma {:induction false} RunStagesAppend<V, T>(stages: seq<Stage<V, T>>, a: seq<V>, b: seq<V>)
    ensures RunStages(stages, a + b) == RunStages(stages, a) + RunStages(stages, b)
    decreases |stages|
  {
    if |stages| > 0 {
      FlatMapAppend(stages[0], a, b);
      RunStagesAppend(stages[1..], FlatMap(stages[0], a), FlatMap(stages[0], b));
    }
  }

  /** Each element of a batch travels through the pipeline independently of the others. */
  lemma {:induction false} RunStagesPerElement<V, T>(stages: seq<Stage<V, T>>, batch: seq<V>)
    ensures RunStages(stages, batch) == RunEach(stages, batch)
  {
    if |batch| > 0 {
      assert batch == [batch[0]] + batch[1..];
      RunStagesAppend(stages, [batch[0]], batch[1..]);
      RunStagesPerElement(stages, batch[1..]);
    } else {
      RunStagesEmptyBatch(stages);
    }
  }

  /** An empty batch stays empty. */
  lemma {:induction false} RunStagesEmptyBatch<V, T>(stages: seq<Stage<V, T>>)
    ensures RunStages(stages, []) == []
  {
    if |stages| > 0 {
      RunStagesEmptyBatch(stages[1..]);
    }
  }

  /** Running `first + second` runs `first`, then `second` on what it produced. */
  lemma {:induction false} RunStagesConcat<V, T>(first: seq<Stage<V, T>>, second: seq<Stage<V, T>>, batch: seq<V>)
    ensures RunStages(first + second, batch) == RunStages(second, RunStages(first, batch))
  {
    if |first| == 0 {
      assert first + second == second;
    } else {
      assert (first + second)[1..] == first[1..] + second;
      RunStagesConcat(first[1..], second, FlatMap(first[0], batch));
    }
  }

  /**
   * Running `first + second` on `x` equals running `second` on every element
   * of `first`'s result on its own and concatenating, in order.
   */
  lemma Composition<V, T>(first: seq<Stage<V, T>>, second: seq<Stage<V, T>>, x: V)
    ensures RunStages(first + second, [x]) == RunEach(second, RunStages(first, [x]))
  {
    RunStagesConcat(first, second, [x]);
    RunStagesPerElement(second, RunStages(first, [x]));
  }

  /** A stage that yields nothing for a batch's elements empties that batch. */
  lemma {:induction false} FlatMapOfSink<V, T>(stage: Stage<V, T>, batch: seq<V>)
    requires forall v :: stage.Run(v) == []
    ensures FlatMap(stage, batch) == []
  {
    if |batch| > 0 {
      FlatMapOfSink(stage, batch[1..]);
    }
  }

  /** A stage that yields nothing for every value makes the whole result empty. */
  lemma Annihilation<V, T>(stages: seq<Stage<V, T>>, k: nat, batch: seq<V>)
    requires k < |stages|
    requires forall v :: stages[k].Run(v) == []
    ensures RunStages(stages, batch) == []
  {
    assert stages == stages[..k] + ([stages[k]] + stages[k + 1..]);
    RunStagesConcat(stages[..k], [stages[k]] + stages[k + 1..], batch);
    FlatMapOfSink(stages[k], RunStages(stages[..k], batch));
    RunStagesEmptyBatch(stages[k + 1..]);
  }

  /** An identity stage passes a batch through unchanged. */
  lemma {:induction false} FlatMapIdentity<V, T>(t: T, batch: seq<V>)
    ensures FlatMap(Identity(t), batch) == batch
  {
    if |batch| > 0 {
      FlatMapIdentity(t, batch[1..]);
      assert batch == [batch[0]] + batch[1..];
    }
  }

  /** Inserting an identity stage anywhere leaves every run's result unchanged. */
  lemma IdentityIsNeutral<V, T>(before: seq<Stage<V, T>>, t: T, after: seq<Stage<V, T>>, batch: seq<V>)
    ensures RunStages(before + [Identity(t)] + after, batch) == RunStages(before + after, batch)
  {
    assert before + [Identity(t)] + after == before + ([Identity(t)] + after);
    RunStagesConcat(before, [Identity(t)] + after, batch);
    RunStagesConcat(before, after, batch);
    FlatMapIdentity(t, RunStages(before, batch));
    assert ([Identity(t)] + after)[1..] == after;
  }

  /** A run in which no stage has a `consume` hook records no `consume` calls. */
  lemma {:induction false} ConsumedStagesSkip<V, T>(stages: seq<Stage<V, T>>, batch: seq<V>)
    requires forall k :: 0 <= k < |stages| ==> !stages[k].Consumes()
    ensures ConsumedStages(stages, batch) == []
  {
    if |stages| > 0 {
      ConsumedStagesSkip(stages[1..], FlatMap(stages[0], batch));
    }
  }

  /**
   * When only the last stage has a `consume` hook, it is handed exactly the
   * pipeline's final results, in order.
   */
  lemma {:induction false} LastConsumerSeesResults<V, T>(stages: seq<Stage<V, T>>, batch: seq<V>)
    requires |stages| > 0
    requires forall k :: 0 <= k < |stages| - 1 ==> !stages[k].Consumes()
    requires stages[|stages| - 1].Consumes()
    ensures ConsumedStages(stages, batch) == RunStages(stages, batch)
    decreases |stages|
  {
    if |stages| == 1 {
      assert ConsumedStages(stages[1..], FlatMap(stages[0], batch)) == [];
    } else {
      LastConsumerSeesResults(stages[1..], FlatMap(stages[0], batch));
    }
  }

  /** Running the stages from `i` on is one flattening step by stage `i`, then the stages after it. */
  lemma RunStagesFrom<V, T>(stages: seq<Stage<V, T>>, i: nat, batch: seq<V>)
    requires i < |stages|
    ensures RunStages(stages[i..], batch) == RunStages(stages[i + 1..], FlatMap(stages[i], batch))
    ensures ConsumedStages(stages[i..], batch)
      == BatchConsumed(stages[i], batch) + ConsumedStages(stages[i + 1..], FlatMap(stages[i], batch))
  {
    assert stages[i..][0] == stages[i];
    assert stages[i..][1..] == stages[i + 1..];
  }

  /**
   * One turn of the run loop: flattening the batch through stage `i` and
   * appending what it consumed keeps "the rest of the run from stage `i`"
   * equal to the whole run (`whole` and `trace`).
   */
  lemma RunLoopStep<V, T>(stages: seq<Stage<V, T>>, i: nat, batch: seq<V>, consumed: seq<V>, whole: seq<V>, trace: seq<V>)
    requires i < |stages|
    requires RunStages(stages[i..], batch) == whole
    requires consumed + ConsumedStages(stages[i..], batch) == trace
    ensures RunStages(stages[i + 1..], FlatMap(stages[i], batch)) == whole
    ensures (consumed + BatchConsumed(stages[i], batch)) + ConsumedStages(stages[i + 1..], FlatMap(stages[i], batch)) == trace
  {
    RunStagesFrom(stages, i, batch);
    var log, rest := BatchConsumed(stages[i], batch), ConsumedStages(stages[i + 1..], FlatMap(stages[i], batch));
    assert consumed + (log + rest) == (consumed + log) + rest;
  }

  /** `InMemoryPipeline`: a validated stage list run entirely in memory. */
  class InMemoryPipeline<V, T(==)> {
    /** The declared input type `TPipelineInput`. */
    const inT: T
    /** The declared result type `TPipelineResult`. */
    const outT: T
    /** The validated stage list, assigned once by the constructor. */
    const stages: seq<Stage<V, T>>

    /** The stored stages form a well-typed chain from `inT` to `outT`. */
    ghost predicate Valid()
      reads this
    {
      ChainValid(inT, outT, stages)
    }

    /** Stores a stage list that validation has accepted. */
    constructor FromValidated(inT: T, outT: T, stages: seq<Stage<V, T>>)
      requires ValidateStages(inT, outT, stages).Success?
      ensures this.inT == inT && this.outT == outT && this.stages == stages
      ensures Valid()
    {
      this.inT := inT;
      this.outT := outT;
      this.stages := stages;
      new;
      ValidateSucceedsIff(inT, outT, stages);
    }

    /**
     * `InMemoryPipeline(stages)`: defaults and validates the stages, then
     * stores them, or fails with the error validation raises.
     */
    static method Create(inT: T, outT: T, given: StagesArgument<V, T>)
      returns (r: Result<InMemoryPipeline<V, T>, StageError<T>>)
      ensures Construct(inT, outT, given).Failure? ==> r == Failure(Construct(inT, outT, given).error)
      ensures Construct(inT, outT, given).Success? ==>
        && r.Success? && fresh(r.value) && r.value.Valid()
        && r.value.inT == inT && r.value.outT == outT
        && r.value.stages == Construct(inT, outT, given).value
    {
      var stages := InitialStages(inT, given);
      var validated := ValidateStages(inT, outT, stages);
      if validated.Failure? {
        r := Failure(validated.error);
      } else {
        var p := new InMemoryPipeline.FromValidated(inT, outT, validated.value);
        r := Success(p);
      }
    }

    /**
     * `run(input)`: starting from `[input]`, each stage in order replaces the
     * batch by the concatenation of its results on every element. Also
     * returns the values the stages' `consume` hooks were handed, in order.
     */
    method Run(input: V) returns (results: seq<V>, consumed: seq<V>)
      ensures results == RunStages(stages, [input])
      ensures consumed == ConsumedStages(stages, [input])
    {
      var all := stages;
      results, consumed := [input], [];
      assert all[0..] == all;
      for i := 0 to |all|
        invariant RunStages(all[i..], results) == RunStages(all, [input])
        invariant consumed + ConsumedStages(all[i..], results) == ConsumedStages(all, [input])
      {
        RunLoopStep(all, i, results, consumed, RunStages(all, [input]), ConsumedStages(all, [input]));
        var next, log := Flatten(all[i], results);
        consumed := consumed + log;
        results := next;
      }
      assert all[|all|..] == [];
    }
  }
}
