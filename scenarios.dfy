/** Scenarios from the pipeline's own tests, stated on the model. */
module Scenarios {
  import opened Wrappers
  import opened Stages
  import opened Pipeline

  /** Three hooked stages over integers: increment; double with a produced 20; subtract 3 and consume. */
  function MixedStages(): seq<Stage<int, bool>> {
    [ Hooked(true, true, None, Some(x => [x + 1]), false),
      Hooked(true, true, Some([20]), Some(x => [x * 2]), false),
      Hooked(true, true, None, Some(x => [x - 3]), true) ]
  }

  /**
   * The produced value is emitted before the transformed one, and the
   * consuming last stage sees exactly the final results.
   */
  lemma MixedStagesScenario()
    ensures RunStages(MixedStages(), [5]) == [17, 9]
    ensures ConsumedStages(MixedStages(), [5]) == [17, 9]
  {
    var s := MixedStages();
    assert FlatMap(s[0], [5]) == [6];
    assert FlatMap(s[1], [6]) == [20, 12];
    assert FlatMap(s[2], [20, 12]) == [17, 9];
    LastConsumerSeesResults(s, [5]);
  }

  /** The declared types the tests use. */
  datatype PyType = Int | Str

  /** `Pipeline[int, int]([InitialStage(), MismatchedStage()])`: the second stage expects `str`. */
  lemma MismatchedChainScenario(double: int -> seq<int>, length: int -> seq<int>)
    ensures Construct(Int, Int, ListArgument([Custom(Int, Int, double), Custom(Str, Int, length)]))
      == Failure(InputMismatch(1, Int, Str))
  {
    var stages := [Custom(Int, Int, double), Custom(Str, Int, length)];
    assert FoldTypes(stages, 1, Int) == Failure(InputMismatch(1, Int, Str));
  }

  /** `Pipeline[int, str]([InitialStage(), IntermediateStage(), FinalStage()])` is well typed. */
  lemma ValidChainScenario(double: int -> seq<int>, show: int -> seq<int>, upper: int -> seq<int>)
    ensures Construct(Int, Str, ListArgument([Custom(Int, Int, double), Custom(Int, Str, show), Custom(Str, Str, upper)])).Success?
  {
    var stages := [Custom(Int, Int, double), Custom(Int, Str, show), Custom(Str, Str, upper)];
    ValidateSucceedsIff(Int, Str, stages);
  }
}
