/**
 * Pipeline stages: "fat functions" from one input to a sequence of results.
 *
 * Values flowing through a pipeline have the type `V`; the type annotations a
 * stage declares (its input and result type parameters) are tags of type `T`,
 * compared for equality only.
 */
module Stages {
  import opened Wrappers

  datatype Stage<!V, T> =
    /** `IdentityStage[T, T]`: hands its input back unchanged. */
    | Identity(tag: T)
    /** A subclass that overrides `run` with the function `fn`. */
    | Custom(inT: T, outT: T, fn: V -> seq<V>)
    /**
     * A stage built from the optional `produce`, `transform` and `consume`
     * hooks. `produce` is given by the sequence it yields (it takes no input),
     * and `consumes` says whether a `consume` hook is present.
     */
    | Hooked(inT: T, outT: T, produce: Option<seq<V>>, transform: Option<V -> seq<V>>, consumes: bool)
  {
    /** The declared input type `TStageInput`. */
    function InType(): T {
      if Identity? then tag else inT
    }

    /** The declared result type `TStageResult`. */
    function OutType(): T {
      if Identity? then tag else outT
    }

    /** Whether a `consume` hook sees the results of an activation. */
    predicate Consumes() {
      Hooked? && consumes
    }

    /**
     * `stage(x)`: the results of one activation, in order. A hooked stage
     * emits what `produce` yields, then what `transform` returns for `x`;
     * a stage with neither hook passes `x` through.
     */
    function Run(x: V): (r: seq<V>)
      ensures Identity? ==> r == [x]
      ensures Hooked? && produce.None? && transform.None? ==> r == [x]
      ensures Hooked? && produce.Some? ==> |produce.value| <= |r| && r[..|produce.value|] == produce.value
      ensures Hooked? && transform.Some? ==>
        |transform.value(x)| <= |r| && r[|r| - |transform.value(x)|..] == transform.value(x)
      ensures Hooked? && produce.Some? && transform.None? ==> r == produce.value
      ensures Hooked? && (produce.Some? || transform.Some?) ==>
        |r| == (if produce.Some? then |produce.value| else 0) + (if transform.Some? then |transform.value(x)| else 0)
    {
      match this
      case Identity(_) => [x]
      case Custom(_, _, fn) => fn(x)
      case Hooked(_, _, produce, transform, _) =>
        if produce.None? && transform.None? then [x]
        else
          var produced := if produce.Some? then produce.value else [];
          var transformed := if transform.Some? then transform.value(x) else [];
          produced + transformed
    }

    /**
     * The values handed to `consume` during one activation, in call order:
     * every result, after all of them are computed, or nothing when the
     * stage has no `consume` hook.
     */
    function Consumed(x: V): seq<V> {
      if Consumes() then Run(x) else []
    }
  }

  /** A `consume` hook observes results; it never filters or rewrites them. */
  lemma ConsumeKeepsResults<V, T>(inT: T, outT: T, produce: Option<seq<V>>, transform: Option<V -> seq<V>>, x: V)
    ensures Hooked(inT, outT, produce, transform, true).Run(x) == Hooked(inT, outT, produce, transform, false).Run(x)
    ensures Hooked(inT, outT, produce, transform, true).Consumed(x) == Hooked(inT, outT, produce, transform, true).Run(x)
  {
  }

  /**
   * `produce` fires regardless of the input: with no `transform`, a hooked
   * stage ignores what it is given.
   */
  lemma ProduceIgnoresInput<V, T>(s: Stage<V, T>, x: V, y: V)
    requires s.Hooked? && s.produce.Some? && s.transform.None?
    ensures s.Run(x) == s.Run(y) == s.produce.value
  {
  }
}
