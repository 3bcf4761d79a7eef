/** The auto-function-invocation filter that forces the agent's turn to end
    once a function of a fixed set has been called. */
module Filters {
  import opened Common

  /** What happened to an invocation context, in order. */
  datatype Step = NextInvoked | TerminateSet

  /** An `AutoFunctionInvocationContext`, reduced to the name of the function
      being invoked and the `Terminate` flag. `trace` records the calls of the
      rest of the pipeline and the filter's own writes of `Terminate`. */
  class InvocationContext {
    const functionName: string
    var terminate: bool
    ghost var trace: seq<Step>

    constructor (functionName: string, terminate: bool)
      ensures this.functionName == functionName && this.terminate == terminate && trace == []
    {
      this.functionName := functionName;
      this.terminate := terminate;
      trace := [];
    }

    /** `next(context)`: the rest of the filter pipeline and the function
        itself, whose code is not part of this model. What it does to
        `Terminate` is given by `effect`: `Some(b)` sets it to `b`, `None`
        leaves it as it was. */
    method RunNext(effect: Option<bool>)
      modifies this`terminate, this`trace
      ensures terminate == (if effect.Some? then effect.value else old(terminate))
      ensures trace == old(trace) + [NextInvoked]
    {
      if effect.Some? {
        terminate := effect.value;
      }
      trace := trace + [NextInvoked];
    }
  }

  /** `TerminatingAutoFunctionInvocationFilter`. */
  class TerminatingFilter {
    /** The `HashSet<string>` of function names; it is never changed after construction. */
    const functionNames: set<string>

    /** The names given to the constructor, duplicates collapsed. */
    constructor (names: seq<string>)
      ensures functionNames == set n | n in names
    {
      functionNames := set n | n in names;
    }

    /** `OnAutoFunctionInvocationAsync`: run the rest of the pipeline once,
        then, when the invoked function's name is one of the configured names
        (exact, case-sensitive comparison), set `Terminate`. The filter never
        clears `Terminate`. */
    method OnAutoFunctionInvocation(context: InvocationContext, next: Option<bool>)
      modifies context
      ensures context.trace ==
                old(context.trace) + [NextInvoked] + (if context.functionName in functionNames then [TerminateSet] else [])
      ensures var afterNext := if next.Some? then next.value else old(context.terminate);
              context.terminate == (afterNext || context.functionName in functionNames)
    {
      context.RunNext(next);
      if context.functionName in functionNames {
        context.terminate := true;
        context.trace := context.trace + [TerminateSet];
      }
    }
  }
}
