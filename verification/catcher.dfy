/** A model of the runtime part of the `catcher` package: run an operation,
    swallow anything it throws and hand back either its result or a fallback,
    with the global `Error.stackTraceLimit` zeroed while the operation runs and
    restored on every way out.

    JavaScript has exceptions and Dafny does not, so an operation is modelled
    by what it does: given the stack-trace limit it observes when it is invoked,
    it either returns a value or throws one, and it leaves some limit behind
    (it may assign `Error.stackTraceLimit` itself). */
module Catcher {

  /** The JavaScript values the model tells apart. Numbers are integers here;
      `Error` stands for an error object, identified by its message. */
  datatype JsValue =
    | Undefined
    | Null
    | Bool(b: bool)
    | Num(n: int)
    | Str(s: string)
    | Error(message: string)

  /** An optional parameter: `None` when the caller left it out. */
  datatype Option<T> = None | Some(value: T)

  /** How one run of an operation ends: it returns a value, or it throws one
      (of any kind: an error object or any other value). */
  datatype Outcome = Returns(value: JsValue) | Throws(thrown: JsValue)

  /** One run of an operation: how it ended and the stack-trace limit it left
      in place (different from the one it found if it assigned the global). */
  datatype Step = Step(outcome: Outcome, limitAfter: int)

  /** A zero-argument operation, as a function of the `Error.stackTraceLimit`
      it observes when it is invoked. */
  type Operation = int -> Step

  /** A function of any number of arguments, given the arguments and the
      limit it observes. */
  type Callable = (seq<JsValue>, int) -> Step

  /** What one call of `catcher` yields: its return value and the value of
      `Error.stackTraceLimit` once it has returned. */
  datatype Completion = Completion(result: JsValue, limit: int)

  /** The closure that `catchWrap` returns: given the arguments it is called
      with and the limit in force at the call, what that call yields. */
  type Wrapped = (seq<JsValue>, int) -> Completion

  /** The value an optional parameter holds: `undefined` when it was left out. */
  function ParameterValue(p: Option<JsValue>): (v: JsValue)
    // a parameter that was passed holds what was passed
    ensures p.Some? ==> v == p.value
    // it reads as `undefined` exactly when it was left out or passed as `undefined`
    ensures v == Undefined <==> p.None? || p == Some(Undefined)
  {
    match p
    case Some(v) => v
    case None => Undefined
  }

  /** One call of `catcher(fn, caughtValue)` made while the global limit is
      `limit`: the limit is saved, zeroed for the operation, and the saved value
      written back in the `finally` block, over whatever the operation left. */
  function RunCatcher(fn: Operation, caughtValue: Option<JsValue>, limit: int): (c: Completion)
    // the global limit after the call is the one before it, on both paths
    ensures c.limit == limit
    // a normal return is passed through unchanged, whatever the fallback is
    ensures fn(0).outcome.Returns? ==> c.result == fn(0).outcome.value
    // a throw is swallowed: the result is the fallback, `undefined` when none was given
    ensures fn(0).outcome.Throws? ==> c.result == ParameterValue(caughtValue)
  {
    var saved := limit;
    var step := fn(0);
    var result :=
      match step.outcome
      case Returns(v) => v
      case Throws(_) => ParameterValue(caughtValue);
    Completion(result, saved)
  }

  /** `catchWrap(fn, caughtValue)`: a closure whose every call runs the
      operation `() => fn(...a)`, written `l => fn(a, l)`, under `catcher` with
      the same fallback. */
  function CatchWrap(fn: Callable, caughtValue: Option<JsValue>): (w: Wrapped)
    // every call of the closure leaves the global limit as it found it
    ensures forall a, limit :: w(a, limit).limit == limit
    // a normal return of `fn(...a)` is what the call returns
    ensures forall a, limit :: fn(a, 0).outcome.Returns? ==> w(a, limit).result == fn(a, 0).outcome.value
    // a throw of `fn(...a)` makes the call return the fallback
    ensures forall a, limit :: fn(a, 0).outcome.Throws? ==> w(a, limit).result == ParameterValue(caughtValue)
  {
    (a, limit) => RunCatcher(l => fn(a, l), caughtValue, limit)
  }

  /** What a caller sees when it calls the closure `w` once per argument list
      in `calls`, in order: the results, and the global limit at the end. */
  datatype Session = Session(results: seq<JsValue>, limit: int)

  /** Calls `w` on each argument list of `calls` in turn, each call starting
      from the global limit the previous one left. */
  function CallInTurn(w: Wrapped, calls: seq<seq<JsValue>>, limit: int): (s: Session)
    // one result per call
    ensures |s.results| == |calls|
    // when every call of `w` restores the limit, so does the whole session, and
    // each call returns what it would return if it were made on its own
    ensures (forall a, l :: w(a, l).limit == l) ==>
      s.limit == limit &&
      forall i :: 0 <= i < |calls| ==> s.results[i] == w(calls[i], limit).result
  {
    if calls == [] then Session([], limit)
    else
      var first := w(calls[0], limit);
      var rest := CallInTurn(w, calls[1..], first.limit);
      Session([first.result] + rest.results, rest.limit)
  }

  /** A closure made by `catchWrap` may be called any number of times; each call
      is a save/zero/restore cycle of its own, so the limit is back where it
      started after any number of calls, and every call returns what
      `catcher(() => fn(...a), caughtValue)` made on its own would return. */
  lemma {:induction false} WrappedCallsIndependent(fn: Callable, caughtValue: Option<JsValue>,
                                                   calls: seq<seq<JsValue>>, limit: int)
    ensures CallInTurn(CatchWrap(fn, caughtValue), calls, limit).limit == limit
    ensures forall i :: 0 <= i < |calls| ==>
      CallInTurn(CatchWrap(fn, caughtValue), calls, limit).results[i]
        == RunCatcher(l => fn(calls[i], l), caughtValue, limit).result
  {
  }

  /** The global `Error` constructor, reduced to the one property the package
      touches. */
  class ErrorGlobal {
    /** `Error.stackTraceLimit`: how many frames a new error object captures. */
    var stackTraceLimit: int
    /** The limit each operation run under `Catcher` observed when it was
        invoked, one entry per invocation, oldest first (bookkeeping for the
        proof only). */
    ghost var Observed: seq<int>
    /** The operations invoked, in the same order as `Observed`. */
    ghost var Invoked: seq<Operation>

    constructor (limit: int)
      ensures stackTraceLimit == limit && Observed == [] && Invoked == []
    {
      stackTraceLimit := limit;
      Observed := [];
      Invoked := [];
    }

    /** Invokes the operation `fn`: it observes the current limit, and the
        limit it leaves becomes the global's value. Every invocation of an
        operation goes through here and is logged in `Invoked` and `Observed`. */
    method Invoke(fn: Operation) returns (step: Step)
      modifies this
      ensures step == fn(old(stackTraceLimit))
      ensures stackTraceLimit == step.limitAfter
      ensures Observed == old(Observed) + [old(stackTraceLimit)]
      ensures Invoked == old(Invoked) + [fn]
    {
      step := fn(stackTraceLimit);
      Observed := Observed + [stackTraceLimit];
      Invoked := Invoked + [fn];
      stackTraceLimit := step.limitAfter;
    }

    /** `catcher(fn, caughtValue)`: save the limit, zero it, run `fn` once, turn a
        throw into the fallback, and restore the saved limit on the way out. */
    method Catcher(fn: Operation, caughtValue: Option<JsValue>) returns (r: JsValue)
      modifies this
      ensures Completion(r, stackTraceLimit) == RunCatcher(fn, caughtValue, old(stackTraceLimit))
      ensures stackTraceLimit == old(stackTraceLimit)
      // `fn`, and no other operation, was invoked exactly once, and it found the limit at zero
      ensures Invoked == old(Invoked) + [fn]
      ensures Observed == old(Observed) + [0]
    {
      var originalStackTraceLimit := stackTraceLimit;
      stackTraceLimit := 0;
      // whatever the operation assigns to the limit stays until the finally block
      var step := Invoke(fn);
      match step.outcome {
        case Returns(v) =>
          r := v;
        case Throws(_) =>
          r := ParameterValue(caughtValue);
      }
      stackTraceLimit := originalStackTraceLimit;
    }

    /** One call `w(...a)` of the closure `w = catchWrap(fn, caughtValue)`: it
        calls `catcher(() => fn(...a), caughtValue)`. */
    method CallWrapped(fn: Callable, caughtValue: Option<JsValue>, a: seq<JsValue>) returns (r: JsValue)
      modifies this
      ensures Completion(r, stackTraceLimit) == CatchWrap(fn, caughtValue)(a, old(stackTraceLimit))
      ensures stackTraceLimit == old(stackTraceLimit)
      // exactly one operation was invoked, at limit 0, and it is `() => fn(...a)`
      ensures |Invoked| == |old(Invoked)| + 1 && Invoked[..|old(Invoked)|] == old(Invoked)
      ensures forall l :: Invoked[|old(Invoked)|](l) == fn(a, l)
      ensures Observed == old(Observed) + [0]
    {
      r := Catcher(l => fn(a, l), caughtValue);
    }
  }
}
