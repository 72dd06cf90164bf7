/** The package's own test scenarios, stated about the model. */
module CatcherTests {
  import opened Catcher

  /** `s.length` of a JavaScript string: the number of its UTF-16 code units,
      two for each character outside the Basic Multilingual Plane. */
  function Utf16Length(t: string): (n: nat)
    // at least one code unit per character and at most two
    ensures |t| <= n <= 2 * |t|
    // exactly one per character when every character is in the Basic Multilingual Plane
    ensures (forall i :: 0 <= i < |t| ==> t[i] < '\U{10000}') ==> n == |t|
  {
    if t == [] then 0
    else (if t[0] < '\U{10000}' then 1 else 2) + Utf16Length(t[1..])
  }

  /** A single character is one code unit in the Basic Multilingual Plane and
      a surrogate pair of two outside it. */
  lemma Utf16LengthChar(c: char)
    ensures Utf16Length([c]) == if c < '\U{10000}' then 1 else 2
  {
  }

  /** The length of a concatenation is the sum of the lengths; with
      `Utf16LengthChar` this fixes the length of every string. */
  lemma {:induction false} Utf16LengthConcat(s: string, t: string)
    ensures Utf16Length(s + t) == Utf16Length(s) + Utf16Length(t)
  {
    if s == [] {
      assert s + t == t;
    } else {
      assert (s + t)[1..] == s[1..] + t;
      Utf16LengthConcat(s[1..], t);
    }
  }

  /** A character outside the Basic Multilingual Plane has length 2, so
      `thrower('\u{1F600}')` is `false`. */
  lemma AstralCharacterIsEven()
    ensures Thrower([Str("\U{1F600}")], 0).outcome == Returns(Bool(false))
  {
  }

  /** The test fixture `thrower(s?)`: `undefined` without an argument, a throw
      on the empty string, otherwise whether the string's length is odd. It
      leaves the stack-trace limit alone. */
  function Thrower(a: seq<JsValue>, limit: int): (step: Step)
    // with no argument, or `undefined`, it returns `undefined`
    ensures |a| == 0 || a[0] == Undefined ==> step.outcome == Returns(Undefined)
    // the empty string makes it throw an error object
    ensures |a| > 0 && a[0] == Str("") ==> step.outcome == Throws(Error("empty string!"))
    // any other string gives whether its length in UTF-16 code units is odd
    ensures |a| > 0 && a[0].Str? && a[0].s != "" ==> step.outcome == Returns(Bool(Utf16Length(a[0].s) % 2 == 1))
    // outside its declared types: `null.length` throws, and any other value has
    // no `length`, so `undefined % 2 === 1` is false
    ensures |a| > 0 && a[0] == Null ==> step.outcome.Throws?
    ensures |a| > 0 && (a[0].Bool? || a[0].Num? || a[0].Error?) ==> step.outcome == Returns(Bool(false))
    // it never assigns the stack-trace limit
    ensures step.limitAfter == limit
  {
    var s := if |a| == 0 then Undefined else a[0];
    var outcome :=
      match s
      case Undefined => Returns(Undefined)
      case Str(t) =>
        if t == "" then Throws(Error("empty string!")) else Returns(Bool(Utf16Length(t) % 2 == 1))
      // reading `.length` of null throws a TypeError (an error object here)
      case Null => Throws(Error("Cannot read properties of null (reading 'length')"))
      // `.length` of any other value is undefined, and `undefined % 2 === 1` is false
      case _ => Returns(Bool(false));
    Step(outcome, limit)
  }

  /** The expectations of the `catcher()` test: the fallback only on a throw,
      `undefined` when there is no fallback, and the limit restored each time. */
  lemma CatcherScenarios(limit: int)
    ensures RunCatcher(l => Thrower([], l), None, limit) == Completion(Undefined, limit)
    ensures RunCatcher(l => Thrower([Str("")], l), Some(Num(123)), limit) == Completion(Num(123), limit)
    ensures RunCatcher(l => Thrower([Str("123")], l), Some(Num(123)), limit) == Completion(Bool(true), limit)
  {
  }

  /** The expectations of the `catchWrap` test. A normal `undefined` result
      is not replaced by the fallback: `or99()` is `undefined`. */
  lemma CatchWrapScenarios(limit: int)
    ensures CatchWrap(Thrower, None)([], limit).result == Undefined
    ensures CatchWrap(Thrower, None)([Str("")], limit).result == Undefined
    ensures CatchWrap(Thrower, None)([Str("123")], limit).result == Bool(true)
    ensures CatchWrap(Thrower, Some(Num(99)))([], limit).result == Undefined
    ensures CatchWrap(Thrower, Some(Num(99)))([Str("")], limit).result == Num(99)
    ensures CatchWrap(Thrower, Some(Num(99)))([Str("123")], limit).result == Bool(true)
  {
  }

  /** What `thrower` does on the three argument lists the tests use. */
  lemma ThrowerOnTestArguments(limit: int)
    ensures Thrower([], limit) == Step(Returns(Undefined), limit)
    ensures Thrower([Str("")], limit) == Step(Throws(Error("empty string!")), limit)
    ensures Thrower([Str("123")], limit) == Step(Returns(Bool(true)), limit)
  {
  }

  /** The `catcher()` test run against the global, in the order of the test
      file: the results, the limit once they are done, and the limit each
      invocation of `thrower` observed. */
  method CatcherScenariosOnTheGlobal(limit: int) returns (results: seq<JsValue>, finalLimit: int, ghost observed: seq<int>)
    ensures results == [Undefined, Num(123), Bool(true)]
    ensures finalLimit == limit
    ensures observed == [0, 0, 0]
  {
    ThrowerOnTestArguments(0);
    var err := new ErrorGlobal(limit);
    var r1 := err.Catcher(l => Thrower([], l), None);
    var r2 := err.Catcher(l => Thrower([Str("")], l), Some(Num(123)));
    var r3 := err.Catcher(l => Thrower([Str("123")], l), Some(Num(123)));
    results := [r1, r2, r3];
    finalLimit := err.stackTraceLimit;
    observed := err.Observed;
  }

  /** The `catchWrap` test run against the global, in the order of the test
      file: the closures without and with the fallback 99, each called with
      no argument, `''` and `'123'`. */
  method CatchWrapScenariosOnTheGlobal(limit: int) returns (results: seq<JsValue>, finalLimit: int, ghost observed: seq<int>)
    ensures results == [Undefined, Undefined, Bool(true), Undefined, Num(99), Bool(true)]
    ensures finalLimit == limit
    ensures observed == [0, 0, 0, 0, 0, 0]
  {
    ThrowerOnTestArguments(0);
    var err := new ErrorGlobal(limit);
    var r1 := err.CallWrapped(Thrower, None, []);
    var r2 := err.CallWrapped(Thrower, None, [Str("")]);
    var r3 := err.CallWrapped(Thrower, None, [Str("123")]);
    var r4 := err.CallWrapped(Thrower, Some(Num(99)), []);
    var r5 := err.CallWrapped(Thrower, Some(Num(99)), [Str("")]);
    var r6 := err.CallWrapped(Thrower, Some(Num(99)), [Str("123")]);
    results := [r1, r2, r3, r4, r5, r6];
    finalLimit := err.stackTraceLimit;
    observed := err.Observed;
  }
}
