# catcher, modelled in Dafny

`catcher` is a small utility for call paths where a throw is an expected,
frequent outcome. `catcher(fn, caughtValue)` runs `fn` once and returns what it
returns. If `fn` throws anything at all, `catcher` swallows it and returns
`caughtValue`, which is `undefined` when it was left out. Error objects
built inside `fn` are about to be thrown away, so `catcher` sets the global
`Error.stackTraceLimit` to 0 while `fn` runs. A `finally` block then writes
the saved value back on every exit path. `catchWrap(fn, caughtValue)`
returns a closure. Calling that closure with arguments `a` is the call
`catcher(() => fn(...a), caughtValue)`.

The model is in two files:

- `catcher.dfy` (module `Catcher`) holds the model. JavaScript values are the
  datatype `JsValue`. An operation is a function of the stack-trace limit it
  observes when invoked. It yields an `Outcome` (`Returns(v)` or `Throws(e)`)
  and the limit it leaves behind, because the operation may assign
  `Error.stackTraceLimit` itself. The optional `caughtValue` is an `Option`.
  `RunCatcher` is the pure meaning of one `catcher` call. The class
  `ErrorGlobal` stands for the global `Error` constructor: its field
  `stackTraceLimit` is updated in place by the method `Catcher`, which is
  proved against `RunCatcher`. `CatchWrap` builds the closure. `CallWrapped`
  is one call of that closure made against the global.
- `catcher_tests.dfy` (module `CatcherTests`) states the package's test
  expectations about the model, using the test fixture `thrower`.

## Model

| member | source | states |
|---|---|---|
| `Catcher.ParameterValue` | src/index.ts:10-12 | A fallback that was passed is what the parameter holds. The parameter reads as `undefined` exactly when it was left out or passed as `undefined`. |
| `Catcher.RunCatcher` | src/index.ts:10-24 | After the call the global limit equals its value before the call, on both paths. A normal return of `fn` is passed through unchanged whatever the fallback is. A throw of any value gives the fallback, or `undefined` when none was given. |
| `Catcher.ErrorGlobal.Catcher` | src/index.ts:10-24 | The imperative save/zero/run/restore sequence yields exactly `RunCatcher`'s result and leaves `stackTraceLimit` as it found it. This holds even when the operation assigns the limit itself. `fn` itself, and no other operation, is invoked through `ErrorGlobal.Invoke` exactly once, and it observes a limit of 0. |
| `Catcher.ErrorGlobal.Invoke` | src/index.ts:17 | Running an operation gives what it does at the current limit. The limit it leaves becomes the global's value. The invocation is logged: the operation itself and the limit it observed. |
| `Catcher.CatchWrap` | src/index.ts:33-39 | The closure runs the operation `l => fn(a, l)`, which is line 38's `() => fn(...a)`, under `catcher`. Every call of the returned closure restores the global limit. It returns `fn(...a)`'s value on a normal return and the fallback on a throw. |
| `Catcher.ErrorGlobal.CallWrapped` | src/index.ts:37-38 | One call of the closure against the global gives what `CatchWrap` says. That is the result and final limit of `catcher(() => fn(...a), cv)`, run through `ErrorGlobal.Catcher`. It restores `stackTraceLimit`. Exactly one operation is invoked through `ErrorGlobal.Invoke`, at limit 0, and that operation does at every limit what `fn` does on `a`. |
| `Catcher.CallInTurn` | test/index.ts:26-33 | Calling a closure once per argument list yields exactly one result per call. When every call of the closure restores the limit, the limit at the end is the one at the start. Each result is then what that call returns when made on its own. |
| `Catcher.WrappedCallsIndependent` | src/index.ts:37-38 | Each call of a `catchWrap` closure is its own save/zero/restore cycle. After any number of calls the limit is back where it started. For an operation with no state of its own, each call returns what the matching `catcher` call would return if made on its own. |
| `CatcherTests.Utf16Length` | test/index.ts:9 | `s.length` counts UTF-16 code units: between one and two per character, and exactly one per character when all characters are in the Basic Multilingual Plane. |
| `CatcherTests.Utf16LengthChar` | test/index.ts:9 | A character below U+10000 is one code unit; any other character is two (a surrogate pair). |
| `CatcherTests.Utf16LengthConcat` | test/index.ts:9 | The length of `s + t` is the length of `s` plus the length of `t`. With `Utf16LengthChar` this fixes `s.length` for every string. |
| `CatcherTests.AstralCharacterIsEven` | test/index.ts:9 | `thrower('\u{1F600}')` is `false`: the one character has length 2. |
| `CatcherTests.Thrower` | test/index.ts:4-10 | The fixture `thrower` returns `undefined` with no argument or `undefined`. It throws `Error('empty string!')` on `''`. On any other string it returns whether the length, counted as `Utf16Length`, is odd. For other values: `null.length` throws, and any other value has no `length`, so the result is `false`. It never assigns the limit. |
| `CatcherTests.CatcherScenarios` | test/index.ts:12-23 | `catcher(thrower)` is `undefined`. `catcher(() => thrower(''), 123)` is `123`. `catcher(() => thrower('123'), 123)` is `true`. Each call restores the limit. |
| `CatcherTests.CatchWrapScenarios` | test/index.ts:25-35 | The six expectations for the wrapped `thrower`, with and without the fallback `99`. A normal `undefined` result (`or99()`) is not replaced by the fallback. |
| `CatcherTests.ThrowerOnTestArguments` | test/index.ts:6-9 | On the three argument lists the tests use (none, `''`, `'123'`), `thrower` returns `undefined`, throws `Error('empty string!')`, and returns `true`. |
| `CatcherTests.CatcherScenariosOnTheGlobal` | test/index.ts:12-23 | The three `catcher()` test calls, in order, made against one `ErrorGlobal`: they return `undefined`, `123` and `true`, the limit ends where it started, and each invocation observed 0. |
| `CatcherTests.CatchWrapScenariosOnTheGlobal` | test/index.ts:25-35 | The six `catchWrap` test calls, in order, made against one `ErrorGlobal`: they return the expected values, the limit ends where it started, and each invocation observed 0. |

## Left out

- The overload declarations (src/index.ts:3-9, 26-32) and the type-level aliases from src/index.ts:41 onward only shape TypeScript's static types and have no runtime behaviour. The model has one signature: an optional fallback and an argument list of any length.
- Capture of real stack traces, and the performance gain from skipping it, cannot be observed in the model. `Error.stackTraceLimit` is a plain integer field. JavaScript numbers that are not integers (fractions, `Infinity`, `NaN`) and non-number values of the property are not modelled.
- The code reads and writes `Error.stackTraceLimit` unconditionally. It has no one-time check of whether the property exists or is writable, and the model has none either.
- ErrorGlobal.Catcher, ErrorGlobal.CallWrapped: "exactly once" counts invocations made through `ErrorGlobal.Invoke`, which keeps the ghost logs `Invoked` (which operation ran) and `Observed` (the limit it saw). An operation is a pure function, so applying it directly, outside `Invoke`, is not observable and is not counted.
- Asynchronous operations and interleaved calls are not modelled. The save/restore discipline only holds for an operation that runs to completion synchronously.
- Side effects of the operation other than its result, what it throws and what it assigns to the limit (I/O, other globals) are not modelled. An operation is a function of the limit it observes on entry; reading the limit again during its run is folded into that function.
- JavaScript values are reduced to the kinds in `JsValue`. Objects other than error objects, symbols and identity-based equality of objects are not modelled. `Str` holds a sequence of Unicode scalar values, so a JavaScript string containing a lone surrogate such as `'\uD800'` (length 1) cannot be represented. The `TypeError` raised by reading a property of `null` is represented by an `Error` value carrying V8's message.
