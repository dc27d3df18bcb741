# OneModel.Results diagnostic accumulator in Dafny

This project models the valueless part of the OneModel.Results library. A
result is an ordered, append-only list of diagnostic messages plus an
`IsValid` flag. The flag starts out true. Adding an `Error` message clears it,
and nothing ever sets it again. Results can be combined with `&`, and used in
boolean context through `operator true`, `operator false` and the implicit
`bool` conversion. Together these make C#'s `&&` a short-circuit AND.

Files:

- `messages.dfy` (module `Messages`): `Severity` (`Warning`, `Error`) and the
  immutable `Message` pair, as datatypes.
- `accumulation.dfy` (module `Accumulation`): the accumulator stated on
  values, which is shared by both classes.
  - `Snapshot` is what a caller observes of a result: its messages and its flag.
  - `Consistent` is the class invariant: the flag is true exactly when no
    message is an error.
  - `AddStep` and `AddEach` are what `Add` and `AddRange` do.
  - `Conjoin` and `ShortCircuitAnd` are `&` and `&&`.
  - The lemmas state the accumulator's properties: append order, the invariant,
    monotone validity, concatenation, associativity and short-circuit
    behaviour.
- `result.dfy` (module `Results`): class `Result`. Its fields are updated in
  place by `Add` and by the loop in `AddRange`. `And` and `ShortCircuitAnd`
  are static methods that leave their operands unchanged. `ShortCircuitAnd`
  returns the first operand object itself when that operand is invalid.
- `base_result.dfy` (module `BaseResults`): class `BaseResult`. It is the same
  accumulator with `AddWarning` and `AddError`, and it has no combinator.
- `scenarios.dfy` (module `ResultScenarios`): client methods that follow the
  scenarios of `OneModel.Results.Tests/ResultTests.cs`. Their assertions are
  proved from the classes' contracts alone.

Every method of a class requires `Valid()` and ensures it again. `Valid()` is
the invariant "`IsValid` iff no stored message is an error", and every
constructor establishes it. The source never recomputes the flag. It only
clears the flag (`OneModel.Results/Result.cs:46-49`), so this invariant is
proved after each mutation.

Two facts about the source shape the model:
- `Result.cs` has no `AddWarning`, `AddError` or named constructors. Only
  `BaseResult.cs:47-58` has `AddWarning` and `AddError`, so only
  `BaseResult` has them here.
- `&` concatenates the operands' messages in operand order
  (`Result.cs:78`), so `a & b` and `b & a` differ in message order. Only
  validity is symmetric. `ConjoinAssociative` is proved; commutativity is
  not.

## Model

| member | source | states |
|---|---|---|
| Messages.ConstructionStoresArguments | OneModel.Results/Message.cs:9-13 | for every severity and every text (the empty text included), construction succeeds and the `Severity` and `Text` properties read back the arguments |
| Accumulation.Empty | OneModel.Results/Result.cs:14-34 | a fresh result has no messages, is valid and satisfies the invariant |
| Accumulation.AddStep | OneModel.Results/Result.cs:44-52 | one `Add` keeps the invariant, never turns an invalid result valid, and leaves the earlier messages in place with the new one appended last |
| Accumulation.NoErrorsConcat | OneModel.Results/Result.cs:29-34 | "no errors" over a concatenation is the conjunction over its two parts |
| Accumulation.AddEachSnoc | OneModel.Results/Result.cs:65-71 | adding `ms + [m]` one by one is adding `ms` and then `m`, so the `foreach` loop implements `AddRange` |
| Accumulation.AddEachAppends | OneModel.Results/Result.cs:57-71 | `AddRange(ms)` leaves the messages as the old ones followed by `ms`, and the flag as the old flag and "no message of `ms` is an error" |
| Accumulation.AddEachKeepsInvariant | OneModel.Results/Result.cs:44-71 | `AddRange` keeps "`IsValid` iff no stored error" |
| Accumulation.ValidityNeverReturns | OneModel.Results/Result.cs:34-52 | once the flag is false, no sequence of later additions makes it true |
| Accumulation.FromMessagesKeepsOrder | OneModel.Results/Result.cs:19-27 | a result built from `ms` holds exactly `ms`, in order, and is valid iff `ms` has no error |
| Accumulation.ConjoinConcatenates | OneModel.Results/Result.cs:76-79 | `a & b` holds `a`'s messages then `b`'s and satisfies the invariant; for consistent operands its validity is `a.IsValid && b.IsValid` |
| Accumulation.ConjoinAssociative | OneModel.Results/Result.cs:76-79 | `(a & b) & c` and `a & (b & c)` are the same result |
| Accumulation.ChainedConjoinFlattens | OneModel.Results.Tests/ResultTests.cs:88-104 | `a & b & c & d` holds the four operands' messages in left-to-right order |
| Accumulation.ShortCircuitAndSameTruth | OneModel.Results/Result.cs:81-85 | `a && b` and `a & b` agree in boolean context, and both are true iff both operands are; `a && b` keeps the invariant |
| Accumulation.ShortCircuitAndIsPrefix | OneModel.Results.Tests/ResultTests.cs:59-86 | `a && b` holds all of `a`'s messages and is a prefix of `a & b`, and it equals `a & b` exactly when `a` is valid or `b` has no messages |
| Results.Result.constructor | OneModel.Results/Result.cs:14-17 | `new Result()` is empty and valid |
| Results.Result.FromMessages | OneModel.Results/Result.cs:19-27 | the sequence and `params` constructors are an empty result followed by `AddRange`: messages exactly the argument, valid iff it has no error |
| Results.Result.Add | OneModel.Results/Result.cs:44-52 | appends the message last, keeps the earlier ones, clears `IsValid` on an error, keeps the invariant |
| Results.Result.AddRange | OneModel.Results/Result.cs:57-71 | both overloads add each message left to right; messages become old followed by `ms`; validity never returns |
| Results.Result.And | OneModel.Results/Result.cs:76-79 | `a & b` is a fresh result with `a`'s messages then `b`'s, valid iff both are; the operands are not modified |
| Results.Result.ShortCircuitAnd | OneModel.Results/Result.cs:81-85 | `a && b` returns the object `a` itself when `a` is invalid, and otherwise a fresh `a & b` |
| Results.Result.IsTrue | OneModel.Results/Result.cs:81 | `operator true` holds iff no stored message is an error |
| Results.Result.IsFalse | OneModel.Results/Result.cs:83 | `operator false` holds iff some stored message is an error |
| Results.Result.ToBool | OneModel.Results/Result.cs:85 | the `bool` conversion holds iff there is no error, and it is the negation of `operator false` |
| BaseResults.BaseResult.constructor | OneModel.Results/BaseResult.cs:9-12 | the parameterless constructor gives an empty, valid result |
| BaseResults.BaseResult.FromMessages | OneModel.Results/BaseResult.cs:14-17 | the sequence constructor is `AddRange` on an empty result: messages exactly the argument, valid iff it has no error |
| BaseResults.BaseResult.Add | OneModel.Results/BaseResult.cs:34-42 | appends the message last, keeps the earlier ones, clears `IsValid` on an error, keeps the invariant |
| BaseResults.BaseResult.AddWarning | OneModel.Results/BaseResult.cs:47-50 | appends exactly one `Warning` with the given text; `IsValid` is unchanged |
| BaseResults.BaseResult.AddError | OneModel.Results/BaseResult.cs:55-58 | appends exactly one `Error` with the given text; the result is invalid afterwards |
| BaseResults.BaseResult.AddRange | OneModel.Results/BaseResult.cs:63-77 | both overloads add each message left to right; messages become old followed by `ms`; validity never returns |
| BaseResults.BaseResult.IsTrue | OneModel.Results/BaseResult.cs:79 | `operator true` holds iff no stored message is an error |
| BaseResults.BaseResult.IsFalse | OneModel.Results/BaseResult.cs:81 | `operator false` holds iff some stored message is an error |
| BaseResults.BaseResult.ToBool | OneModel.Results/BaseResult.cs:83 | the `bool` conversion holds iff there is no error, and it is the negation of `operator false` |

## Left out

- `Result<T>`, the named constructors `Empty`, `Error` and `Warning`, `WithValue`, and `Result<T>.And` with or without an aggregator: the tests use them, but their source is not part of this model.
- Runtime type checks such as `Assert.IsType<Result>`: these tests pass a `Result<int>` where a `Result` is expected (`OneModel.Results.Tests/GenericResultTests.cs:90-129`). That needs `Result<T>` to derive from `Result`, but ``OneModel.Results/Result`1.cs:9`` declares `Result<T>` with no base class.
- Reference identity of messages (`Assert.Same`): messages are datatype values, so equal elements in the same order stand in for identical objects. Result objects do keep their identity: `ShortCircuitAnd` returns the first operand object itself.
- C# operator resolution: `operator true`, `operator false`, the implicit conversion and `&` are named members (`IsTrue`, `IsFalse`, `ToBool`, `And`). `&&` is the explicit `ShortCircuitAnd`. Both of its operands are already-built results, so "not evaluating `b`" is not observable here.
- `null` values: Dafny sequences, strings and class-typed parameters here are never null.
  - A null text raises nothing: `Message.cs:9-13` stores it, so `new Message(Warning, null)` and `BaseResult.AddWarning(null)` succeed with a null `Text`.
  - A null sequence given to `AddRange` or to a constructor throws in the `foreach`.
  - A null message given to `Add` throws at `message.Severity`.
  - A null `Result` operand of `&`, `&&`, `operator true`, `operator false` or the `bool` conversion throws at `a.Messages` or `a.IsValid`.
- Results.Result.AddRange, BaseResults.BaseResult.AddRange: the `Messages` property returns the private list itself (`Result.cs:39`, `BaseResult.cs:29`), and this aliasing is not modelled. In C#, `r.AddRange(r.Messages)` on `[m1, m2]` appends `m1` and then throws `InvalidOperationException`, because the `foreach` walks the list it is appending to; `r` is left as `[m1, m2, m1]`. In the model the call returns normally with `[m1, m2, m1, m2]`. A caller that keeps the list returned by `Messages` also sees every later `Add`, while a read of the `messages` field here is a fixed snapshot.
- `IEnumerable` laziness and deferred enumeration: input sequences are finite `seq<Message>` values.
- The `Severity` declaration is not part of this model: the model uses the two cases the code refers to, `Warning` and `Error`.
- `BaseResult` is abstract in C#. Dafny classes here cannot be abstract, so its constructors are modelled as directly callable.
- Concurrency: the library has none. Mutation is single-writer.
- Encapsulation: the fields `messages` and `isValid` of `Result` and `BaseResult` are writable by any client in the model. In the source, `_messages` is private and readonly, and `IsValid` has a private setter (`Result.cs:12,34`, `BaseResult.cs:7,24`). The invariant `Valid()` and "validity never returns" are therefore proved only for clients that change a result through its methods.
