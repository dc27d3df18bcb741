/** The concrete valueless result (OneModel.Results/Result.cs). */
module Results {
  import opened Messages
  import opened Accumulation

  /** A result with no value: the messages met while running an algorithm
      and whether any of them is an error. `Add` and `AddRange` update both
      fields in place; `&` and `&&` build results without touching their
      operands. */
  class Result {
    var messages: seq<Message>
    var isValid: bool

    /** What a caller observes of this result. */
    function State(): Snapshot
      reads this
    {
      Snapshot(messages, isValid)
    }

    /** `IsValid` is true exactly when no stored message is an error. */
    ghost predicate Valid()
      reads this
    {
      Consistent(State())
    }

    /** `new Result()`: no messages, valid. */
    constructor ()
      ensures Valid()
      ensures State() == Empty()
    {
      messages := [];
      isValid := true;
    }

    /** `new Result(messages)`, for both the sequence and the `params` array
        forms: an empty result followed by `AddRange(messages)`. */
    constructor FromMessages(ms: seq<Message>)
      ensures Valid()
      ensures State() == AddEach(Empty(), ms)
      ensures messages == ms && isValid == NoErrors(ms)
    {
      messages := [];
      isValid := true;
      new;
      AddRange(ms);
    }

    /** `Add(message)`: appends `m` after the earlier messages and clears
        `IsValid` when `m` is an error. */
    method Add(m: Message)
      requires Valid()
      modifies this
      ensures Valid()
      ensures State() == AddStep(old(State()), m)
      ensures messages == old(messages) + [m]
      ensures isValid == (old(isValid) && m.severity != Error)
    {
      if m.severity == Error {
        isValid := false;
      }
      messages := messages + [m];
      assert State() == AddStep(old(State()), m);
    }

    /** `AddRange(messages)`, for both overloads: `Add` on each element, left
        to right, so the messages become the old ones followed by `ms`. */
    method AddRange(ms: seq<Message>)
      requires Valid()
      modifies this
      ensures Valid()
      ensures State() == AddEach(old(State()), ms)
      ensures messages == old(messages) + ms
      ensures isValid == (old(isValid) && NoErrors(ms))
      ensures !old(isValid) ==> !isValid
    {
      var i := 0;
      while i < |ms|
        invariant 0 <= i <= |ms|
        invariant Valid()
        invariant State() == AddEach(old(State()), ms[..i])
      {
        Add(ms[i]);
        AddEachSnoc(old(State()), ms[..i], ms[i]);
        assert ms[..i + 1] == ms[..i] + [ms[i]];
        i := i + 1;
      }
      assert ms[..i] == ms;
      AddEachAppends(old(State()), ms);
    }

    /** `a & b`: a new result holding `a`'s messages then `b`'s, valid
        exactly when both operands are. Neither operand is modified. */
    static method And(a: Result, b: Result) returns (r: Result)
      requires a.Valid() && b.Valid()
      ensures fresh(r) && r.Valid()
      ensures r.State() == Conjoin(a.State(), b.State())
      ensures r.messages == a.messages + b.messages
      ensures r.isValid == (a.isValid && b.isValid)
    {
      r := new Result.FromMessages(a.messages + b.messages);
      ConjoinConcatenates(a.State(), b.State());
    }

    /** `a && b`: `a` itself, unchanged, when `operator false(a)` holds;
        otherwise the new result `a & b`. */
    static method ShortCircuitAnd(a: Result, b: Result) returns (r: Result)
      requires a.Valid() && b.Valid()
      ensures r.Valid()
      ensures r.State() == Accumulation.ShortCircuitAnd(a.State(), b.State())
      ensures !a.isValid ==> r == a
      ensures a.isValid ==> fresh(r) && r.messages == a.messages + b.messages && r.isValid == b.isValid
    {
      if a.IsFalse() {
        r := a;
      } else {
        r := And(a, b);
      }
    }

    /** `operator true`: the result is true exactly when it holds no error. */
    function IsTrue(): (r: bool)
      reads this
      requires Valid()
      ensures r <==> NoErrors(messages)
    {
      isValid
    }

    /** `operator false`: the result is false exactly when some stored message
        is an error. */
    function IsFalse(): (r: bool)
      reads this
      requires Valid()
      ensures r <==> exists m :: m in messages && IsError(m)
    {
      !isValid
    }

    /** The implicit conversion to `bool`: agrees with `operator true` and is
        the negation of `operator false`. */
    function ToBool(): (r: bool)
      reads this
      requires Valid()
      ensures r <==> NoErrors(messages)
      ensures r == !IsFalse()
    {
      isValid
    }
  }
}
