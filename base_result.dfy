/** The abstract result base class (OneModel.Results/BaseResult.cs). */
module BaseResults {
  import opened Messages
  import opened Accumulation

  /** The same accumulator as `Result`, with the `AddWarning` and `AddError`
      shorthands and without a combinator. The source class is abstract: its
      constructors are only reachable from subclasses. */
  class BaseResult {
    var messages: seq<Message>
    var isValid: bool

    /** What a caller observes of this result. */
    function State(): Snapshot
      reads this
    {
      Snapshot(messages, isValid)
    }

    /** `IsValid` is true exactly when no stored message is an error. */
    ghost predicate Valid()
      reads this
    {
      Consistent(State())
    }

    /** The parameterless constructor: no messages, valid. */
    constructor ()
      ensures Valid()
      ensures State() == Empty()
    {
      messages := [];
      isValid := true;
    }

    /** The constructor from a sequence: an empty result followed by
        `AddRange(messages)`. */
    constructor FromMessages(ms: seq<Message>)
      ensures Valid()
      ensures State() == AddEach(Empty(), ms)
      ensures messages == ms && isValid == NoErrors(ms)
    {
      messages := [];
      isValid := true;
      new;
      AddRange(ms);
    }

    /** `Add(message)`: appends `m` after the earlier messages and clears
        `IsValid` when `m` is an error. */
    method Add(m: Message)
      requires Valid()
      modifies this
      ensures Valid()
      ensures State() == AddStep(old(State()), m)
      ensures messages == old(messages) + [m]
      ensures isValid == (old(isValid) && m.severity != Error)
    {
      if m.severity == Error {
        isValid := false;
      }
      messages := messages + [m];
      assert State() == AddStep(old(State()), m);
    }

    /** `AddWarning(text)`: appends one warning with that text; validity is
        unchanged. */
    method AddWarning(text: string)
      requires Valid()
      modifies this
      ensures Valid()
      ensures messages == old(messages) + [Message(Warning, text)]
      ensures isValid == old(isValid)
    {
      Add(Message(Warning, text));
    }

    /** `AddError(text)`: appends one error with that text; the result is
        invalid afterwards. */
    method AddError(text: string)
      requires Valid()
      modifies this
      ensures Valid()
      ensures messages == old(messages) + [Message(Error, text)]
      ensures !isValid
    {
      Add(Message(Error, text));
    }

    /** `AddRange(messages)`, for both overloads: `Add` on each element, left
        to right, so the messages become the old ones followed by `ms`. */
    method AddRange(ms: seq<Message>)
      requires Valid()
      modifies this
      ensures Valid()
      ensures State() == AddEach(old(State()), ms)
      ensures messages == old(messages) + ms
      ensures isValid == (old(isValid) && NoErrors(ms))
      ensures !old(isValid) ==> !isValid
    {
      var i := 0;
      while i < |ms|
        invariant 0 <= i <= |ms|
        invariant Valid()
        invariant State() == AddEach(old(State()), ms[..i])
      {
        Add(ms[i]);
        AddEachSnoc(old(State()), ms[..i], ms[i]);
        assert ms[..i + 1] == ms[..i] + [ms[i]];
        i := i + 1;
      }
      assert ms[..i] == ms;
      AddEachAppends(old(State()), ms);
    }

    /** `operator true`: the result is true exactly when it holds no error. */
    function IsTrue(): (r: bool)
      reads this
      requires Valid()
      ensures r <==> NoErrors(messages)
    {
      isValid
    }

    /** `operator false`: the result is false exactly when some stored message
        is an error. */
    function IsFalse(): (r: bool)
      reads this
      requires Valid()
      ensures r <==> exists m :: m in messages && IsError(m)
    {
      !isValid
    }

    /** The implicit conversion to `bool`: agrees with `operator true` and is
        the negation of `operator false`. */
    function ToBool(): (r: bool)
      reads this
      requires Valid()
      ensures r <==> NoErrors(messages)
      ensures r == !IsFalse()
    {
      isValid
    }
  }
}
