/** The diagnostic accumulator shared by `Result` and `BaseResult`.

    Both classes keep the same two pieces of state: an append-only list of
    messages and an `IsValid` flag that starts out true and is only ever
    cleared, by an `Error` message. This module states that behaviour on
    values: a `Snapshot` is what a caller can observe of a result, `AddStep`
    and `AddEach` are what `Add` and `AddRange` do to it, and `Conjoin` and
    `ShortCircuitAnd` are the `&` and `&&` combinators. The lemmas below are
    the properties the classes rely on.
 */
module Accumulation {
  import opened Messages

  predicate IsError(m: Message) {
    m.severity == Error
  }

  /** Reference definition of validity: no message in `ms` is an error. */
  predicate NoErrors(ms: seq<Message>) {
    forall m :: m in ms ==> !IsError(m)
  }

  /** The observable state of a result: its messages in insertion order and
      its `IsValid` flag. */
  datatype Snapshot = Snapshot(messages: seq<Message>, isValid: bool)

  /** The class invariant: the flag is true exactly when no stored message is
      an error. The source never recomputes the flag, so this has to be kept
      by every mutation. */
  predicate Consistent(s: Snapshot) {
    s.isValid == NoErrors(s.messages)
  }

  /** A freshly constructed result: no messages, valid. */
  function Empty(): (r: Snapshot)
    ensures Consistent(r) && r.isValid && |r.messages| == 0
  {
    Snapshot([], true)
  }

  /** One `Add(m)`: an error clears the flag (nothing ever sets it), and `m`
      is appended after the earlier messages. */
  function AddStep(s: Snapshot, m: Message): (r: Snapshot)
    ensures Consistent(s) ==> Consistent(r)
    ensures !s.isValid ==> !r.isValid
    ensures |r.messages| == |s.messages| + 1
    ensures r.messages[..|s.messages|] == s.messages && r.messages[|s.messages|] == m
  {
    Snapshot(s.messages + [m], if IsError(m) then false else s.isValid)
  }

  /** `AddRange(ms)`: `Add` applied to each message of `ms`, left to right. */
  function AddEach(s: Snapshot, ms: seq<Message>): Snapshot
    decreases |ms|
  {
    if ms == [] then s else AddEach(AddStep(s, ms[0]), ms[1..])
  }

  /** `a & b`: a new result built, as the source does, by adding the
      concatenation of both operands' messages to an empty result. */
  function Conjoin(a: Snapshot, b: Snapshot): Snapshot {
    AddEach(Empty(), a.messages + b.messages)
  }

  /** `a && b` as C# evaluates it on a type with `operator false` and `&`:
      when `operator false(a)` holds, `a` itself; otherwise `a & b`. */
  function ShortCircuitAnd(a: Snapshot, b: Snapshot): Snapshot {
    if !a.isValid then a else Conjoin(a, b)
  }

  lemma NoErrorsConcat(a: seq<Message>, b: seq<Message>)
    ensures NoErrors(a + b) == (NoErrors(a) && NoErrors(b))
  {
    assert forall m :: m in a + b <==> m in a || m in b;
  }

  /** Adding `ms + [m]` is adding `ms` and then `m`: this is what lets a loop
      that calls `Add` once per element implement `AddRange`. */
  lemma {:induction false} AddEachSnoc(s: Snapshot, ms: seq<Message>, m: Message)
    ensures AddEach(s, ms + [m]) == AddStep(AddEach(s, ms), m)
    decreases |ms|
  {
    if ms == [] {
      assert ms + [m] == [m];
      assert [m][1..] == [];
    } else {
      assert (ms + [m])[0] == ms[0];
      assert (ms + [m])[1..] == ms[1..] + [m];
      AddEachSnoc(AddStep(s, ms[0]), ms[1..], m);
    }
  }

  /** `AddRange(ms)` appends exactly `ms` after the earlier messages, and the
      flag afterwards is the old flag and-ed with "no message of `ms` is an
      error". */
  lemma {:induction false} AddEachAppends(s: Snapshot, ms: seq<Message>)
    ensures AddEach(s, ms).messages == s.messages + ms
    ensures AddEach(s, ms).isValid == (s.isValid && NoErrors(ms))
    decreases |ms|
  {
    if ms != [] {
      var t := AddStep(s, ms[0]);
      AddEachAppends(t, ms[1..]);
      assert s.messages + [ms[0]] + ms[1..] == s.messages + ms;
      assert ms == [ms[0]] + ms[1..];
      NoErrorsConcat([ms[0]], ms[1..]);
    }
  }

  /** `AddRange` keeps the class invariant. */
  lemma AddEachKeepsInvariant(s: Snapshot, ms: seq<Message>)
    requires Consistent(s)
    ensures Consistent(AddEach(s, ms))
  {
    AddEachAppends(s, ms);
    NoErrorsConcat(s.messages, ms);
  }

  /** Validity is monotone: once the flag is false, no later `AddRange` (and
      so no later `Add`) makes it true again. */
  lemma ValidityNeverReturns(s: Snapshot, ms: seq<Message>)
    requires !s.isValid
    ensures !AddEach(s, ms).isValid
  {
    AddEachAppends(s, ms);
  }

  /** Building a result from a sequence keeps the messages exactly and in
      order, and it is valid exactly when none of them is an error; for the
      two-message form `[a, b]`, the messages are `a` then `b`. */
  lemma FromMessagesKeepsOrder(ms: seq<Message>)
    ensures AddEach(Empty(), ms) == Snapshot(ms, NoErrors(ms))
    ensures Consistent(AddEach(Empty(), ms))
  {
    AddEachAppends(Empty(), ms);
  }

  /** `a & b` holds `a`'s messages followed by `b`'s and satisfies the
      invariant; for operands that satisfy it, its validity is the
      conjunction of theirs. */
  lemma ConjoinConcatenates(a: Snapshot, b: Snapshot)
    ensures Conjoin(a, b).messages == a.messages + b.messages
    ensures Consistent(Conjoin(a, b))
    ensures Consistent(a) && Consistent(b) ==> Conjoin(a, b).isValid == (a.isValid && b.isValid)
  {
    FromMessagesKeepsOrder(a.messages + b.messages);
    NoErrorsConcat(a.messages, b.messages);
  }

  /** `&` is associative. */
  lemma ConjoinAssociative(a: Snapshot, b: Snapshot, c: Snapshot)
    ensures Conjoin(Conjoin(a, b), c) == Conjoin(a, Conjoin(b, c))
  {
    ConjoinConcatenates(a, b);
    ConjoinConcatenates(b, c);
    assert (a.messages + b.messages) + c.messages == a.messages + (b.messages + c.messages);
  }

  /** A chain `a & b & c & d` (which C# groups to the left) flattens to the
      operands' messages in left-to-right order. */
  lemma ChainedConjoinFlattens(a: Snapshot, b: Snapshot, c: Snapshot, d: Snapshot)
    ensures Conjoin(Conjoin(Conjoin(a, b), c), d).messages
         == a.messages + b.messages + c.messages + d.messages
  {
    ConjoinConcatenates(a, b);
    ConjoinConcatenates(Conjoin(a, b), c);
    ConjoinConcatenates(Conjoin(Conjoin(a, b), c), d);
  }

  /** `a && b` and `a & b` always agree in boolean context, and both are
      true exactly when both operands are. */
  lemma ShortCircuitAndSameTruth(a: Snapshot, b: Snapshot)
    requires Consistent(a) && Consistent(b)
    ensures ShortCircuitAnd(a, b).isValid == Conjoin(a, b).isValid == (a.isValid && b.isValid)
    ensures Consistent(ShortCircuitAnd(a, b))
  {
    ConjoinConcatenates(a, b);
  }

  /** `a && b` only drops messages, and only from the end: its messages are
      a prefix of those of `a & b`, and they are all of `a`'s. */
  lemma ShortCircuitAndIsPrefix(a: Snapshot, b: Snapshot)
    ensures a.messages <= ShortCircuitAnd(a, b).messages <= Conjoin(a, b).messages
    ensures ShortCircuitAnd(a, b).messages == Conjoin(a, b).messages <==> a.isValid || b.messages == []
  {
    ConjoinConcatenates(a, b);
    if !a.isValid && b.messages != [] {
      assert |Conjoin(a, b).messages| > |a.messages|;
    }
  }
}
