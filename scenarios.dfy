/** Client code exercising the result classes through their contracts only,
    following the scenarios of OneModel.Results.Tests/ResultTests.cs. Each
    assertion is proved from the specifications above. */
module ResultScenarios {
  import opened Messages
  import opened Results
  import opened BaseResults

  method ValidResultIsTrue() {
    var actual := new Result();
    assert actual.IsTrue() && actual.ToBool();
  }

  method LoneWarningIsTrueLoneErrorIsFalse() {
    var warned := new Result.FromMessages([Message(Warning, "a")]);
    assert warned.IsTrue() && warned.ToBool();
    var failed := new Result.FromMessages([Message(Error, "a")]);
    assert Message(Error, "a") in failed.messages;
    assert failed.IsFalse() && !failed.ToBool();
  }

  method InitialisedWithMessages() {
    var a := Message(Warning, "a");
    var b := Message(Error, "b");
    var actual := new Result.FromMessages([a, b]);
    assert actual.messages == [a, b];
  }

  method AndedTogether() {
    var a := Message(Error, "a");
    var b := Message(Error, "b");
    var resultA := new Result.FromMessages([a]);
    var resultB := new Result.FromMessages([b]);
    var actual := Result.And(resultA, resultB);
    assert actual.messages == [a, b];
    assert resultA.messages == [a] && resultB.messages == [b];
  }

  method ShortCircuitSkipsSecondWhenFirstFails() {
    var a := Message(Error, "a");
    var b := Message(Error, "b");
    var resultA := new Result.FromMessages([a]);
    var resultB := new Result.FromMessages([b]);
    assert a in resultA.messages;
    var actual := Result.ShortCircuitAnd(resultA, resultB);
    assert actual == resultA && actual.messages == [a];
  }

  method ShortCircuitTakesBothWhenFirstHolds() {
    var b := Message(Error, "b");
    var resultA := new Result();
    var resultB := new Result.FromMessages([b]);
    var actual := Result.ShortCircuitAnd(resultA, resultB);
    assert actual.messages == [b];
  }

  method ChainedWithAnds() {
    var r1 := new Result.FromMessages([Message(Error, "a")]);
    var r2 := new Result.FromMessages([Message(Error, "b")]);
    var r3 := new Result.FromMessages([Message(Error, "c")]);
    var r4 := new Result.FromMessages([Message(Error, "d")]);
    var r12 := Result.And(r1, r2);
    var r123 := Result.And(r12, r3);
    var actual := Result.And(r123, r4);
    assert actual.messages == [Message(Error, "a"), Message(Error, "b"), Message(Error, "c"), Message(Error, "d")];
    assert !actual.ToBool() && !actual.isValid;
  }

  method WarningThenErrorOnBase() {
    var r := new BaseResult();
    r.AddWarning("w");
    assert r.IsTrue();
    r.AddError("e");
    assert r.IsFalse();
    r.AddWarning("x");
    assert r.IsFalse();
    assert r.messages == [Message(Warning, "w"), Message(Error, "e"), Message(Warning, "x")];
  }
}
