/** The exception unit scenarios as verified clients of the builder. */
module ExceptionScenarios {
  import opened Wrappers
  import opened Exceptions

  /** unexpectedException with a message raises UNEXPECTED_EXCEPTION with the message in its text. */
  method TestUnexpected1() returns (c: Completion<()>)
    ensures c.Raised? && c.exception.code == UnexpectedException
    ensures GetMessage(c.exception) == "UNEXPECTED_EXCEPTION:{message=messsage}"
  {
    c := UnexpectedExceptionWithMessage("messsage");
  }

  /** unexpectedException with a throwable raises UNEXPECTED_EXCEPTION caused by it. */
  method TestUnexpected2() returns (c: Completion<()>)
    ensures c.Raised? && c.exception.code == UnexpectedException
    ensures c.exception.cause.Some? && c.exception.cause.value.message == "test exception"
  {
    c := UnexpectedExceptionWithCause(Cause("test exception"));
  }

  /** build(code).create() carries the code. */
  method TestExceptionBuilder() returns (e: TalendRuntimeException)
    ensures e.code == UnexpectedException
  {
    var builder := new Builder(UnexpectedException, None);
    e := builder.Create();
  }

  lemma ArgumentKeysAssigned(args: seq<string>)
    requires |args| >= 2
    ensures Get(PositionalContext(ExpectedKeys(UnexpectedArgument), args), "argument") == Some(args[0])
    ensures Get(PositionalContext(ExpectedKeys(UnexpectedArgument), args), "value") == Some(args[1])
  {
    PositionalContextAt(ExpectedKeys(UnexpectedArgument), args, 0);
    PositionalContextAt(ExpectedKeys(UnexpectedArgument), args, 1);
  }

  /** set("foo", "bar") assigns argument=foo and value=bar. */
  method TestExceptionBuilderWithSetParams() returns (e: TalendRuntimeException)
    ensures e.code == UnexpectedArgument
    ensures Get(e.context, "argument") == Some("foo") && Get(e.context, "value") == Some("bar")
  {
    var builder := new Builder(UnexpectedArgument, None);
    ArgumentKeysAssigned(["foo", "bar"]);
    e := builder.Set(["foo", "bar"]);
  }

  /** set with one argument leaves value absent; set with three drops the third. */
  method TestExceptionBuilderWithSetWrongParams() returns (fewer: TalendRuntimeException, more: TalendRuntimeException)
    ensures fewer.code == UnexpectedArgument
    ensures Get(fewer.context, "argument") == Some("foo") && Get(fewer.context, "value") == None
    ensures more.code == UnexpectedArgument
    ensures Get(more.context, "argument") == Some("foo") && Get(more.context, "value") == Some("bar")
  {
    var builder := new Builder(UnexpectedArgument, None);
    PositionalContextAt(ExpectedKeys(UnexpectedArgument), ["foo"], 0);
    assert "value" != "argument";
    fewer := builder.Set(["foo"]);
    builder := new Builder(UnexpectedArgument, None);
    ArgumentKeysAssigned(["foo", "bar", "xx"]);
    more := builder.Set(["foo", "bar", "xx"]);
  }

  /** put of both expected keys, then create. */
  method TestExceptionBuilderWithPutParams() returns (e: TalendRuntimeException)
    ensures e.code == UnexpectedArgument
    ensures Get(e.context, "argument") == Some("foo") && Get(e.context, "value") == Some("bar")
  {
    var builder := new Builder(UnexpectedArgument, None);
    builder.Put("argument", "foo");
    builder.Put("value", "bar");
    e := builder.Create();
  }

  /** An expected key never put reads as absent; an unexpected key put is not kept. */
  method TestExceptionBuilderWithPutWrongParams() returns (fewer: TalendRuntimeException, more: TalendRuntimeException)
    ensures fewer.code == UnexpectedArgument
    ensures Get(fewer.context, "argument") == Some("foo") && Get(fewer.context, "value") == None
    ensures more.code == UnexpectedArgument
    ensures Get(more.context, "argument") == Some("foo") && Get(more.context, "value") == Some("bar")
    ensures Get(more.context, "unknow") == None
  {
    var builder := new Builder(UnexpectedArgument, None);
    builder.Put("argument", "foo");
    assert "value" != "argument";
    fewer := builder.Create();
    builder := new Builder(UnexpectedArgument, None);
    builder.Put("argument", "foo");
    builder.Put("value", "bar");
    assert !IsExpectedKey(UnexpectedArgument, "unknow");
    builder.Put("unknow", "xx");
    more := builder.Create();
  }

  /** throwIt and setAndThrow both raise, carrying the code and the context built so far. */
  method TestExceptionBuilderThrow() returns (thrown: Completion<()>, setThrown: Completion<()>)
    ensures thrown.Raised? && thrown.exception.code == UnexpectedArgument
    ensures Get(thrown.exception.context, "argument") == Some("foo")
    ensures setThrown.Raised? && setThrown.exception.code == UnexpectedArgument
    ensures Get(setThrown.exception.context, "argument") == Some("foo")
    ensures Get(setThrown.exception.context, "value") == Some("bar")
  {
    var builder := new Builder(UnexpectedArgument, None);
    builder.Put("argument", "foo");
    thrown := builder.ThrowIt();
    builder := new Builder(UnexpectedArgument, None);
    ArgumentKeysAssigned(["foo", "bar"]);
    setThrown := builder.SetAndThrow(["foo", "bar"]);
  }
}
