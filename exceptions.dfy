/**
 * Runtime exceptions with an error code and a context bag. Each code
 * declares the context keys it expects, in order; a builder collects the
 * context, keeping only expected keys, and creates or raises the exception.
 */
module Exceptions {
  import opened Wrappers

  datatype ErrorCode = UnexpectedException | UnexpectedArgument | UnableToParseJson

  /** The code's name as it appears in messages. */
  function CodeName(code: ErrorCode): string
  {
    match code
    case UnexpectedException => "UNEXPECTED_EXCEPTION"
    case UnexpectedArgument => "UNEXPECTED_ARGUMENT"
    case UnableToParseJson => "UNABLE_TO_PARSE_JSON"
  }

  /** The context keys a code expects, in declaration order. */
  function ExpectedKeys(code: ErrorCode): (keys: seq<string>)
    ensures forall i, j :: 0 <= i < j < |keys| ==> keys[i] != keys[j]
  {
    match code
    case UnexpectedException => ["message"]
    case UnexpectedArgument => ["argument", "value"]
    case UnableToParseJson => []
  }

  predicate IsExpectedKey(code: ErrorCode, key: string)
  {
    key in ExpectedKeys(code)
  }

  /** The throwable an exception was caused by, seen through its message. */
  datatype Cause = Cause(message: string)

  datatype TalendRuntimeException = TalendRuntimeException(code: ErrorCode, cause: Option<Cause>, context: map<string, string>)

  /** A context lookup: absent keys read as None. */
  function Get(context: map<string, string>, key: string): Option<string>
  {
    if key in context then Some(context[key]) else None
  }

  /**
   * Positional arguments assigned to keys in order: for distinct keys,
   * keys[i] gets args[i] for every i both lists reach; keys beyond the arguments stay absent and
   * arguments beyond the keys are dropped.
   */
  function PositionalContext(keys: seq<string>, args: seq<string>): (m: map<string, string>)
    ensures forall k :: k in m <==> exists i :: 0 <= i < |keys| && i < |args| && keys[i] == k
  {
    if keys == [] || args == [] then map[]
    else
      var rest := PositionalContext(keys[1..], args[1..]);
      assert forall k :: k in rest <==> exists i :: 1 <= i < |keys| && i < |args| && keys[i] == k by {
        forall k ensures k in rest <==> exists i :: 1 <= i < |keys| && i < |args| && keys[i] == k {
          if k in rest {
            var j :| 0 <= j < |keys[1..]| && j < |args[1..]| && keys[1..][j] == k;
            assert keys[j + 1] == k;
          }
          if exists i :: 1 <= i < |keys| && i < |args| && keys[i] == k {
            var i :| 1 <= i < |keys| && i < |args| && keys[i] == k;
            assert keys[1..][i - 1] == k;
          }
        }
      }
      rest[keys[0] := args[0]]
  }

  /** With distinct keys, each reached key holds its own argument. */
  lemma {:induction false} PositionalContextAt(keys: seq<string>, args: seq<string>, i: nat)
    requires forall a, b :: 0 <= a < b < |keys| ==> keys[a] != keys[b]
    requires i < |keys| && i < |args|
    ensures keys[i] in PositionalContext(keys, args)
    ensures PositionalContext(keys, args)[keys[i]] == args[i]
  {
    if i > 0 {
      PositionalContextAt(keys[1..], args[1..], i - 1);
    }
  }

  /** Renders a context as `{k1=v1, k2=v2}`, listing the given keys that are present, in order. */
  function FormatContext(context: map<string, string>, keys: seq<string>): string
  {
    "{" + FormatEntries(context, keys, true) + "}"
  }

  function FormatEntries(context: map<string, string>, keys: seq<string>, first: bool): string
  {
    if keys == [] then ""
    else if keys[0] in context then
      (if first then "" else ", ") + keys[0] + "=" + context[keys[0]] + FormatEntries(context, keys[1..], false)
    else FormatEntries(context, keys[1..], first)
  }

  /** The message: the code's name, a colon, and the context rendered in the code's key order. */
  function GetMessage(e: TalendRuntimeException): (msg: string)
    ensures CodeName(e.code) + ":{" <= msg
  {
    CodeName(e.code) + ":" + FormatContext(e.context, ExpectedKeys(e.code))
  }

  /** An exception with a single message entry shows exactly that entry. */
  lemma MessageOfSingleEntry(msg: string, cause: Option<Cause>)
    ensures GetMessage(TalendRuntimeException(UnexpectedException, cause, map["message" := msg]))
      == "UNEXPECTED_EXCEPTION:{message=" + msg + "}"
  {
    var context := map["message" := msg];
    assert FormatEntries(context, ["message"], true) == "message=" + msg;
  }

  /** How a call ends: normally with a value, or by raising an exception. */
  datatype Completion<+T> = Normal(value: T) | Raised(exception: TalendRuntimeException)

  /** Collects the context of an exception before creating or raising it. */
  class Builder {
    const code: ErrorCode
    const cause: Option<Cause>
    var context: map<string, string>

    /** Only the code's expected keys are ever stored. */
    ghost predicate Valid()
      reads this
    {
      forall k :: k in context ==> IsExpectedKey(code, k)
    }

    constructor (code: ErrorCode, cause: Option<Cause>)
      ensures Valid() && this.code == code && this.cause == cause && context == map[]
    {
      this.code := code;
      this.cause := cause;
      context := map[];
    }

    /** Stores value under key when the code expects that key; any other key is ignored. */
    method Put(key: string, value: string)
      requires Valid()
      modifies this
      ensures Valid()
      ensures context == if IsExpectedKey(code, key) then old(context)[key := value] else old(context)
    {
      if IsExpectedKey(code, key) {
        context := context[key := value];
      }
    }

    /** The exception carrying the code, the cause and the context built so far. */
    method Create() returns (e: TalendRuntimeException)
      requires Valid()
      ensures e.code == code && e.cause == cause && e.context == context
      ensures forall k :: k in e.context ==> IsExpectedKey(code, k)
    {
      e := TalendRuntimeException(code, cause, context);
    }

    /** Assigns the arguments to the code's expected keys in order, then creates the exception. */
    method Set(args: seq<string>) returns (e: TalendRuntimeException)
      requires Valid()
      modifies this
      ensures Valid()
      ensures context == old(context) + PositionalContext(ExpectedKeys(code), args)
      ensures e.code == code && e.cause == cause && e.context == context
    {
      context := context + PositionalContext(ExpectedKeys(code), args);
      e := Create();
    }

    /** Always raises the exception built so far. */
    method ThrowIt() returns (c: Completion<()>)
      requires Valid()
      ensures c == Raised(TalendRuntimeException(code, cause, context))
    {
      var e := Create();
      c := Raised(e);
    }

    /** Assigns the arguments as Set does, then always raises. */
    method SetAndThrow(args: seq<string>) returns (c: Completion<()>)
      requires Valid()
      modifies this
      ensures Valid()
      ensures context == old(context) + PositionalContext(ExpectedKeys(code), args)
      ensures c == Raised(TalendRuntimeException(code, cause, context))
    {
      var _ := Set(args);
      c := ThrowIt();
    }
  }

  /** Always raises UNEXPECTED_EXCEPTION whose message shows the given text. */
  method UnexpectedExceptionWithMessage(message: string) returns (c: Completion<()>)
    ensures c.Raised? && c.exception.code == UnexpectedException
    ensures Get(c.exception.context, "message") == Some(message)
    ensures GetMessage(c.exception) == "UNEXPECTED_EXCEPTION:{message=" + message + "}"
  {
    var builder := new Builder(UnexpectedException, None);
    builder.Put("message", message);
    c := builder.ThrowIt();
    MessageOfSingleEntry(message, None);
  }

  /** Always raises UNEXPECTED_EXCEPTION caused by the given throwable. */
  method UnexpectedExceptionWithCause(cause: Cause) returns (c: Completion<()>)
    ensures c.Raised? && c.exception.code == UnexpectedException
    ensures c.exception.cause == Some(cause)
  {
    var builder := new Builder(UnexpectedException, Some(cause));
    c := builder.ThrowIt();
  }
}
