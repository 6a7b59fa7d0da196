/** The per-request error list (services/common/error.go): handlers record
    every failure in the request context under one key, as an append-only
    list of {operation, error text} entries, and the error middleware later
    renders it. */
module ErrorContext {
  import opened Basics

  /** The context key under which the list lives. */
  const ErrorKey := "error"

  /** One recorded failure: what was being done and the error's text. */
  datatype Error = Error(operation: string, errorString: string)

  const OperationLabel := "operation: "
  const ErrorLabel := ", error: "

  /** Error.Error(): the two fields framed by fixed labels. Both fields can be
      read back from the text at known offsets. */
  function Message(e: Error): (r: string)
    ensures |r| == |OperationLabel| + |e.operation| + |ErrorLabel| + |e.errorString|
    ensures HasPrefix(r, OperationLabel)
    ensures r[|OperationLabel|..|OperationLabel| + |e.operation|] == e.operation
    ensures r[|OperationLabel| + |e.operation|..|r| - |e.errorString|] == ErrorLabel
    ensures r[|r| - |e.errorString|..] == e.errorString
  {
    OperationLabel + e.operation + ErrorLabel + e.errorString
  }

  /** The labels are not escaped, so two different entries can render to the
      same text when an operation name contains the second label. */
  lemma MessageAmbiguous()
    ensures Error("a, error: b", "c") != Error("a", "b, error: c")
    ensures Message(Error("a, error: b", "c")) == Message(Error("a", "b, error: c"))
  {
  }

  /** A value stored in the request context: the error list, or anything
      else some middleware put there under another key. */
  datatype Value = ErrorList(errors: seq<Error>) | Scalar(text: string)

  /** The context can take a new error: the slot is absent or holds a list
      (any other type under ErrorKey makes the type assertion panic). */
  predicate Writable(keys: map<string, Value>) {
    ErrorKey in keys ==> keys[ErrorKey].ErrorList?
  }

  /** The recorded errors; an absent slot reads as the empty list. */
  function ErrorsOf(keys: map<string, Value>): (r: seq<Error>)
    requires Writable(keys)
    ensures ErrorKey !in keys ==> r == []
  {
    if ErrorKey in keys then keys[ErrorKey].errors else []
  }

  /** The context after recording one failure. */
  function WithError(keys: map<string, Value>, operation: string, message: string): (r: map<string, Value>)
    requires Writable(keys)
    ensures Writable(r) && ErrorKey in r
    ensures ErrorsOf(r) == ErrorsOf(keys) + [Error(operation, message)]
    ensures forall k :: k != ErrorKey ==> (k in r <==> k in keys)
    ensures forall k :: k != ErrorKey && k in keys ==> r[k] == keys[k]
  {
    keys[ErrorKey := ErrorList(ErrorsOf(keys) + [Error(operation, message)])]
  }

  /** Recording a list of failures one after another. */
  function RecordAll(keys: map<string, Value>, failures: seq<Error>): (r: map<string, Value>)
    requires Writable(keys)
    ensures Writable(r)
    decreases |failures|
  {
    if failures == [] then keys
    else RecordAll(WithError(keys, failures[0].operation, failures[0].errorString), failures[1..])
  }

  /** The list only grows: after any sequence of NewError calls it holds the
      earlier entries followed by the new ones in call order, and no other
      key of the context was touched. */
  lemma {:induction false} RecordAllAppends(keys: map<string, Value>, failures: seq<Error>)
    requires Writable(keys)
    ensures ErrorsOf(RecordAll(keys, failures)) == ErrorsOf(keys) + failures
    ensures forall k :: k != ErrorKey ==> (k in RecordAll(keys, failures) <==> k in keys)
    ensures forall k :: k != ErrorKey && k in keys ==> RecordAll(keys, failures)[k] == keys[k]
    decreases |failures|
  {
    if failures != [] {
      var next := WithError(keys, failures[0].operation, failures[0].errorString);
      RecordAllAppends(next, failures[1..]);
      assert [failures[0]] + failures[1..] == failures;
    }
  }

  /** gin.Context, reduced to its key/value store. */
  class Context {
    var keys: map<string, Value>

    constructor ()
      ensures keys == map[]
    {
      keys := map[];
    }

    /** common.NewError: read the list (absent means empty), append one
        entry, write the list back under ErrorKey. */
    method NewError(operation: string, message: string)
      requires Writable(keys)
      modifies this
      ensures keys == WithError(old(keys), operation, message)
    {
      var list: seq<Error>;
      if ErrorKey in keys {
        list := keys[ErrorKey].errors;
      } else {
        list := [];
      }
      list := list + [Error(operation, message)];
      keys := keys[ErrorKey := ErrorList(list)];
    }
  }
}
