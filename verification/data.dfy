/**
 The balance store: one decimal balance behind a two-operation interface,
 `READ` and `WRITE`, named case-insensitively. A write of a negative value is
 refused, so the stored balance never becomes negative.
 */
module Data {
  import opened Common

  /** The balance a fresh store holds and `Reset` restores. */
  const DefaultBalance: real := 1000.00

  datatype Store = Store(balance: real)

  /** Why a store call raised instead of answering. */
  datatype StoreError =
    | BalanceRequired            // WRITE without a value
    | NegativeBalance            // WRITE of a value below zero
    | UnknownOperation(name: string)

  datatype Result = Ok(value: real) | Err(error: StoreError)

  /** The store after a call, and what the call returned or raised. */
  datatype Reply = Reply(store: Store, result: Result)

  /** The invariant the store keeps. */
  predicate Valid(s: Store) {
    s.balance >= 0.0
  }

  /** The store as the program starts it. */
  function Initial(): (r: Store)
    ensures r.balance == 1000.00 && Valid(r)
  {
    Store(DefaultBalance)
  }

  /** The store after `reset`, whatever it held before. */
  function Reset(s: Store): (r: Store)
    ensures Valid(r)
    ensures r == Initial()
  {
    Store(DefaultBalance)
  }

  function Read(s: Store): (r: Reply)
    ensures r.store == s
    ensures r.result.Ok? && r.result.value == s.balance
  {
    Reply(s, Ok(s.balance))
  }

  /** Replaces the balance when the new value is not negative. */
  function Write(s: Store, b: real): (r: Reply)
    ensures r.result.Ok? <==> b >= 0.0
    ensures r.result.Ok? ==> r.store.balance == b && r.result.value == b
    ensures r.result.Err? ==> r.store == s && r.result.error == NegativeBalance
    ensures Valid(r.store) || r.store == s
  {
    if b < 0.0 then Reply(s, Err(NegativeBalance))
    else Reply(Store(b), Ok(b))
  }

  /** `DataProgram.execute(op, value)`; `value` is the optional second argument. */
  function Execute(s: Store, op: string, value: Option<real>): (r: Reply)
    ensures Valid(s) ==> Valid(r.store)
    ensures r.result.Err? ==> r.store == s
    ensures r.result.Ok? ==> r.result.value == r.store.balance
    ensures Upper(op) != "WRITE" ==> r.store == s
    ensures Upper(op) == "READ" ==> r.result == Ok(s.balance)
    ensures Upper(op) == "WRITE" && value.Some? ==> (r.result.Ok? <==> value.value >= 0.0)
  {
    var name := Upper(op);
    if name == "READ" then Read(s)
    else if name == "WRITE" then
      match value
      case None => Reply(s, Err(BalanceRequired))
      case Some(b) => Write(s, b)
    else Reply(s, Err(UnknownOperation(op)))
  }

  /** The store's own keywords, as written in the dispatcher's calls, are
      already upper case. */
  lemma KeywordsAreUpper()
    ensures Upper("READ") == "READ" && Upper("WRITE") == "WRITE"
  {
    UpperMatchesIgnoringCase("READ", "READ");
    UpperMatchesIgnoringCase("WRITE", "WRITE");
  }

  /** `READ` returns the stored balance and changes nothing, in any letter
      case, whatever value is passed along. */
  lemma ReadIsPure(s: Store, op: string, value: Option<real>)
    requires MatchesIgnoringCase(op, "READ")
    ensures Execute(s, op, value) == Reply(s, Ok(s.balance))
  {
    UpperMatchesIgnoringCase(op, "READ");
  }

  /** A write of any value `b >= 0` (zero included) returns `b`, and a
      following read returns `b` as well. */
  lemma WriteThenRead(s: Store, b: real)
    requires b >= 0.0
    ensures Execute(s, "WRITE", Some(b)).result == Ok(b)
    ensures Execute(Execute(s, "WRITE", Some(b)).store, "READ", None).result == Ok(b)
  {
    UpperMatchesIgnoringCase("WRITE", "WRITE");
    UpperMatchesIgnoringCase("READ", "READ");
  }

  /** A negative write raises "Balance cannot be negative" and leaves the
      balance as it was. */
  lemma NegativeWriteRejected(s: Store, op: string, b: real)
    requires MatchesIgnoringCase(op, "WRITE")
    requires b < 0.0
    ensures Execute(s, op, Some(b)) == Reply(s, Err(NegativeBalance))
  {
    UpperMatchesIgnoringCase(op, "WRITE");
    UpperMatchesIgnoringCase(op, "READ");
  }

  /** `WRITE` without a value raises "Balance required for WRITE operation"
      and changes nothing. */
  lemma MissingValueRejected(s: Store, op: string)
    requires MatchesIgnoringCase(op, "WRITE")
    ensures Execute(s, op, None) == Reply(s, Err(BalanceRequired))
  {
    UpperMatchesIgnoringCase(op, "WRITE");
    UpperMatchesIgnoringCase(op, "READ");
  }

  /** Any name that is neither `READ` nor `WRITE` in some letter case raises
      "Invalid operation: <name>", quoting the name as given, and changes
      nothing; and only such names do. */
  lemma UnknownOperationRejected(s: Store, op: string, value: Option<real>)
    ensures Execute(s, op, value) == Reply(s, Err(UnknownOperation(op)))
        <==> !MatchesIgnoringCase(op, "READ") && !MatchesIgnoringCase(op, "WRITE")
  {
    UpperMatchesIgnoringCase(op, "WRITE");
    UpperMatchesIgnoringCase(op, "READ");
  }

  /** Two spellings of one name that differ only in letter case leave the
      store in the same state, and give the same answer unless the name is
      unknown (the error then quotes each spelling as given). */
  lemma ExecuteIgnoresCase(s: Store, a: string, b: string, value: Option<real>)
    requires Upper(a) == Upper(b)
    ensures Execute(s, a, value).store == Execute(s, b, value).store
    ensures Upper(a) in ["READ", "WRITE"] ==> Execute(s, a, value) == Execute(s, b, value)
  {
  }

  /** After `reset` from any state the store reads exactly 1000.00. */
  lemma ResetReadsDefault(s: Store)
    ensures Execute(Reset(s), "READ", None).result == Ok(1000.00)
  {
    UpperMatchesIgnoringCase("READ", "READ");
  }
}
