/**
 The operation dispatcher: maps a case-insensitive name to viewing,
 crediting or debiting the balance, reads the amount for the last two from
 the input, applies the business rules, and reports one message.
 */
module Operations {
  import opened Common
  import D = Data

  /** What the amount prompt yields. */
  datatype AmountTok =
    | Amt(value: real)   // the stripped line parses as a decimal
    | Malformed          // it does not, or the input has ended
    | AmountInterrupted  // a keyboard interrupt at the prompt

  /** A change the dispatcher committed to the store. */
  datatype Txn = Credit(amount: real) | Debit(amount: real)

  /** The end of one dispatcher call. */
  datatype Outcome =
    | Completed(store: D.Store, msg: Msg, rest: seq<Line>, applied: Option<Txn>)
    | Interrupted                       // the interrupt propagates to the caller
    | Crashed(error: D.StoreError)      // the store raised and nothing caught it

  /** `_get_amount`: consumes one line, or none at end of input. */
  function GetAmount(input: seq<Line>): (r: (AmountTok, seq<Line>))
    ensures input == [] ==> r == (Malformed, [])
    ensures input != [] ==> r.1 == input[1..]
    ensures input != [] ==> (r.0 == AmountInterrupted <==> input[0] == CtrlC)
    ensures input != [] && input[0].Typed? ==>
              (r.0.Amt? <==> input[0].asDecimal.Some?)
              && (r.0.Amt? ==> r.0.value == input[0].asDecimal.value)
  {
    if input == [] then (Malformed, [])
    else match input[0]
      case CtrlC => (AmountInterrupted, input[1..])
      case Typed(_, None) => (Malformed, input[1..])
      case Typed(_, Some(a)) => (Amt(a), input[1..])
  }

  /** What an operation did once its amount, if any, was read. */
  datatype Effect =
    | Done(store: D.Store, msg: Msg, applied: Option<Txn>)
    | Aborted                       // interrupted at the amount prompt
    | Raised(error: D.StoreError)   // the store raised

  /** The guarantees every operation keeps: it changes the store only
      through a committed credit or debit that the guards admitted; it
      reports one of the dispatcher's messages, a committed change together
      with the new balance; and from a valid store it neither makes the
      store raise nor leaves it invalid. */
  predicate Sound(s: D.Store, e: Effect) {
    && (e.Done? && e.applied.None? ==> e.store == s)
    && (e.Done? && e.applied.Some? ==>
          Admissible(s.balance, e.applied.value)
          && e.store.balance == ApplyTxn(s.balance, e.applied.value))
    && (e.Done? ==> DispatcherMsg(e.msg))
    && (e.Done? ==> (e.applied.Some? <==> e.msg.Credited? || e.msg.Debited?))
    && (e.Done? && (e.msg.Credited? || e.msg.Debited?) ==> e.msg.newBalance == e.store.balance)
    && (e.Done? && e.msg.CurrentBalance? ==> e.msg.balance == s.balance)
    && (D.Valid(s) ==> !e.Raised?)
    && (D.Valid(s) && e.Done? ==> D.Valid(e.store))
  }

  /** `_view_balance`. */
  function ViewBalance(s: D.Store): (e: Effect)
    ensures Sound(s, e)
    ensures e == Done(s, CurrentBalance(s.balance), None)
  {
    D.KeywordsAreUpper();
    var rd := D.Execute(s, "READ", None);
    match rd.result
    case Err(err) => Raised(err)
    case Ok(b) => Done(rd.store, CurrentBalance(b), None)
  }

  /** `_credit_account` after `_get_amount` yielded `tok`. */
  function CreditAccount(s: D.Store, tok: AmountTok): (e: Effect)
    ensures Sound(s, e)
    ensures e.Raised? ==> e.error == D.NegativeBalance && s.balance < 0.0
    // the only change it commits is a credit of the amount read
    ensures e.Done? && e.applied.Some? ==> tok.Amt? && e.applied.value == Credit(tok.value)
  {
    match tok
    case AmountInterrupted => Aborted
    case Malformed => Done(s, InvalidAmountFormat, None)
    case Amt(amount) =>
      if amount <= 0.0 then Done(s, InvalidAmount, None)
      else
        D.KeywordsAreUpper();
        var rd := D.Execute(s, "READ", None);
        match rd.result
        case Err(err) => Raised(err)
        case Ok(current) =>
          var newBalance := current + amount;
          var wr := D.Execute(rd.store, "WRITE", Some(newBalance));
          match wr.result
          case Err(err) => Raised(err)
          case Ok(_) => Done(wr.store, Credited(newBalance), Some(Credit(amount)))
  }

  /** `_debit_account` after `_get_amount` yielded `tok`. */
  function DebitAccount(s: D.Store, tok: AmountTok): (e: Effect)
    ensures Sound(s, e)
    ensures !e.Raised?
    // the only change it commits is a debit of the amount read
    ensures e.Done? && e.applied.Some? ==> tok.Amt? && e.applied.value == Debit(tok.value)
  {
    match tok
    case AmountInterrupted => Aborted
    case Malformed => Done(s, InvalidAmountFormat, None)
    case Amt(amount) =>
      if amount <= 0.0 then Done(s, InvalidAmount, None)
      else
        D.KeywordsAreUpper();
        var rd := D.Execute(s, "READ", None);
        match rd.result
        case Err(err) => Raised(err)
        case Ok(current) =>
          if amount > current then Done(rd.store, InsufficientFunds, None)
          else
            var newBalance := current - amount;
            var wr := D.Execute(rd.store, "WRITE", Some(newBalance));
            match wr.result
            case Err(err) => Raised(err)
            case Ok(_) => Done(wr.store, Debited(newBalance), Some(Debit(amount)))
  }

  /** A positive credit whose sum the store accepts is committed. */
  lemma CreditWithAmount(s: D.Store, a: real)
    requires a > 0.0 && s.balance + a >= 0.0
    ensures CreditAccount(s, Amt(a))
         == Done(D.Store(s.balance + a), Credited(s.balance + a), Some(Credit(a)))
  {
    D.KeywordsAreUpper();
  }

  /** A positive debit is committed exactly when the balance covers it. */
  lemma DebitWithAmount(s: D.Store, a: real)
    requires a > 0.0
    ensures a <= s.balance ==>
              DebitAccount(s, Amt(a))
              == Done(D.Store(s.balance - a), Debited(s.balance - a), Some(Debit(a)))
    ensures a > s.balance ==> DebitAccount(s, Amt(a)) == Done(s, InsufficientFunds, None)
  {
    D.KeywordsAreUpper();
  }

  /** The dispatcher's result, with the input it left unread. */
  function Attach(e: Effect, rest: seq<Line>): Outcome {
    match e
    case Done(s', m, applied) => Completed(s', m, rest, applied)
    case Aborted => Interrupted
    case Raised(err) => Crashed(err)
  }

  /** The new balance after a committed change. */
  function ApplyTxn(balance: real, t: Txn): real {
    match t
    case Credit(a) => balance + a
    case Debit(a) => balance - a
  }

  /** A change the dispatcher's guards let through at this balance: a
      positive credit, or a positive debit the balance covers. */
  predicate Admissible(balance: real, t: Txn) {
    match t
    case Credit(a) => a > 0.0
    case Debit(a) => 0.0 < a <= balance
  }

  /** The messages the dispatcher prints, as opposed to the menu's. */
  predicate DispatcherMsg(m: Msg) {
    || m.CurrentBalance? || m.Credited? || m.Debited?
    || m == InvalidAmount || m == InsufficientFunds || m == InvalidAmountFormat
    || m.InvalidOperation?
  }

  /** The balance after committing `ts` in order, starting from `balance`. */
  function Replay(balance: real, ts: seq<Txn>): real
    decreases |ts|
  {
    if ts == [] then balance else Replay(ApplyTxn(balance, ts[0]), ts[1..])
  }

  /** Every change in `ts` passes the dispatcher's guards at the balance it
      is applied to. */
  predicate AllAdmissible(balance: real, ts: seq<Txn>)
    decreases |ts|
  {
    ts == [] || (Admissible(balance, ts[0]) && AllAdmissible(ApplyTxn(balance, ts[0]), ts[1..]))
  }

  /** The changes of `ts` the guards let through when they are tried in
      order from `balance`; a rejected one leaves the balance as it was. */
  function Admitted(balance: real, ts: seq<Txn>): (r: seq<Txn>)
    ensures |r| <= |ts|
    ensures AllAdmissible(balance, r)
    decreases |ts|
  {
    if ts == [] then []
    else if Admissible(balance, ts[0]) then
      var tail := Admitted(ApplyTxn(balance, ts[0]), ts[1..]);
      assert ([ts[0]] + tail)[1..] == tail;
      [ts[0]] + tail
    else Admitted(balance, ts[1..])
  }

  /** A single change is kept exactly when the guards admit it. */
  lemma AdmittedSingle(balance: real, t: Txn)
    ensures Admitted(balance, [t]) == if Admissible(balance, t) then [t] else []
  {
    assert [t][1..] == [];
  }

  /** Committing one change is applying it, when the guards admit it. */
  lemma ReplayOne(balance: real, t: Txn)
    ensures Replay(balance, [t]) == ApplyTxn(balance, t)
    ensures AllAdmissible(balance, [t]) <==> Admissible(balance, t)
  {
    assert [t][1..] == [];
  }

  /** Committing first `ts` and then `us` is committing `ts + us`. */
  lemma {:induction false} ReplayAppend(balance: real, ts: seq<Txn>, us: seq<Txn>)
    ensures Replay(balance, ts + us) == Replay(Replay(balance, ts), us)
    ensures AllAdmissible(balance, ts + us)
        <==> AllAdmissible(balance, ts) && AllAdmissible(Replay(balance, ts), us)
    decreases |ts|
  {
    if ts == [] {
      assert ts + us == us;
    } else {
      assert (ts + us)[0] == ts[0];
      assert (ts + us)[1..] == ts[1..] + us;
      ReplayAppend(ApplyTxn(balance, ts[0]), ts[1..], us);
    }
  }

  /** Changes the guards admit never take a non-negative balance below
      zero: this is why the store's negative-write error cannot fire. */
  lemma {:induction false} AdmissibleKeepsNonNegative(balance: real, ts: seq<Txn>)
    requires balance >= 0.0 && AllAdmissible(balance, ts)
    ensures Replay(balance, ts) >= 0.0
    decreases |ts|
  {
    if ts != [] {
      AdmissibleKeepsNonNegative(ApplyTxn(balance, ts[0]), ts[1..]);
    }
  }

  /** The same after every prefix of the changes, not only at the end. */
  lemma PrefixKeepsNonNegative(balance: real, ts: seq<Txn>, k: nat)
    requires balance >= 0.0 && AllAdmissible(balance, ts) && k <= |ts|
    ensures Replay(balance, ts[..k]) >= 0.0
  {
    assert ts == ts[..k] + ts[k..];
    ReplayAppend(balance, ts[..k], ts[k..]);
    AdmissibleKeepsNonNegative(balance, ts[..k]);
  }

  /** The effect an outcome records, without its unread input. */
  function EffectOf(o: Outcome): Effect {
    match o
    case Completed(s', m, _, applied) => Done(s', m, applied)
    case Interrupted => Aborted
    case Crashed(err) => Raised(err)
  }

  /** `Operations.execute(name)` on store `s`, reading the amount, if the
      operation needs one, from `input`. The call consumes at most that one
      line and keeps the guarantees of `Sound`. */
  function Execute(s: D.Store, name: string, input: seq<Line>): (r: Outcome)
    ensures r.Completed? ==> r.rest == input || (input != [] && r.rest == input[1..])
    ensures Sound(s, EffectOf(r))
    // a committed change is a credit or debit, by name, of the amount line read
    ensures r.Completed? && r.applied.Some? ==>
              && (Upper(name) == "CREDIT" || Upper(name) == "DEBIT")
              && (r.applied.value.Credit? <==> Upper(name) == "CREDIT")
              && input != [] && input[0].Typed?
              && input[0].asDecimal == Some(r.applied.value.amount)
  {
    var op := Upper(name);
    if op == "TOTAL" then Attach(ViewBalance(s), input)
    else if op == "CREDIT" then
      var (tok, rest) := GetAmount(input);
      Attach(CreditAccount(s, tok), rest)
    else if op == "DEBIT" then
      var (tok, rest) := GetAmount(input);
      Attach(DebitAccount(s, tok), rest)
    else Attach(Done(s, InvalidOperation(name), None), input)
  }

  /** The dispatcher's three names, recognised in any letter case. */
  lemma Keywords(name: string)
    ensures Upper(name) == "TOTAL" <==> MatchesIgnoringCase(name, "TOTAL")
    ensures Upper(name) == "CREDIT" <==> MatchesIgnoringCase(name, "CREDIT")
    ensures Upper(name) == "DEBIT" <==> MatchesIgnoringCase(name, "DEBIT")
  {
    UpperMatchesIgnoringCase(name, "TOTAL");
    UpperMatchesIgnoringCase(name, "CREDIT");
    UpperMatchesIgnoringCase(name, "DEBIT");
  }

  /** The names the menu passes are already upper case. */
  lemma NamesAreUpper()
    ensures Upper("TOTAL") == "TOTAL" && Upper("CREDIT") == "CREDIT" && Upper("DEBIT") == "DEBIT"
  {
    Keywords("TOTAL");
    Keywords("CREDIT");
    Keywords("DEBIT");
  }

  /** An amount line that parses to `a`. */
  predicate AmountLine(input: seq<Line>, a: real) {
    input != [] && input[0].Typed? && input[0].asDecimal == Some(a)
  }

  /** `TOTAL` reports the current balance, reads no input and changes
      nothing. */
  lemma TotalReportsBalance(s: D.Store, name: string, input: seq<Line>)
    requires MatchesIgnoringCase(name, "TOTAL")
    ensures Execute(s, name, input) == Completed(s, CurrentBalance(s.balance), input, None)
  {
    Keywords(name);
  }

  /** A credit or debit of zero or less reports "Invalid amount. Please try
      again." and changes nothing. */
  lemma NonPositiveAmountRejected(s: D.Store, name: string, input: seq<Line>, a: real)
    requires MatchesIgnoringCase(name, "CREDIT") || MatchesIgnoringCase(name, "DEBIT")
    requires AmountLine(input, a) && a <= 0.0
    ensures Execute(s, name, input) == Completed(s, InvalidAmount, input[1..], None)
  {
    Keywords(name);
  }

  /** A positive credit adds the amount to the balance and reports the new
      balance, whenever the sum is a balance the store accepts. */
  lemma CreditAddsAmount(s: D.Store, name: string, input: seq<Line>, a: real)
    requires MatchesIgnoringCase(name, "CREDIT")
    requires AmountLine(input, a) && a > 0.0
    requires s.balance + a >= 0.0
    ensures Execute(s, name, input)
         == Completed(D.Store(s.balance + a), Credited(s.balance + a), input[1..], Some(Credit(a)))
  {
    Keywords(name);
    D.KeywordsAreUpper();
  }

  /** A debit the balance does not cover reports "Insufficient funds for this
      debit." and changes nothing. */
  lemma DebitInsufficientFunds(s: D.Store, name: string, input: seq<Line>, a: real)
    requires MatchesIgnoringCase(name, "DEBIT")
    requires AmountLine(input, a) && a > 0.0 && a > s.balance
    ensures Execute(s, name, input) == Completed(s, InsufficientFunds, input[1..], None)
  {
    Keywords(name);
    D.KeywordsAreUpper();
  }

  /** A positive debit the balance covers subtracts the amount and reports
      the new balance, which is never negative; debiting the whole balance
      leaves exactly zero. */
  lemma DebitSubtractsAmount(s: D.Store, name: string, input: seq<Line>, a: real)
    requires MatchesIgnoringCase(name, "DEBIT")
    requires AmountLine(input, a) && 0.0 < a <= s.balance
    ensures Execute(s, name, input)
         == Completed(D.Store(s.balance - a), Debited(s.balance - a), input[1..], Some(Debit(a)))
    ensures D.Valid(Execute(s, name, input).store)
    ensures a == s.balance ==> Execute(s, name, input).store.balance == 0.0
  {
    Keywords(name);
    D.KeywordsAreUpper();
  }

  /** An amount that does not parse, or the end of input at the amount
      prompt, reports "Invalid amount format." and changes nothing, for
      credit and debit alike. */
  lemma MalformedAmountRejected(s: D.Store, name: string, input: seq<Line>)
    requires MatchesIgnoringCase(name, "CREDIT") || MatchesIgnoringCase(name, "DEBIT")
    requires input == [] || (input[0].Typed? && input[0].asDecimal.None?)
    ensures Execute(s, name, input)
         == Completed(s, InvalidAmountFormat, if input == [] then [] else input[1..], None)
  {
    Keywords(name);
  }

  /** An interrupt at the amount prompt leaves the dispatcher without a
      message and without a change. */
  lemma AmountInterruptPropagates(s: D.Store, name: string, input: seq<Line>)
    requires MatchesIgnoringCase(name, "CREDIT") || MatchesIgnoringCase(name, "DEBIT")
    requires input != [] && input[0] == CtrlC
    ensures Execute(s, name, input) == Interrupted
  {
    Keywords(name);
  }

  /** A name that is none of the three, in any letter case, and only such a
      name, reports "Invalid operation: <name>" with the name as given, raises
      nothing, reads no input and changes nothing. */
  lemma UnknownNameReported(s: D.Store, name: string, input: seq<Line>)
    ensures Execute(s, name, input) == Completed(s, InvalidOperation(name), input, None)
        <==> && !MatchesIgnoringCase(name, "TOTAL")
             && !MatchesIgnoringCase(name, "CREDIT")
             && !MatchesIgnoringCase(name, "DEBIT")
  {
    Keywords(name);
    D.KeywordsAreUpper();
  }

  /** Spellings that differ only in letter case dispatch identically; an
      unknown name differs only in the spelling its message quotes. */
  lemma DispatchIgnoresCase(s: D.Store, a: string, b: string, input: seq<Line>)
    requires Upper(a) == Upper(b)
    ensures Upper(a) in ["TOTAL", "CREDIT", "DEBIT"] ==> Execute(s, a, input) == Execute(s, b, input)
    ensures Upper(a) !in ["TOTAL", "CREDIT", "DEBIT"] ==>
              && Execute(s, a, input) == Completed(s, InvalidOperation(a), input, None)
              && Execute(s, b, input) == Completed(s, InvalidOperation(b), input, None)
  {
  }

  /** The store's negative-write error escapes the dispatcher exactly when a
      positive credit is applied to a balance already more negative than the
      amount; the debit guard alone rules it out for debits. From a valid
      store it is unreachable. */
  lemma CrashOnlyFromNegativeBalance(s: D.Store, name: string, input: seq<Line>)
    ensures Execute(s, name, input).Crashed?
        <==> && MatchesIgnoringCase(name, "CREDIT")
             && input != [] && input[0].Typed? && input[0].asDecimal.Some?
             && 0.0 < input[0].asDecimal.value < -s.balance
    ensures Execute(s, name, input).Crashed? ==> Execute(s, name, input).error == D.NegativeBalance
  {
    Keywords(name);
    D.KeywordsAreUpper();
  }

  /** The outcome with `extra` appended to the unread input. */
  function Extend(o: Outcome, extra: seq<Line>): Outcome {
    match o
    case Completed(s', m, rest, applied) => Completed(s', m, rest + extra, applied)
    case _ => o
  }

  /** Attaching more unread input to an effect only extends the rest. */
  lemma AttachExtends(e: Effect, rest: seq<Line>, extra: seq<Line>)
    ensures Attach(e, rest + extra) == Extend(Attach(e, rest), extra)
  {
  }

  /** The amount prompt reads one line: what follows it is left unread. */
  lemma GetAmountReadsOneLine(input: seq<Line>, extra: seq<Line>)
    requires input != []
    ensures GetAmount(input + extra).0 == GetAmount(input).0
    ensures GetAmount(input + extra).1 == GetAmount(input).1 + extra
  {
    assert (input + extra)[0] == input[0];
    assert (input + extra)[1..] == input[1..] + extra;
  }

  /** The dispatcher reads no further than the amount line: given more
      input, it does the same and leaves the extra lines unread. */
  lemma ExecuteIgnoresLaterInput(s: D.Store, name: string, input: seq<Line>, extra: seq<Line>)
    requires input != [] || (Upper(name) != "CREDIT" && Upper(name) != "DEBIT")
    ensures Execute(s, name, input + extra) == Extend(Execute(s, name, input), extra)
  {
    var op := Upper(name);
    if op == "TOTAL" {
      AttachExtends(ViewBalance(s), input, extra);
    } else if op == "CREDIT" || op == "DEBIT" {
      GetAmountReadsOneLine(input, extra);
      var (tok, rest) := GetAmount(input);
      if op == "CREDIT" {
        AttachExtends(CreditAccount(s, tok), rest, extra);
      } else {
        AttachExtends(DebitAccount(s, tok), rest, extra);
      }
    } else {
      AttachExtends(Done(s, InvalidOperation(name), None), input, extra);
    }
  }
}
