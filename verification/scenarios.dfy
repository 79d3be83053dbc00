/**
 Whole-program traces over concrete input: the flows the repository's own
 tests walk through, derived from the general lemmas one loop turn at a
 time.
 */
module Scenarios {
  import opened Common
  import D = Data
  import Ops = Operations
  import M = Menu

  /** A line holding the integer `n` (it parses as a decimal too). */
  function Num(n: int): Line {
    Typed(Some(n), Some(n as real))
  }

  /** A line like "500.00": a decimal that is not an integer. */
  function Dec(a: real): Line {
    Typed(None, Some(a))
  }

  /** A line like "abc" that neither parser accepts. */
  function Junk(): Line {
    Typed(None, None)
  }

  function RunningOn(b: real): M.State {
    M.State(D.Store(b), M.Running)
  }

  /** Choice 1: one balance report, nothing else. */
  lemma TotalTurn(b: real, rest: seq<Line>)
    ensures M.Run(RunningOn(b), [Num(1)] + rest)
         == M.Prepend([CurrentBalance(b)], [], M.Run(RunningOn(b), rest))
  {
    var input := [Num(1)] + rest;
    assert input[1..] == rest;
    M.ChoicesDispatch(RunningOn(b), input, 1);
    M.RunUnfold(RunningOn(b), input);
  }

  /** Choice 2 with a positive amount. */
  lemma CreditTurn(b: real, a: real, rest: seq<Line>)
    requires a > 0.0 && b + a >= 0.0
    ensures M.Run(RunningOn(b), [Num(2), Dec(a)] + rest)
         == M.Prepend([Credited(b + a)], [Ops.Credit(a)], M.Run(RunningOn(b + a), rest))
  {
    CreditStep(b, a, rest);
    M.RunUnfold(RunningOn(b), [Num(2), Dec(a)] + rest);
  }

  lemma CreditStep(b: real, a: real, rest: seq<Line>)
    requires a > 0.0 && b + a >= 0.0
    ensures M.Step(RunningOn(b), [Num(2), Dec(a)] + rest)
         == M.Next(RunningOn(b + a), [Credited(b + a)], rest, [Ops.Credit(a)])
  {
    var input := [Num(2), Dec(a)] + rest;
    assert input[1..] == [Dec(a)] + rest;
    M.ChoicesDispatch(RunningOn(b), input, 2);
    CreditCall(b, a, rest);
  }

  /** The dispatcher call that choice 2 makes with a positive amount. */
  lemma CreditCall(b: real, a: real, rest: seq<Line>)
    requires a > 0.0 && b + a >= 0.0
    ensures Ops.Execute(D.Store(b), "CREDIT", [Dec(a)] + rest)
         == Ops.Completed(D.Store(b + a), Credited(b + a), rest, Some(Ops.Credit(a)))
  {
    var input := [Dec(a)] + rest;
    assert input[1..] == rest;
    assert Ops.GetAmount(input) == (Ops.Amt(a), rest);
    Ops.NamesAreUpper();
    assert Ops.Execute(D.Store(b), "CREDIT", input) == Ops.Attach(Ops.CreditAccount(D.Store(b), Ops.Amt(a)), rest);
    Ops.CreditWithAmount(D.Store(b), a);
  }

  /** Choice 3 with an amount the balance covers. */
  lemma DebitTurn(b: real, a: real, rest: seq<Line>)
    requires 0.0 < a <= b
    ensures M.Run(RunningOn(b), [Num(3), Dec(a)] + rest)
         == M.Prepend([Debited(b - a)], [Ops.Debit(a)], M.Run(RunningOn(b - a), rest))
  {
    DebitStep(b, a, rest);
    M.RunUnfold(RunningOn(b), [Num(3), Dec(a)] + rest);
  }

  lemma DebitStep(b: real, a: real, rest: seq<Line>)
    requires 0.0 < a <= b
    ensures M.Step(RunningOn(b), [Num(3), Dec(a)] + rest)
         == M.Next(RunningOn(b - a), [Debited(b - a)], rest, [Ops.Debit(a)])
  {
    var input := [Num(3), Dec(a)] + rest;
    assert input[1..] == [Dec(a)] + rest;
    M.ChoicesDispatch(RunningOn(b), input, 3);
    DebitCall(b, a, rest);
  }

  /** The dispatcher call that choice 3 makes with a positive amount. */
  lemma DebitCall(b: real, a: real, rest: seq<Line>)
    requires a > 0.0
    ensures a <= b ==>
              Ops.Execute(D.Store(b), "DEBIT", [Dec(a)] + rest)
              == Ops.Completed(D.Store(b - a), Debited(b - a), rest, Some(Ops.Debit(a)))
    ensures a > b ==>
              Ops.Execute(D.Store(b), "DEBIT", [Dec(a)] + rest)
              == Ops.Completed(D.Store(b), InsufficientFunds, rest, None)
  {
    var input := [Dec(a)] + rest;
    assert input[1..] == rest;
    assert Ops.GetAmount(input) == (Ops.Amt(a), rest);
    Ops.NamesAreUpper();
    assert Ops.Execute(D.Store(b), "DEBIT", input) == Ops.Attach(Ops.DebitAccount(D.Store(b), Ops.Amt(a)), rest);
    Ops.DebitWithAmount(D.Store(b), a);
  }

  /** Choice 3 with an amount the balance does not cover. */
  lemma OverdraftTurn(b: real, a: real, rest: seq<Line>)
    requires a > 0.0 && a > b
    ensures M.Run(RunningOn(b), [Num(3), Dec(a)] + rest)
         == M.Prepend([InsufficientFunds], [], M.Run(RunningOn(b), rest))
  {
    var input := [Num(3), Dec(a)] + rest;
    assert input[1..] == [Dec(a)] + rest;
    M.ChoicesDispatch(RunningOn(b), input, 3);
    DebitCall(b, a, rest);
    assert M.Step(RunningOn(b), input) == M.Next(RunningOn(b), [InsufficientFunds], rest, []);
    M.RunUnfold(RunningOn(b), input);
  }

  /** Choice 4 ends the run. */
  lemma ExitTurn(b: real, rest: seq<Line>)
    ensures M.Run(RunningOn(b), [Num(4)] + rest) == M.Trace(D.Store(b), [ExitGoodbye], [], M.Exited)
  {
    M.ExitChoiceEndsRun(RunningOn(b), [Num(4)] + rest);
  }

  /** View, credit 500.00, debit 300.00, view, exit: the reports read
      1000.00, 1500.00, 1200.00, 1200.00 and the run exits cleanly. */
  lemma CompleteTransactionFlow()
    ensures var r := M.Run(M.Start(D.Initial()),
                           [Num(1), Num(2), Dec(500.00), Num(3), Dec(300.00), Num(1), Num(4)]);
      && r.out == [CurrentBalance(1000.00), Credited(1500.00), Debited(1200.00),
                   CurrentBalance(1200.00), ExitGoodbye]
      && r.store.balance == 1200.00
      && r.status == M.Exited
  {
    var i2 := [Num(3), Dec(300.00), Num(1), Num(4)];
    var i1 := [Num(2), Dec(500.00)] + i2;
    var i0 := [Num(1)] + i1;
    assert i0 == [Num(1), Num(2), Dec(500.00), Num(3), Dec(300.00), Num(1), Num(4)];
    var o2 := [Debited(1200.00), CurrentBalance(1200.00), ExitGoodbye];
    var o1 := [Credited(1500.00), Debited(1200.00), CurrentBalance(1200.00), ExitGoodbye];
    var o0 := [CurrentBalance(1000.00), Credited(1500.00), Debited(1200.00), CurrentBalance(1200.00), ExitGoodbye];
    var j1 := [Ops.Credit(500.00), Ops.Debit(300.00)];
    assert [Credited(1500.00)] + o2 == o1;
    assert [CurrentBalance(1000.00)] + o1 == o0;
    assert [Ops.Credit(500.00)] + [Ops.Debit(300.00)] == j1;
    TransactionFlowAfterCredit();
    CreditTurn(1000.00, 500.00, i2);
    assert M.Run(RunningOn(1000.00), i1) == M.Trace(D.Store(1200.00), o1, j1, M.Exited);
    TotalTurn(1000.00, i1);
    assert M.Start(D.Initial()) == RunningOn(1000.00);
  }

  /** The last three turns of `CompleteTransactionFlow`, from 1500.00. */
  lemma TransactionFlowAfterCredit()
    ensures M.Run(RunningOn(1500.00), [Num(3), Dec(300.00), Num(1), Num(4)])
         == M.Trace(D.Store(1200.00), [Debited(1200.00), CurrentBalance(1200.00), ExitGoodbye],
                    [Ops.Debit(300.00)], M.Exited)
  {
    var i4 := [Num(4)];
    var i3 := [Num(1)] + i4;
    var i2 := [Num(3), Dec(300.00)] + i3;
    assert i2 == [Num(3), Dec(300.00), Num(1), Num(4)];
    assert i4 == [Num(4)] + [];
    var o3 := [CurrentBalance(1200.00), ExitGoodbye];
    var o2 := [Debited(1200.00), CurrentBalance(1200.00), ExitGoodbye];
    assert [CurrentBalance(1200.00)] + [ExitGoodbye] == o3;
    assert [Debited(1200.00)] + o3 == o2;
    assert [Ops.Debit(300.00)] + [] == [Ops.Debit(300.00)];
    ExitTurn(1200.00, []);
    TotalTurn(1200.00, i4);
    assert M.Run(RunningOn(1200.00), i3) == M.Trace(D.Store(1200.00), o3, [], M.Exited);
    DebitTurn(1500.00, 300.00, i3);
  }

  /** Debit 1500.00 from 1000.00, view, exit: the debit is refused and the
      balance still reads 1000.00. */
  lemma InsufficientFundsFlow()
    ensures var r := M.Run(M.Start(D.Initial()), [Num(3), Dec(1500.00), Num(1), Num(4)]);
      && r.out == [InsufficientFunds, CurrentBalance(1000.00), ExitGoodbye]
      && r.store.balance == 1000.00
  {
    var i2 := [Num(4)];
    var i1 := [Num(1)] + i2;
    var i0 := [Num(3), Dec(1500.00)] + i1;
    assert i0 == [Num(3), Dec(1500.00), Num(1), Num(4)];
    assert i2 == [Num(4)] + [];
    ExitTurn(1000.00, []);
    TotalTurn(1000.00, i2);
    OverdraftTurn(1000.00, 1500.00, i1);
  }

  /** Credit 0.01, credit 0.02, debit 0.01 from 1000.00: exactly 1000.02,
      with no rounding drift. */
  lemma DecimalPrecisionFlow()
    ensures var r := M.Run(M.Start(D.Initial()),
                           [Num(2), Dec(0.01), Num(2), Dec(0.02), Num(3), Dec(0.01), Num(1), Num(4)]);
      && r.store.balance == 1000.02
      && r.journal == [Ops.Credit(0.01), Ops.Credit(0.02), Ops.Debit(0.01)]
  {
    var i1 := [Num(2), Dec(0.02), Num(3), Dec(0.01), Num(1), Num(4)];
    var i0 := [Num(2), Dec(0.01)] + i1;
    assert i0 == [Num(2), Dec(0.01), Num(2), Dec(0.02), Num(3), Dec(0.01), Num(1), Num(4)];
    var j0 := [Ops.Credit(0.01), Ops.Credit(0.02), Ops.Debit(0.01)];
    assert [Ops.Credit(0.01)] + [Ops.Credit(0.02), Ops.Debit(0.01)] == j0;
    assert 1000.00 + 0.01 == 1000.01;
    PrecisionAfterFirstCredit();
    CreditTurn(1000.00, 0.01, i1);
    assert M.Start(D.Initial()) == RunningOn(1000.00);
  }

  /** The last three turns of `DecimalPrecisionFlow`. */
  lemma PrecisionAfterFirstCredit()
    ensures var r := M.Run(RunningOn(1000.01), [Num(2), Dec(0.02), Num(3), Dec(0.01), Num(1), Num(4)]);
      && r.store.balance == 1000.02
      && r.journal == [Ops.Credit(0.02), Ops.Debit(0.01)]
  {
    var i4 := [Num(4)];
    var i3 := [Num(1)] + i4;
    var i2 := [Num(3), Dec(0.01)] + i3;
    var i1 := [Num(2), Dec(0.02)] + i2;
    assert i1 == [Num(2), Dec(0.02), Num(3), Dec(0.01), Num(1), Num(4)];
    assert i4 == [Num(4)] + [];
    var j2 := [Ops.Debit(0.01)];
    var j1 := [Ops.Credit(0.02), Ops.Debit(0.01)];
    assert [Ops.Debit(0.01)] + [] == j2;
    assert [Ops.Credit(0.02)] + j2 == j1;
    assert 1000.03 - 0.01 == 1000.02 && 1000.01 + 0.02 == 1000.03;
    ExitTurn(1000.02, []);
    TotalTurn(1000.02, i4);
    DebitTurn(1000.03, 0.01, i3);
    assert M.Run(RunningOn(1000.03), i2).journal == j2;
    assert M.Run(RunningOn(1000.03), i2).store.balance == 1000.02;
    CreditTurn(1000.01, 0.02, i2);
  }

  /** Choices 5, 0 and "abc" each re-prompt with their message; 4 then
      exits. */
  lemma InvalidMenuChoicesFlow()
    ensures var r := M.Run(M.Start(D.Initial()), [Num(5), Num(0), Junk(), Num(4)]);
      && r.out == [InvalidChoice, InvalidChoice, InvalidInput, ExitGoodbye]
      && r.store == D.Initial()
      && r.status == M.Exited
  {
    var st := M.Start(D.Initial());
    var input := [Num(5), Num(0), Junk(), Num(4)];
    assert input[1..] == [Num(0), Junk(), Num(4)];
    assert input[1..][1..] == [Junk(), Num(4)];
    assert input[1..][1..][1..] == [Num(4)];
    M.ExitChoiceEndsRun(st, [Num(4)]);
    M.NonNumericChoiceReprompts(st, [Junk(), Num(4)]);
    M.OutOfRangeChoiceReprompts(st, [Num(0), Junk(), Num(4)], 0);
    M.OutOfRangeChoiceReprompts(st, input, 5);
  }

  /** An interrupt at the first prompt prints the interrupt farewell and
      nothing else, whatever input would have followed. */
  lemma KeyboardInterruptFlow(rest: seq<Line>)
    ensures M.Run(M.Start(D.Initial()), [CtrlC] + rest)
         == M.Trace(D.Initial(), [InterruptGoodbye], [], M.Interrupted)
  {
    M.InterruptEndsRun(M.Start(D.Initial()), [CtrlC] + rest);
  }

  /** "read", "READ" and "Read" all return 1000.00 from a fresh store. */
  lemma CaseInsensitiveRead()
    ensures D.Execute(D.Initial(), "read", None).result == D.Ok(1000.00)
    ensures D.Execute(D.Initial(), "READ", None).result == D.Ok(1000.00)
    ensures D.Execute(D.Initial(), "Read", None).result == D.Ok(1000.00)
  {
    D.ReadIsPure(D.Initial(), "read", None);
    D.ReadIsPure(D.Initial(), "READ", None);
    D.ReadIsPure(D.Initial(), "Read", None);
  }

  /** Read, write back plus 500.00, read, write back minus 300.00: the
      store then reads 1200.00. */
  lemma DirectStoreFlow()
    ensures var s0 := D.Initial();
      var b0 := D.Execute(s0, "READ", None).result.value;
      var s1 := D.Execute(s0, "WRITE", Some(b0 + 500.00)).store;
      var b1 := D.Execute(s1, "READ", None).result.value;
      var s2 := D.Execute(s1, "WRITE", Some(b1 - 300.00)).store;
      D.Execute(s2, "READ", None).result == D.Ok(1200.00)
  {
    D.KeywordsAreUpper();
  }

  /** One run credits 500.00; after a reset a second run sees 1000.00. */
  lemma ResetBetweenRuns()
    ensures M.Run(M.Start(D.Initial()), [Num(2), Dec(500.00), Num(4)]).store.balance == 1500.00
    ensures var first := M.Run(M.Start(D.Initial()), [Num(2), Dec(500.00), Num(4)]);
      M.Run(M.Start(D.Reset(first.store)), [Num(1), Num(4)]).out
        == [CurrentBalance(1000.00), ExitGoodbye]
  {
    CreditThenExit();
    ViewThenExit();
  }

  /** The first run of `ResetBetweenRuns`. */
  lemma CreditThenExit()
    ensures M.Run(M.Start(D.Initial()), [Num(2), Dec(500.00), Num(4)]).store.balance == 1500.00
  {
    var exit := [Num(4)];
    assert exit == [Num(4)] + [];
    assert [Num(2), Dec(500.00), Num(4)] == [Num(2), Dec(500.00)] + exit;
    ExitTurn(1500.00, []);
    CreditTurn(1000.00, 500.00, exit);
  }

  /** The second run of `ResetBetweenRuns`. */
  lemma ViewThenExit()
    ensures M.Run(M.Start(D.Initial()), [Num(1), Num(4)]).out == [CurrentBalance(1000.00), ExitGoodbye]
  {
    var exit := [Num(4)];
    assert exit == [Num(4)] + [];
    assert [Num(1), Num(4)] == [Num(1)] + exit;
    ExitTurn(1000.00, []);
    TotalTurn(1000.00, exit);
  }
}
