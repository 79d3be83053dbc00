/**
 The menu loop: while the continue flag is set it reads a choice, dispatches
 choices 1 to 3 to the operation dispatcher, clears the flag on 4, and
 re-prompts on anything else. A keyboard interrupt at any prompt ends the
 run on a path of its own.
 */
module Menu {
  import opened Common
  import D = Data
  import Ops = Operations

  /** `continue_flag`: set while Running, cleared once the user chose to exit. */
  datatype Phase = Running | Exiting

  datatype State = State(store: D.Store, phase: Phase)

  /** A fresh `MainProgram` over a store. */
  function Start(s: D.Store): (r: State)
    ensures r.phase == Running && r.store == s
  {
    State(s, Running)
  }

  /** What the choice prompt yields. */
  datatype ChoiceTok =
    | Picked(n: int)       // a number from 1 to 4
    | OutOfRange           // a number, but not from 1 to 4
    | NotANumber           // not a number at all
    | ChoiceInterrupted    // a keyboard interrupt at the prompt

  /** `_get_user_choice`: consumes one line. End of input counts as input
      that is not a number. */
  function GetUserChoice(input: seq<Line>): (r: (ChoiceTok, seq<Line>))
    ensures input == [] ==> r == (NotANumber, [])
    ensures input != [] ==> r.1 == input[1..]
    ensures r.0.Picked? ==> 1 <= r.0.n <= 4
    ensures r.0 == ChoiceInterrupted <==> input != [] && input[0] == CtrlC
    ensures input != [] && input[0].Typed? ==>
              && (input[0].asInt.None? <==> r.0 == NotANumber)
              && (input[0].asInt.Some? && 1 <= input[0].asInt.value <= 4 <==> r.0.Picked?)
              && (r.0.Picked? ==> r.0.n == input[0].asInt.value)
  {
    if input == [] then (NotANumber, [])
    else match input[0]
      case CtrlC => (ChoiceInterrupted, input[1..])
      case Typed(None, _) => (NotANumber, input[1..])
      case Typed(Some(n), _) =>
        if 1 <= n <= 4 then (Picked(n), input[1..])
        else (OutOfRange, input[1..])
  }

  datatype Action = Dispatch(name: string) | Quit | NoAction

  /** `_process_choice`. */
  function ProcessChoice(choice: int): (a: Action)
    ensures a.Quit? <==> choice == 4
    ensures a.Dispatch? <==> 1 <= choice <= 3
    ensures a.Dispatch? ==> Upper(a.name) == a.name
    ensures choice == 1 <==> a == Dispatch("TOTAL")
    ensures choice == 2 <==> a == Dispatch("CREDIT")
    ensures choice == 3 <==> a == Dispatch("DEBIT")
  {
    Ops.NamesAreUpper();
    if choice == 1 then Dispatch("TOTAL")
    else if choice == 2 then Dispatch("CREDIT")
    else if choice == 3 then Dispatch("DEBIT")
    else if choice == 4 then Quit
    else NoAction
  }

  function Journal(applied: Option<Ops.Txn>): seq<Ops.Txn> {
    match applied
    case None => []
    case Some(t) => [t]
  }

  /** One pass of the loop body while Running. */
  datatype StepResult =
    | Next(state: State, out: seq<Msg>, rest: seq<Line>, journal: seq<Ops.Txn>)
    | StepInterrupted
    | StepCrashed(error: D.StoreError)

  function Step(st: State, input: seq<Line>): (r: StepResult)
    requires st.phase == Running
    ensures input == [] ==> r == Next(st, [InvalidInput], [], [])
    ensures r.Next? && input != [] ==> |r.rest| < |input|
    // a committed change uses two lines: the choice and the amount
    ensures r.Next? && r.journal != [] ==> |r.rest| + 2 <= |input|
    ensures r.Next? && r.journal == [] ==> r.state.store == st.store
    ensures r.Next? && r.state.phase == Exiting ==> r.state.store == st.store && r.out == []
    ensures r.Next? ==> ExitGoodbye !in r.out && InterruptGoodbye !in r.out && |r.journal| <= 1
    ensures r.Next? ==> Ops.Replay(st.store.balance, r.journal) == r.state.store.balance
    ensures r.Next? ==> Ops.AllAdmissible(st.store.balance, r.journal)
    ensures D.Valid(st.store) ==> !r.StepCrashed?
    ensures D.Valid(st.store) && r.Next? ==> D.Valid(r.state.store)
  {
    var (tok, rest) := GetUserChoice(input);
    Turn(st, tok, rest)
  }

  /** The loop body once the choice has been read. */
  function Turn(st: State, tok: ChoiceTok, rest: seq<Line>): (r: StepResult)
    requires st.phase == Running
    ensures r.Next? ==> |r.rest| <= |rest|
    ensures r.Next? && r.journal != [] ==> |r.rest| < |rest|
    ensures r.Next? && r.journal == [] ==> r.state.store == st.store
    ensures r.Next? && r.state.phase == Exiting ==> r.state.store == st.store && r.out == []
    ensures r.Next? ==> ExitGoodbye !in r.out && InterruptGoodbye !in r.out && |r.journal| <= 1
    ensures r.Next? ==> Ops.Replay(st.store.balance, r.journal) == r.state.store.balance
    ensures r.Next? ==> Ops.AllAdmissible(st.store.balance, r.journal)
    ensures D.Valid(st.store) ==> !r.StepCrashed?
    ensures D.Valid(st.store) && r.Next? ==> D.Valid(r.state.store)
  {
    match tok
    case ChoiceInterrupted => StepInterrupted
    case OutOfRange => Next(st, [InvalidChoice], rest, [])
    case NotANumber => Next(st, [InvalidInput], rest, [])
    case Picked(n) =>
      match ProcessChoice(n)
      case Quit => Next(State(st.store, Exiting), [], rest, [])
      case NoAction => Next(st, [], rest, [])
      case Dispatch(name) =>
        DispatchedSound(st.store, name, rest);
        Dispatched(st.store, name, rest)
  }

  /** The turn with `extra` appended to the unread input. */
  function ExtendStep(r: StepResult, extra: seq<Line>): StepResult {
    match r
    case Next(st', out, rest, journal) => Next(st', out, rest + extra, journal)
    case _ => r
  }

  /** Back in the loop after a dispatcher call; its exceptions propagate. */
  function Resume(o: Ops.Outcome): StepResult {
    match o
    case Interrupted => StepInterrupted
    case Crashed(e) => StepCrashed(e)
    case Completed(s', m, rest, applied) => Next(State(s', Running), [m], rest, Journal(applied))
  }

  /** The loop handing `name` to the dispatcher with the unread input. */
  function Dispatched(s: D.Store, name: string, rest: seq<Line>): StepResult {
    Resume(Ops.Execute(s, name, rest))
  }

  /** What a dispatcher call gives back to the loop: at most one committed
      change, admissible and replayed on the balance, and only the credit or
      debit, by name, of the amount on the next line. */
  lemma DispatchedSound(s: D.Store, name: string, rest: seq<Line>)
    ensures var r := Dispatched(s, name, rest);
      r.Next? ==> |r.rest| <= |rest| && r.state.phase == Running
    ensures var r := Dispatched(s, name, rest);
      r.Next? && r.journal != [] ==> |r.rest| < |rest|
    ensures var r := Dispatched(s, name, rest);
      r.Next? && r.journal == [] ==> r.state.store == s
    ensures var r := Dispatched(s, name, rest);
      r.Next? ==> ExitGoodbye !in r.out && InterruptGoodbye !in r.out && |r.journal| <= 1
    ensures var r := Dispatched(s, name, rest);
      r.Next? ==> Ops.Replay(s.balance, r.journal) == r.state.store.balance
    ensures var r := Dispatched(s, name, rest);
      r.Next? ==> Ops.AllAdmissible(s.balance, r.journal)
    ensures var r := Dispatched(s, name, rest);
      r.Next? && r.journal != [] ==>
        && Upper(name) != "TOTAL" && rest != [] && rest[0].Typed?
        && rest[0].asDecimal == Some(r.journal[0].amount)
        && (r.journal[0].Credit? <==> Upper(name) == "CREDIT")
    ensures D.Valid(s) ==> !Dispatched(s, name, rest).StepCrashed?
    ensures var r := Dispatched(s, name, rest);
      D.Valid(s) && r.Next? ==> D.Valid(r.state.store)
  {
    var o := Ops.Execute(s, name, rest);
    if o.Completed? && o.applied.Some? {
      Ops.ReplayOne(s.balance, o.applied.value);
    }
  }

  /** How a run ends. `Stalled` is the input running out at the choice
      prompt. */
  datatype Status = Exited | Interrupted | Stalled | Crashed(error: D.StoreError)

  /** The store a run leaves behind, everything it printed, the credits and
      debits it committed in order, and how it ended. */
  datatype Trace = Trace(store: D.Store, out: seq<Msg>, journal: seq<Ops.Txn>, status: Status)

  function Prepend(out: seq<Msg>, journal: seq<Ops.Txn>, t: Trace): Trace {
    Trace(t.store, out + t.out, journal + t.journal, t.status)
  }

  lemma PrependTwice(o1: seq<Msg>, j1: seq<Ops.Txn>, o2: seq<Msg>, j2: seq<Ops.Txn>, t: Trace)
    ensures Prepend(o1, j1, Prepend(o2, j2, t)) == Prepend(o1 + o2, j1 + j2, t)
  {
    assert o1 + (o2 + t.out) == (o1 + o2) + t.out;
    assert j1 + (j2 + t.journal) == (j1 + j2) + t.journal;
  }

  /** `MainProgram.run` from state `st` over the remaining input. */
  function Run(st: State, input: seq<Line>): (r: Trace)
    // the goodbye messages are printed exactly on their own endings
    ensures ExitGoodbye in r.out <==> r.status == Exited
    ensures InterruptGoodbye in r.out <==> r.status == Interrupted
    // at most one committed change per line read, and none means no change
    ensures 2 * |r.journal| <= |input|
    ensures r.journal == [] ==> r.store == st.store
    // the balance never goes negative, and the store never raises
    ensures D.Valid(st.store) ==> D.Valid(r.store) && !r.status.Crashed?
    // the balance is the start replayed through the committed changes,
    // each of which passed the dispatcher's guards
    ensures r.store.balance == Ops.Replay(st.store.balance, r.journal)
    ensures Ops.AllAdmissible(st.store.balance, r.journal)
    decreases |input|
  {
    if st.phase == Exiting then Trace(st.store, [ExitGoodbye], [], Exited)
    else if input == [] then Trace(st.store, [], [], Stalled)
    else match Step(st, input)
      case StepInterrupted => Trace(st.store, [InterruptGoodbye], [], Interrupted)
      case StepCrashed(e) => Trace(st.store, [], [], Crashed(e))
      case Next(st', out, rest, journal) =>
        var tail := Run(st', rest);
        Ops.ReplayAppend(st.store.balance, journal, tail.journal);
        Prepend(out, journal, tail)
  }

  /** One turn of the loop, as `Run` takes it. */
  lemma RunUnfold(st: State, input: seq<Line>)
    requires st.phase == Running && input != []
    ensures Step(st, input).StepInterrupted? ==>
              Run(st, input) == Trace(st.store, [InterruptGoodbye], [], Interrupted)
    ensures Step(st, input).StepCrashed? ==>
              Run(st, input) == Trace(st.store, [], [], Crashed(Step(st, input).error))
    ensures Step(st, input).Next? ==>
              var n := Step(st, input);
              Run(st, input) == Prepend(n.out, n.journal, Run(n.state, n.rest))
  {
  }

  /** The loop's exit: the flag is cleared or the input has run out. */
  lemma RunStops(st: State, input: seq<Line>)
    requires st.phase == Exiting || input == []
    ensures st.phase == Exiting ==> Run(st, input) == Trace(st.store, [ExitGoodbye], [], Exited)
    ensures st.phase == Running ==> Run(st, input) == Trace(st.store, [], [], Stalled)
  {
  }

  /** The same run as the program writes it, a `while` loop on the flag. */
  method RunLoop(s: D.Store, input: seq<Line>) returns (t: Trace)
    ensures t == Run(Start(s), input)
  {
    var st := Start(s);
    var rest := input;
    var out: seq<Msg> := [];
    var journal: seq<Ops.Txn> := [];
    while st.phase == Running && rest != []
      invariant Run(Start(s), input) == Prepend(out, journal, Run(st, rest))
      decreases |rest|
    {
      var step := Step(st, rest);
      RunUnfold(st, rest);
      if step.StepInterrupted? {
        assert journal + [] == journal;
        return Trace(st.store, out + [InterruptGoodbye], journal, Interrupted);
      } else if step.StepCrashed? {
        assert out + [] == out && journal + [] == journal;
        return Trace(st.store, out, journal, Crashed(step.error));
      }
      PrependTwice(out, journal, step.out, step.journal, Run(step.state, step.rest));
      st, out, journal, rest := step.state, out + step.out, journal + step.journal, step.rest;
    }
    RunStops(st, rest);
    assert journal + [] == journal;
    if st.phase == Exiting {
      t := Trace(st.store, out + [ExitGoodbye], journal, Exited);
    } else {
      assert out + [] == out;
      t := Trace(st.store, out, journal, Stalled);
    }
  }

  /** A line that parses as the integer `n`. */
  predicate ChoiceLine(input: seq<Line>, n: int) {
    input != [] && input[0].Typed? && input[0].asInt == Some(n)
  }

  /** A number outside 1 to 4 reports "Invalid choice. Please enter a number
      between 1 and 4.", dispatches nothing, and the loop stays Running on
      the unchanged store. */
  lemma OutOfRangeChoiceReprompts(st: State, input: seq<Line>, n: int)
    requires st.phase == Running && ChoiceLine(input, n) && !(1 <= n <= 4)
    ensures Step(st, input) == Next(st, [InvalidChoice], input[1..], [])
    ensures Run(st, input) == Prepend([InvalidChoice], [], Run(st, input[1..]))
  {
  }

  /** A line that is not a number reports "Invalid input. Please enter a
      valid number.", dispatches nothing, and the loop stays Running on the
      unchanged store. */
  lemma NonNumericChoiceReprompts(st: State, input: seq<Line>)
    requires st.phase == Running && input != [] && input[0].Typed? && input[0].asInt.None?
    ensures Step(st, input) == Next(st, [InvalidInput], input[1..], [])
    ensures Run(st, input) == Prepend([InvalidInput], [], Run(st, input[1..]))
  {
  }

  /** Choices 1, 2 and 3 make exactly one dispatcher call, with `TOTAL`,
      `CREDIT` and `DEBIT` respectively, on the rest of the input. */
  lemma ChoicesDispatch(st: State, input: seq<Line>, n: int)
    requires st.phase == Running && ChoiceLine(input, n) && 1 <= n <= 3
    ensures n == 1 ==> Step(st, input) == Resume(Ops.Execute(st.store, "TOTAL", input[1..]))
    ensures n == 2 ==> Step(st, input) == Resume(Ops.Execute(st.store, "CREDIT", input[1..]))
    ensures n == 3 ==> Step(st, input) == Resume(Ops.Execute(st.store, "DEBIT", input[1..]))
    ensures n == 1 ==> Step(st, input) == Next(st, [CurrentBalance(st.store.balance)], input[1..], [])
  {
    Ops.TotalReportsBalance(st.store, "TOTAL", input[1..]);
  }

  /** Choice 4 clears the flag; the loop then ends with "Exiting the
      program. Goodbye!", leaving the store as it was and reading nothing
      more. */
  lemma ExitChoiceEndsRun(st: State, input: seq<Line>)
    requires st.phase == Running && ChoiceLine(input, 4)
    ensures Step(st, input) == Next(State(st.store, Exiting), [], input[1..], [])
    ensures Run(st, input) == Trace(st.store, [ExitGoodbye], [], Exited)
  {
  }

  /** An interrupt at the choice prompt, or at the amount prompt of a credit
      or debit, ends the run with "Program interrupted. Goodbye!" and no
      further change. */
  lemma InterruptEndsRun(st: State, input: seq<Line>)
    requires st.phase == Running
    requires || (input != [] && input[0] == CtrlC)
             || ((ChoiceLine(input, 2) || ChoiceLine(input, 3)) && |input| >= 2 && input[1] == CtrlC)
    ensures Run(st, input) == Trace(st.store, [InterruptGoodbye], [], Interrupted)
  {
    InterruptStep(st, input);
    RunUnfold(st, input);
  }

  /** The loop pass in which the interrupt arrives. */
  lemma InterruptStep(st: State, input: seq<Line>)
    requires st.phase == Running
    requires || (input != [] && input[0] == CtrlC)
             || ((ChoiceLine(input, 2) || ChoiceLine(input, 3)) && |input| >= 2 && input[1] == CtrlC)
    ensures Step(st, input) == StepInterrupted
  {
    if input[0] != CtrlC {
      var n := if ChoiceLine(input, 2) then 2 else 3;
      var name := ProcessChoice(n).name;
      assert GetUserChoice(input) == (Picked(n), input[1..]);
      Ops.Keywords(name);
      Ops.AmountInterruptPropagates(st.store, name, input[1..]);
    }
  }

  /** Over any run from a valid store the balance is never negative, not
      only at the end but after every committed change: each intermediate
      balance is the replay of admissible changes, which cannot go below
      zero. */
  lemma RunNeverNegative(st: State, input: seq<Line>)
    requires D.Valid(st.store)
    ensures var j := Run(st, input).journal;
      forall k :: 0 <= k <= |j| ==> Ops.Replay(st.store.balance, j[..k]) >= 0.0
  {
    var j := Run(st, input).journal;
    forall k | 0 <= k <= |j| ensures Ops.Replay(st.store.balance, j[..k]) >= 0.0 {
      Ops.PrefixKeepsNonNegative(st.store.balance, j, k);
    }
  }

  /** More input after a turn of the loop does not change that turn, unless
      the turn ran into the end of input at the amount prompt: choice 2 or 3
      on the last line given. */
  lemma StepIgnoresLaterInput(st: State, input: seq<Line>, extra: seq<Line>)
    requires st.phase == Running && input != []
    requires !(ChoiceLine(input, 2) || ChoiceLine(input, 3)) || |input| >= 2
    ensures Step(st, input + extra) == ExtendStep(Step(st, input), extra)
  {
    GetUserChoiceReadsOneLine(input, extra);
    var (tok, rest) := GetUserChoice(input);
    TurnIgnoresLaterInput(st, tok, rest, extra);
  }

  /** The choice prompt reads one line: what follows it is left unread. */
  lemma GetUserChoiceReadsOneLine(input: seq<Line>, extra: seq<Line>)
    requires input != []
    ensures GetUserChoice(input + extra) == (GetUserChoice(input).0, GetUserChoice(input).1 + extra)
  {
    assert (input + extra)[0] == input[0];
    assert (input + extra)[1..] == input[1..] + extra;
  }

  /** `StepIgnoresLaterInput` once the choice has been read. */
  lemma TurnIgnoresLaterInput(st: State, tok: ChoiceTok, rest: seq<Line>, extra: seq<Line>)
    requires st.phase == Running
    requires !(tok.Picked? && 2 <= tok.n <= 3 && rest == [])
    ensures Turn(st, tok, rest + extra) == ExtendStep(Turn(st, tok, rest), extra)
  {
    if tok.Picked? {
      var a := ProcessChoice(tok.n);
      if a.Dispatch? {
        DispatchIgnoresLaterInput(st, a.name, rest, extra);
      }
    }
  }

  /** The dispatching half of `StepIgnoresLaterInput`. */
  lemma DispatchIgnoresLaterInput(st: State, name: string, rest: seq<Line>, extra: seq<Line>)
    requires name in ["TOTAL", "CREDIT", "DEBIT"]
    requires rest != [] || name == "TOTAL"
    ensures Resume(Ops.Execute(st.store, name, rest + extra))
         == ExtendStep(Resume(Ops.Execute(st.store, name, rest)), extra)
  {
    D.KeywordsAreUpper();
    Ops.Keywords(name);
    Ops.ExecuteIgnoresLaterInput(st.store, name, rest, extra);
  }

  /** A run that ends by choice 4 or by an interrupt reads no input past
      that point: whatever follows it changes nothing. */
  lemma {:induction false} RunIgnoresLaterInput(st: State, input: seq<Line>, extra: seq<Line>)
    requires Run(st, input).status == Exited || Run(st, input).status == Interrupted
    ensures Run(st, input + extra) == Run(st, input)
    decreases |input|
  {
    if st.phase == Running && input != [] {
      var step := Step(st, input);
      RunUnfold(st, input);
      RunUnfold(st, input + extra);
      if (ChoiceLine(input, 2) || ChoiceLine(input, 3)) && |input| == 1 {
        // the amount prompt meets end of input: the run goes on and stalls
        Ops.MalformedAmountRejected(st.store, ProcessChoice(input[0].asInt.value).name, []);
        assert false;
      } else if step.Next? {
        assert Run(step.state, step.rest).status == Run(st, input).status;
        StepIgnoresLaterInput(st, input, extra);
        RunIgnoresLaterInput(step.state, step.rest, extra);
      } else {
        StepIgnoresLaterInput(st, input, extra);
      }
    }
  }

  /** One pass of the loop read off the input alone, with no store: the
      credit (choice 2) or debit (choice 3) it asks for, if its amount line
      parses; the input after it; and whether it ends the loop (choice 4 or
      an interrupt at either prompt). */
  function NextRequest(input: seq<Line>): (r: (Option<Ops.Txn>, seq<Line>, bool))
    requires input != []
    ensures |r.1| < |input|
  {
    match input[0]
    case CtrlC => (None, input[1..], true)
    case Typed(None, _) => (None, input[1..], false)
    case Typed(Some(n), _) =>
      if n == 4 then (None, input[1..], true)
      else if n != 2 && n != 3 then (None, input[1..], false)
      else if |input| == 1 then (None, [], false)
      else match input[1]
        case CtrlC => (None, input[2..], true)
        case Typed(_, None) => (None, input[2..], false)
        case Typed(_, Some(a)) =>
          (Some(if n == 2 then Ops.Credit(a) else Ops.Debit(a)), input[2..], false)
  }

  /** Every credit and debit the input asks for, in order, up to the pass
      that ends the loop. */
  function Requests(input: seq<Line>): seq<Ops.Txn>
    decreases |input|
  {
    if input == [] then []
    else
      var (ask, rest, ends) := NextRequest(input);
      if ends then [] else Journal(ask) + Requests(rest)
  }

  /** From a valid store, what a run commits is exactly what the input asks
      for, less what the guards reject at the balance reached so far: a
      credit that is not positive, a debit that is not positive or that the
      balance does not cover. */
  lemma {:induction false} RunCommitsRequests(st: State, input: seq<Line>)
    requires st.phase == Running && D.Valid(st.store)
    ensures Run(st, input).journal == Ops.Admitted(st.store.balance, Requests(input))
    decreases |input|
  {
    if input != [] {
      var (ask, rest, ends) := NextRequest(input);
      StepAsRequested(st, input);
      RunUnfold(st, input);
      var r := Step(st, input);
      if !ends {
        RunCommitsRequests(r.state, rest);
        AdmittedOne(st.store.balance, ask, Requests(rest));
      }
    }
  }

  /** One pass of the loop from a valid store: it ends the loop exactly when
      the input's request does, and otherwise commits the request if the
      guards admit it. */
  lemma StepAsRequested(st: State, input: seq<Line>)
    requires st.phase == Running && D.Valid(st.store) && input != []
    ensures var r := Step(st, input);
      NextRequest(input).2 ==> r.StepInterrupted? || (r.Next? && r.state.phase == Exiting)
    ensures var r := Step(st, input);
      !NextRequest(input).2 ==>
        && r.Next? && r.state.phase == Running && r.rest == NextRequest(input).1
        && r.journal == Ops.Admitted(st.store.balance, Journal(NextRequest(input).0))
  {
    var (ask, rest, ends) := NextRequest(input);
    if input[0].Typed? && input[0].asInt.Some? && (input[0].asInt.value == 2 || input[0].asInt.value == 3) {
      AmountAsRequested(st, input);
    } else {
      assert ask == None;
    }
  }

  /** `StepAsRequested` for choices 2 and 3. */
  lemma AmountAsRequested(st: State, input: seq<Line>)
    requires st.phase == Running && D.Valid(st.store)
    requires ChoiceLine(input, 2) || ChoiceLine(input, 3)
    ensures var r := Step(st, input);
      NextRequest(input).2 ==> r.StepInterrupted?
    ensures var r := Step(st, input);
      !NextRequest(input).2 ==>
        && r.Next? && r.state.phase == Running && r.rest == NextRequest(input).1
        && r.journal == Ops.Admitted(st.store.balance, Journal(NextRequest(input).0))
  {
    var n := input[0].asInt.value;
    var name := if n == 2 then "CREDIT" else "DEBIT";
    ChoicesDispatch(st, input, n);
    assert Step(st, input) == Dispatched(st.store, name, input[1..]);
    if |input| >= 2 && input[1].Typed? && input[1].asDecimal.Some? {
      var a := input[1].asDecimal.value;
      assert NextRequest(input) == (Some(if n == 2 then Ops.Credit(a) else Ops.Debit(a)), input[2..], false);
      if n == 2 {
        CreditAsRequested(st.store, a, input[1..]);
      } else {
        DebitAsRequested(st.store, a, input[1..]);
      }
    } else if |input| >= 2 && input[1] == CtrlC {
      InterruptStep(st, input);
    } else {
      if |input| == 1 {
        assert NextRequest(input) == (None, [], false);
      } else {
        assert NextRequest(input) == (None, input[2..], false);
        assert input[1..][1..] == input[2..];
      }
      NoAmountRejected(st.store, name, input[1..]);
    }
  }

  /** A credit or debit whose amount line is missing or does not parse
      commits nothing and leaves the loop Running past that line. */
  lemma NoAmountRejected(s: D.Store, name: string, amount: seq<Line>)
    requires name == "CREDIT" || name == "DEBIT"
    requires amount == [] || (amount[0].Typed? && amount[0].asDecimal.None?)
    ensures var r := Dispatched(s, name, amount);
      && r.Next? && r.state.phase == Running && r.journal == []
      && r.rest == (if amount == [] then [] else amount[1..])
  {
    Ops.NamesAreUpper();
    Ops.Keywords(name);
    Ops.MalformedAmountRejected(s, name, amount);
  }

  /** A credit whose amount line parses as `a` commits `a` exactly when the
      guards admit it. */
  lemma CreditAsRequested(s: D.Store, a: real, amount: seq<Line>)
    requires D.Valid(s) && amount != [] && amount[0].Typed? && amount[0].asDecimal == Some(a)
    ensures var r := Dispatched(s, "CREDIT", amount);
      && r.Next? && r.state.phase == Running && r.rest == amount[1..]
      && r.journal == Ops.Admitted(s.balance, [Ops.Credit(a)])
  {
    assert Ops.GetAmount(amount) == (Ops.Amt(a), amount[1..]);
    Ops.NamesAreUpper();
    assert Ops.Execute(s, "CREDIT", amount) == Ops.Attach(Ops.CreditAccount(s, Ops.Amt(a)), amount[1..]);
    Ops.AdmittedSingle(s.balance, Ops.Credit(a));
    if a > 0.0 { Ops.CreditWithAmount(s, a); }
  }

  /** A debit whose amount line parses as `a` commits `a` exactly when the
      guards admit it. */
  lemma DebitAsRequested(s: D.Store, a: real, amount: seq<Line>)
    requires amount != [] && amount[0].Typed? && amount[0].asDecimal == Some(a)
    ensures var r := Dispatched(s, "DEBIT", amount);
      && r.Next? && r.state.phase == Running && r.rest == amount[1..]
      && r.journal == Ops.Admitted(s.balance, [Ops.Debit(a)])
  {
    assert Ops.GetAmount(amount) == (Ops.Amt(a), amount[1..]);
    Ops.NamesAreUpper();
    assert Ops.Execute(s, "DEBIT", amount) == Ops.Attach(Ops.DebitAccount(s, Ops.Amt(a)), amount[1..]);
    Ops.AdmittedSingle(s.balance, Ops.Debit(a));
    if a > 0.0 { Ops.DebitWithAmount(s, a); }
  }

  /** Trying at most one change, then the rest. */
  lemma AdmittedOne(balance: real, ask: Option<Ops.Txn>, ts: seq<Ops.Txn>)
    ensures var j := Ops.Admitted(balance, Journal(ask));
      Ops.Admitted(balance, Journal(ask) + ts) == j + Ops.Admitted(Ops.Replay(balance, j), ts)
  {
    if ask.Some? {
      var t := ask.value;
      assert ([t] + ts)[0] == t && ([t] + ts)[1..] == ts;
      assert [t][1..] == [];
      Ops.ReplayOne(balance, t);
    } else {
      assert [] + ts == ts;
    }
  }
}
