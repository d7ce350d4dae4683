/** The interactive menu of the rtu_test command: a loop over three menu
    states driven by single keypresses and yes/no confirmations, echoing
    lines to the terminal. The operator's input is a scripted finite
    sequence of keys and of answers, read from positions k and a onwards;
    the terminal is the log of echoed lines. When the script runs out the
    run ends, where the real program would wait for the operator. An
    interrupt at a keypress or at a confirmation aborts the command. */
module Menu {

  datatype MenuState = Main | Start | Quit

  /** How a run ends: the command returned from the quit state, the
      script ran out while the program waited for input, or the operator
      interrupted a prompt and the command was aborted (click reports
      "Aborted!" and exits with status 1). */
  datatype Outcome = Returned | InputExhausted | Aborted

  /** The operator's reply to a yes/no confirmation. Interrupt stands for
      Ctrl-C or end of input at the prompt, on which click.confirm aborts. */
  datatype Answer = Yes | No | Interrupt

  /** The keys click.getchar turns into an exception instead of returning
      them, on a POSIX terminal: Ctrl-C (KeyboardInterrupt) and Ctrl-D
      (EOFError); click aborts the command on either. */
  predicate InterruptKey(c: char) {
    c == '\U{3}' || c == '\U{4}'
  }

  const Banner: string := "RTU Tester  "
  const MainMenuLines: seq<string> := ["Main Menu:", "    s: start", "    q: quit"]
  const InvalidInput: string := "Invalid input"
  const StartHeader: string := "Start RTU Test"
  const ConnectReminder: string := "Connect the RTU"
  /** Echoed after a positive answer, before the power-off confirmation. */
  const ChecksLines: seq<string> := [
    "Running Modbus Checks",
    "Pulse Out 1", "Pulse Out 2", "Pulse Out 3", "Pulse Out 4",
    "Set Out 1", "Set Out 2", "Set Out 3", "Set Out 4"]
  /** Echoed between the power-off and the power-on confirmations. */
  const PowerCycleLines: seq<string> := ["Polling RTU until dead", "RTU Dead"]
  /** Echoed after the power-on confirmation. */
  const VerifyLines: seq<string> := [
    "Check Out 1", "Check Out 2", "Check Out 3", "Check Out 4",
    "All outputs remembered. Test Pass."]

  /** Everything a pass through the start state echoes when the operator
      confirms the RTU is connected. */
  function TestPassLines(): seq<string> {
    [StartHeader] + ChecksLines + PowerCycleLines + VerifyLines
  }

  /** One pass of the loop body: it returns (Exit), stops after echoing
      some lines because the script ran out or was interrupted (Halt), or
      echoes some lines and continues in a new menu state with the script
      read up to new positions (Next). */
  datatype Pass =
    | Exit
    | Halt(echoed: seq<string>, why: Outcome)
    | Next(echoed: seq<string>, menu: MenuState, k: nat, a: nat)

  function Step(m: MenuState, keys: seq<char>, answers: seq<Answer>, k: nat, a: nat): (p: Pass)
    requires k <= |keys| && a <= |answers|
    ensures p.Exit? <==> m == Quit
    ensures p.Halt? ==> p.why != Returned
    ensures p.Halt? && p.why == Aborted ==>
      (m == Main && k < |keys| && InterruptKey(keys[k]))
      || (m == Start && exists j :: a <= j < |answers| && answers[j] == Interrupt)
    ensures p.Next? ==> k <= p.k <= |keys| && a <= p.a <= |answers| && k + a < p.k + p.a
    ensures p.Next? && p.menu == Quit ==> m == Main && p.k == k + 1 && keys[k] == 'q'
    ensures p.Next? && m == Start ==> p.k == k
    ensures p.Next? && m == Main ==> p.a == a
  {
    match m
    case Main =>
      if k == |keys| then Halt(MainMenuLines, InputExhausted)
      else if InterruptKey(keys[k]) then Halt(MainMenuLines, Aborted)
      else if keys[k] == 's' then Next(MainMenuLines, Start, k + 1, a)
      else if keys[k] == 'q' then Next(MainMenuLines, Quit, k + 1, a)
      else Next(MainMenuLines + [InvalidInput], Main, k + 1, a)
    case Start =>
      if a == |answers| then Halt([StartHeader], InputExhausted)
      else if answers[a] == Interrupt then Halt([StartHeader], Aborted)
      else if answers[a] == No then Next([StartHeader, ConnectReminder], Start, k, a + 1)
      else if a + 1 == |answers| then Halt([StartHeader] + ChecksLines, InputExhausted)
      else if answers[a + 1] == Interrupt then Halt([StartHeader] + ChecksLines, Aborted)
      else if a + 2 == |answers| then Halt([StartHeader] + ChecksLines + PowerCycleLines, InputExhausted)
      else if answers[a + 2] == Interrupt then Halt([StartHeader] + ChecksLines + PowerCycleLines, Aborted)
      else Next(TestPassLines(), Main, k, a + 3)
    case Quit => Exit
  }

  /** The whole run from a menu state: the lines echoed, the menu states the
      loop was in at the top of each pass, and how it ended. */
  datatype Trace = Trace(log: seq<string>, visited: seq<MenuState>, outcome: Outcome)

  function RunFrom(m: MenuState, keys: seq<char>, answers: seq<Answer>, k: nat, a: nat): (t: Trace)
    requires k <= |keys| && a <= |answers|
    decreases |keys| - k + |answers| - a
    ensures |t.visited| > 0 && t.visited[0] == m
  {
    match Step(m, keys, answers, k, a)
    case Exit => Trace([], [m], Returned)
    case Halt(out, why) => Trace(out, [m], why)
    case Next(out, next, k', a') =>
      var rest := RunFrom(next, keys, answers, k', a');
      Trace(out + rest.log, [m] + rest.visited, rest.outcome)
  }

  /** The run of the command: the banner, then the loop from the main menu. */
  function Session(keys: seq<char>, answers: seq<Answer>): (t: Trace)
    ensures |t.visited| > 0 && t.visited[0] == Main && |t.log| > 0 && t.log[0] == Banner
  {
    var run := RunFrom(Main, keys, answers, 0, 0);
    Trace([Banner] + run.log, run.visited, run.outcome)
  }

  /** The moves the loop can make between two consecutive passes. */
  predicate CanMove(from: MenuState, to: MenuState) {
    match from
    case Main => true
    case Start => to != Quit
    case Quit => false
  }

  /** Every move along a sequence of menu states is one the loop allows. */
  predicate AllowedPath(v: seq<MenuState>) {
    forall i :: 0 <= i < |v| - 1 ==> CanMove(v[i], v[i + 1])
  }

  /** Every move of a run is one the loop allows: in particular quit is
      entered only from the main menu and never left. */
  lemma {:induction false} RunMovesAllowed(m: MenuState, keys: seq<char>, answers: seq<Answer>, k: nat, a: nat)
    requires k <= |keys| && a <= |answers|
    decreases |keys| - k + |answers| - a
    ensures AllowedPath(RunFrom(m, keys, answers, k, a).visited)
  {
    match Step(m, keys, answers, k, a)
    case Exit =>
    case Halt(_, _) =>
    case Next(_, next, k', a') =>
      RunMovesAllowed(next, keys, answers, k', a');
      var v, rest := RunFrom(m, keys, answers, k, a).visited, RunFrom(next, keys, answers, k', a').visited;
      assert v == [m] + rest && CanMove(m, rest[0]) && AllowedPath(rest);
      forall i | 0 <= i < |v| - 1
        ensures CanMove(v[i], v[i + 1])
      {
        if i > 0 {
          assert v[i] == rest[i - 1] && v[i + 1] == rest[i];
        }
      }
  }

  /** The loop returns exactly when it has reached the quit state, and quit
      is only ever the last state of a run. */
  lemma {:induction false} ReturnsOnlyFromQuit(m: MenuState, keys: seq<char>, answers: seq<Answer>, k: nat, a: nat)
    requires k <= |keys| && a <= |answers|
    decreases |keys| - k + |answers| - a
    ensures var t := RunFrom(m, keys, answers, k, a);
      && (t.outcome == Returned <==> t.visited[|t.visited| - 1] == Quit)
      && forall i :: 0 <= i < |t.visited| - 1 ==> t.visited[i] != Quit
  {
    match Step(m, keys, answers, k, a)
    case Exit =>
    case Halt(_, _) =>
    case Next(_, next, k', a') =>
      ReturnsOnlyFromQuit(next, keys, answers, k', a');
  }

  /** The command returns only after the operator pressed 'q': a script
      without a 'q' key from position k on never ends the loop. */
  lemma {:induction false} ReturnNeedsQuitKey(m: MenuState, keys: seq<char>, answers: seq<Answer>, k: nat, a: nat)
    requires k <= |keys| && a <= |answers| && m != Quit
    decreases |keys| - k + |answers| - a
    ensures RunFrom(m, keys, answers, k, a).outcome == Returned ==> 'q' in keys[k..]
  {
    match Step(m, keys, answers, k, a)
    case Exit =>
    case Halt(_, _) =>
    case Next(_, next, k', a') =>
      if next == Quit {
        assert keys[k..][0] == 'q';
      } else {
        ReturnNeedsQuitKey(next, keys, answers, k', a');
        if RunFrom(m, keys, answers, k, a).outcome == Returned {
          var j :| 0 <= j < |keys[k'..]| && keys[k'..][j] == 'q';
          assert keys[k..][k' - k + j] == 'q';
        }
      }
  }

  /** The run from a position reads no answer before that position: two
      scripts that agree from there on give the same run. */
  lemma {:induction false} RunReadsAhead(m: MenuState, keys: seq<char>, answers: seq<Answer>, other: seq<Answer>, k: nat, a: nat)
    requires k <= |keys| && a <= |answers| && |other| == |answers|
    requires forall i :: a <= i < |answers| ==> other[i] == answers[i]
    decreases |keys| - k + |answers| - a
    ensures RunFrom(m, keys, answers, k, a) == RunFrom(m, keys, other, k, a)
  {
    assert Step(m, keys, answers, k, a) == Step(m, keys, other, k, a);
    match Step(m, keys, answers, k, a)
    case Exit =>
    case Halt(_, _) =>
    case Next(_, next, k', a') =>
      RunReadsAhead(next, keys, answers, other, k', a');
  }

  /** In the main menu 's' starts the test, 'q' quits, an interrupt key
      aborts the command, and any other key is reported as invalid input and
      leaves the menu where it was. */
  lemma MainMenuKeys(keys: seq<char>, answers: seq<Answer>, k: nat, a: nat)
    requires k < |keys| && a <= |answers|
    ensures keys[k] == 's' ==> Step(Main, keys, answers, k, a) == Next(MainMenuLines, Start, k + 1, a)
    ensures keys[k] == 'q' ==> Step(Main, keys, answers, k, a) == Next(MainMenuLines, Quit, k + 1, a)
    ensures InterruptKey(keys[k]) ==> Step(Main, keys, answers, k, a) == Halt(MainMenuLines, Aborted)
    ensures keys[k] != 's' && keys[k] != 'q' && !InterruptKey(keys[k]) ==>
      Step(Main, keys, answers, k, a) == Next(MainMenuLines + [InvalidInput], Main, k + 1, a)
  {
  }

  /** An interrupt at any prompt ends the run there: at the main-menu
      keypress after the menu lines, at "Is the RTU connected and powered?"
      after the header, at "Disconnect RTU power" after the checks and at
      "Reconnect RTU power" after the power-cycle lines. */
  lemma InterruptAborts(keys: seq<char>, answers: seq<Answer>, k: nat, a: nat)
    requires k <= |keys| && a <= |answers|
    ensures k < |keys| && InterruptKey(keys[k]) ==>
      RunFrom(Main, keys, answers, k, a) == Trace(MainMenuLines, [Main], Aborted)
    ensures a < |answers| && answers[a] == Interrupt ==>
      RunFrom(Start, keys, answers, k, a) == Trace([StartHeader], [Start], Aborted)
    ensures a + 1 < |answers| && answers[a] == Yes && answers[a + 1] == Interrupt ==>
      RunFrom(Start, keys, answers, k, a) == Trace([StartHeader] + ChecksLines, [Start], Aborted)
    ensures a + 2 < |answers| && answers[a] == Yes && answers[a + 1] != Interrupt && answers[a + 2] == Interrupt ==>
      RunFrom(Start, keys, answers, k, a) == Trace([StartHeader] + ChecksLines + PowerCycleLines, [Start], Aborted)
  {
  }

  /** A run is aborted only if the script holds an interrupt from its
      current positions on, among the keys or among the answers. */
  lemma {:induction false} AbortNeedsInterrupt(m: MenuState, keys: seq<char>, answers: seq<Answer>, k: nat, a: nat)
    requires k <= |keys| && a <= |answers|
    decreases |keys| - k + |answers| - a
    ensures RunFrom(m, keys, answers, k, a).outcome == Aborted ==>
      (exists j :: k <= j < |keys| && InterruptKey(keys[j]))
      || (exists j :: a <= j < |answers| && answers[j] == Interrupt)
  {
    match Step(m, keys, answers, k, a)
    case Exit =>
    case Halt(_, _) =>
    case Next(_, next, k', a') =>
      AbortNeedsInterrupt(next, keys, answers, k', a');
  }

  /** A negative answer to "Is the RTU connected and powered?" echoes the
      reminder and asks again. */
  lemma NegativeAnswerAsksAgain(keys: seq<char>, answers: seq<Answer>, k: nat, a: nat)
    requires k <= |keys| && a < |answers| && answers[a] == No
    ensures var rest := RunFrom(Start, keys, answers, k, a + 1);
      RunFrom(Start, keys, answers, k, a)
        == Trace([StartHeader, ConnectReminder] + rest.log, [Start] + rest.visited, rest.outcome)
  {
  }

  /** A positive answer echoes the whole test sequence and returns to the
      main menu, consuming the answers to the power-off and power-on
      confirmations as well, when neither of those is interrupted. */
  lemma PositiveAnswerReturnsToMain(keys: seq<char>, answers: seq<Answer>, k: nat, a: nat)
    requires k <= |keys| && a + 3 <= |answers| && answers[a] == Yes
    requires answers[a + 1] != Interrupt && answers[a + 2] != Interrupt
    ensures var rest := RunFrom(Main, keys, answers, k, a + 3);
      RunFrom(Start, keys, answers, k, a)
        == Trace(TestPassLines() + rest.log, [Start] + rest.visited, rest.outcome)
  {
  }

  /** Whether the power-off and power-on confirmations are answered yes or
      no does not change the run. */
  lemma PowerConfirmationsIgnored(keys: seq<char>, answers: seq<Answer>, k: nat, a: nat, off: Answer, on: Answer)
    requires k <= |keys| && a + 3 <= |answers| && answers[a] == Yes
    requires answers[a + 1] != Interrupt && answers[a + 2] != Interrupt
    requires off != Interrupt && on != Interrupt
    ensures RunFrom(Start, keys, answers, k, a) == RunFrom(Start, keys, answers[a + 1 := off][a + 2 := on], k, a)
  {
    var other := answers[a + 1 := off][a + 2 := on];
    PositiveAnswerReturnsToMain(keys, answers, k, a);
    PositiveAnswerReturnsToMain(keys, other, k, a);
    RunReadsAhead(Main, keys, answers, other, k, a + 3);
  }

  /** One pass of the loop that continues, from state m0 at positions
      (k0, a0) to state m at (k, a): what is still to be echoed from the
      old state is the pass's echo followed by what is still to be echoed
      from the new state. */
  lemma PassAdvances(m0: MenuState, m: MenuState, keys: seq<char>, answers: seq<Answer>,
                     k0: nat, a0: nat, k: nat, a: nat, before: seq<string>, echoed: seq<string>)
    requires k0 <= |keys| && a0 <= |answers|
    requires Step(m0, keys, answers, k0, a0) == Next(echoed, m, k, a)
    ensures k <= |keys| && a <= |answers|
    ensures before + RunFrom(m0, keys, answers, k0, a0).log == (before + echoed) + RunFrom(m, keys, answers, k, a).log
    ensures RunFrom(m0, keys, answers, k0, a0).outcome == RunFrom(m, keys, answers, k, a).outcome
  {
    var rest := RunFrom(m, keys, answers, k, a).log;
    assert RunFrom(m0, keys, answers, k0, a0).log == echoed + rest;
    assert before + (echoed + rest) == (before + echoed) + rest;
  }

  /** The rtu_test command, as the loop it is. */
  method RtuTest(keys: seq<char>, answers: seq<Answer>) returns (log: seq<string>, outcome: Outcome)
    ensures log == Session(keys, answers).log
    ensures outcome == Session(keys, answers).outcome
  {
    log := [Banner];
    var menu := Main;
    var k, a := 0, 0;
    ghost var goal := Session(keys, answers);
    while true
      invariant k <= |keys| && a <= |answers|
      invariant goal.log == log + RunFrom(menu, keys, answers, k, a).log
      invariant goal.outcome == RunFrom(menu, keys, answers, k, a).outcome
      decreases |keys| - k + |answers| - a
    {
      ghost var before, m0, k0, a0 := log, menu, k, a;
      ghost var pass := Step(menu, keys, answers, k, a);
      if menu == Main {
        log := log + MainMenuLines;
        if k == |keys| {
          return log, InputExhausted;
        }
        var key := keys[k];
        k := k + 1;
        if key == '\U{3}' || key == '\U{4}' {
          return log, Aborted;  // getchar raises, click aborts
        } else if key == 's' {
          menu := Start;
        } else if key == 'q' {
          menu := Quit;
        } else {
          log := log + [InvalidInput];
        }
      } else if menu == Start {
        log := log + [StartHeader];
        if a == |answers| {
          return log, InputExhausted;
        }
        var reply := answers[a];
        a := a + 1;
        if reply == Interrupt {
          return log, Aborted;
        }
        var isConnected := reply == Yes;
        if !isConnected {
          log := log + [ConnectReminder];
        } else {
          log := log + ChecksLines;
          if a == |answers| {
            return log, InputExhausted;
          }
          if answers[a] == Interrupt {  // "Disconnect RTU power"
            return log, Aborted;
          }
          a := a + 1;
          log := log + PowerCycleLines;
          if a == |answers| {
            return log, InputExhausted;
          }
          if answers[a] == Interrupt {  // "Reconnect RTU power"
            return log, Aborted;
          }
          a := a + 1;
          log := log + VerifyLines;
          menu := Main;
        }
      } else {
        return log, Returned;
      }
      assert pass == Next(pass.echoed, menu, k, a);
      assert log == before + pass.echoed;
      PassAdvances(m0, menu, keys, answers, k0, a0, k, a, before, pass.echoed);
    }
  }
}
