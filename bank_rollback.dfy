/**
 * The transaction of `09_command/problem.js`: each command names its action
 * function, account and amount; `executeTransaction` runs the actions in
 * order and, when one throws, rolls every command back in reverse order by
 * reversing the caller's array in place, then rethrows. Console lines are
 * returned as a log. An action other than `deductFunds` and `creditFunds`
 * is an unknown function: whether it throws, and with which message, is the
 * parameter `throws`.
 */
module BankRollback {
  import opened Wrappers
  import Seqs

  /** The function in a command's `action` field, compared by identity. */
  datatype Action = DeductFunds | CreditFunds | Other(id: nat)

  /** `{ action, account, amount }`. */
  datatype Command = Command(action: Action, account: string, amount: int)

  /** The console lines of the transaction. */
  datatype Line =
    | StartingTransaction
    | Deducting(amount: int, account: string)
    | Crediting(amount: int, account: string)
    | CommittedSuccessfully
    | FailedRollingBack
    | UndoingDeduction(amount: int, account: string)
    | UndoingCredit(amount: int, account: string)
    | RolledBack

  /** The outcome of one unknown action: `Some(message)` when it throws. */
  type Thrower = nat -> Option<string>

  /** `command.action(command)`: the lines it prints and the error it throws, if any. */
  function RunAction(command: Command, throws: Thrower): (r: (seq<Line>, Option<string>))
    ensures !command.action.Other? ==> r.1 == None && |r.0| == 1
  {
    match command.action
    case DeductFunds => ([Deducting(command.amount, command.account)], None)
    case CreditFunds => ([Crediting(command.amount, command.account)], None)
    case Other(id) => ([], throws(id))
  }

  /** Whether the action of `command` throws. */
  predicate Throws(command: Command, throws: Thrower) {
    RunAction(command, throws).1.Some?
  }

  /**
   * `commands.forEach((command) => command.action(command))`: the lines of
   * the actions run, in array order, up to and including the first that
   * throws, and that action's error.
   */
  function RunActions(commands: seq<Command>, throws: Thrower): (seq<Line>, Option<string>) {
    if commands == [] then ([], None)
    else
      var (lines, error) := RunAction(commands[0], throws);
      if error.Some? then (lines, error)
      else
        var (later, laterError) := RunActions(commands[1..], throws);
        (lines + later, laterError)
  }

  /** Without a throwing action every action runs and the transaction commits. */
  lemma {:induction false} AllActionsRun(commands: seq<Command>, throws: Thrower)
    ensures (forall j :: 0 <= j < |commands| ==> !Throws(commands[j], throws)) <==>
      RunActions(commands, throws).1 == None
  {
    if commands != [] {
      AllActionsRun(commands[1..], throws);
      if !Throws(commands[0], throws) {
        forall j | 0 < j < |commands|
          ensures commands[j] == commands[1..][j - 1]
        {
        }
      }
    }
  }

  /**
   * When the action at `k` is the first to throw, the actions before it
   * run, it runs and throws, and the ones after it never run.
   */
  lemma {:induction false} LaterActionsNotRun(commands: seq<Command>, throws: Thrower, k: nat)
    requires k < |commands| && Throws(commands[k], throws)
    requires forall j :: 0 <= j < k ==> !Throws(commands[j], throws)
    ensures RunActions(commands[..k], throws).1 == None
    ensures RunActions(commands, throws) ==
      (RunActions(commands[..k], throws).0 + RunAction(commands[k], throws).0, RunAction(commands[k], throws).1)
  {
    var (lines, error) := RunAction(commands[k], throws);
    if k == 0 {
      assert RunActions(commands[..k], throws) == ([], None);
      assert RunActions(commands, throws) == (lines, error);
      assert [] + lines == lines;
    } else {
      assert commands[1..][..k - 1] == commands[..k][1..];
      LaterActionsNotRun(commands[1..], throws, k - 1);
      var first := RunAction(commands[0], throws).0;
      var before := RunActions(commands[1..][..k - 1], throws).0;
      assert RunActions(commands[..k], throws) == (first + before, None);
      assert RunActions(commands, throws) == (first + (before + lines), error);
      assert first + (before + lines) == (first + before) + lines;
    }
  }

  /**
   * `undoCommand(command)`: dispatches on the identity of the action; an
   * action that is neither `deductFunds` nor `creditFunds` is not undone.
   */
  function UndoCommand(command: Command): (lines: seq<Line>)
    ensures command.action.Other? <==> lines == []
  {
    match command.action
    case DeductFunds => [UndoingDeduction(command.amount, command.account)]
    case CreditFunds => [UndoingCredit(command.amount, command.account)]
    case Other(_) => []
  }

  /** The undo line of an action line: the same amount on the same account. */
  function UndoLine(line: Line): Line {
    match line
    case Deducting(amount, account) => UndoingDeduction(amount, account)
    case Crediting(amount, account) => UndoingCredit(amount, account)
    case _ => line
  }

  /** Undoing a known command reverses exactly the operation its action printed. */
  lemma UndoMatchesAction(command: Command, throws: Thrower)
    requires !command.action.Other?
    ensures UndoCommand(command) == [UndoLine(RunAction(command, throws).0[0])]
  {
  }

  /** The undo lines of `commands`, visited in array order. */
  function UndoLines(commands: seq<Command>): seq<Line> {
    if commands == [] then [] else UndoLines(commands[..|commands| - 1]) + UndoCommand(commands[|commands| - 1])
  }

  /** Undoing one list after another prints the two lists' undo lines one after the other. */
  lemma {:induction false} UndoLinesAppend(a: seq<Command>, b: seq<Command>)
    ensures UndoLines(a + b) == UndoLines(a) + UndoLines(b)
    decreases |b|
  {
    if b == [] {
      assert a + b == a;
    } else {
      var n := |b| - 1;
      assert (a + b)[..|a + b| - 1] == a + b[..n];
      UndoLinesAppend(a, b[..n]);
    }
  }

  /**
   * Rolling back what ran as `first` then `second` undoes `second` before
   * `first`: the system steps back through the transaction in reverse.
   */
  lemma RollbackReversesOrder(first: seq<Command>, second: seq<Command>)
    ensures UndoLines(Seqs.Reverse(first + second)) ==
      UndoLines(Seqs.Reverse(second)) + UndoLines(Seqs.Reverse(first))
  {
    Seqs.ReverseAppend(first, second);
    UndoLinesAppend(Seqs.Reverse(second), Seqs.Reverse(first));
  }

  /** `commands.reverse()`: reverses the array in place. */
  method ReverseInPlace(commands: array<Command>)
    modifies commands
    ensures commands[..] == Seqs.Reverse(old(commands[..]))
  {
    var n := commands.Length;
    var i := 0;
    while i < n / 2
      invariant 0 <= i <= n / 2
      invariant SwappedEnds(commands[..], old(commands[..]), i)
    {
      ghost var before := commands[..];
      commands[i], commands[n - 1 - i] := commands[n - 1 - i], commands[i];
      assert commands[..] == before[i := before[n - 1 - i]][n - 1 - i := before[i]];
      SwapEnds(before, old(commands[..]), i);
      i := i + 1;
    }
    SwappedAll(commands[..], old(commands[..]));
  }

  /** The first and last `i` positions of `s` hold those of `orig` exchanged, and the middle is untouched. */
  ghost predicate SwappedEnds(s: seq<Command>, orig: seq<Command>, i: nat) {
    var n := |s|;
    n == |orig| && i <= n / 2 &&
    (forall k :: 0 <= k < i ==> s[k] == orig[n - 1 - k] && s[n - 1 - k] == orig[k]) &&
    (forall k :: i <= k < n - i ==> s[k] == orig[k])
  }

  /** Exchanging the next pair of positions extends the exchanged ends by one. */
  lemma SwapEnds(s: seq<Command>, orig: seq<Command>, i: nat)
    requires SwappedEnds(s, orig, i) && i < |s| / 2
    ensures SwappedEnds(s[i := s[|s| - 1 - i]][|s| - 1 - i := s[i]], orig, i + 1)
  {
  }

  /** With all ends exchanged, the sequence is the reverse. */
  lemma SwappedAll(s: seq<Command>, orig: seq<Command>)
    requires SwappedEnds(s, orig, |s| / 2)
    ensures s == Seqs.Reverse(orig)
  {
    var n := |s|;
    forall k | 0 <= k < n
      ensures s[k] == orig[n - 1 - k]
    {
      if n / 2 <= k < n - n / 2 {
        assert k == n - 1 - k;
      } else if k >= n - n / 2 {
        assert s[n - 1 - (n - 1 - k)] == orig[n - 1 - k];
      }
    }
  }

  /**
   * `rollbackTransaction(commands)`: reverses the caller's array in place,
   * undoes every command in the new order, whether or not its action ran,
   * and reports the rollback.
   */
  method RollbackTransaction(commands: array<Command>) returns (log: seq<Line>)
    modifies commands
    ensures commands[..] == Seqs.Reverse(old(commands[..]))
    ensures log == UndoLines(commands[..]) + [RolledBack]
  {
    ReverseInPlace(commands);
    log := [];
    var i := 0;
    while i < commands.Length
      invariant 0 <= i <= commands.Length
      invariant log == UndoLines(commands[..i])
    {
      assert commands[..i + 1][..i] == commands[..i];
      log := log + UndoCommand(commands[i]);
      i := i + 1;
    }
    assert commands[..i] == commands[..];
    log := log + [RolledBack];
  }

  /**
   * `executeTransaction(commands)`. When no action throws, the transaction
   * commits and the array is left alone. When one throws, the later ones do
   * not run, every command is undone in reverse order, the caller's array is
   * left reversed, and the error is rethrown.
   */
  method ExecuteTransaction(commands: array<Command>, throws: Thrower) returns (log: seq<Line>, outcome: Result<()>)
    modifies commands
    ensures var (ran, error) := RunActions(old(commands[..]), throws);
      if error == None then
        log == [StartingTransaction] + ran + [CommittedSuccessfully] &&
        outcome == Ok(()) && commands[..] == old(commands[..])
      else
        log == [StartingTransaction] + ran + [FailedRollingBack] +
          UndoLines(Seqs.Reverse(old(commands[..]))) + [RolledBack] &&
        outcome == Err(error.value) && commands[..] == Seqs.Reverse(old(commands[..]))
  {
    ghost var all := commands[..];
    var ran: seq<Line> := [];
    var error: Option<string> := None;
    var i := 0;
    assert all[i..] == all && ran + RunActions(all, throws).0 == RunActions(all, throws).0;
    while i < commands.Length && error == None
      invariant 0 <= i <= commands.Length && commands[..] == all
      invariant error == None ==>
        RunActions(all, throws) == (ran + RunActions(all[i..], throws).0, RunActions(all[i..], throws).1)
      invariant error.Some? ==> RunActions(all, throws) == (ran, error)
    {
      assert all[i..][1..] == all[i + 1..];
      var (lines, thrown) := RunAction(commands[i], throws);
      if thrown == None {
        var later := RunActions(all[i + 1..], throws).0;
        assert RunActions(all[i..], throws).0 == lines + later;
        assert ran + (lines + later) == (ran + lines) + later;
      }
      ran, error := ran + lines, thrown;
      i := i + 1;
    }
    if error == None {
      assert all[i..] == [] && ran + [] == ran;
      return [StartingTransaction] + ran + [CommittedSuccessfully], Ok(());
    }
    var undone := RollbackTransaction(commands);
    log := [StartingTransaction] + ran + [FailedRollingBack] + undone;
    outcome := Err(error.value);
  }

  /** The example usage: a deduction and a credit of 100 that both succeed and commit. */
  method ExampleUsage(throws: Thrower) returns (log: seq<Line>, outcome: Result<()>)
    ensures outcome == Ok(())
    ensures log == [StartingTransaction, Deducting(100, "12345"), Crediting(100, "67890"), CommittedSuccessfully]
  {
    var deduct, credit := Command(DeductFunds, "12345", 100), Command(CreditFunds, "67890", 100);
    var commands := new Command[2];
    commands[0], commands[1] := deduct, credit;
    assert commands[..] == [deduct, credit] && [deduct, credit][1..] == [credit] && [credit][1..] == [];
    assert RunAction(credit, throws) == ([Crediting(100, "67890")], None);
    assert RunActions([], throws) == ([], None);
    assert [Crediting(100, "67890")] + [] == [Crediting(100, "67890")];
    assert RunActions([credit], throws) == ([Crediting(100, "67890")], None);
    log, outcome := ExecuteTransaction(commands, throws);
  }
}
