/**
 * The closure-based transaction manager of `09_command/solution2.js`. A
 * command is the pair of its `execute` and `undo` closures; each closure
 * either prints one console line or throws. The manager keeps the commands
 * in insertion order; running or rolling back a transaction never changes
 * that list.
 */
module TransactionManager {
  import opened Wrappers
  import Seqs

  /** The console lines of the manager and of the fund commands. */
  datatype Line =
    | StartingTransaction
    | Crediting(amount: int, account: string)
    | UndoingCredit(amount: int, account: string)
    | Deducting(amount: int, account: string)
    | UndoingDeduction(amount: int, account: string)
    | CommittedSuccessfully
    | FailedRollingBack
    | RolledBack

  /** What a closure does when called: prints a line, or throws an error. */
  datatype Step = Print(line: Line) | Throw(message: string)

  /** `createCommand(execute, undo)`: the object `{ execute, undo }`. */
  datatype Command = Command(execute: Step, undo: Step)

  /** `createCreditFundsCommand(account, amount)`. */
  function CreateCreditFundsCommand(account: string, amount: int): Command {
    Command(Print(Crediting(amount, account)), Print(UndoingCredit(amount, account)))
  }

  /** `createDeductFundsCommand(account, amount)`. */
  function CreateDeductFundsCommand(account: string, amount: int): Command {
    Command(Print(Deducting(amount, account)), Print(UndoingDeduction(amount, account)))
  }

  /** The undo line paired with an operation line. */
  function UndoLine(line: Line): Line {
    match line
    case Crediting(amount, account) => UndoingCredit(amount, account)
    case Deducting(amount, account) => UndoingDeduction(amount, account)
    case _ => line
  }

  /**
   * The fund commands never throw, and each undo prints the counterpart of
   * what its execute printed, for the same amount and account.
   */
  lemma FundCommandsPair(account: string, amount: int)
    ensures var c := CreateCreditFundsCommand(account, amount);
      c.execute.Print? && c.undo == Print(UndoLine(c.execute.line)) && c.undo != c.execute
    ensures var c := CreateDeductFundsCommand(account, amount);
      c.execute.Print? && c.undo == Print(UndoLine(c.execute.line)) && c.undo != c.execute
  {
  }

  /** The `execute` closures, in order. */
  function Executes(commands: seq<Command>): (steps: seq<Step>)
    ensures |steps| == |commands|
    ensures forall i :: 0 <= i < |commands| ==> steps[i] == commands[i].execute
  {
    if commands == [] then [] else [commands[0].execute] + Executes(commands[1..])
  }

  /** The `undo` closures, in order. */
  function Undos(commands: seq<Command>): (steps: seq<Step>)
    ensures |steps| == |commands|
    ensures forall i :: 0 <= i < |commands| ==> steps[i] == commands[i].undo
  {
    if commands == [] then [] else [commands[0].undo] + Undos(commands[1..])
  }

  /**
   * A `forEach` over closures: the lines printed by the calls made, in
   * order, up to and including the first that throws, and its error.
   */
  function RunSteps(steps: seq<Step>): (seq<Line>, Option<string>) {
    if steps == [] then ([], None)
    else if steps[0].Throw? then ([], Some(steps[0].message))
    else
      var (later, error) := RunSteps(steps[1..]);
      ([steps[0].line] + later, error)
  }

  /** A run prints one line per call that returned, and fails exactly when some step throws. */
  lemma {:induction false} RunStepsPrints(steps: seq<Step>)
    ensures RunSteps(steps).1 == None <==> forall i :: 0 <= i < |steps| ==> steps[i].Print?
    ensures RunSteps(steps).1 == None ==> |RunSteps(steps).0| == |steps|
    ensures RunSteps(steps).1 != None ==> |RunSteps(steps).0| < |steps|
  {
    if steps != [] && steps[0].Print? {
      RunStepsPrints(steps[1..]);
      assert forall i :: 0 < i < |steps| ==> steps[i] == steps[1..][i - 1];
    }
  }

  /** When step `k` is the first to throw, the steps before it print their lines and the later ones never run. */
  lemma {:induction false} RunStepsStops(steps: seq<Step>, k: nat)
    requires k < |steps| && steps[k].Throw?
    requires forall j :: 0 <= j < k ==> steps[j].Print?
    ensures RunSteps(steps) == (RunSteps(steps[..k]).0, Some(steps[k].message))
  {
    if k > 0 {
      assert steps[1..][..k - 1] == steps[..k][1..];
      RunStepsStops(steps[1..], k - 1);
    }
  }

  /** The undo closures of a reversed concatenation: the second part's come first. */
  lemma UndosReversed(first: seq<Command>, second: seq<Command>)
    ensures Undos(Seqs.Reverse(first + second)) == Undos(Seqs.Reverse(second)) + Undos(Seqs.Reverse(first))
  {
    Seqs.ReverseAppend(first, second);
    UndosAppend(Seqs.Reverse(second), Seqs.Reverse(first));
  }

  /** The undo closures of a concatenation are those of its parts. */
  lemma UndosAppend(a: seq<Command>, b: seq<Command>)
    ensures Undos(a + b) == Undos(a) + Undos(b)
  {
    var u, v := Undos(a + b), Undos(a) + Undos(b);
    assert |u| == |v|;
    forall i | 0 <= i < |u|
      ensures u[i] == v[i]
    {
      assert u[i] == (a + b)[i].undo;
      if i < |a| {
        assert v[i] == Undos(a)[i];
      } else {
        assert v[i] == Undos(b)[i - |a|];
      }
    }
  }

  /** The log of a rollback: the undo lines, then the report unless an undo threw. */
  function RollbackOf(commands: seq<Command>): (seq<Line>, Option<string>) {
    var (undone, error) := RunSteps(Undos(Seqs.Reverse(commands)));
    (undone + (if error == None then [RolledBack] else []), error)
  }

  /** The object returned by `createTransactionManager()`, with its closure-held `commands`. */
  class Manager {
    var commands: seq<Command>

    /** `createTransactionManager()`: no commands yet. */
    constructor()
      ensures commands == []
    {
      commands := [];
    }

    /** `addCommand(command)`: appends to the list. */
    method AddCommand(command: Command)
      modifies this
      ensures commands == old(commands) + [command]
    {
      commands := commands + [command];
    }

    /** Calls each closure of `steps` in order until one throws. */
    method Run(steps: seq<Step>) returns (lines: seq<Line>, error: Option<string>)
      ensures (lines, error) == RunSteps(steps)
    {
      lines, error := [], None;
      var i := 0;
      assert steps[i..] == steps && lines + RunSteps(steps).0 == RunSteps(steps).0;
      while i < |steps| && error == None
        invariant 0 <= i <= |steps|
        invariant error == None ==> RunSteps(steps) == (lines + RunSteps(steps[i..]).0, RunSteps(steps[i..]).1)
        invariant error.Some? ==> RunSteps(steps) == (lines, error)
      {
        assert steps[i..][1..] == steps[i + 1..];
        match steps[i] {
          case Print(line) =>
            assert lines + RunSteps(steps[i..]).0 == (lines + [line]) + RunSteps(steps[i + 1..]).0;
            lines := lines + [line];
          case Throw(message) =>
            assert lines + RunSteps(steps[i..]).0 == lines;
            error := Some(message);
        }
        i := i + 1;
      }
      if error == None {
        assert steps[i..] == [] && lines + [] == lines;
      }
    }

    /**
     * `rollbackTransaction()`: calls every `undo` on a reversed copy of the
     * list, so the list itself is unchanged; an `undo` that throws stops the
     * rollback and its error escapes.
     */
    method RollbackTransaction() returns (log: seq<Line>, outcome: Result<()>)
      ensures var (lines, error) := RollbackOf(commands);
        log == lines && outcome == (if error == None then Ok(()) else Err(error.value))
    {
      var copy := Seqs.Reverse(commands);
      var undone, error := Run(Undos(copy));
      if error == None {
        return undone + [RolledBack], Ok(());
      }
      return undone, Err(error.value);
    }

    /**
     * `executeTransaction()`: calls each `execute` in insertion order.
     * When all return it commits; when one throws, the later ones do not
     * run, every command is rolled back in reverse insertion order and the
     * error is rethrown, unless the rollback threw first. The list is not
     * cleared, so a second call runs every command again.
     */
    method ExecuteTransaction() returns (log: seq<Line>, outcome: Result<()>)
      ensures var (ran, error) := RunSteps(Executes(commands));
        if error == None then
          log == [StartingTransaction] + ran + [CommittedSuccessfully] && outcome == Ok(())
        else
          var (undone, undoError) := RollbackOf(commands);
          log == [StartingTransaction] + ran + [FailedRollingBack] + undone &&
          outcome == Err(if undoError == None then error.value else undoError.value)
    {
      var ran, error := Run(Executes(commands));
      if error == None {
        return [StartingTransaction] + ran + [CommittedSuccessfully], Ok(());
      }
      var undone, rollback := RollbackTransaction();
      log := [StartingTransaction] + ran + [FailedRollingBack] + undone;
      outcome := if rollback.Ok? then Err(error.value) else rollback;
    }
  }

  /** The client code: a credit of 100 and a deduction of 200, both executed, and the transaction commits. */
  method ClientCode() returns (log: seq<Line>, outcome: Result<()>)
    ensures outcome == Ok(())
    ensures log == [StartingTransaction, Crediting(100, "1234"), Deducting(200, "4321"), CommittedSuccessfully]
  {
    var manager := new Manager();
    var credit, deduct := CreateCreditFundsCommand("1234", 100), CreateDeductFundsCommand("4321", 200);
    manager.AddCommand(credit);
    manager.AddCommand(deduct);
    assert manager.commands == [credit, deduct];
    var steps := [credit.execute, deduct.execute];
    assert Executes(manager.commands) == steps;
    assert steps[1..][1..] == [] && RunSteps([]) == ([], None);
    assert [Deducting(200, "4321")] + [] == [Deducting(200, "4321")];
    assert RunSteps(steps[1..]) == ([Deducting(200, "4321")], None);
    log, outcome := manager.ExecuteTransaction();
  }
}
