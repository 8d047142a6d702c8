/**
 * The singleton logger of `10_exercises/02_exercise.js`. The static property
 * `Logger.instance` is a field of the `LoggerClass` object, and `new
 * Logger()` is its `New` method: the first call creates and records the
 * instance, every later call returns it. The timestamp `new
 * Date().toISOString()` is a parameter of `Log`.
 */
module SingletonLogger {
  import Strings

  /** `` `[${timestamp}] ${message}` ``: the timestamp and the message can both be read back. */
  function Entry(timestamp: string, message: string): (entry: string)
    ensures |entry| == |timestamp| + |message| + 3
    ensures entry[0] == '[' && entry[1..|timestamp| + 1] == timestamp
    ensures entry[|timestamp| + 1..|timestamp| + 3] == "] "
    ensures entry[|timestamp| + 3..] == message
  {
    var entry := "[" + timestamp + "] " + message;
    assert entry[1..|timestamp| + 1] == timestamp;
    assert entry[|timestamp| + 1..|timestamp| + 3] == "] ";
    assert entry[|timestamp| + 3..] == message;
    entry
  }

  /** Entries with the same timestamp length are equal only for equal timestamps and messages. */
  lemma EntryInjective(t1: string, m1: string, t2: string, m2: string)
    requires |t1| == |t2| && Entry(t1, m1) == Entry(t2, m2)
    ensures t1 == t2 && m1 == m2
  {
    var e := Entry(t1, m1);
    assert t1 == e[1..|t1| + 1] == t2;
    assert m1 == e[|t1| + 3..] == m2;
  }

  /** A logger instance and its log history. */
  class Logger {
    var logs: seq<string>

    /** The body of the constructor on its first run: empty logs. */
    constructor()
      ensures logs == []
    {
      logs := [];
    }

    /** `log(message)`: appends exactly one entry and logs it to the console. */
    method Log(timestamp: string, message: string) returns (line: string)
      modifies this
      ensures logs == old(logs) + [Entry(timestamp, message)]
      ensures line == Entry(timestamp, message)
    {
      line := Entry(timestamp, message);
      logs := logs + [line];
    }

    /** `getLogs()`: every entry, in the order logged. */
    method GetLogs() returns (r: seq<string>)
      ensures r == logs
    {
      r := logs;
    }
  }

  /** The `Logger` class itself, holding the static `Logger.instance`. */
  class LoggerClass {
    var instance: Logger?

    /** Before any `new Logger()`, there is no instance. */
    constructor()
      ensures instance == null
    {
      instance := null;
    }

    /** `new Logger()`: the first call records a fresh, empty logger; later calls return it with its logs as they are. */
    method New() returns (logger: Logger)
      modifies this
      ensures old(instance) == null ==> fresh(logger) && logger.logs == []
      ensures old(instance) != null ==> logger == old(instance)
      ensures instance == logger
    {
      if instance != null {
        return instance;
      }
      logger := new Logger();
      instance := logger;
    }
  }

  /**
   * The example usage: both `new Logger()` calls give the same instance,
   * which holds both entries in call order, whichever alias logged them.
   */
  method ExampleUsage(t1: string, t2: string) returns (same: bool, logs: seq<string>)
    ensures same
    ensures logs == [Entry(t1, "User logged in."), Entry(t2, "User clicked a button.")]
  {
    var loggerClass := new LoggerClass();
    var logger1 := loggerClass.New();
    var logger2 := loggerClass.New();
    var _ := logger1.Log(t1, "User logged in.");
    var _ := logger2.Log(t2, "User clicked a button.");
    same := logger1 == logger2;
    logs := logger1.GetLogs();
  }

  /** The console line `"Logger1 === Logger2 ?" true`. */
  function SameLine(same: bool): (line: string)
    ensures Strings.StartsWith(line, "Logger1 === Logger2 ? ")
  {
    var line := "Logger1 === Logger2 ? " + (if same then "true" else "false");
    assert line[..|"Logger1 === Logger2 ? "|] == "Logger1 === Logger2 ? ";
    line
  }
}
