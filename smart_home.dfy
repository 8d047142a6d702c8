/**
 * The smart-home remote control of `10_exercises/09_exercise.js`: device
 * commands with `execute`/`undo`, a thermostat command that remembers the
 * temperature it replaced, and a `RemoteControl` whose `history` is a stack.
 * What the devices write to the console is modelled as an `Event` returned
 * by the operation that writes it.
 */
module SmartHome {
  import opened Wrappers
  import Seqs

  /** A thermostat's `temp`: `Unset` is JavaScript's `undefined` before the first `setTemperature`. */
  datatype Temp = Unset | Degrees(celsius: int)

  /** One console line of a device, or the remote's warning. */
  datatype Event =
    | LightIsOn | LightIsOff
    | ThermostatSet(temp: Temp) | ThermostatReset
    | DoorLocked | DoorUnlocked
    | NothingToUndo

  /** The thermostat receiver: the only device with state. */
  class Thermostat {
    var temp: Temp

    /** `new Thermostat()`: no temperature yet. */
    constructor()
      ensures temp == Unset
    {
      temp := Unset;
    }

    /** `setTemperature(temp)`: stores the temperature and reports it. */
    method SetTemperature(temp: Temp) returns (e: Event)
      modifies this
      ensures this.temp == temp && e == ThermostatSet(temp)
    {
      this.temp := temp;
      e := ThermostatSet(temp);
    }

    /** `reset()`: only reports; `temp` keeps its value. */
    method Reset() returns (e: Event)
      ensures e == ThermostatReset
    {
      e := ThermostatReset;
    }
  }

  /** The concrete command classes. */
  datatype Kind = LightOn | LightOff | SetTemperature | LockDoor | UnlockDoor

  /** What `execute` of a light or door command makes its device report. */
  function DeviceEvent(kind: Kind): (e: Event)
    requires kind != SetTemperature
    ensures e.LightIsOn? || e.LightIsOff? || e.DoorLocked? || e.DoorUnlocked?
  {
    match kind
    case LightOn => LightIsOn
    case LightOff => LightIsOff
    case LockDoor => DoorLocked
    case UnlockDoor => DoorUnlocked
  }

  /** The opposite device operation: on and off, lock and unlock. */
  function Opposite(e: Event): Event {
    match e
    case LightIsOn => LightIsOff
    case LightIsOff => LightIsOn
    case DoorLocked => DoorUnlocked
    case DoorUnlocked => DoorLocked
    case _ => e
  }

  /** The command whose `execute` is another's `undo`. */
  function Counterpart(kind: Kind): Kind {
    match kind
    case LightOn => LightOff
    case LightOff => LightOn
    case LockDoor => UnlockDoor
    case UnlockDoor => LockDoor
    case SetTemperature => SetTemperature
  }

  /**
   * Each light and door command undoes by running the opposite device
   * operation, which is what its counterpart command executes; undoing
   * twice over returns to the original operation.
   */
  lemma DeviceUndoIsOpposite(kind: Kind)
    requires kind != SetTemperature
    ensures Opposite(DeviceEvent(kind)) == DeviceEvent(Counterpart(kind)) != DeviceEvent(kind)
    ensures Opposite(Opposite(DeviceEvent(kind))) == DeviceEvent(kind)
    ensures Counterpart(Counterpart(kind)) == kind
  {
  }

  /**
   * A command object. `thermostat`, `temp` and `prevTemp` belong to
   * `SetTemperatureCommand`; the light and door receivers have no state, so
   * their commands need no reference to them.
   */
  class Command {
    const kind: Kind
    const thermostat: Thermostat?
    const temp: Temp
    var prevTemp: Option<Temp>

    /** Exactly the thermostat command has a thermostat. */
    predicate Valid() {
      kind == SetTemperature <==> thermostat != null
    }

    /** `new LightOnCommand(light)`. */
    constructor LightOnCommand()
      ensures kind == LightOn && Valid() && prevTemp == None
    {
      kind, thermostat, temp, prevTemp := LightOn, null, Unset, None;
    }

    /** `new LightOffCommand(light)`. */
    constructor LightOffCommand()
      ensures kind == LightOff && Valid() && prevTemp == None
    {
      kind, thermostat, temp, prevTemp := LightOff, null, Unset, None;
    }

    /** `new LockDoorCommand(door)`. */
    constructor LockDoorCommand()
      ensures kind == LockDoor && Valid() && prevTemp == None
    {
      kind, thermostat, temp, prevTemp := LockDoor, null, Unset, None;
    }

    /** `new UnlockDoorCommand(door)`. */
    constructor UnlockDoorCommand()
      ensures kind == UnlockDoor && Valid() && prevTemp == None
    {
      kind, thermostat, temp, prevTemp := UnlockDoor, null, Unset, None;
    }

    /** `new SetTemperatureCommand(thermostat, temp)`: `prevTemp` starts as `null`. */
    constructor SetTemperatureCommand(thermostat: Thermostat, temp: Temp)
      ensures kind == SetTemperature && Valid()
      ensures this.thermostat == thermostat && this.temp == temp && prevTemp == None
    {
      kind, this.thermostat, this.temp, prevTemp := SetTemperature, thermostat, temp, None;
    }

    /** What `execute` reports. */
    function ExecuteEvent(): Event
      requires Valid()
    {
      if kind == SetTemperature then ThermostatSet(temp) else DeviceEvent(kind)
    }

    /** What `undo` reports: a recorded temperature is set again; `null` means `reset`. */
    function UndoEvent(): Event
      requires Valid()
      reads this
    {
      if kind != SetTemperature then Opposite(DeviceEvent(kind))
      else if prevTemp.Some? then ThermostatSet(prevTemp.value)
      else ThermostatReset
    }

    /**
     * `execute()`. The thermostat command first records the thermostat's
     * current `temp` in `prevTemp`, `undefined` included, then sets the
     * target; the other commands only drive their device.
     */
    method Execute() returns (e: Event)
      requires Valid()
      modifies this, thermostat
      ensures e == ExecuteEvent()
      ensures kind == SetTemperature ==>
        prevTemp == Some(old(thermostat.temp)) && thermostat.temp == temp
      ensures kind != SetTemperature ==> prevTemp == old(prevTemp)
    {
      if kind == SetTemperature {
        prevTemp := Some(thermostat.temp);
        e := thermostat.SetTemperature(temp);
      } else {
        e := DeviceEvent(kind);
      }
    }

    /**
     * `undo()`. The thermostat command sets the recorded temperature back
     * whenever one was recorded, even `undefined`, which only `null` tells
     * apart; before any `execute` it calls `reset` and `temp` stays.
     * `prevTemp` itself is kept.
     */
    method Undo() returns (e: Event)
      requires Valid()
      modifies thermostat
      ensures e == UndoEvent()
      ensures kind == SetTemperature && prevTemp.Some? ==> thermostat.temp == prevTemp.value
      ensures kind == SetTemperature && prevTemp == None ==> thermostat.temp == old(thermostat.temp)
    {
      if kind != SetTemperature {
        e := Opposite(DeviceEvent(kind));
      } else if prevTemp.Some? {
        e := thermostat.SetTemperature(prevTemp.value);
      } else {
        e := thermostat.Reset();
      }
    }
  }

  /** `history.pop()`: the last element, or `undefined` on an empty array, and what remains. */
  function Pop<T>(history: seq<T>): (r: (Option<T>, seq<T>))
    ensures history == [] ==> r == (None, [])
    ensures history != [] ==> r.0.Some? && history == r.1 + [r.0.value]
  {
    if history == [] then (None, []) else (Some(history[|history| - 1]), history[..|history| - 1])
  }

  /** `n` pops in a row: what they return, in the order they return it, and what remains. */
  function PopTimes<T>(history: seq<T>, n: nat): (seq<T>, seq<T>) {
    if n == 0 then ([], history)
    else
      var (top, rest) := Pop(history);
      var (later, left) := PopTimes(rest, n - 1);
      ((if top.Some? then [top.value] else []) + later, left)
  }

  /**
   * Last in, first out: after pushing `commands` on a history, as many pops
   * return them in reverse order and leave the earlier history as it was.
   */
  lemma {:induction false} LastInFirstOut<T>(history: seq<T>, commands: seq<T>)
    ensures PopTimes(history + commands, |commands|) == (Seqs.Reverse(commands), history)
  {
    if commands != [] {
      var n := |commands| - 1;
      var init, last := commands[..n], commands[n];
      assert commands == init + [last];
      assert history + commands == (history + init) + [last];
      assert Pop(history + commands) == (Some(last), history + init);
      LastInFirstOut(history, init);
      assert PopTimes(history + commands, |commands|) == ([last] + Seqs.Reverse(init), history);
      Seqs.ReverseAppend(init, [last]);
      assert Seqs.Reverse([last]) == [last];
      assert Seqs.Reverse(commands) == [last] + Seqs.Reverse(init);
    } else {
      assert history + commands == history;
    }
  }

  /** The invoker. */
  class RemoteControl {
    var history: seq<Command>

    /** Every command in the history is well formed. */
    ghost predicate Valid()
      reads this
    {
      forall c :: c in history ==> c.Valid()
    }

    /** `new RemoteControl()`: an empty history. */
    constructor()
      ensures history == [] && Valid()
    {
      history := [];
    }

    /** `executeCommand(command)`: runs `command.execute()`, then pushes the command. */
    method ExecuteCommand(command: Command) returns (e: Event)
      requires Valid() && command.Valid()
      modifies this, command, command.thermostat
      ensures Valid()
      ensures history == old(history) + [command]
      ensures e == command.ExecuteEvent()
      ensures command.kind == SetTemperature ==>
        command.prevTemp == Some(old(command.thermostat.temp)) && command.thermostat.temp == command.temp
    {
      e := command.Execute();
      history := history + [command];
    }

    /**
     * `undo()`: pops the most recent command and runs its `undo`; on an
     * empty history nothing runs, the history stays empty and the remote
     * warns that there is nothing to undo.
     */
    method Undo() returns (undone: Option<Command>, e: Event)
      requires Valid()
      modifies this, if history == [] then {} else {history[|history| - 1].thermostat}
      ensures Valid()
      ensures (undone, history) == Pop(old(history))
      ensures undone == None ==> e == NothingToUndo
      ensures undone.Some? ==> e == undone.value.UndoEvent()
      ensures undone.Some? && undone.value.kind == SetTemperature && undone.value.prevTemp.Some? ==>
        undone.value.thermostat.temp == undone.value.prevTemp.value
    {
      if history == [] {
        return None, NothingToUndo;
      }
      var command := history[|history| - 1];
      history := history[..|history| - 1];
      e := command.Undo();
      undone := Some(command);
    }
  }

  /**
   * `SetTemperatureCommand` undone right after it executed puts the
   * thermostat back to the temperature it had, `undefined` included.
   */
  method SetTemperatureUndoRestores(thermostat: Thermostat, temp: Temp) returns (command: Command)
    modifies thermostat
    ensures thermostat.temp == old(thermostat.temp)
    ensures command.prevTemp == Some(old(thermostat.temp))
  {
    command := new Command.SetTemperatureCommand(thermostat, temp);
    var e := command.Execute();
    e := command.Undo();
  }

  /**
   * The client code up to its first `undo`: the light goes on, the
   * thermostat goes to 22, the door locks, then the undo unlocks the door
   * and the two earlier commands stay in the history.
   */
  method ClientCode() returns (events: seq<Event>, remaining: nat, temp: Temp)
    ensures events == [LightIsOn, ThermostatSet(Degrees(22)), DoorLocked, DoorUnlocked]
    ensures remaining == 2 && temp == Degrees(22)
  {
    var thermostat := new Thermostat();
    var remote := new RemoteControl();
    var light := new Command.LightOnCommand();
    var setting := new Command.SetTemperatureCommand(thermostat, Degrees(22));
    var lock := new Command.LockDoorCommand();
    var e1 := remote.ExecuteCommand(light);
    var e2 := remote.ExecuteCommand(setting);
    var e3 := remote.ExecuteCommand(lock);
    var undone, e4 := remote.Undo();
    events := [e1, e2, e3, e4];
    remaining := |remote.history|;
    temp := thermostat.temp;
  }
}
