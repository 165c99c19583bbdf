/** The Command pattern with undo history: concrete device commands, macro
    commands, and a remote control whose slots hold optional on/off commands
    and whose history is a last-in-first-out stack of executed commands.

    The devices (light, air conditioner, TV) keep no state of their own; all
    they do is report that they were switched. Their console lines are
    abstracted to `Switched(device, position)` events, and the remote
    control's two notices to `NoCommandNotice` and `NothingToUndoNotice`. */
module RemoteCommands {

  datatype Option<T> = None | Some(value: T)

  datatype Device = Light | AirConditioner | TV

  datatype Position = On | Off

  /** One line of console output. */
  datatype Event =
    | Switched(device: Device, position: Position)
    | NoCommandNotice
    | NothingToUndoNotice

  /** A command: the six concrete device commands, or a macro over a list
      of commands. */
  datatype Command =
    | LightOn | LightOff
    | ACOn | ACOff
    | TVOn | TVOff
    | Macro(commands: seq<Command>)

  function Opposite(p: Position): (q: Position)
    ensures q != p
  {
    if p == On then Off else On
  }

  /** The event that reverses `e`: the same device switched the other way. */
  function Flip(e: Event): (f: Event)
    ensures f.Switched? == e.Switched?
    ensures e.Switched? ==> f.device == e.device && f.position != e.position
  {
    if e.Switched? then Switched(e.device, Opposite(e.position)) else e
  }

  // ---------------------------------------------------------------------
  // What executing and undoing a command prints

  /** The events that `c.Execute()` emits. */
  function ExecTrace(c: Command): seq<Event>
    decreases c
  {
    match c
    case LightOn => [Switched(Light, On)]
    case LightOff => [Switched(Light, Off)]
    case ACOn => [Switched(AirConditioner, On)]
    case ACOff => [Switched(AirConditioner, Off)]
    case TVOn => [Switched(TV, On)]
    case TVOff => [Switched(TV, Off)]
    case Macro(cs) => ExecTraceAll(cs)
  }

  /** A macro's Execute: its children's Execute events in list order. */
  function ExecTraceAll(cs: seq<Command>): seq<Event>
    decreases cs
  {
    if cs == [] then [] else ExecTrace(cs[0]) + ExecTraceAll(cs[1..])
  }

  /** The events that `c.Undo()` emits. Each concrete command's Undo is
      written out on its own, as each command class writes its own. */
  function UndoTrace(c: Command): seq<Event>
    decreases c
  {
    match c
    case LightOn => [Switched(Light, Off)]
    case LightOff => [Switched(Light, On)]
    case ACOn => [Switched(AirConditioner, Off)]
    case ACOff => [Switched(AirConditioner, On)]
    case TVOn => [Switched(TV, Off)]
    case TVOff => [Switched(TV, On)]
    case Macro(cs) => UndoTraceAll(cs)
  }

  /** A macro's Undo: its children's Undo events from the last child down
      to the first. */
  function UndoTraceAll(cs: seq<Command>): seq<Event>
    decreases cs
  {
    if cs == [] then [] else UndoTrace(cs[|cs| - 1]) + UndoTraceAll(cs[..|cs| - 1])
  }

  // ---------------------------------------------------------------------
  // Executing and undoing, as the command classes do it

  /** `ICommand.Execute()` for every command class: a concrete command
      switches its device as `ExecTrace` says, a macro runs its loop. */
  method Execute(c: Command) returns (out: seq<Event>)
    ensures out == ExecTrace(c)
    decreases c, 1
  {
    match c {
      case Macro(cs) => out := ExecuteMacro(cs);
      case _ => out := ExecTrace(c);
    }
  }

  /** `MacroCommand.Execute()`: a foreach over the children. */
  method ExecuteMacro(cs: seq<Command>) returns (out: seq<Event>)
    ensures out == ExecTraceAll(cs)
    decreases cs, 0
  {
    out := [];
    var i := 0;
    while i < |cs|
      invariant 0 <= i <= |cs|
      invariant out + ExecTraceAll(cs[i..]) == ExecTraceAll(cs)
    {
      assert cs[i..][1..] == cs[i + 1..];
      var e := Execute(cs[i]);
      out := out + e;
      i := i + 1;
    }
    assert cs[i..] == [];
  }

  /** `ICommand.Undo()` for every command class: a concrete command
      switches its device as `UndoTrace` says, a macro runs its loop. */
  method Undo(c: Command) returns (out: seq<Event>)
    ensures out == UndoTrace(c)
    decreases c, 1
  {
    match c {
      case Macro(cs) => out := UndoMacro(cs);
      case _ => out := UndoTrace(c);
    }
  }

  /** `MacroCommand.Undo()`: a loop from index Count-1 down to 0. */
  method UndoMacro(cs: seq<Command>) returns (out: seq<Event>)
    ensures out == UndoTraceAll(cs)
    decreases cs, 0
  {
    out := [];
    var i := |cs| - 1;
    assert cs[..i + 1] == cs;
    while i >= 0
      invariant -1 <= i < |cs|
      invariant out + UndoTraceAll(cs[..i + 1]) == UndoTraceAll(cs)
    {
      assert cs[..i + 1][..i] == cs[..i];
      var e := Undo(cs[i]);
      out := out + e;
      i := i - 1;
    }
  }

  // ---------------------------------------------------------------------
  // Undo is the inverse of Execute

  /** The trace that reverses `t`: every event flipped, in reverse order. */
  function Inverse(t: seq<Event>): (r: seq<Event>)
    ensures |r| == |t|
  {
    if t == [] then [] else Inverse(t[1..]) + [Flip(t[0])]
  }

  lemma {:induction false} InverseAppend(a: seq<Event>, b: seq<Event>)
    ensures Inverse(a + b) == Inverse(b) + Inverse(a)
    decreases a
  {
    if a == [] {
      assert a + b == b;
    } else {
      assert (a + b)[1..] == a[1..] + b;
      InverseAppend(a[1..], b);
    }
  }

  lemma {:induction false} ExecTraceAllSnoc(cs: seq<Command>)
    requires cs != []
    ensures ExecTraceAll(cs) == ExecTraceAll(cs[..|cs| - 1]) + ExecTrace(cs[|cs| - 1])
    decreases cs
  {
    if |cs| == 1 {
      assert cs[..0] == [] && cs[1..] == [];
    } else {
      ExecTraceAllSnoc(cs[1..]);
      assert cs[1..][..|cs| - 2] == cs[..|cs| - 1][1..];
    }
  }

  /** Each command's Undo prints exactly the Execute events flipped and in
      reverse order: for a concrete command the opposite switch of the same
      device, for a macro the children's undos from last to first. */
  lemma {:induction false} UndoIsInverse(c: Command)
    ensures UndoTrace(c) == Inverse(ExecTrace(c))
    decreases c, 1
  {
    match c {
      case Macro(cs) => UndoAllIsInverse(cs);
      case _ =>
    }
  }

  lemma {:induction false} UndoAllIsInverse(cs: seq<Command>)
    ensures UndoTraceAll(cs) == Inverse(ExecTraceAll(cs))
    decreases cs, 0
  {
    if cs != [] {
      var init, last := cs[..|cs| - 1], cs[|cs| - 1];
      ExecTraceAllSnoc(cs);
      InverseAppend(ExecTraceAll(init), ExecTrace(last));
      UndoIsInverse(last);
      UndoAllIsInverse(init);
    }
  }

  /** Every concrete command's Undo performs the opposite operation on the
      same device as its Execute. */
  lemma ConcreteUndoIsOpposite(c: Command)
    requires !c.Macro?
    ensures |ExecTrace(c)| == 1 && ExecTrace(c)[0].Switched?
    ensures UndoTrace(c) == [Switched(ExecTrace(c)[0].device, Opposite(ExecTrace(c)[0].position))]
  {
  }

  // ---------------------------------------------------------------------
  // Device positions implied by a trace

  /** The position each device was last switched to. */
  datatype Panel = Panel(light: Position, ac: Position, tv: Position) {
    function Get(d: Device): Position {
      match d
      case Light => light
      case AirConditioner => ac
      case TV => tv
    }
    function Set(d: Device, p: Position): (r: Panel)
      ensures r.Get(d) == p
      ensures forall d' :: d' != d ==> r.Get(d') == Get(d')
    {
      match d
      case Light => this.(light := p)
      case AirConditioner => this.(ac := p)
      case TV => this.(tv := p)
    }
  }

  function Apply(s: Panel, e: Event): Panel {
    if e.Switched? then s.Set(e.device, e.position) else s
  }

  /** The panel after the events of `t`, starting from `s`. */
  function Final(s: Panel, t: seq<Event>): Panel
    decreases t
  {
    if t == [] then s else Final(Apply(s, t[0]), t[1..])
  }

  predicate Touches(t: seq<Event>, d: Device) {
    exists i :: 0 <= i < |t| && t[i].Switched? && t[i].device == d
  }

  /** The first position `t` switches `d` to. */
  function FirstPosition(t: seq<Event>, d: Device): Position
    requires Touches(t, d)
    decreases t
  {
    if t[0].Switched? && t[0].device == d then t[0].position
    else
      assert Touches(t[1..], d) by {
        var i :| 0 <= i < |t| && t[i].Switched? && t[i].device == d;
        assert t[1..][i - 1] == t[i];
      }
      FirstPosition(t[1..], d)
  }

  lemma {:induction false} FinalAppend(s: Panel, a: seq<Event>, b: seq<Event>)
    ensures Final(s, a + b) == Final(Final(s, a), b)
    decreases a
  {
    if a == [] {
      assert a + b == b;
    } else {
      assert (a + b)[1..] == a[1..] + b;
      FinalAppend(Apply(s, a[0]), a[1..], b);
    }
  }

  lemma {:induction false} FinalInverse(s: Panel, t: seq<Event>, d: Device)
    ensures Final(s, Inverse(t)).Get(d) ==
      if Touches(t, d) then Opposite(FirstPosition(t, d)) else s.Get(d)
    decreases t
  {
    if t != [] {
      FinalAppend(s, Inverse(t[1..]), [Flip(t[0])]);
      FinalInverse(s, t[1..], d);
      if !(t[0].Switched? && t[0].device == d) {
        if Touches(t, d) {
          var i :| 0 <= i < |t| && t[i].Switched? && t[i].device == d;
          assert t[1..][i - 1] == t[i];
        }
        if Touches(t[1..], d) {
          var i :| 0 <= i < |t[1..]| && t[1..][i].Switched? && t[1..][i].device == d;
          assert t[i + 1] == t[1..][i];
        }
      } else {
        assert Touches(t, d) by { assert t[0].Switched? && t[0].device == d; }
      }
    } else {
      assert !Touches(t, d);
    }
  }

  /** Executing a command and then undoing it leaves every device it
      touches in the opposite of the position the command first switched it
      to, and every other device where it was. */
  lemma ExecuteThenUndo(s: Panel, c: Command, d: Device)
    ensures Final(s, ExecTrace(c) + UndoTrace(c)).Get(d) ==
      if Touches(ExecTrace(c), d) then Opposite(FirstPosition(ExecTrace(c), d)) else s.Get(d)
  {
    UndoIsInverse(c);
    FinalAppend(s, ExecTrace(c), UndoTrace(c));
    FinalInverse(Final(s, ExecTrace(c)), ExecTrace(c), d);
    if !Touches(ExecTrace(c), d) {
      FinalUntouched(s, ExecTrace(c), d);
    }
  }

  lemma {:induction false} FinalUntouched(s: Panel, t: seq<Event>, d: Device)
    requires !Touches(t, d)
    ensures Final(s, t).Get(d) == s.Get(d)
    decreases t
  {
    if t != [] {
      forall i | 0 <= i < |t[1..]|
        ensures !(t[1..][i].Switched? && t[1..][i].device == d)
      {
        assert t[1..][i] == t[i + 1];
      }
      assert !(t[0].Switched? && t[0].device == d);
      FinalUntouched(Apply(s, t[0]), t[1..], d);
    }
  }

  /** The true-inverse condition: every device the trace touches starts in
      the position opposite to the first one the trace switches it to. */
  predicate FirstSwitchChanges(s: Panel, t: seq<Event>) {
    forall d :: Touches(t, d) ==> s.Get(d) == Opposite(FirstPosition(t, d))
  }

  /** When each device's first switch really changes it, undoing right
      after executing restores every device to its position before the
      command. */
  lemma UndoRestores(s: Panel, c: Command)
    requires FirstSwitchChanges(s, ExecTrace(c))
    ensures Final(s, ExecTrace(c) + UndoTrace(c)) == s
  {
    var f := Final(s, ExecTrace(c) + UndoTrace(c));
    ExecuteThenUndo(s, c, Light);
    ExecuteThenUndo(s, c, AirConditioner);
    ExecuteThenUndo(s, c, TV);
    assert f.Get(Light) == s.Get(Light);
    assert f.Get(AirConditioner) == s.Get(AirConditioner);
    assert f.Get(TV) == s.Get(TV);
  }

  // ---------------------------------------------------------------------
  // The remote control

  class RemoteControl {
    const onCommands: array<Option<Command>>
    const offCommands: array<Option<Command>>
    /** The command history; its last element is the top of the stack. */
    var history: seq<Command>

    ghost predicate Valid()
    {
      onCommands.Length == offCommands.Length && onCommands != offCommands
    }

    function Slots(): nat
    {
      onCommands.Length
    }

    constructor (numberOfSlots: nat)
      ensures Valid() && fresh(onCommands) && fresh(offCommands)
      ensures Slots() == numberOfSlots
      ensures forall i :: 0 <= i < numberOfSlots ==> onCommands[i] == None && offCommands[i] == None
      ensures history == []
    {
      onCommands := new Option<Command>[numberOfSlots](_ => None);
      offCommands := new Option<Command>[numberOfSlots](_ => None);
      history := [];
    }

    /** Overwrites one slot's pair of commands; every other slot and the
        history are unchanged. */
    method SetCommand(slot: int, onCommand: Option<Command>, offCommand: Option<Command>)
      requires Valid()
      requires 0 <= slot < Slots()
      modifies onCommands, offCommands
      ensures Valid()
      ensures onCommands[..] == old(onCommands[..])[slot := onCommand]
      ensures offCommands[..] == old(offCommands[..])[slot := offCommand]
      ensures history == old(history)
    {
      onCommands[slot] := onCommand;
      offCommands[slot] := offCommand;
    }

    /** Runs the slot's on command and pushes it, or prints the notice. */
    method PressOnButton(slot: int) returns (out: seq<Event>)
      requires Valid()
      requires 0 <= slot < Slots()
      modifies this`history
      ensures Valid()
      ensures match onCommands[slot]
        case Some(c) => out == ExecTrace(c) && history == old(history) + [c]
        case None => out == [NoCommandNotice] && history == old(history)
    {
      match onCommands[slot] {
        case Some(c) =>
          out := Execute(c);
          history := history + [c];
        case None =>
          out := [NoCommandNotice];
      }
    }

    /** Runs the slot's off command and pushes it, or prints the notice. */
    method PressOffButton(slot: int) returns (out: seq<Event>)
      requires Valid()
      requires 0 <= slot < Slots()
      modifies this`history
      ensures Valid()
      ensures match offCommands[slot]
        case Some(c) => out == ExecTrace(c) && history == old(history) + [c]
        case None => out == [NoCommandNotice] && history == old(history)
    {
      match offCommands[slot] {
        case Some(c) =>
          out := Execute(c);
          history := history + [c];
        case None =>
          out := [NoCommandNotice];
      }
    }

    /** Pops the most recent command and undoes it, or prints the notice
        when the history is empty. */
    method UndoLastCommand() returns (out: seq<Event>)
      requires Valid()
      modifies this`history
      ensures Valid()
      ensures old(history) == [] ==> out == [NothingToUndoNotice] && history == []
      ensures old(history) != [] ==>
        history == old(history)[..|old(history)| - 1] &&
        out == UndoTrace(old(history)[|old(history)| - 1])
    {
      if |history| > 0 {
        var last := history[|history| - 1];
        history := history[..|history| - 1];
        out := Undo(last);
      } else {
        out := [NothingToUndoNotice];
      }
    }
  }

  /** The first half of the program's fixed call sequence: every button of
      the three configured slots pressed once, on before off. */
  method PressEveryButton(remote: RemoteControl) returns (out: seq<Event>)
    requires remote.Valid() && remote.Slots() == 3
    requires remote.onCommands[..] == [Some(LightOn), Some(ACOn), Some(TVOn)]
    requires remote.offCommands[..] == [Some(LightOff), Some(ACOff), Some(TVOff)]
    modifies remote`history
    ensures remote.Valid()
    ensures remote.history == old(remote.history) + [LightOn, LightOff, ACOn, ACOff, TVOn, TVOff]
    ensures out == [
      Switched(Light, On), Switched(Light, Off),
      Switched(AirConditioner, On), Switched(AirConditioner, Off),
      Switched(TV, On), Switched(TV, Off)]
  {
    var e1 := remote.PressOnButton(0);
    var e2 := remote.PressOffButton(0);
    var e3 := remote.PressOnButton(1);
    var e4 := remote.PressOffButton(1);
    var e5 := remote.PressOnButton(2);
    var e6 := remote.PressOffButton(2);
    out := e1 + e2 + e3 + e4 + e5 + e6;
  }

  /** The second half of the program's fixed call sequence: a macro of the
      three on commands put on slot 0, pressed, and undone by one undo. */
  method PressAndUndoMacro(remote: RemoteControl) returns (out: seq<Event>)
    requires remote.Valid() && remote.Slots() == 3
    modifies remote.onCommands, remote.offCommands, remote`history
    ensures remote.Valid()
    ensures remote.onCommands[..] == old(remote.onCommands[..])[0 := Some(Macro([LightOn, ACOn, TVOn]))]
    ensures remote.offCommands[..] == old(remote.offCommands[..])[0 := None]
    ensures remote.history == old(remote.history)
    ensures out == [
      Switched(Light, On), Switched(AirConditioner, On), Switched(TV, On),
      Switched(TV, Off), Switched(AirConditioner, Off), Switched(Light, Off)]
  {
    var macro := Macro([LightOn, ACOn, TVOn]);
    remote.SetCommand(0, Some(macro), None);
    var e1 := remote.PressOnButton(0);
    assert e1 == [Switched(Light, On), Switched(AirConditioner, On), Switched(TV, On)] by {
      assert ExecTraceAll([TVOn]) == [Switched(TV, On)];
      assert ExecTraceAll([ACOn, TVOn]) == [Switched(AirConditioner, On), Switched(TV, On)];
    }
    var e2 := remote.UndoLastCommand();
    assert e2 == [Switched(TV, Off), Switched(AirConditioner, Off), Switched(Light, Off)] by {
      assert UndoTraceAll([LightOn]) == [Switched(Light, Off)];
      assert UndoTraceAll([LightOn, ACOn]) == [Switched(AirConditioner, Off), Switched(Light, Off)];
    }
    out := e1 + e2;
  }

  /** The program's fixed call sequence: three slots, every button pressed,
      two undos, then a macro of all three on commands pressed and undone as
      one history entry. */
  method RemoteDemo() returns (out: seq<Event>, history: seq<Command>)
    ensures out == [
      Switched(Light, On), Switched(Light, Off),
      Switched(AirConditioner, On), Switched(AirConditioner, Off),
      Switched(TV, On), Switched(TV, Off),
      Switched(TV, On), Switched(TV, Off),
      Switched(Light, On), Switched(AirConditioner, On), Switched(TV, On),
      Switched(TV, Off), Switched(AirConditioner, Off), Switched(Light, Off)]
    ensures history == [LightOn, LightOff, ACOn, ACOff]
  {
    var remote := new RemoteControl(3);
    remote.SetCommand(0, Some(LightOn), Some(LightOff));
    remote.SetCommand(1, Some(ACOn), Some(ACOff));
    remote.SetCommand(2, Some(TVOn), Some(TVOff));
    var presses := PressEveryButton(remote);
    var e1 := remote.UndoLastCommand();
    var e2 := remote.UndoLastCommand();
    var macro := PressAndUndoMacro(remote);
    out := presses + e1 + e2 + macro;
    history := remote.history;
  }
}
