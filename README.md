# Command, Mediator and Template Method in pr8.cs, modelled in Dafny

`pr8.cs` holds three small console programs. Each one shows one object-oriented
design pattern:

- **Command with undo** (`commands.dfy`, module `RemoteCommands`). There are six
  concrete commands that switch a light, an air conditioner or a TV on or off.
  A `MacroCommand` runs a list of commands. A `RemoteControl` has numbered slots.
  Each slot holds an optional on command and an optional off command. The
  remote also keeps a last-in-first-out history of the commands it has executed.
- **Mediator** (`chat.dfy`, module `Chat`). A `ChatMediator` keeps an ordered
  list of users. It tells every listed user when someone joins or leaves. It
  relays a message to every listed user except the sender.
- **Template Method** (`reports.dfy`, module `Reports`). `GenerateReport` runs a
  fixed sequence of steps that each report format overrides. It then either
  saves or sends the report, as the format's `CustomerWantsSave` decides.

Console output is modelled as data:

- The devices keep no state. They only print a line, so each line becomes an
  `Event`.
- A receiving user's line becomes a `Delivery`: who received what.
- A report's line becomes a `Step`.

Each method returns the events that one call prints. The method bodies keep
the source's loops: the `foreach` in `MacroCommand.Execute`, the loop counting
down in `MacroCommand.Undo`, and the loops over `users` in `ChatMediator`. Each
method is proved equal to a specification function, for example `ExecTrace`,
`UndoTrace`, `Notify` or `Relay`, and the properties are proved as lemmas
about those functions.

The source's devices have no position. To state "undo restores the devices",
the model adds a derived `Panel`. It records the position each device was last
switched to, as read off an event trace.

Points of the code's behaviour the model keeps:

- `PressOnButton` and `PressOffButton` push a command onto the history only
  when the slot holds one. On an empty slot they print the notice and push
  nothing (pr8.cs:180-188, 193-201).
- `GenerateReport` goes straight from `CreateContent` to the save decision
  (pr8.cs:401-402). The only line printed in between is the HTML format's
  save prompt.
- `SendMessage` passes each recipient itself as the `sender` argument of
  `ReceiveMessage` (pr8.cs:326). The model keeps this: each chat `Delivery`
  shows its own recipient as the sender.

## Model

| member | source | states |
|---|---|---|
| `RemoteCommands.Execute` | pr8.cs:45-158 | Each command's `Execute` prints exactly `ExecTrace(c)`: one switch of its own device for a concrete command, the children's events for a macro. |
| `RemoteCommands.ExecuteMacro` | pr8.cs:226-232 | The macro's `foreach` prints its children's `Execute` events, in list order. |
| `RemoteCommands.Undo` | pr8.cs:45-158 | Each command's `Undo` prints exactly `UndoTrace(c)`. |
| `RemoteCommands.UndoMacro` | pr8.cs:234-240 | The loop from `Count-1` down to 0 prints the children's `Undo` events, last child first. |
| `RemoteCommands.UndoIsInverse` | pr8.cs:45-240 | For every command, macros included, the `Undo` events are the `Execute` events reversed, each switched the other way. |
| `RemoteCommands.UndoAllIsInverse` | pr8.cs:226-240 | A macro's reverse-order undo is the exact inverse of its forward-order execute. |
| `RemoteCommands.ConcreteUndoIsOpposite` | pr8.cs:45-158 | Each concrete command's `Undo` switches the same device as its `Execute`, the opposite way. |
| `RemoteCommands.ExecuteThenUndo` | pr8.cs:45-240 | After execute then undo, each touched device is in the opposite of the position the command first switched it to. Untouched devices keep their position. |
| `RemoteCommands.UndoRestores` | pr8.cs:45-240 | If each device's first switch really changes it, undo right after execute restores every device. |
| `RemoteCommands.RemoteControl.constructor` | pr8.cs:165-170 | Two fresh arrays of `numberOfSlots` empty slots, and an empty history. |
| `RemoteCommands.RemoteControl.SetCommand` | pr8.cs:172-176 | Only slot `slot` of each array is overwritten. The other slots and the history are unchanged. |
| `RemoteCommands.RemoteControl.PressOnButton` | pr8.cs:178-189 | With an on command in the slot: prints its `Execute` events and pushes exactly it. With an empty slot: prints only the notice, history unchanged. |
| `RemoteCommands.RemoteControl.PressOffButton` | pr8.cs:191-202 | Same as `PressOnButton`, for the off command. |
| `RemoteCommands.RemoteControl.UndoLastCommand` | pr8.cs:204-215 | With a non-empty history: pops the top and prints its `Undo` events, and the rest is the old history minus its top. With an empty history: prints only the notice, history stays empty. |
| `RemoteCommands.PressEveryButton` | pr8.cs:258-263 | Pressing all six configured buttons prints six switches in press order and pushes the six commands. |
| `RemoteCommands.PressAndUndoMacro` | pr8.cs:268-276 | Slot 0 afterwards holds the macro as its on command and nothing as its off command; the other slots are unchanged. A macro pressed once is one history entry. One undo reverses all three devices, last first, and leaves the history as it was. |
| `RemoteCommands.RemoteDemo` | pr8.cs:248-276 | The program's whole call sequence prints the stated 14 events and leaves the history `[LightOn, LightOff, ACOn, ACOff]`. |
| `Chat.Notify` | pr8.cs:304-310 | A broadcast delivers one system message per listed user, in list order. |
| `Chat.NotifyReachesAll` | pr8.cs:304-310 | The recipients of a broadcast are exactly the listed users, in order. |
| `Chat.RelayReachesOthers` | pr8.cs:321-328 | The recipients of a relay are exactly the listed users other than the sender, in order. Each delivery carries the text and shows its recipient as sender. |
| `Chat.RelayExactlyOnce` | pr8.cs:321-328 | A relay never delivers to the sender. Every other user gets it once per time it is listed. |
| `Chat.IndexOf` | pr8.cs:318 | `List.IndexOf` gives the first position holding the user, or -1 exactly when the user is not listed. |
| `Chat.RemoveFirst` | pr8.cs:318 | `List.Remove` shortens the list by one exactly when the user is listed, and adds no one. |
| `Chat.RemoveFirstCount` | pr8.cs:316-320 | `List.Remove` of a listed user takes away exactly one of its occurrences. Removing an unlisted user changes nothing. |
| `Chat.RemoveFirstKeepsOrder` | pr8.cs:316-320 | `List.Remove` of a listed user cuts out its first occurrence and keeps the users before and after it in order. |
| `Chat.User.constructor` | pr8.cs:343-347 | A user keeps the given name. |
| `Chat.ChatMediator.constructor` | pr8.cs:300-303 | The hub starts with no users. |
| `Chat.ChatMediator.NotifyUsers` | pr8.cs:304-310 | The loop over `users` delivers exactly `Notify(users, notice)`. |
| `Chat.ChatMediator.AddUser` | pr8.cs:311-315 | Appends the user, then sends the join notice to every listed user, the newcomer included. |
| `Chat.ChatMediator.RemoveUser` | pr8.cs:316-320 | Removes the first occurrence, then sends the leave notice to the remaining users only. |
| `Chat.ChatMediator.SendMessage` | pr8.cs:321-328 | The loop delivers exactly `Relay(users, message, sender)`: every listed user except the sender, by reference. |
| `Chat.RemovedUserMissesRelay` | pr8.cs:316-328 | After A, B and C join and B is removed, a message from A reaches only C. |
| `Chat.JoinFour` | pr8.cs:379-382 | Four users joining one by one: each join sends that user's join notice to everyone listed so far, newcomer included, so the notices reach 1, 2, 3 and 4 users. |
| `Chat.ChatDemo` | pr8.cs:371-385 | In the program's call sequence, users named User1 to User4 get the four join broadcasts, and User1's message reaches User2, User3 and User4, in that order. |
| `Reports.CustomerWantsSave` | pr8.cs:503-508 | The default decision (pr8.cs:417) is true. The HTML override says yes exactly when the answer is "да", and only the HTML format prints the prompt (`DecisionSteps`). |
| `Reports.SaveStep` | pr8.cs:475-478 | Saving prints a save line. It is Excel's own message exactly for the Excel format, the base class's otherwise. |
| `Reports.GenerateReport` | pr8.cs:396-410 | Every format runs gather, format, header, content in that order. It ends in exactly one of save and send: a save exactly when `CustomerWantsSave` holds. Only the save prompt comes in between. |
| `Reports.DefaultFormatsAlwaysSave` | pr8.cs:417-479 | PDF and Excel keep the default decision (true). They never prompt and always save: Excel with its own message, PDF with the base class's. |
| `Reports.HtmlReportFollowsAnswer` | pr8.cs:503-508 | The HTML report prompts, then saves when the answer is "да" and sends otherwise. |

## Left out

- Console text: the Russian literals, `string.Format` in `User`, and the
  `"<name> join to chat"` / `"<name> left chat"` concatenations. Each line is
  an event constructor. The notice keeps the user's name.
- `Console.ReadLine().ToLower()` in `HtmlReport.CustomerWantsSave` is console
  input and Unicode case folding. The model takes the already lower-cased line
  as the `answer` parameter. A null line (end of input) throws in C#; here
  the answer is always a string.
- The devices `Light`, `AirConditioner` and `TV`: they hold no state and only
  print, so they are not objects in the model. Each command carries its device.
- Command objects and their references to devices: commands are values.
  The six concrete commands keep nothing but their device, so for them only
  object identity is lost.
- RemoteCommands.ExecuteMacro and RemoteCommands.UndoMacro: a `Macro` holds
  an immutable, finite snapshot of its children. In C# a `MacroCommand` keeps
  the caller's `List<ICommand>` by reference (pr8.cs:219-224). The model does
  not capture three consequences of that. First, a change to that list after
  construction changes what a macro already in a slot or on the history
  executes and undoes, so an undo need not invert the pushed execute. Second,
  a list that contains its own macro recurses without end. Third, a `null`
  entry throws at pr8.cs:230 or pr8.cs:238.
- `User.SendMessage` (pr8.cs:352-356): it prints, then delegates to the
  mediator's `SendMessage`, which is modelled. The user's reference to its
  mediator is omitted for the same reason.
- The `IUser` and `IMediator` interfaces: the model uses `ChatMediator` and `User`
  directly.
- Null arguments: a null user passed to `AddUser` or `RemoveUser` makes
  `GetName()` throw in C#. Here users are non-null references.
- `RemoteControl`: a negative `numberOfSlots` makes the array allocation throw
  in C#. Here the parameter is a `nat`.
- `RemoteControl`: an out-of-range slot throws in C#. Here it is a precondition
  of `SetCommand`, `PressOnButton` and `PressOffButton`.
- `RemoteControl`: null slots and null commands passed to `SetCommand` are
  `Option.None`.
- The first two `Main` methods are modelled by `RemoteDemo` and `ChatDemo`.
  The report program's `Main` (pr8.cs:515-529) has no demo member. Its three
  reports are the traces given by `DefaultFormatsAlwaysSave(Pdf, _)`,
  `DefaultFormatsAlwaysSave(Excel, _)` and `HtmlReportFollowsAnswer(_)`. The
  console blank lines between the reports are not modelled.
- `dz 8.cs` is not part of this model.
