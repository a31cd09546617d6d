# Log controller model

A Dafny model of the leveled-log dispatcher `LogController` of
`controller/logcontroller.cpp`. The controller filters each message by its
level against a threshold, renders it as one line `"<hh:mm:ss> - <label> -
<message>"`, and hands that line to every output target whose flag is set.
It also has a message handler that turns Qt's own diagnostic messages into
log messages. A process-wide slot names the one controller that receives
them. A recursive walk connects the actions and public signals of an
object tree to the controller's handlers.

Modules, leaf first:

- `Wrappers` (`wrappers.dfy`): `Option`.
- `Levels` (`levels.dfy`): the five levels with their ordinals, the emit
  rule, and the label table with its inverse.
- `Formatting` (`formatting.dfy`): the `hh:mm:ss` time stamp and the log
  line, each with a parser and a round-trip proof. Also the decimal
  rendering of a line number.
- `Sinks` (`sinks.dfy`): the storage-mode flags, the output events, the
  fan-out of one line, and `Emission`, which is filter + format + fan-out.
- `Bridge` (`bridge.dfy`): the Qt message type to level mapping and the
  context-annotated text.
- `Introspection` (`introspection.dfy`): an abstract object tree, the
  connections one walk makes, and the message shapes of the two handlers.
  `Reached` is a reference definition (the pre-order list of visited
  nodes) that the walk is proved against.
- `Controller` (`controller.dfy`): the `LogController` class and the
  `Process` class, which holds the global `controller` slot and whether
  the message handler is installed.

Every output target is an event appended to the controller's `events`
trace: `ConsoleWrite(line + "\n")` for `std::cout << … << std::endl`,
`FileWrite(line)` for `m_file << str`, and `ShowMessage(line, level)` and
`SendOffMessage(line)` for the two Qt signals. `setLogLevel` appends a
`LogLevelChanged` event to the same trace. Every `connect` made by
`listenObjects` is appended to `subscriptions`. The clock is a parameter
(`now: TimeOfDay`).

The header `controller/logcontroller.h` is not part of this model. So the
numeric values of the enumeration follow the label table's order
(Error=0, Debug=1, Warning=2, Info=3, Feature=4). The `StorageModes` bit
mask is a `set<StorageMode>`. The initial values of `m_logLevel`,
`m_currentModes` and `m_signalInspection` are left unconstrained by the
constructor.

## Model

| member | source | states |
|---|---|---|
| Levels.Ordinal | controller/logcontroller.cpp:146-147 | each level has its place in the five-entry order: Error 0, Debug 1, Warning 2, Info 3, Feature 4 |
| Levels.ShouldEmit | controller/logcontroller.cpp:167-168 | a message is emitted iff its level is Feature or its ordinal does not exceed the threshold's |
| Levels.ShouldEmitMonotone | controller/logcontroller.cpp:167 | raising the threshold never suppresses a message that was emitted |
| Levels.ExtremeThresholds | controller/logcontroller.cpp:167-168 | threshold Error lets through exactly Error and Feature; thresholds Info and Feature let everything through |
| Levels.TypeToText | controller/logcontroller.cpp:144-148 | the label is an entry of the five-entry table, non-empty and without spaces |
| Levels.LabelTable | controller/logcontroller.cpp:146-147 | the labels are "Error", "Debug", "Warning", "Info", "Feature" |
| Levels.LabelRoundTrip | controller/logcontroller.cpp:146-147 | the table is a bijection: a label reads back as its level, and a string reads back as a level only if it is that level's label |
| Formatting.FormatTime | controller/logcontroller.cpp:174 | the time stamp has 8 characters with ':' at positions 2 and 5 |
| Formatting.TimeRoundTrip | controller/logcontroller.cpp:174 | the "hh:mm:ss" stamp parses back to the same time of day |
| Formatting.FormatLine | controller/logcontroller.cpp:173-174 | the line starts with the time stamp, ends with the unchanged message, and has the length of its parts plus two separators |
| Formatting.LineRoundTrip | controller/logcontroller.cpp:173-174 | a formatted line splits back into exactly its time, its level (the middle segment is the label) and its message, whatever the message contains |
| Formatting.IntToText | controller/logcontroller.cpp:23 | the rendering of a line number is non-empty digits, with a leading '-' exactly when negative, and no leading zero |
| Formatting.IntToTextValue | controller/logcontroller.cpp:23 | the rendered digits denote the line number |
| Sinks.EventFor | controller/logcontroller.cpp:176-205 | Console is the only flag that writes to the console, File the only one that writes to the file, Gui the only one that raises showMessage; Network and Database both raise sendOffMessage |
| Sinks.FanOutByFlag | controller/logcontroller.cpp:176-205 | the fan-out is the flags examined one at a time, in the order Console, File, Gui, Network, Database |
| Sinks.ContributionOf | controller/logcontroller.cpp:188-204 | Console gets the line plus a newline, File the bare line, Gui the line and level, Network and Database each sendOffMessage(line) |
| Sinks.FanOutLength | controller/logcontroller.cpp:176-205 | one call appends exactly one event per flag that is set |
| Sinks.FanOutEvents | controller/logcontroller.cpp:176-205 | every set flag's event is appended, every appended event comes from a set flag, and no flags means no events |
| Sinks.NetworkAndDatabaseCoincide | controller/logcontroller.cpp:198-205 | with Network and Database both set, the last two events are the same sendOffMessage(line) |
| Sinks.ConsoleAndGui | controller/logcontroller.cpp:176-197 | with Console and Gui set, one console write and one showMessage, and nothing else |
| Sinks.EmissionSize | controller/logcontroller.cpp:165-205 | a call emits one event per set flag when its level passes, and nothing when it is filtered out or no flag is set |
| Sinks.EmissionCarriesLine | controller/logcontroller.cpp:173-205 | every event of a call carries the same formatted line, and that line reads back as the call's time, level and message |
| Sinks.WarningThresholdScenario | controller/logcontroller.cpp:165-189 | at threshold Warning with Console only, Error and Debug messages are written, an Info message is dropped, a Feature message is written |
| Bridge.MsgLevel | controller/logcontroller.cpp:24-40 | debug, info and warning keep their level, critical and fatal become Error, and nothing maps to Feature |
| Bridge.ContextMessageParts | controller/logcontroller.cpp:22-23 | the forwarded text is the message, " (", the file, ':', the line number, "), " and the function, in that order |
| Introspection.SubscriptionsAreReachedOwn | controller/logcontroller.cpp:88-125 | a walk makes exactly the own connections of every reached node, in pre-order: a widget's actions, each reached node's public signals when inspection is on |
| Introspection.ReachesEveryChild | controller/logcontroller.cpp:115-123 | everything reached from a widget's child is reached from the widget; a non-widget node is reached alone |
| Introspection.SubscriptionsCounted | controller/logcontroller.cpp:88-125 | a walk makes one connection per action of each reached widget plus, with inspection on, one per public signal of each reached node |
| Introspection.ThreeSubscriptions | controller/logcontroller.cpp:88-125 | a widget with two actions and one widget child with one action, inspection off, yields three connections |
| Introspection.ActionMessage | controller/logcontroller.cpp:132 | the action message is "[Action] - ", then the text, then " - ", then the object name, each at its fixed position |
| Introspection.SignalMessage | controller/logcontroller.cpp:142 | the signal message is "[signal] - " followed by the signal's name |
| Controller.Process.constructor | controller/logcontroller.cpp:15 | at start-up the slot is empty and no handler is installed |
| Controller.Process.MessageHandler | controller/logcontroller.cpp:17-43 | with no registered controller nothing changes; otherwise the registered controller's trace grows by the emission of the annotated text at the mapped level, and nothing else changes |
| Controller.LogController.constructor | controller/logcontroller.cpp:45-57 | the new controller takes the slot only if it was empty; the handler becomes installed only if the slot was empty and attachMessage is set; a taken slot keeps its owner |
| Controller.LogController.Destroy | controller/logcontroller.cpp:59-62 | the slot is empty afterwards, whoever owned it; the installed handler stays |
| Controller.LogController.GetCurrentModes | controller/logcontroller.cpp:64-67 | returns the modes last set |
| Controller.LogController.SetCurrentModes | controller/logcontroller.cpp:69-72 | the modes read back as the value set |
| Controller.LogController.GetLogLevel | controller/logcontroller.cpp:74-77 | returns the current threshold |
| Controller.LogController.SetLogLevel | controller/logcontroller.cpp:79-86 | the same level changes nothing and raises nothing; a new level is stored and raises exactly one logLevelChanged |
| Controller.LogController.GetSignalInspection | controller/logcontroller.cpp:150-153 | returns the inspection flag |
| Controller.LogController.SetSignalInspection | controller/logcontroller.cpp:155-158 | the inspection flag reads back as the value set |
| Controller.LogController.ManageMessage | controller/logcontroller.cpp:165-205 | the trace grows by exactly the emission of the call: nothing when filtered out, else the fan-out of the formatted line |
| Controller.LogController.WriteToSinks | controller/logcontroller.cpp:176-205 | the five flag tests append exactly the fan-out of the line |
| Controller.LogController.ListenObjects | controller/logcontroller.cpp:88-125 | the walk appends exactly the connections of the tree, so a second walk duplicates them |
| Controller.LogController.ListenChildren | controller/logcontroller.cpp:115-123 | the children loop appends the connections of each child in order |
| Controller.LogController.ConnectActions | controller/logcontroller.cpp:94-98 | one triggered connection per action, in order |
| Controller.LogController.ConnectSignals | controller/logcontroller.cpp:102-114 | one connection per public signal of the method table, in order |
| Controller.LogController.ActionActivated | controller/logcontroller.cpp:128-134 | an emitted action message at level Info |
| Controller.LogController.SignalActivated | controller/logcontroller.cpp:136-143 | an emitted signal message at level Info |
| Controller.SlotLifecycle | controller/logcontroller.cpp:45-62 | with two live controllers the first keeps the slot; the destructor of the second, a non-owner, empties it, so a message handled then reaches no one; a later controller claims the slot; the handler installed by the first stays installed |

## Left out

- The `QMutexLocker` lock (line 170): the model is sequential, so the lock has no observable effect.
- Real output (`std::cout`, the `m_file` stream, Qt's `emit`): each is an event appended to the trace. Flushing by `std::endl` is not modelled.
- `QTime::currentTime()`: the time of day is a parameter of every call that formats a line.
- Builds without `QT_WIDGETS_LIB` (lines 90-100, 115-124, 130-133): the model is of a widgets build. In the other build, listenObjects connects no actions and never descends into children, so it only connects the root's public signals when inspection is on, and actionActivated logs nothing.
- Qt's reflection (`dynamic_cast`, `metaObject`, `QMetaMethod`, `children()`): replaced by the abstract `Node` tree, which lists each object's actions, meta-methods and children.
- Controller.LogController.ConnectSignals: records one attempted connection per public signal, named after the meta-method. It does not model that line 111 passes the literal `SIGNAL(meth.name())`, which Qt does not resolve, or that the target slot is `actionActivated`.
- Emitters of signal connections are identified by object name, not by object identity.
- Controller.LogController.ActionActivated and Controller.LogController.SignalActivated: the sender is a parameter. Recovering it through `sender()` and `senderSignalIndex()` is not modelled, and neither is the null `qobject_cast` result when a non-action sender reaches `actionActivated`.
- `QString::arg` renumbering in the chained `arg` calls of lines 23 and 132: a Qt message (line 23) or an action text (line 132) that itself contains `%n` markers has them filled by the next `arg`. Here `arg` is plain concatenation. Line 174 is not affected, because the message is the last argument there and goes in verbatim.
- `toLocal8Bit` (line 22): strings are sequences of characters with no encoding step. A null `context.file` or `context.function` is the empty string.
- Qt aborting the process after a fatal message has been handled: this happens outside the handler.
- Delivery of Qt messages only while `handlerInstalled` holds is the host's business. `MessageHandler` models the handler body.
- The commented-out stderr routing (lines 178-187).
- `setListenOutSide` and `m_listenOutSide` (lines 160-163): the flag is set but never read.
- `qRegisterMetaType` (line 48): Qt type registration with no effect on the logic.
- Controller.LogController.constructor: the initial threshold, modes and inspection flag come from the header, which is not part of this model, so they are left unconstrained.
