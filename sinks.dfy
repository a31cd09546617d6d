/** The storage modes of the log controller and what one call of
    manageMessage hands to each of them (controller/logcontroller.cpp:165-205).
    Every output target is an event appended to a trace: the console and
    the file stream receive text, the three notifications carry the line. */
module Sinks {

  import opened Wrappers
  import opened Levels
  import opened Formatting

  /** The flags of StorageModes, in declaration order. */
  datatype StorageMode = Console | File | Gui | Network | Database

  /** The order in which manageMessage tests the flags. */
  const FlagOrder: seq<StorageMode> := [Console, File, Gui, Network, Database]

  /** What the controller puts out: text written to standard output or to
      the log file, the showMessage and sendOffMessage notifications, and
      the logLevelChanged notification of setLogLevel. */
  datatype OutputEvent =
    | ConsoleWrite(text: string)
    | FileWrite(text: string)
    | ShowMessage(line: string, level: LogLevel)
    | SendOffMessage(line: string)
    | LogLevelChanged

  /** The place of a flag in the flag order. */
  function FlagIndex(m: StorageMode): (i: nat)
    ensures i < |FlagOrder| && FlagOrder[i] == m
  {
    match m
    case Console => 0
    case File => 1
    case Gui => 2
    case Network => 3
    case Database => 4
  }

  /** The one event a single flag produces for a formatted line. */
  function EventFor(mode: StorageMode, line: string, level: LogLevel): (e: OutputEvent)
    ensures e.ConsoleWrite? <==> mode == Console
    ensures e.FileWrite? <==> mode == File
    ensures e.ShowMessage? <==> mode == Gui
    ensures e.SendOffMessage? <==> mode in {Network, Database}
  {
    match mode
    case Console => ConsoleWrite(line + "\n")
    case File => FileWrite(line)
    case Gui => ShowMessage(line, level)
    case Network => SendOffMessage(line)
    case Database => SendOffMessage(line)
  }

  /** The flags of an order, as a set. */
  function FlagsOf(order: seq<StorageMode>): (flags: set<StorageMode>)
  {
    if order == [] then {} else {order[0]} + FlagsOf(order[1..])
  }

  lemma {:induction false} FlagsOfMember(order: seq<StorageMode>, m: StorageMode)
    ensures m in FlagsOf(order) <==> m in order
  {
    if order != [] {
      FlagsOfMember(order[1..], m);
    }
  }

  /** The events for the flags of order that are set in modes, flag after
      flag in that order. */
  function FanOutOver(modes: set<StorageMode>, order: seq<StorageMode>, line: string, level: LogLevel): (events: seq<OutputEvent>)
  {
    if order == [] then []
    else (if order[0] in modes then [EventFor(order[0], line, level)] else []) + FanOutOver(modes, order[1..], line, level)
  }

  /** The fan-out of manageMessage: the flags examined in flag order, one
      event for each flag that is set. */
  function FanOut(modes: set<StorageMode>, line: string, level: LogLevel): (events: seq<OutputEvent>)
  {
    FanOutOver(modes, FlagOrder, line, level)
  }

  /** What one flag contributes: its event if it is set, nothing otherwise. */
  function Contribution(modes: set<StorageMode>, mode: StorageMode, line: string, level: LogLevel): (events: seq<OutputEvent>)
  {
    if mode in modes then [EventFor(mode, line, level)] else []
  }

  lemma FanOutOverStep(modes: set<StorageMode>, order: seq<StorageMode>, line: string, level: LogLevel)
    requires order != []
    ensures FanOutOver(modes, order, line, level) == Contribution(modes, order[0], line, level) + FanOutOver(modes, order[1..], line, level)
  {
  }

  /** The fan-out written flag by flag, as manageMessage tests them: each
      flag on its own, in the order Console, File, Gui, Network, Database. */
  lemma FanOutByFlag(modes: set<StorageMode>, line: string, level: LogLevel)
    ensures FanOut(modes, line, level) ==
              Contribution(modes, Console, line, level) + Contribution(modes, File, line, level) +
              Contribution(modes, Gui, line, level) + Contribution(modes, Network, line, level) +
              Contribution(modes, Database, line, level)
  {
    var o5: seq<StorageMode> := [Console, File, Gui, Network, Database];
    var o4: seq<StorageMode> := [File, Gui, Network, Database];
    var o3: seq<StorageMode> := [Gui, Network, Database];
    var o2: seq<StorageMode> := [Network, Database];
    var o1: seq<StorageMode> := [Database];
    assert o5[1..] == o4 && o4[1..] == o3 && o3[1..] == o2 && o2[1..] == o1 && o1[1..] == [];
    FanOutOverStep(modes, o5, line, level);
    FanOutOverStep(modes, o4, line, level);
    FanOutOverStep(modes, o3, line, level);
    FanOutOverStep(modes, o2, line, level);
    FanOutOverStep(modes, o1, line, level);
    AppendInOrder(Contribution(modes, Console, line, level), Contribution(modes, File, line, level),
      Contribution(modes, Gui, line, level), Contribution(modes, Network, line, level),
      Contribution(modes, Database, line, level));
  }

  /** Five pieces appended one after another, grouped from the right. */
  lemma AppendInOrder<T>(c1: seq<T>, c2: seq<T>, c3: seq<T>, c4: seq<T>, c5: seq<T>)
    ensures c1 + (c2 + (c3 + (c4 + (c5 + [])))) == c1 + c2 + c3 + c4 + c5
  {
  }

  /** Spelled out: Console gets the line and a newline, File the bare
      line, Gui the line and its level, and Network and Database the same
      sendOffMessage notification. */
  lemma ContributionOf(modes: set<StorageMode>, line: string, level: LogLevel)
    ensures Contribution(modes, Console, line, level) == if Console in modes then [ConsoleWrite(line + "\n")] else []
    ensures Contribution(modes, File, line, level) == if File in modes then [FileWrite(line)] else []
    ensures Contribution(modes, Gui, line, level) == if Gui in modes then [ShowMessage(line, level)] else []
    ensures Contribution(modes, Network, line, level) == if Network in modes then [SendOffMessage(line)] else []
    ensures Contribution(modes, Database, line, level) == if Database in modes then [SendOffMessage(line)] else []
  {
  }

  /** No flag is examined twice. */
  lemma FlagOrderDistinct()
    ensures forall i, j :: 0 <= i < j < |FlagOrder| ==> FlagOrder[i] != FlagOrder[j]
  {
  }

  /** Every flag that can be set is examined. */
  lemma FlagOrderComplete(modes: set<StorageMode>)
    ensures modes * FlagsOf(FlagOrder) == modes
  {
    forall m | m in modes ensures m in FlagsOf(FlagOrder) {
      FlagsOfMember(FlagOrder, m);
      assert FlagOrder[FlagIndex(m)] == m;
    }
  }

  /** The number of flags of an order that are set. */
  function SetCount(modes: set<StorageMode>, order: seq<StorageMode>): (count: nat)
  {
    if order == [] then 0 else (if order[0] in modes then 1 else 0) + SetCount(modes, order[1..])
  }

  /** Each flag of the order contributes at most its own event. */
  lemma {:induction false} FanOutOverLength(modes: set<StorageMode>, order: seq<StorageMode>, line: string, level: LogLevel)
    ensures |FanOutOver(modes, order, line, level)| == SetCount(modes, order)
  {
    if order != [] {
      FanOutOverLength(modes, order[1..], line, level);
    }
  }

  /** Each flag of an order without repetitions is examined once: the count
      of set flags is the size of the part of the set the order covers. */
  lemma {:induction false} SetCountIsSize(modes: set<StorageMode>, order: seq<StorageMode>)
    requires forall i, j :: 0 <= i < j < |order| ==> order[i] != order[j]
    ensures SetCount(modes, order) == |modes * FlagsOf(order)|
  {
    if order != [] {
      var x, tail := order[0], order[1..];
      SetCountIsSize(modes, tail);
      assert x !in FlagsOf(tail) by {
        FlagsOfMember(tail, x);
        forall j | 0 <= j < |tail| ensures tail[j] != x {
          assert tail[j] == order[j + 1];
        }
      }
      var head, rest := modes * {x}, modes * FlagsOf(tail);
      assert modes * FlagsOf(order) == head + rest;
      assert head !! rest;
      if x in modes {
        assert head == {x};
      } else {
        assert head == {};
      }
    }
  }

  /** One event per flag that is set: a call fans out to as many events as
      the mode set has flags. */
  lemma FanOutLength(modes: set<StorageMode>, line: string, level: LogLevel)
    ensures |FanOut(modes, line, level)| == |modes|
  {
    FanOutOverLength(modes, FlagOrder, line, level);
    FlagOrderDistinct();
    SetCountIsSize(modes, FlagOrder);
    FlagOrderComplete(modes);
  }

  /** The event of every flag that is set is in the fan-out, every event in
      it comes from a flag that is set, and no flag set means no event. */
  lemma FanOutEvents(modes: set<StorageMode>, line: string, level: LogLevel)
    ensures forall m :: m in modes ==> EventFor(m, line, level) in FanOut(modes, line, level)
    ensures forall e :: e in FanOut(modes, line, level) ==> exists m :: m in modes && e == EventFor(m, line, level)
    ensures modes == {} ==> FanOut(modes, line, level) == []
  {
    FanOutByFlag(modes, line, level);
  }

  /** Setting both Network and Database yields two identical sendOffMessage
      notifications, the last two events of the call. */
  lemma NetworkAndDatabaseCoincide(modes: set<StorageMode>, line: string, level: LogLevel)
    requires Network in modes && Database in modes
    ensures var events := FanOut(modes, line, level);
            |events| >= 2 && events[|events| - 2] == events[|events| - 1] == SendOffMessage(line)
  {
    FanOutByFlag(modes, line, level);
  }

  /** Console and Gui set: one console write and one showMessage, nothing
      for the file, the network or the database. */
  lemma ConsoleAndGui(line: string, level: LogLevel)
    ensures FanOut({Console, Gui}, line, level) == [ConsoleWrite(line + "\n"), ShowMessage(line, level)]
  {
    FanOutByFlag({Console, Gui}, line, level);
  }

  /** What one call of manageMessage puts out: nothing when the level is
      filtered out, otherwise the fan-out of the formatted line. */
  function Emission(threshold: LogLevel, modes: set<StorageMode>, time: TimeOfDay, level: LogLevel, message: string): (events: seq<OutputEvent>)
  {
    if ShouldEmit(threshold, level) then FanOut(modes, FormatLine(time, level, message), level) else []
  }

  /** A call puts out nothing exactly when its level is filtered out or no
      flag is set; otherwise one event per flag that is set. */
  lemma EmissionSize(threshold: LogLevel, modes: set<StorageMode>, time: TimeOfDay, level: LogLevel, message: string)
    ensures |Emission(threshold, modes, time, level, message)| == if ShouldEmit(threshold, level) then |modes| else 0
    ensures Emission(threshold, modes, time, level, message) == [] <==> !ShouldEmit(threshold, level) || modes == {}
  {
    FanOutLength(modes, FormatLine(time, level, message), level);
  }

  /** Every event of a call carries the same formatted line, and that line
      reads back as the call's time, level and message. */
  lemma EmissionCarriesLine(threshold: LogLevel, modes: set<StorageMode>, time: TimeOfDay, level: LogLevel, message: string)
    ensures var line := FormatLine(time, level, message);
            forall e :: e in Emission(threshold, modes, time, level, message) ==>
              exists m :: m in modes && e == EventFor(m, line, level)
    ensures ParseLine(FormatLine(time, level, message)) == Some(LogEntry(time, level, message))
  {
    FanOutEvents(modes, FormatLine(time, level, message), level);
    LineRoundTrip(time, level, message);
  }

  /** Threshold Warning, console only: an Error message and a Debug message
      are both written, since their ordinals 0 and 1 do not exceed 2; an
      Info message, ordinal 3, is dropped; a Feature message is written. */
  lemma WarningThresholdScenario(time: TimeOfDay)
    ensures Emission(Warning, {Console}, time, Error, "disk full")
              == [ConsoleWrite(FormatLine(time, Error, "disk full") + "\n")]
    ensures Emission(Warning, {Console}, time, Debug, "tick")
              == [ConsoleWrite(FormatLine(time, Debug, "tick") + "\n")]
    ensures Emission(Warning, {Console}, time, Info, "idle") == []
    ensures |Emission(Warning, {Console}, time, Feature, "new")| == 1
  {
    FanOutByFlag({Console}, FormatLine(time, Error, "disk full"), Error);
    FanOutByFlag({Console}, FormatLine(time, Debug, "tick"), Debug);
    FanOutLength({Console}, FormatLine(time, Feature, "new"), Feature);
  }

}
