/** The log controller object and the process-wide state of its translation
    unit (controller/logcontroller.cpp:13-15, 45-205): the receiver slot
    `controller`, whether Qt's message handler has been replaced, and the
    message handler itself. */
module Controller {

  import opened Wrappers
  import opened Levels
  import opened Formatting
  import opened Sinks
  import opened Bridge
  import opened Introspection

  /** The state a process holds for the log controller: the global slot
      naming the registered controller (the variable `controller`, null as
      None), and whether messageHandler has been installed with Qt. */
  class Process {
    var controller: Option<LogController>
    var handlerInstalled: bool

    /** At start-up the slot is empty and Qt's own handler is in place. */
    constructor ()
      ensures controller == None && !handlerInstalled
    {
      controller := None;
      handlerInstalled := false;
    }

    /** The controllers a handled message can reach: the registered one. */
    function Receivers(): (r: set<LogController>)
      reads this
      ensures controller.None? <==> r == {}
      ensures controller.Some? ==> r == {controller.value}
    {
      if controller.Some? then {controller.value} else {}
    }

    /** The message handler: with no registered controller it does nothing;
        otherwise it logs the message, annotated with its source context,
        at the level its Qt type maps to. */
    method MessageHandler(t: MsgType, context: MessageContext, msg: string, now: TimeOfDay)
      modifies Receivers()
      ensures controller == old(controller)
      ensures controller.Some? ==>
                var c := controller.value;
                c.events == old(c.events) + Emission(c.logLevel, c.currentModes, now, MsgLevel(t), ContextMessage(msg, context))
                && c.logLevel == old(c.logLevel) && c.currentModes == old(c.currentModes)
                && c.signalInspection == old(c.signalInspection) && c.subscriptions == old(c.subscriptions)
    {
      if controller.None? {
        return;
      }
      var formatted := ContextMessage(msg, context);
      var level := MsgLevel(t);
      controller.value.ManageMessage(formatted, level, now);
    }
  }

  /** The leveled-log dispatcher. Every output it produces, to any target,
      is an event appended to `events`; every connection listenObjects
      makes is appended to `subscriptions`. */
  class LogController {
    var logLevel: LogLevel
    var currentModes: set<StorageMode>
    var signalInspection: bool
    var events: seq<OutputEvent>
    var subscriptions: seq<Subscription>

    /** A new controller claims the global slot only if it is empty, and
        installs the message handler only when it claims the slot and
        attachMessage is set. A slot already taken stays with its owner.
        The initial level, modes and inspection flag are not constrained. */
    constructor (attachMessage: bool, process: Process)
      modifies process
      ensures events == [] && subscriptions == []
      ensures process.controller == if old(process.controller).None? then Some(this) else old(process.controller)
      ensures process.handlerInstalled == (old(process.handlerInstalled) || (old(process.controller).None? && attachMessage))
    {
      events := [];
      subscriptions := [];
      new;
      if process.controller.None? {
        if attachMessage {
          process.handlerInstalled := true;
        }
        process.controller := Some(this);
      }
    }

    /** The destructor empties the global slot, whether or not this
        controller owned it; the installed handler stays installed. */
    method Destroy(process: Process)
      modifies process
      ensures process.controller == None
      ensures process.handlerInstalled == old(process.handlerInstalled)
    {
      process.controller := None;
    }

    method GetCurrentModes() returns (modes: set<StorageMode>)
      ensures modes == currentModes
    {
      modes := currentModes;
    }

    method SetCurrentModes(modes: set<StorageMode>)
      modifies this`currentModes
      ensures currentModes == modes
    {
      currentModes := modes;
    }

    method GetLogLevel() returns (level: LogLevel)
      ensures level == logLevel
    {
      level := logLevel;
    }

    /** Setting the level it already has changes nothing and notifies no
        one; any other level is stored and logLevelChanged is raised once. */
    method SetLogLevel(level: LogLevel)
      modifies this`logLevel, this`events
      ensures level == old(logLevel) ==> logLevel == old(logLevel) && events == old(events)
      ensures level != old(logLevel) ==> logLevel == level && events == old(events) + [LogLevelChanged]
    {
      if level == logLevel {
        return;
      }
      logLevel := level;
      events := events + [LogLevelChanged];
    }

    method GetSignalInspection() returns (inspection: bool)
      ensures inspection == signalInspection
    {
      inspection := signalInspection;
    }

    method SetSignalInspection(inspection: bool)
      modifies this`signalInspection
      ensures signalInspection == inspection
    {
      signalInspection := inspection;
    }

    /** Filters, formats and fans out one message. A filtered-out message
        leaves the trace as it was; an emitted one appends one event per
        set flag, in flag order. */
    method ManageMessage(message: string, level: LogLevel, now: TimeOfDay)
      modifies this`events
      ensures events == old(events) + Emission(logLevel, currentModes, now, level, message)
    {
      if Ordinal(logLevel) < Ordinal(level) && level != Feature {
        return;
      }
      var line := FormatLine(now, level, message);
      WriteToSinks(line, level);
    }

    /** The flag tests of manageMessage, run under its lock: each flag on
        its own, in the order Console, File, Gui, Network, Database. */
    method WriteToSinks(line: string, level: LogLevel)
      modifies this`events
      ensures events == old(events) + FanOut(currentModes, line, level)
    {
      ghost var e0 := events;
      if Console in currentModes {
        events := events + [ConsoleWrite(line + "\n")];
      }
      ghost var e1 := events;
      assert e1 == e0 + Contribution(currentModes, Console, line, level);
      if File in currentModes {
        events := events + [FileWrite(line)];
      }
      ghost var e2 := events;
      assert e2 == e1 + Contribution(currentModes, File, line, level);
      if Gui in currentModes {
        events := events + [ShowMessage(line, level)];
      }
      ghost var e3 := events;
      assert e3 == e2 + Contribution(currentModes, Gui, line, level);
      if Network in currentModes {
        events := events + [SendOffMessage(line)];
      }
      ghost var e4 := events;
      assert e4 == e3 + Contribution(currentModes, Network, line, level);
      if Database in currentModes {
        events := events + [SendOffMessage(line)];
      }
      assert events == e4 + Contribution(currentModes, Database, line, level);
      FanOutByFlag(currentModes, line, level);
      AppendAfter(e0, Contribution(currentModes, Console, line, level), Contribution(currentModes, File, line, level),
        Contribution(currentModes, Gui, line, level), Contribution(currentModes, Network, line, level),
        Contribution(currentModes, Database, line, level));
    }

    /** Connects every action of a widget, every public signal when
        inspection is on, and then walks the children of a widget. */
    method ListenObjects(node: Node)
      modifies this`subscriptions
      ensures subscriptions == old(subscriptions) + Subscriptions(node, signalInspection)
      decreases node, 1
    {
      if node.isWidget {
        ConnectActions(node.actions);
      }
      if signalInspection {
        ConnectSignals(node.objectName, node.methods);
      }
      assert subscriptions == old(subscriptions) + OwnSubscriptions(node, signalInspection);
      if node.isWidget {
        ListenChildren(node);
      }
    }

    /** The children loop of listenObjects, for a widget. */
    method ListenChildren(node: Node)
      requires node.isWidget
      modifies this`subscriptions
      ensures subscriptions == old(subscriptions) + ChildSubscriptions(node, |node.children|, signalInspection)
      decreases node, 0
    {
      for i := 0 to |node.children|
        invariant subscriptions == old(subscriptions) + ChildSubscriptions(node, i, signalInspection)
      {
        ListenObjects(node.children[i]);
      }
    }

    /** The actions loop of listenObjects: one connection per action. */
    method ConnectActions(actions: seq<Action>)
      modifies this`subscriptions
      ensures subscriptions == old(subscriptions) + ActionSubscriptions(actions)
    {
      for i := 0 to |actions|
        invariant subscriptions == old(subscriptions) + ActionSubscriptions(actions[..i])
      {
        assert actions[..i + 1][..i] == actions[..i];
        subscriptions := subscriptions + [ActionTriggered(actions[i])];
      }
      assert actions[..|actions|] == actions;
    }

    /** The meta-method loop of listenObjects: one connection per public
        signal of the method table. */
    method ConnectSignals(emitter: string, methods: seq<MetaMethod>)
      modifies this`subscriptions
      ensures subscriptions == old(subscriptions) + SignalSubscriptions(emitter, methods)
    {
      for i := 0 to |methods|
        invariant subscriptions == old(subscriptions) + SignalSubscriptions(emitter, methods[..i])
      {
        var meth := methods[i];
        assert methods[..i + 1][..i] == methods[..i];
        if meth.methodType == Signal && meth.access == Public {
          subscriptions := subscriptions + [SignalConnection(emitter, meth.name)];
        }
      }
      assert methods[..|methods|] == methods;
    }

    /** The handler of an action's triggered signal: an Info message
        naming the action's text and object name. */
    method ActionActivated(action: Action, now: TimeOfDay)
      modifies this`events
      ensures events == old(events) + Emission(logLevel, currentModes, now, Info, ActionMessage(action))
    {
      ManageMessage(ActionMessage(action), Info, now);
    }

    /** The handler of an inspected signal: an Info message naming it. */
    method SignalActivated(signal: string, now: TimeOfDay)
      modifies this`events
      ensures events == old(events) + Emission(logLevel, currentModes, now, Info, SignalMessage(signal))
    {
      ManageMessage(SignalMessage(signal), Info, now);
    }
  }

  /** Appending five pieces one after another appends their concatenation. */
  lemma AppendAfter<T>(e: seq<T>, c1: seq<T>, c2: seq<T>, c3: seq<T>, c4: seq<T>, c5: seq<T>)
    ensures e + c1 + c2 + c3 + c4 + c5 == e + (c1 + c2 + c3 + c4 + c5)
  {
  }

  /** Two live controllers: the first keeps the slot, the second never
      takes it; the destructor of the second, which never owned the slot,
      empties it anyway, so a message handled then reaches no one; a
      controller made afterwards claims the slot, while the handler
      installed by the first stays. `slots` holds the slot after each of
      these four steps, `lost` the first controller's trace after the
      handled message. */
  method SlotLifecycle(now: TimeOfDay)
    returns (first: LogController, second: LogController, third: LogController,
             slots: seq<Option<LogController>>, lost: seq<OutputEvent>, installed: bool)
    ensures first != second && second != third && first != third
    ensures slots == [Some(first), Some(first), None, Some(third)]
    ensures lost == []
    ensures installed
  {
    var process := new Process();
    first := new LogController(true, process);
    slots := [process.controller];
    second := new LogController(true, process);
    slots := slots + [process.controller];
    second.Destroy(process);
    slots := slots + [process.controller];
    process.MessageHandler(QtWarningMsg, MessageContext("main.cpp", 7, "main"), "lost", now);
    lost := first.events;
    third := new LogController(false, process);
    slots := slots + [process.controller];
    installed := process.handlerInstalled;
  }

}
