/** The pure part of the diagnostic bridge, the message handler that Qt
    calls for its own qDebug/qInfo/qWarning/qCritical/qFatal output
    (controller/logcontroller.cpp:17-43): the annotated message text and
    the level a Qt message type maps to. */
module Bridge {

  import opened Levels
  import opened Formatting

  /** Qt's message types. */
  datatype MsgType = QtDebugMsg | QtInfoMsg | QtWarningMsg | QtCriticalMsg | QtFatalMsg

  /** Where a Qt message was raised: source file, line and function. A null
      file or function name of a release build is the empty string here. */
  datatype MessageContext = MessageContext(file: string, line: int, functionName: string)

  /** The level a Qt message is logged at: debug, info and warning keep
      their name, critical and fatal both become Error. */
  function MsgLevel(t: MsgType): (level: LogLevel)
    ensures level == Debug <==> t == QtDebugMsg
    ensures level == Info <==> t == QtInfoMsg
    ensures level == Warning <==> t == QtWarningMsg
    ensures level == Error <==> t in {QtCriticalMsg, QtFatalMsg}
    ensures level != Feature
  {
    match t
    case QtDebugMsg => Debug
    case QtInfoMsg => Info
    case QtWarningMsg => Warning
    case QtCriticalMsg => Error
    case QtFatalMsg => Error
  }

  /** The forwarded text "<msg> (<file>:<line>), <function>". */
  function ContextMessage(msg: string, context: MessageContext): (text: string)
  {
    msg + " (" + context.file + ":" + IntToText(context.line) + "), " + context.functionName
  }

  /** The forwarded text starts with the original message and ends with the
      function name; between them stand the file and the line. */
  lemma ContextMessageParts(msg: string, context: MessageContext)
    ensures var text := ContextMessage(msg, context);
            var suffix := "), " + context.functionName;
            var digits := IntToText(context.line);
            |text| == |msg| + 2 + |context.file| + 1 + |digits| + |suffix|
            && text[..|msg|] == msg
            && text[|msg|..|msg| + 2] == " ("
            && text[|msg| + 2..|msg| + 2 + |context.file|] == context.file
            && text[|msg| + 2 + |context.file|] == ':'
            && text[|msg| + 3 + |context.file|..|text| - |suffix|] == digits
            && text[|text| - |suffix|..] == suffix
  {
  }

}
