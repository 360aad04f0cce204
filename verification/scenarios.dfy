/** Concrete runs of the logger, as the example driver and the unit tests
    describe them. */
module Scenarios {
  import opened Wrappers
  import opened Records
  import opened Json
  import opened Logging

  /** A logger configured with no root and no function override (for example
      `new Logger({})`, or the constructor test's string and number
      overrides) logging a string, say `log('hello', 'error')`: the record is
      `{root: "root", message, level}` and the one line written to standard
      output is its JSON text painted in the level's colour (red for "error"). */
  lemma DefaultLoggerLogsText(config: Config, message: string, level: string)
    requires config.root.None? && !config.format.Callable? && !config.transport.Callable?
    requires level != ""
    ensures var logger := NewLogger(Some(config)).value;
            var record := CreateLogObject(logger, Text(message), Some(level)).value;
            && record.keys == ["root", "message", "level"]
            && record.values == map["root" := "root", "message" := message, "level" := level]
            && ConsoleOutput(Log(logger, Text(message), Some(level)).value)
               == [Paint(ColourFor(Some(level)), Serialize(record))]
  {
    var logger := NewLogger(Some(config)).value;
    CreateLogObjectFromText(logger, message, Some(level));
    LogWithDefaultFormat(logger, Text(message), Some(level));
    UnpaintPaint(Log(logger, Text(message), Some(level)).value.message);
  }

  /** The example driver's `new Logger({ root: 'driver' })` followed by
      `log({ message: 'starting the app' })`: no level is given, so the
      record is `{root, message, level: "info"}` and its JSON text is painted
      green; the transport receives no level at all. */
  lemma NamedLoggerLogsObject(config: Config, root: string, data: JsObject, message: string)
    requires config.root == Some(root) && root != ""
    requires !config.format.Callable? && !config.transport.Callable?
    requires data.keys == ["message"] && Get(data, "message") == Some(message)
    ensures var logger := NewLogger(Some(config)).value;
            var record := CreateLogObject(logger, Fields(data), None).value;
            var call := Log(logger, Fields(data), None).value;
            && record.keys == ["root", "message", "level"]
            && record.values == map["root" := root, "message" := message, "level" := Info]
            && call.level == None
            && ConsoleOutput(call) == [Paint(Green, Serialize(record))]
  {
    var logger := NewLogger(Some(config)).value;
    CreateLogObjectOneField(logger, Fields(data), None, "message", message);
    LogWithDefaultFormat(logger, Fields(data), None);
    UnpaintPaint(Log(logger, Fields(data), None).value.message);
  }
}
