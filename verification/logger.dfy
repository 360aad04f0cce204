/** The logger: configuration resolution, record construction, the default
    colouring formatter, the default console transport and the `log`
    pipeline that wires them together. */
module Logging {
  import opened Wrappers
  import opened Records
  import opened Json

  // The severity names of `LEVELS`.
  const Info: string := "info"
  const Warn: string := "warning"
  const Error: string := "error"
  const Debug: string := "debug"

  /** The `TypeError`s the code can throw. */
  datatype TypeError =
    | ConfigUndefined       // `new Logger()` reads `root` of an undefined config
    | MergeTargetUndefined  // `Object.assign(undefined, …)` when `root` is falsy

  /** A config entry for an override point: missing, present but not a
      function (a string, a number, …), or a function. */
  datatype Slot<F> = Absent | NotCallable | Callable(fn: F)

  /** The constructor's argument. A caller-supplied transport is identified by
      a number: `log` discards what it returns, so only which transport
      receives the call matters here. */
  datatype Config = Config(
    root: Option<string>,
    format: Slot<JsObject -> string>,
    transport: Slot<nat>)

  /** The formatter in force: the built-in colouring JSON formatter, or the
      caller's function. */
  datatype Formatter = JsonFormatter | CustomFormatter(render: JsObject -> string)

  /** The transport in force: the built-in console writer, or the caller's. */
  datatype Transport = ConsoleTransport | CustomTransport(id: nat)

  /** A logger instance: the resolved root and the two override points. */
  datatype Logger = Logger(root: string, format: Formatter, transport: Transport)

  /** `config.root || 'root'`: a missing or empty root falls back to "root". */
  function ResolveRoot(root: Option<string>): (r: string)
    ensures r != ""
    ensures root.Some? && root.value != "" ==> r == root.value
    ensures root.None? || root == Some("") ==> r == "root"
  {
    match root
    case Some(s) => if s != "" then s else "root"
    case None => "root"
  }

  /** `new Logger(config)`. An override replaces the built-in exactly when the
      config supplies a function for it; anything else is ignored without
      error. A missing config makes the constructor throw. */
  function NewLogger(config: Option<Config>): (r: Result<Logger, TypeError>)
    ensures r.Failure? <==> config.None?
    ensures r.Success? ==> r.value.root == ResolveRoot(config.value.root)
    ensures r.Success? ==> r.value.root != ""
    ensures r.Success? ==>
      (r.value.format.CustomFormatter? <==> config.value.format.Callable?)
    ensures r.Success? && config.value.format.Callable? ==>
      r.value.format.render == config.value.format.fn
    ensures r.Success? ==>
      (r.value.transport.CustomTransport? <==> config.value.transport.Callable?)
    ensures r.Success? && config.value.transport.Callable? ==>
      r.value.transport.id == config.value.transport.fn
  {
    match config
    case None => Failure(ConfigUndefined)
    case Some(c) =>
      var format := if c.format.Callable? then CustomFormatter(c.format.fn) else JsonFormatter;
      var transport := if c.transport.Callable? then CustomTransport(c.transport.fn) else ConsoleTransport;
      Success(Logger(ResolveRoot(c.root), format, transport))
  }

  /** `level || 'info'`: a missing or empty level becomes "info". */
  function DefaultLevel(level: Option<string>): (l: string)
    ensures l != ""
    ensures level.Some? && level.value != "" ==> l == level.value
    ensures level.None? || level == Some("") ==> l == Info
  {
    match level
    case Some(s) => if s != "" then s else Info
    case None => Info
  }

  /** The `data` argument of `log`: a string, an object, or any other
      primitive (undefined, null, a number, a boolean). */
  datatype LogData = Text(message: string) | Fields(fields: JsObject) | Primitive

  /** The properties `data` contributes to the record. A string becomes
      `{ message: data }`; `Object.assign` skips undefined and null, and a
      number or boolean has no own enumerable property. */
  function DataObject(data: LogData): JsObject {
    match data
    case Text(s) => Single("message", s)
    case Fields(o) => o
    case Primitive => Empty
  }

  /** `createLogObject(data, level)`:
      `Object.assign({ root }, data, { level: level || 'info' })`. */
  function CreateLogObject(logger: Logger, data: LogData, level: Option<string>): (r: Result<JsObject, TypeError>)
    ensures r.Failure? <==> logger.root == ""
  {
    if logger.root == "" then Failure(MergeTargetUndefined)
    else
      var rootObj := Single("root", logger.root);
      Success(Assign(Assign(rootObj, DataObject(data)), Single("level", DefaultLevel(level))))
  }

  /** The value a record should hold under `k`, key by key: the defaulted
      level under "level" whatever the caller passed; the caller's value under
      every other caller key, "root" included; the logger's root under "root"
      when the caller has none; and nothing under any other key. */
  function ExpectedValue(root: string, data: LogData, level: Option<string>, k: string): Option<string> {
    if k == "level" then Some(DefaultLevel(level))
    else if k in DataObject(data).keys then Get(DataObject(data), k)
    else if k == "root" then Some(root)
    else None
  }

  /** Every key of the record holds the value `ExpectedValue` names. */
  lemma CreateLogObjectGet(logger: Logger, data: LogData, level: Option<string>)
    requires logger.root != ""
    ensures forall k ::
      Get(CreateLogObject(logger, data, level).value, k) == ExpectedValue(logger.root, data, level, k)
  {
    var rootObj := Single("root", logger.root);
    var merged := Assign(rootObj, DataObject(data));
    var levelObj := Single("level", DefaultLevel(level));
    forall k
      ensures Get(Assign(merged, levelObj), k) == ExpectedValue(logger.root, data, level, k)
    {
      AssignGet(merged, levelObj, k);
      AssignGet(rootObj, DataObject(data), k);
    }
  }

  /** The record's key order: "root" first, then the caller's keys other than
      "root" in their order, then "level" unless the caller's keys already
      placed it. */
  lemma CreateLogObjectKeys(logger: Logger, data: LogData, level: Option<string>)
    requires logger.root != ""
    ensures CreateLogObject(logger, data, level).value.keys
      == ["root"] + Without(DataObject(data).keys, ["root"])
         + (if "level" in DataObject(data).keys then [] else ["level"])
  {
    var m := DataObject(data);
    var rootObj := Single("root", logger.root);
    var merged := Assign(rootObj, m);
    var levelObj := Single("level", DefaultLevel(level));
    AssignKeys(rootObj, m);
    AssignKeys(merged, levelObj);
    WithoutMembers(m.keys, ["root"], "level");
    assert Without(["level"], merged.keys) == (if "level" in merged.keys then [] else ["level"]);
  }

  /** The record's level is the defaulted level argument, even when the
      caller's object carries a "level" of its own. */
  lemma CreateLogObjectLevel(logger: Logger, data: LogData, level: Option<string>)
    requires logger.root != ""
    ensures Get(CreateLogObject(logger, data, level).value, "level") == Some(DefaultLevel(level))
  {
    CreateLogObjectGet(logger, data, level);
  }

  /** The caller's "root" overrides the logger's, which otherwise fills in:
      the record always has a root. */
  lemma CreateLogObjectRoot(logger: Logger, data: LogData, level: Option<string>)
    requires logger.root != ""
    ensures Get(CreateLogObject(logger, data, level).value, "root")
         == if "root" in DataObject(data).keys then Get(DataObject(data), "root") else Some(logger.root)
    ensures "root" in CreateLogObject(logger, data, level).value.keys
  {
    CreateLogObjectGet(logger, data, level);
  }

  /** Every caller property other than "level" reaches the record unchanged,
      and the record's keys are exactly "root", "level" and the caller's. */
  lemma CreateLogObjectCallerKeys(logger: Logger, data: LogData, level: Option<string>)
    requires logger.root != ""
    ensures forall k :: k != "level" && k in DataObject(data).keys ==>
      Get(CreateLogObject(logger, data, level).value, k) == Get(DataObject(data), k)
    ensures forall k :: k in CreateLogObject(logger, data, level).value.keys <==>
      k == "root" || k == "level" || k in DataObject(data).keys
  {
    var r := CreateLogObject(logger, data, level).value;
    CreateLogObjectGet(logger, data, level);
    forall k
      ensures k in r.keys <==> k == "root" || k == "level" || k in DataObject(data).keys
    {
      assert Get(r, k) == ExpectedValue(logger.root, data, level, k);
    }
  }

  /** Data with one property `k` (neither "root" nor "level") yields the key
      order `root`, `k`, `level`. */
  lemma CreateLogObjectOneFieldKeys(logger: Logger, data: LogData, level: Option<string>, k: string)
    requires logger.root != ""
    requires DataObject(data).keys == [k]
    requires k != "root" && k != "level"
    ensures CreateLogObject(logger, data, level).value.keys == ["root", k, "level"]
  {
    CreateLogObjectKeys(logger, data, level);
    OneFieldKeyOrder(DataObject(data).keys, k);
  }

  lemma OneFieldKeyOrder(ks: seq<string>, k: string)
    requires ks == [k] && k != "root" && k != "level"
    ensures ["root"] + Without(ks, ["root"]) + (if "level" in ks then [] else ["level"]) == ["root", k, "level"]
  {
  }

  /** Data with one property `k` (neither "root" nor "level") yields exactly
      `{root, k, level}`, in that order. */
  lemma CreateLogObjectOneField(logger: Logger, data: LogData, level: Option<string>, k: string, v: string)
    requires logger.root != ""
    requires DataObject(data).keys == [k] && Get(DataObject(data), k) == Some(v)
    requires k != "root" && k != "level"
    ensures CreateLogObject(logger, data, level).value.keys == ["root", k, "level"]
    ensures CreateLogObject(logger, data, level).value.values
      == map["root" := logger.root, k := v, "level" := DefaultLevel(level)]
  {
    var r := CreateLogObject(logger, data, level).value;
    CreateLogObjectOneFieldKeys(logger, data, level, k);
    CreateLogObjectGet(logger, data, level);
    assert Get(r, "root") == Some(logger.root) by {
      assert Get(r, "root") == ExpectedValue(logger.root, data, level, "root");
    }
    assert Get(r, k) == Some(v) by {
      assert Get(r, k) == ExpectedValue(logger.root, data, level, k);
    }
    assert Get(r, "level") == Some(DefaultLevel(level)) by {
      assert Get(r, "level") == ExpectedValue(logger.root, data, level, "level");
    }
    ValuesOfThree(r, "root", k, "level", logger.root, v, DefaultLevel(level));
  }

  /** String data yields exactly `{ root, message, level }`, in that order. */
  lemma CreateLogObjectFromText(logger: Logger, s: string, level: Option<string>)
    requires logger.root != ""
    ensures CreateLogObject(logger, Text(s), level).value.keys == ["root", "message", "level"]
    ensures CreateLogObject(logger, Text(s), level).value.values
      == map["root" := logger.root, "message" := s, "level" := DefaultLevel(level)]
  {
    CreateLogObjectOneField(logger, Text(s), level, "message", s);
  }

  /** Data that is neither a string nor an object (undefined, null, a number,
      a boolean) contributes nothing: the record is exactly `{ root, level }`. */
  lemma CreateLogObjectFromPrimitive(logger: Logger, level: Option<string>)
    requires logger.root != ""
    ensures CreateLogObject(logger, Primitive, level).value.keys == ["root", "level"]
    ensures CreateLogObject(logger, Primitive, level).value.values
      == map["root" := logger.root, "level" := DefaultLevel(level)]
  {
    var r := CreateLogObject(logger, Primitive, level).value;
    CreateLogObjectKeys(logger, Primitive, level);
    assert Without([], ["root"]) == [];
    CreateLogObjectGet(logger, Primitive, level);
    assert Get(r, "root") == ExpectedValue(logger.root, Primitive, level, "root");
    assert Get(r, "level") == ExpectedValue(logger.root, Primitive, level, "level");
    ValuesOfTwo(r, "root", "level", logger.root, DefaultLevel(level));
  }

  /** The root given to the constructor is the root of every record the
      logger builds from data without a "root" of its own; a missing or empty
      one gives "root". */
  lemma NewLoggerRecordRoot(config: Config, data: LogData, level: Option<string>)
    requires "root" !in DataObject(data).keys
    ensures Get(CreateLogObject(NewLogger(Some(config)).value, data, level).value, "root")
         == Some(ResolveRoot(config.root))
  {
    CreateLogObjectRoot(NewLogger(Some(config)).value, data, level);
  }

  /** A logger built by the constructor never hits the undefined merge target. */
  lemma NewLoggerCanLog(config: Config, data: LogData, level: Option<string>)
    ensures CreateLogObject(NewLogger(Some(config)).value, data, level).Success?
  {
  }

  /** The four foreground colours the built-in formatter uses. */
  datatype Colour = Red | Yellow | Blue | Green

  /** The `switch (logObj.level)` of the built-in formatter: strict equality
      against three severity names, everything else (another string, or no
      level at all) green. */
  function ColourFor(level: Option<string>): (c: Colour)
    ensures c == Red <==> level == Some(Error)
    ensures c == Yellow <==> level == Some(Warn)
    ensures c == Blue <==> level == Some(Debug)
  {
    match level
    case Some(l) =>
      if l == Error then Red
      else if l == Warn then Yellow
      else if l == Debug then Blue
      else Green
    case None => Green
  }

  /** ANSI select-graphic-rendition codes: set a foreground colour, and reset
      it to the default. */
  function OpenCode(c: Colour): string {
    match c
    case Red => "\U{1B}[31m"
    case Yellow => "\U{1B}[33m"
    case Blue => "\U{1B}[34m"
    case Green => "\U{1B}[32m"
  }

  const CloseCode: string := "\U{1B}[39m"

  /** Recognises a colour-set code. */
  function ColourOfCode(code: string): (c: Option<Colour>)
    ensures c.Some? ==> OpenCode(c.value) == code
  {
    if code == OpenCode(Red) then Some(Red)
    else if code == OpenCode(Yellow) then Some(Yellow)
    else if code == OpenCode(Blue) then Some(Blue)
    else if code == OpenCode(Green) then Some(Green)
    else None
  }

  /** Reads a painted text back: the colour of its leading code and the text
      between that code and the trailing reset, when both are there. */
  function Unpaint(s: string): (r: Option<(Colour, string)>)
  {
    if |s| < |CloseCode| + 5 then None
    else match ColourOfCode(s[..5])
      case None => None
      case Some(c) =>
        if s[|s| - |CloseCode|..] == CloseCode then Some((c, s[5..|s| - |CloseCode|])) else None
  }

  /** `chalk.<colour>(text)` with colours enabled: the text between the
      colour's code and the reset. Reading it back gives the colour and the
      text. */
  function Paint(c: Colour, text: string): (s: string)
    ensures Unpaint(s) == Some((c, text))
  {
    var s := OpenCode(c) + text + CloseCode;
    assert s[..5] == OpenCode(c);
    assert s[|s| - |CloseCode|..] == CloseCode;
    assert s[5..|s| - |CloseCode|] == text;
    s
  }

  /** Whatever `Unpaint` accepts is exactly one painted text. */
  lemma UnpaintPaint(s: string)
    requires Unpaint(s).Some?
    ensures Paint(Unpaint(s).value.0, Unpaint(s).value.1) == s
  {
  }

  /** Painting adds an escape character only at the start of each code: a
      text free of control characters keeps the painted result free of ESC
      between the two codes. */
  lemma PaintAddsNoEscape(c: Colour, text: string)
    requires NoControl(text)
    ensures var s := Paint(c, text);
            forall i :: 0 < i < |s| - |CloseCode| ==> s[i] != '\U{1B}'
  {
  }

  /** The built-in `format`: the record's JSON text, painted in the colour its
      level selects. The only escape characters in the result are those of
      the two colour codes, because the JSON text holds no control character. */
  function DefaultFormat(record: JsObject): (s: string)
    ensures Unpaint(s) == Some((ColourFor(Get(record, "level")), Serialize(record)))
    ensures forall i :: 0 < i < |s| - |CloseCode| ==> s[i] != '\U{1B}'
  {
    PaintAddsNoEscape(ColourFor(Get(record, "level")), Serialize(record));
    Paint(ColourFor(Get(record, "level")), Serialize(record))
  }

  /** The built-in formatter's output begins with the code of the colour the
      record's level selects and ends with the reset code. */
  lemma DefaultFormatMarkers(record: JsObject)
    ensures var s := DefaultFormat(record);
            && |s| >= 5 + |CloseCode|
            && s[..5] == OpenCode(ColourFor(Get(record, "level")))
            && s[|s| - |CloseCode|..] == CloseCode
  {
  }

  /** The formatter in force applied to a record. */
  function Render(f: Formatter, record: JsObject): string {
    match f
    case JsonFormatter => DefaultFormat(record)
    case CustomFormatter(render) => render(record)
  }

  /** The one call `log` makes to the transport in force. */
  datatype TransportCall = TransportCall(transport: Transport, level: Option<string>, message: string)

  /** `log(data, level)`: build the record, format it, and hand the raw
      `level` argument together with the formatted text to the transport. */
  function Log(logger: Logger, data: LogData, level: Option<string>): (r: Result<TransportCall, TypeError>)
    ensures r.Failure? <==> logger.root == ""
    ensures r.Success? ==> r.value.transport == logger.transport && r.value.level == level
  {
    var record :- CreateLogObject(logger, data, level);
    Success(TransportCall(logger.transport, level, Render(logger.format, record)))
  }

  /** The lines the built-in transport writes to standard output for a call
      (`console.log(message)`); a caller-supplied transport writes nothing
      this model sees. */
  function ConsoleOutput(call: TransportCall): (lines: seq<string>)
    ensures call.transport.ConsoleTransport? ==> lines == [call.message]
    ensures call.transport.CustomTransport? ==> lines == []
  {
    if call.transport.ConsoleTransport? then [call.message] else []
  }

  /** What reaches standard output: with the built-in transport exactly one
      line, the formatted record unmodified; with a caller-supplied transport
      nothing. */
  lemma LogConsoleOutput(logger: Logger, data: LogData, level: Option<string>)
    requires logger.root != ""
    ensures logger.transport.ConsoleTransport? ==>
      ConsoleOutput(Log(logger, data, level).value)
        == [Render(logger.format, CreateLogObject(logger, data, level).value)]
    ensures logger.transport.CustomTransport? ==>
      ConsoleOutput(Log(logger, data, level).value) == []
  {
  }

  /** With the built-in formatter the transport receives the record's JSON
      painted in the colour of the defaulted level, while its level argument
      stays the raw one: `log(data)` paints green and passes no level. */
  lemma LogWithDefaultFormat(logger: Logger, data: LogData, level: Option<string>)
    requires logger.root != "" && logger.format == JsonFormatter
    ensures Unpaint(Log(logger, data, level).value.message)
         == Some((ColourFor(Some(DefaultLevel(level))),
                  Serialize(CreateLogObject(logger, data, level).value)))
    ensures Log(logger, data, level).value.level == level
  {
    CreateLogObjectGet(logger, data, level);
  }

  /** With a caller-supplied formatter the transport receives exactly what
      that function returns for the record. */
  lemma LogWithCustomFormat(logger: Logger, data: LogData, level: Option<string>, f: JsObject -> string)
    requires logger.root != "" && logger.format == CustomFormatter(f)
    ensures Log(logger, data, level).value.message == f(CreateLogObject(logger, data, level).value)
  {
  }
}
