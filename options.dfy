/** Model of options/index.js: the command-line options object and its
    error rule. Parsing itself is done by a library and is a parameter: the
    parsed option values, or the message of the exception it threw. */
module CliOptions {
  import opened Base

  /** A parsed option value: `--host` gives a string (null without a value),
      `--port` a number and `--help` a boolean. */
  datatype OptValue = OStr(s: string) | ONum(n: real) | OBool(b: bool) | ONull

  /** JavaScript truthiness of an option value, absent when not given. */
  predicate Truthy(v: Option<OptValue>) {
    match v
    case None => false
    case Some(OStr(s)) => s != ""
    case Some(ONum(n)) => n != 0.0
    case Some(OBool(b)) => b
    case Some(ONull) => false
  }

  /** The options object: either the parsed options, or the exception message
      when parsing threw (then `this.options` stays undefined). */
  datatype Options = Parsed(options: map<string, OptValue>) | ParseFailed(message: string)

  const Required: seq<string> := ["port", "host"]

  function Get(options: map<string, OptValue>, name: string): Option<OptValue> {
    if name in options then Some(options[name]) else None
  }

  function MissingMessage(name: string): string {
    "Missing required option: " + name
  }

  /** The first required option that is not truthy, in the order given. */
  function FirstMissing(options: map<string, OptValue>, names: seq<string>): (missing: Option<string>)
    ensures missing.Some? ==> missing.value in names && !Truthy(Get(options, missing.value))
    ensures missing.None? <==> forall k :: 0 <= k < |names| ==> Truthy(Get(options, names[k]))
    decreases |names|
  {
    if |names| == 0 then None
    else if !Truthy(Get(options, names[0])) then Some(names[0])
    else FirstMissing(options, names[1..])
  }

  /** What `getError` answers: the parse exception's message, else `help`
      when asked for, else the first missing required option, else null. */
  function ErrorOf(o: Options): (error: Option<string>)
    ensures o.ParseFailed? ==> error == Some(o.message)
    ensures o.Parsed? && Truthy(Get(o.options, "help")) ==> error == Some("help")
    ensures o.Parsed? && !Truthy(Get(o.options, "help")) ==>
      (error.None? <==> Truthy(Get(o.options, "port")) && Truthy(Get(o.options, "host")))
  {
    match o
    case ParseFailed(message) => Some(message)
    case Parsed(options) =>
      if Truthy(Get(options, "help")) then Some("help")
      else
        match FirstMissing(options, Required)
        case Some(name) => Some(MissingMessage(name))
        case None => None
  }

  /** `getError`, with its loop over the required options and early return. */
  method GetError(o: Options) returns (error: Option<string>)
    ensures error == ErrorOf(o)
  {
    if o.ParseFailed? {
      return Some(o.message);
    }
    if Truthy(Get(o.options, "help")) {
      return Some("help");
    }
    var i := 0;
    while i < |Required|
      invariant 0 <= i <= |Required|
      invariant FirstMissing(o.options, Required) == FirstMissing(o.options, Required[i..])
    {
      var requiredOption := Required[i];
      if !Truthy(Get(o.options, requiredOption)) {
        return Some(MissingMessage(requiredOption));
      }
      assert Required[i..][1..] == Required[i + 1..];
      i := i + 1;
    }
    return None;
  }

  /** The port is checked before the host: with neither given the port is
      reported, with only the port given the host is. */
  lemma PortReportedBeforeHost(options: map<string, OptValue>)
    requires !Truthy(Get(options, "help"))
    ensures !Truthy(Get(options, "port")) ==> ErrorOf(Parsed(options)) == Some(MissingMessage("port"))
    ensures Truthy(Get(options, "port")) && !Truthy(Get(options, "host")) ==>
      ErrorOf(Parsed(options)) == Some(MissingMessage("host"))
  {
  }

  /** The help flag is answered even when required options are missing. */
  lemma HelpBeforeMissingOptions(options: map<string, OptValue>)
    requires Get(options, "help") == Some(OBool(true))
    ensures ErrorOf(Parsed(options)) == Some("help")
  {
  }

  /** `isOk`: the error is falsy (null, or an empty exception message). */
  function IsOk(o: Options): (ok: bool)
    ensures ok <==> !TruthyStr(ErrorOf(o))
    ensures o.Parsed? ==>
      (ok <==> (!Truthy(Get(o.options, "help")) && Truthy(Get(o.options, "port")) && Truthy(Get(o.options, "host"))))
  {
    !TruthyStr(ErrorOf(o))
  }

  /** Reading an option: `this.options[name] || defaultValue`, or a TypeError
      when parsing failed and there are no options. */
  datatype Read = Value(value: Option<OptValue>) | TypeError

  function GetOption(o: Options, name: string, defaultValue: Option<OptValue>): (r: Read)
    ensures o.ParseFailed? <==> r.TypeError?
    ensures o.Parsed? && Truthy(Get(o.options, name)) ==> r == Value(Get(o.options, name))
    ensures o.Parsed? && !Truthy(Get(o.options, name)) ==> r == Value(defaultValue)
  {
    match o
    case ParseFailed(_) => TypeError
    case Parsed(options) => if Truthy(Get(options, name)) then Value(Get(options, name)) else Value(defaultValue)
  }

  /** `getOption` never answers a falsy stored value: a port given as 0 reads as the default. */
  lemma GetOptionFalsyUsesDefault(defaultValue: Option<OptValue>)
    ensures GetOption(Parsed(map["port" := ONum(0.0)]), "port", defaultValue) == Value(defaultValue)
  {
  }

  /** The headers of the usage sections `printUsage` prints. */
  function UsageSections(o: Options): (headers: seq<string>)
    ensures |headers| >= 2 && headers[0] == "Shady Worker" && headers[1] == "Options"
    ensures |headers| == 3 <==> TruthyStr(ErrorOf(o)) && ErrorOf(o).value != "help"
    ensures |headers| == 3 ==> headers[2] == ErrorOf(o).value
    ensures |headers| <= 3
  {
    var error := ErrorOf(o);
    ["Shady Worker", "Options"] + if TruthyStr(error) && error.value != "help" then [error.value] else []
  }

  /** Asking for help prints no error section; a missing option does. */
  lemma UsageShowsOnlyRealErrors(options: map<string, OptValue>)
    requires Truthy(Get(options, "help")) || !Truthy(Get(options, "port"))
    ensures Truthy(Get(options, "help")) ==> |UsageSections(Parsed(options))| == 2
    ensures !Truthy(Get(options, "help")) ==> UsageSections(Parsed(options))[2] == MissingMessage("port")
  {
  }
}
