/** The tool-call handler: the ordered argument checks, then reading the
    workbook, with every failure while reading reported under one message. */
module Dispatch {
  import opened Wrappers
  import opened PyText
  import opened Spreadsheet
  import opened InsertionDict
  import opened Extraction
  import opened Catalog

  /** A JSON argument value as Python sees it. `Other` stands for floats,
      lists and objects, which matter here only through their truthiness and
      their `str()` form, both of which it carries. */
  datatype Value =
    | Null
    | Bool(b: bool)
    | Int(i: int)
    | Str(s: string)
    | Other(truthy: bool, shown: string)

  type Arguments = map<string, Value>

  /** Python truthiness: `None`, `False`, `0` and `""` are false. */
  predicate Truthy(v: Value) {
    match v
    case Null => false
    case Bool(b) => b
    case Int(i) => i != 0
    case Str(s) => s != ""
    case Other(truthy, _) => truthy
  }

  /** `str(v)`. */
  function PyStr(v: Value): string {
    match v
    case Null => "None"
    case Bool(b) => BoolToString(b)
    case Int(i) => IntToString(i)
    case Str(s) => s
    case Other(_, shown) => shown
  }

  /** `arguments.get(key)`: `None` for a missing key. */
  function GetArg(args: Arguments, key: string): Value {
    if key in args then args[key] else Null
  }

  /** The tool names the handler accepts, written out in the handler itself. */
  const KnownTools := [ReadExcel]

  /** The `ValueError`s the handler raises, by cause. */
  datatype ToolError =
    | UnknownTool(name: string)
    | MissingArguments
    | FilePathRequired
    | FileNotFound(path: Value)
    | ReadFailed(detail: string)

  const ReadFailedPrefix := "Error reading Excel file: "

  function Message(e: ToolError): string {
    match e
    case UnknownTool(name) => "Unknown tool: " + name
    case MissingArguments => "Missing arguments"
    case FilePathRequired => "file_path is required"
    case FileNotFound(path) => "Excel file not found: " + PyStr(path)
    case ReadFailed(detail) => ReadFailedPrefix + detail
  }

  /** What loading a workbook from a path gives: the workbook, or the text of
      the exception the library raised. */
  datatype LoadOutcome = Loaded(wb: Workbook) | LoadFailed(detail: string)

  /** The handler's answer for tool `name` called with `arguments`, given the
      file-existence probe `pathExists` and the workbook loader `load`. */
  function CallTool(
    name: string, arguments: Option<Arguments>,
    pathExists: Value -> bool, load: Value -> LoadOutcome): Result<Payload, ToolError>
  {
    if name !in KnownTools then Failure(UnknownTool(name))
    else if arguments.None? || arguments.value == map[] then Failure(MissingArguments)
    else
      var path := GetArg(arguments.value, FilePathKey);
      if !Truthy(path) then Failure(FilePathRequired)
      else if !pathExists(path) then Failure(FileNotFound(path))
      else match load(path)
        case LoadFailed(detail) => Failure(ReadFailed(detail))
        case Loaded(wb) =>
          match Extracted(wb)
          case Failure(detail) => Failure(ReadFailed(detail))
          case Success(payload) => Success(payload)
  }

  /** `handle_call_tool`, step by step: each check exits early, and the file is
      loaded and walked only once all of them pass. */
  method HandleCallTool(
    name: string, arguments: Option<Arguments>,
    pathExists: Value -> bool, load: Value -> LoadOutcome) returns (r: Result<Payload, ToolError>)
    ensures r == CallTool(name, arguments, pathExists, load)
  {
    if name !in KnownTools {
      return Failure(UnknownTool(name));
    }
    if arguments.None? || arguments.value == map[] {
      return Failure(MissingArguments);
    }
    var filePath := GetArg(arguments.value, FilePathKey);
    if !Truthy(filePath) {
      return Failure(FilePathRequired);
    }
    if !pathExists(filePath) {
      return Failure(FileNotFound(filePath));
    }
    var loaded := load(filePath);
    if loaded.LoadFailed? {
      return Failure(ReadFailed(loaded.detail));
    }
    var extracted := ExtractWorkbook(loaded.wb);
    if extracted.Failure? {
      return Failure(ReadFailed(extracted.error));
    }
    return Success(extracted.value);
  }

  /** `arguments` is present and holds at least one entry. */
  predicate ArgumentsGiven(arguments: Option<Arguments>) {
    arguments.Some? && arguments.value != map[]
  }

  /** The checks that need no file system all pass: known tool, arguments
      given, `file_path` truthy. */
  predicate ArgumentsValid(name: string, arguments: Option<Arguments>) {
    name == ReadExcel && ArgumentsGiven(arguments) &&
    Truthy(GetArg(arguments.value, FilePathKey))
  }

  /** The tool name is checked first: a name outside the catalog gives the
      unknown-tool error whatever the arguments, and only such a name does. */
  lemma UnknownToolFirst(
    name: string, arguments: Option<Arguments>,
    pathExists: Value -> bool, load: Value -> LoadOutcome)
    ensures CallTool(name, arguments, pathExists, load) == Failure(UnknownTool(name))
      <==> name !in ToolNames(ListTools())
    ensures CallTool(name, arguments, pathExists, load).Failure? &&
      CallTool(name, arguments, pathExists, load).error.UnknownTool?
      <==> name !in ToolNames(ListTools())
  {
    CatalogContents();
  }

  /** For the known tool, absent or empty arguments give "Missing arguments"
      before `file_path` is looked at, and nothing else does. */
  lemma MissingArgumentsSecond(
    name: string, arguments: Option<Arguments>,
    pathExists: Value -> bool, load: Value -> LoadOutcome)
    ensures CallTool(name, arguments, pathExists, load) == Failure(MissingArguments)
      <==> name == ReadExcel && !ArgumentsGiven(arguments)
  {
  }

  /** With the known tool and some arguments, a missing or falsy `file_path`
      gives "file_path is required", and nothing else does. */
  lemma FilePathRequiredThird(
    name: string, arguments: Option<Arguments>,
    pathExists: Value -> bool, load: Value -> LoadOutcome)
    ensures CallTool(name, arguments, pathExists, load) == Failure(FilePathRequired)
      <==> name == ReadExcel && ArgumentsGiven(arguments) &&
           !Truthy(GetArg(arguments.value, FilePathKey))
  {
  }

  /** Once the arguments are valid, a path that does not exist gives the
      not-found error naming that path, and nothing else does. */
  lemma FileNotFoundFourth(
    name: string, arguments: Option<Arguments>,
    pathExists: Value -> bool, load: Value -> LoadOutcome)
    ensures CallTool(name, arguments, pathExists, load).Failure? &&
      CallTool(name, arguments, pathExists, load).error.FileNotFound?
      <==> ArgumentsValid(name, arguments) && !pathExists(GetArg(arguments.value, FilePathKey))
    ensures ArgumentsValid(name, arguments) && !pathExists(GetArg(arguments.value, FilePathKey)) ==>
      CallTool(name, arguments, pathExists, load) ==
        Failure(FileNotFound(GetArg(arguments.value, FilePathKey)))
  {
  }

  /** The loader is consulted only once every check has passed: until then,
      any two loaders give the same answer. */
  lemma LoaderNotConsulted(
    name: string, arguments: Option<Arguments>,
    pathExists: Value -> bool, load1: Value -> LoadOutcome, load2: Value -> LoadOutcome)
    requires !(ArgumentsValid(name, arguments) && pathExists(GetArg(arguments.value, FilePathKey)))
    ensures CallTool(name, arguments, pathExists, load1) == CallTool(name, arguments, pathExists, load2)
  {
  }

  /** A failure while loading or walking the workbook is reported as one
      error whose message is the fixed prefix followed by the library's text,
      and no partial result comes back. */
  lemma ReadFailureWrapped(
    name: string, arguments: Option<Arguments>,
    pathExists: Value -> bool, load: Value -> LoadOutcome)
    requires ArgumentsValid(name, arguments)
    requires pathExists(GetArg(arguments.value, FilePathKey))
    ensures var outcome := load(GetArg(arguments.value, FilePathKey));
      var r := CallTool(name, arguments, pathExists, load);
      (outcome.LoadFailed? ==>
         r == Failure(ReadFailed(outcome.detail)) &&
         Message(r.error) == ReadFailedPrefix + outcome.detail) &&
      (outcome.Loaded? && !AllWorksheets(outcome.wb) ==>
         r == Failure(ReadFailed(NoRowsDetail)) &&
         Message(r.error) == ReadFailedPrefix + NoRowsDetail)
  {
  }

  /** A successful answer comes only from a loaded workbook of worksheets,
      and maps exactly its sheet names, in storage order, to the text of
      their rows. */
  lemma SuccessIsExtraction(
    name: string, arguments: Option<Arguments>,
    pathExists: Value -> bool, load: Value -> LoadOutcome)
    requires CallTool(name, arguments, pathExists, load).Success?
    ensures ArgumentsValid(name, arguments)
    ensures var path := GetArg(arguments.value, FilePathKey);
      pathExists(path) && load(path).Loaded? && AllWorksheets(load(path).wb) &&
      CallTool(name, arguments, pathExists, load).value == Extracted(load(path).wb).value &&
      Keys(CallTool(name, arguments, pathExists, load).value) == SheetNames(load(path).wb)
  {
    var path := GetArg(arguments.value, FilePathKey);
    ExtractedKeys(load(path).wb);
  }

  /** When every check passes, the path exists, the load succeeds and every
      sheet is a worksheet, the answer is the extraction of that workbook. */
  lemma SuccessWhenEveryStepSucceeds(
    name: string, arguments: Option<Arguments>,
    pathExists: Value -> bool, load: Value -> LoadOutcome)
    requires ArgumentsValid(name, arguments)
    requires var path := GetArg(arguments.value, FilePathKey);
      pathExists(path) && load(path).Loaded? && AllWorksheets(load(path).wb)
    ensures var wb := load(GetArg(arguments.value, FilePathKey)).wb;
      CallTool(name, arguments, pathExists, load) == Success(Extracted(wb).value) &&
      Keys(CallTool(name, arguments, pathExists, load).value) == SheetNames(wb)
  {
    ExtractedKeys(load(GetArg(arguments.value, FilePathKey)).wb);
  }

  /** The read error comes exactly from a failed load or a chartsheet, once
      every check has passed and the path exists. */
  lemma ReadFailedOnlyFromReading(
    name: string, arguments: Option<Arguments>,
    pathExists: Value -> bool, load: Value -> LoadOutcome)
    ensures CallTool(name, arguments, pathExists, load).Failure? &&
      CallTool(name, arguments, pathExists, load).error.ReadFailed?
      <==> ArgumentsValid(name, arguments) &&
           var path := GetArg(arguments.value, FilePathKey);
           pathExists(path) &&
           (load(path).LoadFailed? || !AllWorksheets(load(path).wb))
  {
  }

  /** The first two characters of each kind of message. */
  lemma MessageHead(e: ToolError)
    ensures |Message(e)| >= 2
    ensures e.UnknownTool? ==> Message(e)[..2] == "Un"
    ensures e.MissingArguments? ==> Message(e)[..2] == "Mi"
    ensures e.FilePathRequired? ==> Message(e)[..2] == "fi"
    ensures e.FileNotFound? ==> Message(e)[..2] == "Ex"
    ensures e.ReadFailed? ==> Message(e)[..2] == "Er"
  {
  }

  /** The error kinds have messages that tell them apart; an unknown-tool or
      read-failure message also gives back the name or the detail. */
  lemma MessageDeterminesKind(e1: ToolError, e2: ToolError)
    requires Message(e1) == Message(e2)
    ensures e1.UnknownTool? <==> e2.UnknownTool?
    ensures e1.MissingArguments? <==> e2.MissingArguments?
    ensures e1.FilePathRequired? <==> e2.FilePathRequired?
    ensures e1.FileNotFound? <==> e2.FileNotFound?
    ensures e1.ReadFailed? <==> e2.ReadFailed?
    ensures e1.UnknownTool? || e1.ReadFailed? ==> e1 == e2
  {
    var m := Message(e1);
    MessageHead(e1);
    MessageHead(e2);
    if e1.UnknownTool? && e2.UnknownTool? {
      assert e1.name == m[|"Unknown tool: "|..];
      assert e2.name == m[|"Unknown tool: "|..];
    }
    if e1.ReadFailed? && e2.ReadFailed? {
      assert e1.detail == m[|ReadFailedPrefix|..];
      assert e2.detail == m[|ReadFailedPrefix|..];
    }
  }

  /** Arguments that meet the advertised schema: every required field is
      present, and every field declared a string is one. */
  predicate Conforms(args: Arguments, schema: InputSchema) {
    (forall r :: r in schema.required ==> r in args) &&
    (forall k :: k in args && PropertyType(schema, k) == "string" ==> args[k].Str?)
  }

  /** Arguments that meet the catalog's schema with a non-empty `file_path` get
      past every check that needs no file system. */
  lemma ConformingArgumentsValid(args: Arguments)
    requires Conforms(args, ListTools()[0].inputSchema)
    requires GetArg(args, FilePathKey) != Str("")
    ensures ArgumentsValid(ListTools()[0].name, Some(args))
  {
    CatalogContents();
    assert FilePathKey in ListTools()[0].inputSchema.required;
  }

  /** The schema does not forbid an empty `file_path`, which the handler
      still rejects. */
  lemma EmptyPathConformsButIsRejected(pathExists: Value -> bool, load: Value -> LoadOutcome)
    ensures Conforms(map[FilePathKey := Str("")], ListTools()[0].inputSchema)
    ensures CallTool(ReadExcel, Some(map[FilePathKey := Str("")]), pathExists, load) ==
      Failure(FilePathRequired)
  {
    CatalogContents();
  }
}
