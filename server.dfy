/**
 * The tool-call side of the server: the three handlers, each of which validates its
 * arguments into a request, hands chosen fields to the code-to-prompt engine and wraps
 * the engine's answer as one text item; and `handle_call_tool`, which looks the tool
 * up in a fixed table and turns every exception into an MCP error.
 *
 * The engine itself is a parameter: a record of two functions, one per kind of
 * engine call, each of which either returns a value or raises an exception. A
 * handler returns the engine calls it made alongside its outcome, so that which
 * fields reach the engine, and whether it is reached at all, can be stated.
 */
module Server {
  import opened Wrappers
  import opened Requests
  import opened Report
  import opened Text
  import opened Json
  import Tools

  /**
   * The exceptions a handler can raise, by the class `handle_call_tool` tells apart. All are
   * `Exception` subclasses: `OtherError` is any other one, and exceptions deriving only from
   * `BaseException` (a cancellation, an interrupt, an exit) are not expressed.
   */
  datatype Exception =
    | ValidationError(errors: seq<FieldError>)
    | TypeError(message: string)
    | KeyError(key: string)
    | OtherError(message: string)

  /** A Python call: it returns a value or raises. */
  datatype Outcome<T> = Returns(value: T) | Raises(exception: Exception)

  /** `CodeToPrompt(...)` followed by `generate_prompt()`, with the constructor arguments given. */
  datatype PromptCall =
    | ContextPrompt(
        rootDir: string,
        includePatterns: Option<seq<string>>,
        excludePatterns: Option<seq<string>>,
        respectGitignore: bool,
        compress: bool,
        outputFormat: string,
        treeDepth: int)
    | FilesPrompt(rootDir: string, outputFormat: string, explicitFiles: seq<string>)

  /** `CodeToPrompt(...)` followed by `analyse(top_n=...)`. */
  datatype AnalyseCall = AnalyseCall(
    rootDir: string,
    includePatterns: Option<seq<string>>,
    excludePatterns: Option<seq<string>>,
    respectGitignore: bool,
    topN: int)

  datatype EngineCall = Generate(prompt: PromptCall) | Analyse(analysis: AnalyseCall)

  /** What the engine answers to each call. */
  datatype Engine = Engine(
    generatePrompt: PromptCall -> Outcome<string>,
    analyse: AnalyseCall -> Outcome<Analysis>)

  /** `TextContent(type="text", text=...)`. */
  datatype TextContent = TextContent(kind: string, text: string)

  /** A handler's run: the engine calls it made, in order, and what it returned or raised. */
  datatype HandlerRun = HandlerRun(calls: seq<EngineCall>, outcome: Outcome<seq<TextContent>>)

  const INVALID_PARAMS: int := -32602
  const INTERNAL_ERROR: int := -32603

  /**
   * The message of an `ErrorData`: `str(e)` of the exception. The text pydantic renders
   * for a validation error is not modelled; the message carries the field errors instead.
   */
  datatype Message = Plain(text: string) | FieldErrors(errors: seq<FieldError>)

  datatype ErrorData = ErrorData(code: int, message: Message)

  /** What `handle_call_tool` answers: the engine calls made and the content or the error raised. */
  datatype Response = Response(calls: seq<EngineCall>, result: Result<seq<TextContent>, ErrorData>)

  /** The single text item every handler returns on success. */
  function Answer(text: string): (r: seq<TextContent>)
    ensures |r| == 1 && r[0].kind == "text" && r[0].text == text
  {
    [TextContent("text", text)]
  }

  /** The engine's prompt as the answer, or the engine's exception passed on. */
  function PromptAnswer(outcome: Outcome<string>): Outcome<seq<TextContent>> {
    match outcome
    case Returns(prompt) => Returns(Answer(prompt))
    case Raises(e) => Raises(e)
  }

  /** The arguments `get_context` gives the engine. */
  function ContextCall(req: ContextRequest): PromptCall {
    ContextPrompt(req.rootPath, req.includePatterns, req.excludePatterns, req.respectGitignore,
      req.compress, req.outputFormat, req.treeDepth)
  }

  /** `get_context`. */
  function GetContext(engine: Engine, args: Arguments): (r: HandlerRun)
    ensures ValidateContext(args).Failure? ==>
      r == HandlerRun([], Raises(ValidationError(ValidateContext(args).error)))
    ensures ValidateContext(args).Success? ==>
      && r.calls == [Generate(ContextCall(ValidateContext(args).value))]
      && r.outcome == PromptAnswer(engine.generatePrompt(ContextCall(ValidateContext(args).value)))
  {
    match ValidateContext(args)
    case Failure(errors) => HandlerRun([], Raises(ValidationError(errors)))
    case Success(req) =>
      var call := ContextCall(req);
      HandlerRun([Generate(call)], PromptAnswer(engine.generatePrompt(call)))
  }

  /** The arguments `analyse_project` gives the engine. */
  function AnalyseProjectCall(req: AnalyseRequest): AnalyseCall {
    AnalyseCall(req.rootPath, req.includePatterns, req.excludePatterns, req.respectGitignore, req.topN)
  }

  /** The report of the engine's analysis, or the `KeyError` formatting it raises. */
  function ReportAnswer(outcome: Outcome<Analysis>): (r: Outcome<seq<TextContent>>)
    ensures outcome.Raises? ==> r == Raises(outcome.exception)
    ensures outcome.Returns? && ExtensionRowsOk(outcome.value.byExtension) ==>
      r == Returns(Answer(Join(ReportLines(outcome.value).value, '\n')))
    ensures outcome.Returns? && !ExtensionRowsOk(outcome.value.byExtension) ==> r == Raises(KeyError("tokens"))
  {
    match outcome
    case Raises(e) => Raises(e)
    case Returns(data) =>
      match RenderedReport(data)
      case None => Raises(KeyError("tokens"))
      case Some(report) => Returns(Answer(report))
  }

  /** `analyse_project`. */
  function AnalyseProject(engine: Engine, args: Arguments): (r: HandlerRun)
    ensures ValidateAnalyse(args).Failure? ==>
      r == HandlerRun([], Raises(ValidationError(ValidateAnalyse(args).error)))
    ensures ValidateAnalyse(args).Success? ==>
      && r.calls == [Analyse(AnalyseProjectCall(ValidateAnalyse(args).value))]
      && r.outcome == ReportAnswer(engine.analyse(AnalyseProjectCall(ValidateAnalyse(args).value)))
  {
    match ValidateAnalyse(args)
    case Failure(errors) => HandlerRun([], Raises(ValidationError(errors)))
    case Success(req) =>
      var call := AnalyseProjectCall(req);
      HandlerRun([Analyse(call)], ReportAnswer(engine.analyse(call)))
  }

  /** `Path(root) / p`, taken as a plain join with `/`. */
  function JoinPath(root: string, path: string): string {
    root + "/" + path
  }

  /** The list comprehension building `explicit_files`: the root joined with each path, in order. */
  function ExplicitFiles(root: string, paths: seq<string>): (r: seq<string>)
    ensures |r| == |paths|
    ensures forall i :: 0 <= i < |paths| ==> r[i] == JoinPath(root, paths[i])
  {
    seq(|paths|, i requires 0 <= i < |paths| => JoinPath(root, paths[i]))
  }

  /** The arguments `get_files` gives the engine: nothing but the root, the format and the files. */
  function FilesCall(req: FilesRequest): PromptCall {
    FilesPrompt(req.rootPath, req.outputFormat, ExplicitFiles(req.rootPath, req.paths))
  }

  /** `get_files`. */
  function GetFiles(engine: Engine, args: Arguments): (r: HandlerRun)
    ensures ValidateFiles(args).Failure? ==>
      r == HandlerRun([], Raises(ValidationError(ValidateFiles(args).error)))
    ensures ValidateFiles(args).Success? ==>
      && r.calls == [Generate(FilesCall(ValidateFiles(args).value))]
      && r.outcome == PromptAnswer(engine.generatePrompt(FilesCall(ValidateFiles(args).value)))
  {
    match ValidateFiles(args)
    case Failure(errors) => HandlerRun([], Raises(ValidationError(errors)))
    case Success(req) =>
      var call := FilesCall(req);
      HandlerRun([Generate(call)], PromptAnswer(engine.generatePrompt(call)))
  }

  datatype Handler = GetContextHandler | AnalyseProjectHandler | GetFilesHandler

  /** The `handlers` dictionary of `handle_call_tool`. */
  const Handlers: map<string, Handler> := map[
    "ctp-get-context" := GetContextHandler,
    "ctp-analyse-project" := AnalyseProjectHandler,
    "ctp-get-files" := GetFilesHandler]

  function RunHandler(handler: Handler, engine: Engine, args: Arguments): HandlerRun {
    match handler
    case GetContextHandler => GetContext(engine, args)
    case AnalyseProjectHandler => AnalyseProject(engine, args)
    case GetFilesHandler => GetFiles(engine, args)
  }

  /** The request model each handler validates its arguments against. */
  function ModelOf(handler: Handler): Tools.Model {
    match handler
    case GetContextHandler => Tools.ProjectContextModel
    case AnalyseProjectHandler => Tools.AnalyseProjectModel
    case GetFilesHandler => Tools.GetFilesModel
  }

  function UnknownTool(name: string): ErrorData {
    ErrorData(INVALID_PARAMS, Plain("Unknown tool: " + name))
  }

  /**
   * The `except` clauses of `handle_call_tool`, tried in order: a `KeyError` from anywhere
   * in the call reads as an unknown tool, a validation or type error as invalid parameters
   * with the exception's text, and any other `Exception` as an internal error with its text.
   */
  function ErrorFor(name: string, e: Exception): (r: ErrorData)
    ensures r.code == INVALID_PARAMS <==> !e.OtherError?
    ensures r.code == INVALID_PARAMS || r.code == INTERNAL_ERROR
    ensures e.KeyError? ==> r == UnknownTool(name)
    ensures e.ValidationError? <==> r.message.FieldErrors?
    ensures e.ValidationError? ==> r.message.errors == e.errors
    ensures e.TypeError? || e.OtherError? ==> r.message == Plain(e.message)
  {
    match e
    case KeyError(_) => UnknownTool(name)
    case ValidationError(errors) => ErrorData(INVALID_PARAMS, FieldErrors(errors))
    case TypeError(message) => ErrorData(INVALID_PARAMS, Plain(message))
    case OtherError(message) => ErrorData(INTERNAL_ERROR, Plain(message))
  }

  /** `handle_call_tool`: the lookup `handlers[name]` and the call share one `try`. */
  function HandleCallTool(engine: Engine, name: string, args: Arguments): (r: Response)
    ensures name !in Handlers ==> r == Response([], Failure(UnknownTool(name)))
    ensures |r.calls| <= 1
    ensures r.result.Success? ==> name in Handlers && |r.result.value| == 1 && r.result.value[0].kind == "text"
    ensures r.result.Failure? ==> r.result.error.code == INVALID_PARAMS || r.result.error.code == INTERNAL_ERROR
    ensures name in Handlers ==>
      var run := RunHandler(Handlers[name], engine, args);
      && r.calls == run.calls
      && (run.outcome.Returns? ==> r.result == Success(run.outcome.value))
      && (run.outcome.Raises? ==> r.result == Failure(ErrorFor(name, run.outcome.exception)))
  {
    if name !in Handlers then Response([], Failure(UnknownTool(name)))
    else
      var run := RunHandler(Handlers[name], engine, args);
      match run.outcome
      case Returns(content) => Response(run.calls, Success(content))
      case Raises(e) => Response(run.calls, Failure(ErrorFor(name, e)))
  }

  /** Whether the arguments pass validation against a request model. */
  predicate ValidatesAgainst(model: Tools.Model, args: Arguments) {
    match model
    case ProjectContextModel => ValidateContext(args).Success?
    case AnalyseProjectModel => ValidateAnalyse(args).Success?
    case GetFilesModel => ValidateFiles(args).Success?
  }

  /** Whether the arguments pass the handler's request model. */
  predicate ArgumentsValid(handler: Handler, args: Arguments) {
    ValidatesAgainst(ModelOf(handler), args)
  }

  /** The exception the engine raises for a call, if it raises one. */
  function Raised(engine: Engine, call: EngineCall): Option<Exception> {
    match call
    case Generate(prompt) =>
      (match engine.generatePrompt(prompt) case Raises(e) => Some(e) case Returns(_) => None)
    case Analyse(analysis) =>
      (match engine.analyse(analysis) case Raises(e) => Some(e) case Returns(_) => None)
  }

  /**
   * Every tool listed to clients has a handler under the same name, validating against
   * the request model the listing advertises, and every handler is listed.
   */
  lemma HandlersMatchToolTable()
    ensures forall i :: 0 <= i < |Tools.ToolTable| ==>
      Tools.ToolTable[i].name in Handlers && ModelOf(Handlers[Tools.ToolTable[i].name]) == Tools.ToolTable[i].model
    ensures forall name :: name in Handlers ==> exists i :: 0 <= i < |Tools.ToolTable| && Tools.ToolTable[i].name == name
  {
    assert Tools.ToolTable[0].name == "ctp-get-context";
    assert Tools.ToolTable[1].name == "ctp-analyse-project";
    assert Tools.ToolTable[2].name == "ctp-get-files";
  }

  /**
   * Every listed tool reaches the engine exactly when the arguments validate against the
   * model its listing advertises.
   */
  lemma ListedModelDecides(engine: Engine, i: nat, args: Arguments)
    requires i < |Tools.ToolTable|
    ensures Tools.ToolTable[i].name in Handlers
    ensures |HandleCallTool(engine, Tools.ToolTable[i].name, args).calls| == 1
      <==> ValidatesAgainst(Tools.ToolTable[i].model, args)
  {
    HandlersMatchToolTable();
    EngineReachedIffValid(engine, Tools.ToolTable[i].name, args);
  }

  /**
   * A known tool reaches the engine exactly when its arguments validate; when they do
   * not, nothing is called and the field errors come back as invalid parameters.
   */
  lemma EngineReachedIffValid(engine: Engine, name: string, args: Arguments)
    requires name in Handlers
    ensures var r := HandleCallTool(engine, name, args);
      && (|r.calls| == 1 <==> ArgumentsValid(Handlers[name], args))
      && (!ArgumentsValid(Handlers[name], args) ==>
        && r.calls == []
        && r.result.Failure?
        && r.result.error.code == INVALID_PARAMS
        && r.result.error.message.FieldErrors?
        && |r.result.error.message.errors| > 0)
  {
  }

  /** A known tool called without `root_path` is refused before the engine, naming the missing field. */
  lemma MissingRootPathRejected(engine: Engine, name: string, args: Arguments)
    requires name in Handlers && "root_path" !in args
    ensures var r := HandleCallTool(engine, name, args);
      && r.calls == []
      && r.result.Failure?
      && r.result.error.code == INVALID_PARAMS
      && r.result.error.message.FieldErrors?
      && FieldError("root_path", Missing) in r.result.error.message.errors
  {
  }

  /**
   * An exception the engine raises surfaces as the error its class maps to; in
   * particular a `KeyError` inside the engine is reported as an unknown tool.
   */
  lemma EngineExceptionMapped(engine: Engine, name: string, args: Arguments)
    requires name in Handlers
    requires var r := HandleCallTool(engine, name, args); |r.calls| == 1 && Raised(engine, r.calls[0]).Some?
    ensures var r := HandleCallTool(engine, name, args);
      r.result == Failure(ErrorFor(name, Raised(engine, r.calls[0]).value))
  {
  }

  /**
   * `get_files` hands the engine the root path, the output format ("default" when
   * absent) and the root joined with each requested path, in order, and nothing else.
   */
  lemma GetFilesForwarding(engine: Engine, args: Arguments)
    requires ValidateFiles(args).Success?
    ensures var r := HandleCallTool(engine, "ctp-get-files", args);
      && |r.calls| == 1 && r.calls[0].Generate? && r.calls[0].prompt.FilesPrompt?
      && var call := r.calls[0].prompt;
      && args["root_path"] == JStr(call.rootDir)
      && ("output_format" !in args ==> call.outputFormat == "default")
      && ("output_format" in args ==> args["output_format"] == JStr(call.outputFormat))
      && args["paths"].JArr?
      && |call.explicitFiles| == |args["paths"].items|
      && forall i :: 0 <= i < |call.explicitFiles| ==>
        args["paths"].items[i] == JStr(call.explicitFiles[i][|call.rootDir| + 1..])
        && call.explicitFiles[i][..|call.rootDir| + 1] == call.rootDir + "/"
  {
    var req := ValidateFiles(args).value;
    var call := FilesCall(req);
    assert args["paths"] == StringArray(req.paths);
    forall i | 0 <= i < |call.explicitFiles|
      ensures args["paths"].items[i] == JStr(call.explicitFiles[i][|call.rootDir| + 1..])
      ensures call.explicitFiles[i][..|call.rootDir| + 1] == call.rootDir + "/"
    {
      assert call.explicitFiles[i] == (req.rootPath + "/") + req.paths[i];
    }
  }

  /**
   * How an optional pattern list reaches the engine: `None` when the argument is absent
   * or null, otherwise the list the argument holds.
   */
  predicate ForwardsPatterns(args: Arguments, name: string, patterns: Option<seq<string>>) {
    if name !in args || args[name] == JNull then patterns == None
    else patterns.Some? && args[name] == StringArray(patterns.value)
  }

  /**
   * `get_context` hands the engine every field of the request, each taken from the
   * arguments or, when absent, from the model's default.
   */
  lemma ContextForwarding(engine: Engine, args: Arguments)
    requires ValidateContext(args).Success?
    ensures var r := HandleCallTool(engine, "ctp-get-context", args);
      && |r.calls| == 1 && r.calls[0].Generate? && r.calls[0].prompt.ContextPrompt?
      && var call := r.calls[0].prompt;
      && args["root_path"] == JStr(call.rootDir)
      && ForwardsPatterns(args, "include_patterns", call.includePatterns)
      && ForwardsPatterns(args, "exclude_patterns", call.excludePatterns)
      && ("respect_gitignore" in args ==> args["respect_gitignore"] == JBool(call.respectGitignore))
      && ("respect_gitignore" !in args ==> call.respectGitignore)
      && ("compress" in args ==> args["compress"] == JBool(call.compress))
      && ("compress" !in args ==> !call.compress)
      && ("output_format" in args ==> args["output_format"] == JStr(call.outputFormat))
      && ("output_format" !in args ==> call.outputFormat == "default")
      && ("tree_depth" in args ==> args["tree_depth"] == JInt(call.treeDepth))
      && ("tree_depth" !in args ==> call.treeDepth == 5)
  {
  }

  /**
   * `analyse_project` hands the engine the root, both pattern lists and the
   * `.gitignore` flag from the arguments (true when absent), and the row count.
   */
  lemma AnalyseForwarding(engine: Engine, args: Arguments)
    requires ValidateAnalyse(args).Success?
    ensures var r := HandleCallTool(engine, "ctp-analyse-project", args);
      && |r.calls| == 1 && r.calls[0].Analyse?
      && var call := r.calls[0].analysis;
      && args["root_path"] == JStr(call.rootDir)
      && ForwardsPatterns(args, "include_patterns", call.includePatterns)
      && ForwardsPatterns(args, "exclude_patterns", call.excludePatterns)
      && ("respect_gitignore" in args ==> args["respect_gitignore"] == JBool(call.respectGitignore))
      && ("respect_gitignore" !in args ==> call.respectGitignore)
      && ("top_n" in args ==> args["top_n"] == JInt(call.topN))
      && ("top_n" !in args ==> call.topN == 10)
  {
  }

  /**
   * `get_context` and `get_files` return the engine's prompt unchanged, as the one text item.
   */
  lemma PromptReturned(engine: Engine, args: Arguments, prompt: string)
    ensures (&& ValidateContext(args).Success?
             && engine.generatePrompt(ContextCall(ValidateContext(args).value)) == Returns(prompt))
      ==> HandleCallTool(engine, "ctp-get-context", args).result == Success(Answer(prompt))
    ensures (&& ValidateFiles(args).Success?
             && engine.generatePrompt(FilesCall(ValidateFiles(args).value)) == Returns(prompt))
      ==> HandleCallTool(engine, "ctp-get-files", args).result == Success(Answer(prompt))
  {
  }

  /**
   * `analyse_project` asks the engine for the number of rows the arguments give (10
   * when absent); the report of a well-formed analysis comes back as the one text item.
   */
  lemma AnalyseReportReturned(engine: Engine, args: Arguments, data: Analysis)
    requires ValidateAnalyse(args).Success?
    requires engine.analyse(AnalyseProjectCall(ValidateAnalyse(args).value)) == Returns(data)
    requires ExtensionRowsOk(data.byExtension)
    ensures var r := HandleCallTool(engine, "ctp-analyse-project", args);
      && |r.calls| == 1 && r.calls[0].Analyse?
      && args["root_path"] == JStr(r.calls[0].analysis.rootDir)
      && ("top_n" in args ==> args["top_n"] == JInt(r.calls[0].analysis.topN))
      && ("top_n" !in args ==> r.calls[0].analysis.topN == 10)
      && r.result == Success(Answer(RenderedReport(data).value))
  {
  }

  /**
   * A by-extension row with files but no "tokens" key makes the report raise
   * `KeyError`, which the server reports as if the analysis tool did not exist.
   */
  lemma AnalyseKeyErrorQuirk(engine: Engine, args: Arguments, data: Analysis, k: int)
    requires ValidateAnalyse(args).Success?
    requires engine.analyse(AnalyseProjectCall(ValidateAnalyse(args).value)) == Returns(data)
    requires 0 <= k < |data.byExtension| && RaisesKeyError(data.byExtension[k])
    ensures HandleCallTool(engine, "ctp-analyse-project", args).result == Failure(UnknownTool("ctp-analyse-project"))
  {
    RaisingRowSpoilsAll(data.byExtension, k);
    assert AnalyseProject(engine, args).outcome == Raises(KeyError("tokens"));
    assert Handlers["ctp-analyse-project"] == AnalyseProjectHandler;
  }
}
