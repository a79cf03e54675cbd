/**
 * The three request models of the tool layer and their validation from the raw
 * argument map of a tool call. Each model is a table of fields with a type, a
 * default for the optional ones, and for `output_format` a pattern restricting it
 * to `default`, `markdown` or `cxml`. Validation is strict: a value is accepted
 * only when its JSON type is the field's type. Keys that name no field are ignored.
 * Every field is checked and every failing field contributes one error, in the
 * order the model declares its fields.
 */
module Requests {
  import opened Wrappers
  import opened Json

  /** The `arguments` object of a tool call. */
  type Arguments = map<string, Json>

  datatype ErrorKind = Missing | WrongType | PatternMismatch

  datatype FieldError = FieldError(field: string, kind: ErrorKind)

  const OutputFormats: set<string> := {"default", "markdown", "cxml"}
  const DefaultOutputFormat := "default"
  const DefaultRespectGitignore := true
  const DefaultCompress := false
  const DefaultTreeDepth := 5
  const DefaultTopN := 10

  /** `ProjectContextRequest`. */
  datatype ContextRequest = ContextRequest(
    rootPath: string,
    includePatterns: Option<seq<string>>,
    excludePatterns: Option<seq<string>>,
    respectGitignore: bool,
    compress: bool,
    outputFormat: string,
    treeDepth: int)

  /** `AnalyseProjectRequest`. */
  datatype AnalyseRequest = AnalyseRequest(
    rootPath: string,
    includePatterns: Option<seq<string>>,
    excludePatterns: Option<seq<string>>,
    respectGitignore: bool,
    topN: int)

  /** `GetFilesRequest`. */
  datatype FilesRequest = FilesRequest(
    rootPath: string,
    paths: seq<string>,
    outputFormat: string)

  /** The outcome of validating one field. */
  datatype Checked<T> = Valid(value: T) | Invalid(error: FieldError) {
    function Errors(): (es: seq<FieldError>)
      ensures es == [] <==> Valid?
    {
      if Valid? then [] else [error]
    }
  }

  predicate AllStrings(items: seq<Json>) {
    forall i :: 0 <= i < |items| ==> items[i].JStr?
  }

  function Strings(items: seq<Json>): (r: seq<string>)
    requires AllStrings(items)
    ensures |r| == |items| && forall i :: 0 <= i < |items| ==> items[i] == JStr(r[i])
  {
    seq(|items|, i requires 0 <= i < |items| => items[i].s)
  }

  function StringArray(items: seq<string>): (r: Json)
    ensures r.JArr? && AllStrings(r.items) && Strings(r.items) == items
  {
    JArr(seq(|items|, i requires 0 <= i < |items| => JStr(items[i])))
  }

  /** A required field of type `Path` (a string in JSON). */
  function PathField(args: Arguments, name: string): (c: Checked<string>)
    ensures name !in args ==> c == Invalid(FieldError(name, Missing))
    ensures name in args ==> (c.Valid? <==> args[name].JStr?)
    ensures c.Valid? ==> args[name] == JStr(c.value)
  {
    if name !in args then Invalid(FieldError(name, Missing))
    else if args[name].JStr? then Valid(args[name].s)
    else Invalid(FieldError(name, WrongType))
  }

  /** A required field of type `List[str]`. */
  function StringListField(args: Arguments, name: string): (c: Checked<seq<string>>)
    ensures name !in args ==> c == Invalid(FieldError(name, Missing))
    ensures name in args ==> (c.Valid? <==> args[name].JArr? && AllStrings(args[name].items))
    ensures c.Valid? ==> args[name] == StringArray(c.value)
  {
    if name !in args then Invalid(FieldError(name, Missing))
    else
      var v := args[name];
      if v.JArr? && AllStrings(v.items) then
        var r := Strings(v.items);
        assert v.items == StringArray(r).items;
        Valid(r)
      else Invalid(FieldError(name, WrongType))
  }

  /** An optional field of type `Optional[List[str]]` whose default is `None`. */
  function OptionalStringListField(args: Arguments, name: string): (c: Checked<Option<seq<string>>>)
    ensures name !in args ==> c == Valid(None)
    ensures c.Valid? <==> name !in args || args[name] == JNull || (args[name].JArr? && AllStrings(args[name].items))
    ensures c.Valid? && c.value.Some? ==> args[name] == StringArray(c.value.value)
    ensures c.Valid? ==> (c.value.None? <==> name !in args || args[name] == JNull)
  {
    if name !in args || args[name] == JNull then Valid(None)
    else
      var v := args[name];
      if v.JArr? && AllStrings(v.items) then
        var r := Strings(v.items);
        assert v.items == StringArray(r).items;
        Valid(Some(r))
      else Invalid(FieldError(name, WrongType))
  }

  /** An optional field of type `bool`. */
  function BoolField(args: Arguments, name: string, default: bool): (c: Checked<bool>)
    ensures name !in args ==> c == Valid(default)
    ensures c.Valid? <==> name !in args || args[name].JBool?
    ensures name in args && c.Valid? ==> args[name] == JBool(c.value)
  {
    if name !in args then Valid(default)
    else if args[name].JBool? then Valid(args[name].b)
    else Invalid(FieldError(name, WrongType))
  }

  /** An optional field of type `int`; no bound is placed on it. */
  function IntField(args: Arguments, name: string, default: int): (c: Checked<int>)
    ensures name !in args ==> c == Valid(default)
    ensures c.Valid? <==> name !in args || args[name].JInt?
    ensures name in args && c.Valid? ==> args[name] == JInt(c.value)
  {
    if name !in args then Valid(default)
    else if args[name].JInt? then Valid(args[name].n)
    else Invalid(FieldError(name, WrongType))
  }

  /** `output_format`: a string matching `^(default|markdown|cxml)$`, `"default"` when absent. */
  function FormatField(args: Arguments, name: string): (c: Checked<string>)
    ensures name !in args ==> c == Valid(DefaultOutputFormat)
    ensures c.Valid? <==> name !in args || (args[name].JStr? && args[name].s in OutputFormats)
    ensures c.Valid? ==> c.value in OutputFormats
    ensures name in args && c.Valid? ==> args[name] == JStr(c.value)
    ensures name in args && args[name].JStr? && args[name].s !in OutputFormats ==> c == Invalid(FieldError(name, PatternMismatch))
  {
    if name !in args then Valid(DefaultOutputFormat)
    else if !args[name].JStr? then Invalid(FieldError(name, WrongType))
    else if args[name].s in OutputFormats then Valid(args[name].s)
    else Invalid(FieldError(name, PatternMismatch))
  }

  /** `ProjectContextRequest(**arguments)`. */
  function ValidateContext(args: Arguments): (r: Result<ContextRequest, seq<FieldError>>)
    ensures r.Success? <==>
      && PathField(args, "root_path").Valid?
      && OptionalStringListField(args, "include_patterns").Valid?
      && OptionalStringListField(args, "exclude_patterns").Valid?
      && BoolField(args, "respect_gitignore", DefaultRespectGitignore).Valid?
      && BoolField(args, "compress", DefaultCompress).Valid?
      && FormatField(args, "output_format").Valid?
      && IntField(args, "tree_depth", DefaultTreeDepth).Valid?
    ensures r.Success? ==> r.value == ContextRequest(
      PathField(args, "root_path").value,
      OptionalStringListField(args, "include_patterns").value,
      OptionalStringListField(args, "exclude_patterns").value,
      BoolField(args, "respect_gitignore", DefaultRespectGitignore).value,
      BoolField(args, "compress", DefaultCompress).value,
      FormatField(args, "output_format").value,
      IntField(args, "tree_depth", DefaultTreeDepth).value)
    ensures r.Success? ==> r.value.outputFormat in OutputFormats
    ensures r.Failure? ==> |r.error| > 0
    ensures "root_path" !in args ==> r.Failure? && FieldError("root_path", Missing) in r.error
  {
    var root := PathField(args, "root_path");
    var included := OptionalStringListField(args, "include_patterns");
    var excluded := OptionalStringListField(args, "exclude_patterns");
    var gitignore := BoolField(args, "respect_gitignore", DefaultRespectGitignore);
    var compress := BoolField(args, "compress", DefaultCompress);
    var format := FormatField(args, "output_format");
    var depth := IntField(args, "tree_depth", DefaultTreeDepth);
    var errors := root.Errors() + included.Errors() + excluded.Errors() + gitignore.Errors()
      + compress.Errors() + format.Errors() + depth.Errors();
    if errors == [] then
      Success(ContextRequest(root.value, included.value, excluded.value, gitignore.value,
        compress.value, format.value, depth.value))
    else
      assert root.Invalid? ==> errors[0] == root.error;
      Failure(errors)
  }

  /** `AnalyseProjectRequest(**arguments)`. */
  function ValidateAnalyse(args: Arguments): (r: Result<AnalyseRequest, seq<FieldError>>)
    ensures r.Success? <==>
      && PathField(args, "root_path").Valid?
      && OptionalStringListField(args, "include_patterns").Valid?
      && OptionalStringListField(args, "exclude_patterns").Valid?
      && BoolField(args, "respect_gitignore", DefaultRespectGitignore).Valid?
      && IntField(args, "top_n", DefaultTopN).Valid?
    ensures r.Success? ==> r.value == AnalyseRequest(
      PathField(args, "root_path").value,
      OptionalStringListField(args, "include_patterns").value,
      OptionalStringListField(args, "exclude_patterns").value,
      BoolField(args, "respect_gitignore", DefaultRespectGitignore).value,
      IntField(args, "top_n", DefaultTopN).value)
    ensures r.Failure? ==> |r.error| > 0
    ensures "root_path" !in args ==> r.Failure? && FieldError("root_path", Missing) in r.error
  {
    var root := PathField(args, "root_path");
    var included := OptionalStringListField(args, "include_patterns");
    var excluded := OptionalStringListField(args, "exclude_patterns");
    var gitignore := BoolField(args, "respect_gitignore", DefaultRespectGitignore);
    var topN := IntField(args, "top_n", DefaultTopN);
    var errors := root.Errors() + included.Errors() + excluded.Errors() + gitignore.Errors() + topN.Errors();
    if errors == [] then
      Success(AnalyseRequest(root.value, included.value, excluded.value, gitignore.value, topN.value))
    else
      assert root.Invalid? ==> errors[0] == root.error;
      Failure(errors)
  }

  /** `GetFilesRequest(**arguments)`. */
  function ValidateFiles(args: Arguments): (r: Result<FilesRequest, seq<FieldError>>)
    ensures r.Success? <==>
      && PathField(args, "root_path").Valid?
      && StringListField(args, "paths").Valid?
      && FormatField(args, "output_format").Valid?
    ensures r.Success? ==> r.value == FilesRequest(
      PathField(args, "root_path").value,
      StringListField(args, "paths").value,
      FormatField(args, "output_format").value)
    ensures r.Success? ==> r.value.outputFormat in OutputFormats
    ensures r.Failure? ==> |r.error| > 0
    ensures "root_path" !in args ==> r.Failure? && FieldError("root_path", Missing) in r.error
    ensures "paths" !in args ==> r.Failure? && FieldError("paths", Missing) in r.error
  {
    var root := PathField(args, "root_path");
    var paths := StringListField(args, "paths");
    var format := FormatField(args, "output_format");
    var errors := root.Errors() + paths.Errors() + format.Errors();
    if errors == [] then
      Success(FilesRequest(root.value, paths.value, format.value))
    else
      assert root.Invalid? ==> errors[0] == root.error;
      assert paths.Invalid? ==> paths.error in errors;
      Failure(errors)
  }

  /** The argument map a client sends to ask for exactly `req`. */
  function ContextArguments(req: ContextRequest): Arguments {
    map[
      "root_path" := JStr(req.rootPath),
      "include_patterns" := OptionalArray(req.includePatterns),
      "exclude_patterns" := OptionalArray(req.excludePatterns),
      "respect_gitignore" := JBool(req.respectGitignore),
      "compress" := JBool(req.compress),
      "output_format" := JStr(req.outputFormat),
      "tree_depth" := JInt(req.treeDepth)]
  }

  function AnalyseArguments(req: AnalyseRequest): Arguments {
    map[
      "root_path" := JStr(req.rootPath),
      "include_patterns" := OptionalArray(req.includePatterns),
      "exclude_patterns" := OptionalArray(req.excludePatterns),
      "respect_gitignore" := JBool(req.respectGitignore),
      "top_n" := JInt(req.topN)]
  }

  function FilesArguments(req: FilesRequest): Arguments {
    map[
      "root_path" := JStr(req.rootPath),
      "paths" := StringArray(req.paths),
      "output_format" := JStr(req.outputFormat)]
  }

  function OptionalArray(items: Option<seq<string>>): Json {
    match items
    case None => JNull
    case Some(xs) => StringArray(xs)
  }

  /** Every context request with an allowed output format is accepted back from its own arguments. */
  lemma ContextRoundTrip(req: ContextRequest)
    requires req.outputFormat in OutputFormats
    ensures ValidateContext(ContextArguments(req)) == Success(req)
  {
    var args := ContextArguments(req);
    OptionalArrayRoundTrip(args, "include_patterns", req.includePatterns);
    OptionalArrayRoundTrip(args, "exclude_patterns", req.excludePatterns);
  }

  lemma AnalyseRoundTrip(req: AnalyseRequest)
    ensures ValidateAnalyse(AnalyseArguments(req)) == Success(req)
  {
    var args := AnalyseArguments(req);
    OptionalArrayRoundTrip(args, "include_patterns", req.includePatterns);
    OptionalArrayRoundTrip(args, "exclude_patterns", req.excludePatterns);
  }

  /** Any list of paths, the empty one included, is accepted. */
  lemma FilesRoundTrip(req: FilesRequest)
    requires req.outputFormat in OutputFormats
    ensures ValidateFiles(FilesArguments(req)) == Success(req)
  {
    var args := FilesArguments(req);
    var c := StringListField(args, "paths");
    assert c.Valid? && StringArray(c.value) == StringArray(req.paths);
    StringArrayInjective(c.value, req.paths);
  }

  lemma OptionalArrayRoundTrip(args: Arguments, name: string, items: Option<seq<string>>)
    requires name in args && args[name] == OptionalArray(items)
    ensures OptionalStringListField(args, name) == Valid(items)
  {
    var c := OptionalStringListField(args, name);
    if items.Some? {
      StringArrayInjective(c.value.value, items.value);
    }
  }

  lemma StringArrayInjective(a: seq<string>, b: seq<string>)
    requires StringArray(a) == StringArray(b)
    ensures a == b
  {
    assert Strings(StringArray(a).items) == a;
  }

  /** With only `root_path` given, every other field takes its declared default. */
  lemma Defaults(root: string)
    ensures ValidateContext(map["root_path" := JStr(root)])
      == Success(ContextRequest(root, None, None, true, false, "default", 5))
    ensures ValidateAnalyse(map["root_path" := JStr(root)])
      == Success(AnalyseRequest(root, None, None, true, 10))
    ensures ValidateFiles(map["root_path" := JStr(root), "paths" := JArr([])])
      == Success(FilesRequest(root, [], "default"))
  {
    var files := map["root_path" := JStr(root), "paths" := JArr([])];
    assert StringListField(files, "paths").value == [];
  }
}
