# codetoprompt-mcp in Dafny

A model of the tool layer of the codetoprompt MCP server. The server offers three
tools to an MCP client:

- `ctp-get-context` turns a whole project directory into one prompt;
- `ctp-analyse-project` returns a plain-text statistics report;
- `ctp-get-files` turns an explicit list of files into a prompt.

The model covers five parts of that layer:

- **Tool listing.** The request models and `TOOL_METADATA` are listed for clients with a JSON schema. Pydantic's schema is cleaned up: `$defs` and `title` are removed, and `format: path` properties become plain strings.
- **Validation.** A call's arguments are validated against its request model.
- **Handlers.** Each handler hands chosen fields to the code-to-prompt engine and wraps the answer as one text item.
- **The analysis report.** `format_analysis_report` renders the engine's analysis as a report.
- **Dispatch.** `handle_call_tool` looks the tool up and maps every `Exception` to an MCP error code.

Modules, one per file:

| file | module | what it holds |
|---|---|---|
| `wrappers.dfy` | `Wrappers` | `Option` and `Result` |
| `text.dfy` | `Text` | the Python formatting the report uses, plus the inverses that say what a rendering means |
| `json.dfy` | `Json` | JSON values; an object is an ordered list of fields, as a Python dict keeps insertion order, with `get`, `del` and item assignment |
| `requests.dfy` | `Requests` | the three request models as validators from an argument map to a request or a list of field errors |
| `tools.dfy` | `Tools` | `pydantic_to_json_schema` as a method proved against the function `NormalizedSchema`; `get_tool_definitions` |
| `report.dfy` | `Report` | `format_analysis_report` as a method that appends lines, proved against the function `ReportLines` |
| `server.dfy` | `Server` | the handlers and `handle_call_tool` |

The `Text` formatting covers the `,` thousands separator, `<`/`>` padding, `.0f` rounding and `str.join`; its inverses are split, comma stripping and integer parsing.

The engine (`CodeToPrompt`) is a parameter. It is a record of two functions, one for `generate_prompt` and one for `analyse`, and each either returns a value or raises an exception. A handler reports the engine calls it made next to its result. That makes statable both "validation failures never reach the engine" and "exactly these fields are forwarded".

Python exceptions become values:
- a handler's run is `Returns(value)` or `Raises(exception)`;
- `handle_call_tool` answers a `Response`, holding the engine calls and either the text content or an `ErrorData`.

In `format_analysis_report`, `row['tokens']` on line 43 is a hard lookup. A by-extension row with a positive `file_count` and no `tokens` key therefore raises `KeyError`. `handle_call_tool` catches that in its first `except` clause, so the client is told `Unknown tool: ctp-analyse-project`. The model keeps this behaviour (`Report.RaisesKeyError`, `Server.AnalyseKeyErrorQuirk`).

Where the code and its written description differ, the model follows the code:
- the report titles count the rows actually listed ("Top len(list)"), not `top_n`;
- `paths` may be an empty list (no minimum length is declared);
- `tree_depth` and `top_n` accept any integer.

## Model

| member | source | states |
|---|---|---|
| Requests.ValidateContext | codetoprompt_mcp/mcp_tools.py:7-14 | succeeds exactly when every field of `ProjectContextRequest` validates, and the request then holds each field's value from the arguments or its default; a success has an allowed output format; a failure lists at least one field error, and a missing `root_path` is among them |
| Requests.ValidateAnalyse | codetoprompt_mcp/mcp_tools.py:17-22 | succeeds exactly when every field of `AnalyseProjectRequest` validates, and the request then holds each field's value from the arguments or its default; a missing `root_path` is reported as a missing-field error |
| Requests.ValidateFiles | codetoprompt_mcp/mcp_tools.py:25-28 | succeeds exactly when `root_path`, `paths` and `output_format` validate, and the request then holds their values; a missing `root_path` or `paths` is reported as a missing-field error |
| Requests.PathField | codetoprompt_mcp/mcp_tools.py:8 | a required path field is missing when absent, accepted exactly when it is a string, and the accepted value is that string |
| Requests.StringListField | codetoprompt_mcp/mcp_tools.py:27 | a required list of strings is missing when absent, accepted exactly when it is an array of strings, and the accepted list is the items in order |
| Requests.OptionalStringListField | codetoprompt_mcp/mcp_tools.py:9-10 | an optional pattern list is accepted exactly when absent, null or a list of strings; it is `None` exactly when absent or null, and otherwise the list given |
| Requests.BoolField | codetoprompt_mcp/mcp_tools.py:11-12 | a flag takes its default when absent and is accepted exactly when absent or a boolean |
| Requests.IntField | codetoprompt_mcp/mcp_tools.py:14 | an integer field takes its default when absent and is accepted exactly when absent or an integer |
| Requests.FormatField | codetoprompt_mcp/mcp_tools.py:13 | `output_format` defaults to "default", is accepted exactly when it is one of default/markdown/cxml, and any other string is a pattern mismatch |
| Requests.ContextRoundTrip | codetoprompt_mcp/mcp_tools.py:7-14 | the argument map a client would send for a context request validates back to that request |
| Requests.AnalyseRoundTrip | codetoprompt_mcp/mcp_tools.py:17-22 | the argument map for an analysis request validates back to that request |
| Requests.FilesRoundTrip | codetoprompt_mcp/mcp_tools.py:25-28 | the argument map for a files request validates back to that request |
| Requests.Defaults | codetoprompt_mcp/mcp_tools.py:7-28 | with only the required fields given, the models take their declared defaults (true, false, "default", 5, 10); an empty `paths` list is accepted |
| Json.Get | codetoprompt_mcp/mcp_tools.py:56 | `d.get(key)` finds a value exactly when the key is present, and the value found belongs to a field with that key |
| Json.Delete | codetoprompt_mcp/mcp_tools.py:49-52 | `del d[key]` leaves no field named `key` and every other key's value unchanged |
| Json.DeleteKeepsOrder | codetoprompt_mcp/mcp_tools.py:49-52 | after `del d[key]` the remaining keys are the old keys without `key`, in their old order |
| Json.Put | codetoprompt_mcp/mcp_tools.py:57 | `d[key] = v` makes `key` read `v`, leaves every other key's value unchanged, and keeps the key order, appending a new key at the end |
| Json.PutSame | codetoprompt_mcp/mcp_tools.py:57 | assigning the same value twice is the same as assigning it once |
| Tools.NormalizedProperty | codetoprompt_mcp/mcp_tools.py:56-58 | a property marked `format: path` gets `type: string` and loses `format`, with every other key unchanged; any other property is kept as it is |
| Tools.NormalizedProperties | codetoprompt_mcp/mcp_tools.py:54-58 | every property definition is normalised in place, names and order kept |
| Tools.PydanticToJsonSchema | codetoprompt_mcp/mcp_tools.py:47-59 | the step-by-step editing of the generated schema yields exactly `NormalizedSchema`, the cleaned schema as a function, whose own properties the rows below state |
| Tools.NormalizePropertiesInPlace | codetoprompt_mcp/mcp_tools.py:54-58 | the loop over `schema["properties"].values()` yields exactly the normalised properties |
| Tools.NormalizedTopLevel | codetoprompt_mcp/mcp_tools.py:49-52 | the cleaned schema has no `$defs` and no `title`, the remaining keys keep their order, `properties` is present exactly when it was, and every other key keeps its value |
| Tools.NormalizedKeys | codetoprompt_mcp/mcp_tools.py:47-59 | cleaning leaves exactly the keys that survive deleting `$defs` and `title`, in place |
| Tools.NormalizedPropertiesShape | codetoprompt_mcp/mcp_tools.py:54-58 | after cleaning, `properties` has the same names in the same order, each normalised |
| Tools.NoPathFormatRemains | codetoprompt_mcp/mcp_tools.py:53-58 | no property of a cleaned schema still carries `format: path` |
| Tools.NormalizeIdempotent | codetoprompt_mcp/mcp_tools.py:47-59 | cleaning a cleaned schema changes nothing |
| Tools.GetToolDefinitions | codetoprompt_mcp/mcp_tools.py:62-71 | three tools in `TOOL_METADATA` order (get-context, analyse-project, get-files), each with its metadata's description and its model's cleaned schema |
| Text.ThousandsStripsToPlain | codetoprompt_mcp/mcp.py:32-34 | `Thousands(n)`, the model of `f"{n:,}"`, without its commas is `str(n)`, which parses back to `n` |
| Text.ThousandsGroups | codetoprompt_mcp/mcp.py:32-34 | in `Thousands(n)`, the model of `f"{n:,}"`, the first group has one to three digits and every later group exactly three |
| Text.SplitJoin | codetoprompt_mcp/mcp.py:58 | when no line holds the separator, splitting `Join(lines, '\n')`, the model of `"\n".join(lines)`, at it gives back the lines |
| Text.LJustShape | codetoprompt_mcp/mcp.py:44 | `LJust(s, w)`, the model of `f"{s:<w}"`, starts with `s` whole and fills the rest with spaces |
| Text.RJustShape | codetoprompt_mcp/mcp.py:44 | `RJust(s, w)`, the model of `f"{s:>w}"`, ends with `s` whole and fills the front with spaces |
| Text.RoundHalfEvenNearest | codetoprompt_mcp/mcp.py:43-44 | `RoundHalfEven(a, b)`, the `.0f` rounding of a quotient, lies within half a divisor of the exact one, and a tie goes to the even neighbour |
| Text.NegatedStripsToPlain | codetoprompt_mcp/mcp.py:44 | `FormatQuotient`, the model of `f"{avg:,.0f}"`, renders a negative average as "-" + `Thousands(m)`; without its commas that parses back to `-m` |
| Report.FormatAnalysisReport | codetoprompt_mcp/mcp.py:26-58 | raises (gives `None`) exactly when some by-extension row raises `KeyError`; otherwise returns the specified report, the lines joined with newlines |
| Report.AppendExtensionSection | codetoprompt_mcp/mcp.py:37-45 | appends nothing for no rows, else title, header, rule, one line per row and a blank line, or raises when a row does |
| Report.AppendExtensionLines | codetoprompt_mcp/mcp.py:42-44 | appends one line per row, in order, unless some row raises `KeyError` |
| Report.AverageOf | codetoprompt_mcp/mcp.py:43 | the average raises exactly for a row with files but no tokens, and is otherwise the specified average cell |
| Report.AppendFilesSection | codetoprompt_mcp/mcp.py:47-56 | appends nothing for no files, else title, header, rule and one line per file |
| Report.AppendFileLines | codetoprompt_mcp/mcp.py:52-56 | appends one line per file, in order |
| Report.ShownPath | codetoprompt_mcp/mcp.py:53-55 | the shown path is the path truncated as specified |
| Report.TruncatedPath | codetoprompt_mcp/mcp.py:53-55 | a path over 38 characters becomes 38 characters, "..." and then its last 35; a shorter one is kept |
| Report.ExtensionRowsOkIffNoneRaises | codetoprompt_mcp/mcp.py:42-43 | the report can be built exactly when no by-extension row has files but no tokens |
| Report.RaisingRowSpoilsAll | codetoprompt_mcp/mcp.py:42-43 | one raising row anywhere makes the whole report raise |
| Report.ReportParts | codetoprompt_mcp/mcp.py:26-58 | `ReportLines`, the report as a list of lines, is the five summary lines, then the by-extension section (rows + 4 lines, or none), then the files section (files + 3 lines, or none) |
| Report.ReportLength | codetoprompt_mcp/mcp.py:26-58 | the report has 5 lines, plus rows + 4 when there are extension rows, plus files + 3 when there are files |
| Report.ExtensionSectionPlacement | codetoprompt_mcp/mcp.py:38-45 | with extension rows, lines 5-7 are title, header and rule, then one line per row, then a blank line |
| Report.FilesSectionPlacement | codetoprompt_mcp/mcp.py:48-56 | with files, the files title, header and rule follow the earlier sections, and the rest is one line per file |
| Report.SummaryReadsBack | codetoprompt_mcp/mcp.py:30-35 | the summary is the title, three labelled totals and a blank line, and each total, commas removed, parses back to the value, or to 0 when it is missing |
| Report.PathCell | codetoprompt_mcp/mcp.py:53-56 | a file line starts with the shown path (at most 38 characters) padded to 40, then the column separator |
| Report.AverageCellNearest | codetoprompt_mcp/mcp.py:43-44 | with no files the average reads "0"; otherwise it parses to the half-even rounding of tokens / files: within half a file of it, even on a tie |
| Report.AverageCellParses | codetoprompt_mcp/mcp.py:44 | the average cell, commas removed, parses to the signed rounded quotient |
| Report.SignedRoundNearest | codetoprompt_mcp/mcp.py:43-44 | the signed rounded quotient is within half a divisor of the exact one, even on a tie |
| Report.ExtensionLineEnds | codetoprompt_mcp/mcp.py:44 | a by-extension line starts with the extension and ends with the average cell |
| Report.ExtensionLineLacksNewline | codetoprompt_mcp/mcp.py:44 | a by-extension line holds no newline when its extension holds none |
| Report.FileLineLacksNewline | codetoprompt_mcp/mcp.py:56 | a file line holds no newline when its path holds none |
| Report.SummaryLacksNewline | codetoprompt_mcp/mcp.py:31-35 | no summary line holds a newline |
| Report.ExtensionSectionLacksNewline | codetoprompt_mcp/mcp.py:38-45 | no line of the by-extension section holds a newline when no extension holds one |
| Report.FilesSectionLacksNewline | codetoprompt_mcp/mcp.py:48-56 | no line of the files section holds a newline when no path holds one |
| Report.ReportSplitsIntoLines | codetoprompt_mcp/mcp.py:58 | when no extension or path holds a newline, splitting the report at newlines gives exactly its lines |
| Report.AverageCellExamples | codetoprompt_mcp/mcp.py:43-44 | 700,000 tokens over 80 files read "8,750"; 2.5 reads "2" and 3.5 reads "4"; no files reads "0"; -0.5 reads "-0" |
| Report.PythonRowExample | codetoprompt_mcp/mcp.py:44 | the ".py" row of 80 files and 700,000 tokens starts with ".py" and ends with "8,750" |
| Report.SummaryOnlyExample | codetoprompt_mcp/mcp.py:30-35 | a summary of 120 files, 4,500 lines and no token total, with no rows, is exactly the five expected lines |
| Server.Answer | codetoprompt_mcp/mcp.py:72 | a handler's answer is a single text item holding the text |
| Server.GetContext | codetoprompt_mcp/mcp.py:60-72 | invalid arguments raise the validation error with no engine call; valid ones make one prompt call with the request's fields and return its prompt or its exception |
| Server.ReportAnswer | codetoprompt_mcp/mcp.py:82-84 | an engine exception passes through; a well-formed analysis gives the report; a raising row gives `KeyError` |
| Server.AnalyseProject | codetoprompt_mcp/mcp.py:74-84 | invalid arguments raise the validation error with no engine call; valid ones make one analysis call and answer with the report of its result |
| Server.ExplicitFiles | codetoprompt_mcp/mcp.py:89 | one file per requested path, in order, each the root joined with the path |
| Server.GetFiles | codetoprompt_mcp/mcp.py:86-96 | invalid arguments raise the validation error with no engine call; valid ones make one prompt call with root, format and explicit files |
| Server.ErrorFor | codetoprompt_mcp/mcp.py:114-119 | `KeyError` gives "Unknown tool: name"; validation and type errors give INVALID_PARAMS; anything else gives INTERNAL_ERROR; the exception's text is the message |
| Server.HandleCallTool | codetoprompt_mcp/mcp.py:105-119 | an unknown name fails as an unknown tool with no engine call; at most one engine call; success only for a known tool, with one text item; every failure is INVALID_PARAMS or INTERNAL_ERROR; for a known tool, the engine calls are the handler's, and the result is the handler's answer unchanged or its exception mapped by `ErrorFor` |
| Server.HandlersMatchToolTable | codetoprompt_mcp/mcp.py:107-111 | the handler table and the listed tools name the same three tools, and each handler's `ModelOf` is the model its listing advertises |
| Server.ListedModelDecides | codetoprompt_mcp/mcp.py:107-113 | each listed tool reaches the engine exactly when the arguments validate against the request model its listing advertises (`ValidatesAgainst`, which also defines `ArgumentsValid`) |
| Server.EngineReachedIffValid | codetoprompt_mcp/mcp.py:112-117 | a known tool reaches the engine exactly when its arguments validate; otherwise no call, and INVALID_PARAMS with the field errors |
| Server.MissingRootPathRejected | codetoprompt_mcp/mcp.py:112-117 | a known tool without `root_path` is refused before the engine, with a missing-field error for `root_path` |
| Server.EngineExceptionMapped | codetoprompt_mcp/mcp.py:112-119 | an exception raised by the engine becomes the error its class maps to; a `KeyError` inside the engine reads as an unknown tool |
| Server.GetFilesForwarding | codetoprompt_mcp/mcp.py:86-96 | `get_files` forwards the given root, the format ("default" when absent) and each requested path behind the root and "/", in order |
| Server.ContextForwarding | codetoprompt_mcp/mcp.py:60-72 | `get_context` forwards every field from the arguments, or the model's default when absent; a pattern list is `None` when absent or null and otherwise the list given |
| Server.AnalyseForwarding | codetoprompt_mcp/mcp.py:74-82 | `analyse_project` forwards the root, both pattern lists (`None` when absent or null), the `.gitignore` flag (true when absent) and `top_n` (10 when absent) |
| Server.PromptReturned | codetoprompt_mcp/mcp.py:60-96 | `get_context` and `get_files` answer with the engine's prompt, unchanged, as the one text item |
| Server.AnalyseReportReturned | codetoprompt_mcp/mcp.py:74-84 | `analyse_project` forwards root and `top_n` (10 when absent), and a well-formed analysis comes back as its report |
| Server.AnalyseKeyErrorQuirk | codetoprompt_mcp/mcp.py:112-115 | an analysis with a row with files but no tokens is reported as "Unknown tool: ctp-analyse-project" |

## Left out

- **Startup and transport.** `serve`, the stdio transport, `asyncio` and server start-up are I/O and are not modelled. That includes the package version lookup and wrapping the definitions as `Tool` objects (mcp.py lines 20-24 and 98-103).
- **Exceptions outside `Exception`.** `KeyboardInterrupt`, `SystemExit` and `asyncio.CancelledError` derive from `BaseException` only. They pass through `except Exception` (mcp.py line 118) unmapped. `Server.Exception` cannot express them: `OtherError` stands for `Exception` subclasses only, so `HandleCallTool`'s "every failure is INVALID_PARAMS or INTERNAL_ERROR" covers only exceptions of class `Exception`.
- **Duplicate keys.** A Python dict holds each key once. A JSON object here is a list of fields and could repeat a key: `Get` reads the first field with it, while `Delete` and `Replace` act on all of them. Only objects with distinct keys stand for dicts, and the cleaning lemmas do not require it.
- **The engine.** The code-to-prompt engine is a parameter, and its behaviour is not modelled. Building the engine and calling it count as one call, so an exception from either is the call's exception.
- **Schema generation.** `model.model_json_schema()` is Pydantic's code. Its output is an input to `Tools.GetToolDefinitions`, required only to be a well-formed object.
- **Validation.** Pydantic's lax coercion is not modelled: the string "5" for an integer, or an int for a bool, is rejected here. Validation is strict by JSON type. Extra keys are ignored, as Pydantic ignores them by default.
- **Error messages.** The text Pydantic renders for a validation error is not modelled. The error carries the list of field errors instead.
- **Non-map arguments.** An `arguments` value that is not a mapping makes `**arguments` raise `TypeError`. This case is not modelled: the arguments are always a map.
- **Paths.** `str(Path(p))` is taken to be `p`. `Path(root) / p` is a plain join with "/". Pathlib's normalisation (a trailing slash, an absolute `p` replacing the root, ".") is not modelled.
- Report.AverageCellNearest: The model rounds the exact quotient half to even. Python first divides to the nearest binary float and then rounds that, and the two steps differ in two ways:
  - A quotient beyond the float range (about 1.8e308) makes `row['tokens'] / row['file_count']` raise `OverflowError`. That becomes INTERNAL_ERROR, where the model renders a number.
  - Otherwise the float is within a relative 2^-53 of the quotient. A quotient with divisor `f` that is not a half-integer lies at least 1/(2f) from every half-integer, and a half-integer below 2^52 is itself a float. So the rounded values can differ only when the absolute token count is at least 2^52.
- Report.FormatAnalysisReport: It works on a list of lines held as a value. The `report.append` calls are reassignments of that value, and no aliasing is involved. The values in the analysis record are taken to be integers and strings. A float count, or a path that is a `Path` object, is not modelled. Nor is a key present with `null`, which the record cannot express. Python treats those cases differently from a missing key:
  - `"overall": null` raises `AttributeError` at `.get`, which becomes INTERNAL_ERROR;
  - a `null` section list is falsy, so that section is skipped;
  - a `null` `file_count` in a by-extension row raises `TypeError` at the `> 0` comparison, which becomes INVALID_PARAMS;
  - a `null` `tokens` in a row with files raises `TypeError` in the division;
  - any other `null` count raises `TypeError` in the `,` format;
  - a `null` `extension` raises `TypeError` in the `<12` format;
  - a `null` `path` does not raise: `str(None)` puts `None` in the path cell.
