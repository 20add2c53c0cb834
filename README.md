# tfvar output formatters, modelled in Dafny

The `tfvar` package reads the input variables declared in a directory of
Terraform configuration and prints them in one of two formats:

- as shell exports, `export TF_VAR_<name>='<value>'`, written line by line to
  a stream (`WriteAsEnvVars`);
- as a variable-definitions file, `<name> = <value>`, built as a structured
  document and written once (`WriteAsTFVars`).

This project models the two formatters and the helpers they share, and proves
what each one promises about its output.

Modules:

- `Cty` (Cty.dfy) holds the configuration value, a tagged union
  `Null | Str | Num | Bool | List | Map`. It also holds `Render`, a stand-in for
  `hclwrite.TokensForValue(v).Bytes()`. A string renders as `"s"`, a list as
  `[a, b]`, `null` as `null`.
- `Stream` (Stream.dfy) holds the output stream, a `Writer` class. Its
  `written: seq<string>` gets one entry per accepted write. It accepts `budget`
  writes, and every write after that fails. `attempts` counts every write
  tried, so the model can state that no write is tried after a failure.
- `Hclwrite` (Hclwrite.dfy) holds the document the definitions formatter
  builds. A `File` owns a `Body`. The body is a sequence of items: runs of
  unstructured tokens (comments, newlines) and attribute assignments.
  `SetAttributeValue` rewrites an existing attribute of the same name, and
  otherwise appends a new one. This is how the document library behaves.
- `Tfvar` (Tfvar.dfy) holds the `Variable` record, the `TF_VAR_` prefix,
  `convertNull`, both formatters as imperative methods, the specification
  functions they are proved against, and the lemmas about them.
- `TfvarExamples` (TfvarExamples.dfy) states the package tests' expected outputs
  on the model.

The tests call both writers with two arguments. These are read as the case with
no header and descriptions off.

Two behaviours of the code are worth stating on their own:

- With descriptions on, the environment formatter always writes
  `# <description>` before the export line, whether or not a description was
  set. An unset description therefore gives a line holding only `# `
  (pkg/tfvar/tfvar.go:78-79).
- The rendered value loses at most one leading `"` (pkg/tfvar/tfvar.go:73) and,
  after that, at most one trailing `"` (pkg/tfvar/tfvar.go:74). Each side is
  checked on its own, so a quote with no partner on the other side is dropped as
  well, and quotes inside the value stay.

## Model

| member | source | states |
|---|---|---|
| `Tfvar.ConvertNull` | pkg/tfvar/tfvar.go:150-156 | the result is never null; a null value becomes the empty string; any other value is returned unchanged |
| `Tfvar.TrimPrefixQuote` | pkg/tfvar/tfvar.go:73 | a leading `"` is removed when there is one (the input is `"` followed by the result); otherwise the text is unchanged |
| `Tfvar.TrimSuffixQuote` | pkg/tfvar/tfvar.go:74 | a trailing `"` is removed when there is one (the input is the result followed by `"`); otherwise the text is unchanged |
| `Tfvar.TrimQuotesSpec` | pkg/tfvar/tfvar.go:72-74 | trimming drops the first character exactly when it is `"` and the last character exactly when it is `"`; everything between them stays, inner quotes included; a lone `"` becomes empty |
| `Tfvar.TrimQuotesOfLiteral` | pkg/tfvar/tfvar.go:71-74 | a rendered string literal `"t"` gives back exactly `t`, even when `t` starts or ends with a quote |
| `Tfvar.TrimQuotesUnquoted` | pkg/tfvar/tfvar.go:72-74 | text that neither starts nor ends with `"` is left unchanged (so `["us-west-1a"]` keeps its inner quotes) |
| `Tfvar.EnvValueSpec` | pkg/tfvar/tfvar.go:69-74 | between the single quotes: nothing for a null value, the bare text for a string, and the rendered literal, unchanged, for a number, bool, list or map |
| `Tfvar.EnvRender` | pkg/tfvar/tfvar.go:69-74 | the convert, render and trim steps compute exactly the value the export line specification uses |
| `Tfvar.EnvWritesShape` | pkg/tfvar/tfvar.go:61-81 | a non-empty header is the first write, as `header + "\n\n"`; an empty header adds no write; after that, each variable gives exactly one write, in input order |
| `Tfvar.DescriptionsOnlyAddComments` | pkg/tfvar/tfvar.go:78-82 | with descriptions on, a variable's write is `"# " + description + "\n"` followed by exactly the export line it gets with descriptions off, whether or not a description was set |
| `Tfvar.ExportLineHead` | pkg/tfvar/tfvar.go:54 | every export line opens with `export ` and the prefix `TF_VAR_`, followed by the variable's name; its length is that of name and value plus 18 |
| `Tfvar.ExportLineRoundTrip` | pkg/tfvar/tfvar.go:79-81 | taking an export line apart (the name between the prefix and the first `=`, the value between the `='` after it and the final `'`) gives back the name and value, for every name without `=` |
| `Tfvar.QuotesInExportLine` | pkg/tfvar/tfvar.go:79-81 | the value goes between single quotes without escaping: the line holds exactly two single quotes more than its name and value together |
| `TfvarExamples.ApostropheInValue` | pkg/tfvar/tfvar.go:72-81 | the string `it's` is exported as `it's`, and its line holds three single quotes, so a shell does not read it back |
| `Tfvar.EnvLineCount` | pkg/tfvar/tfvar.go:78-82 | a variable whose name, value and description hold no line break takes exactly one output line, or two with descriptions on |
| `Tfvar.EnvLinesCount` | pkg/tfvar/tfvar.go:68-87 | when every variable's name and rendered value (and, with descriptions on, its description) hold no line break, the variables' output has exactly one line per variable, or two with descriptions on; a non-empty map renders on several lines and falls outside this |
| `Tfvar.CountConcat` | pkg/tfvar/tfvar.go:68-87 | writes that each end one line (or two) add up to that many lines per write |
| `Tfvar.EnvLineFor` | pkg/tfvar/tfvar.go:69-82 | the line the loop body builds for a variable, with or without its description line, is exactly that variable's planned write |
| `Tfvar.WritePlanned` | pkg/tfvar/tfvar.go:76-86 | a guarded write of the next planned line keeps the sticky-error invariant |
| `Tfvar.WriteUnlessFailed` | pkg/tfvar/tfvar.go:76-86 | once an error is recorded, nothing is written and the error stays; otherwise one write is tried, and its failure, wrapped, becomes the error |
| `Tfvar.StickyStep` | pkg/tfvar/tfvar.go:76-86 | one guarded write of the next planned line keeps the sticky-error invariant: the stream holds exactly the planned writes that fitted, and the error is the first failure |
| `Tfvar.WriteAsEnvVars` | pkg/tfvar/tfvar.go:58-90 | the stream receives exactly the planned writes (header, then one line per variable) up to the first failure, and its budget drops by that many; exactly one write more is tried, the failing one; the result is nil exactly when every write succeeded, and otherwise the wrapped error of the first failed write |
| `Stream.ConcatPrefix` | pkg/tfvar/tfvar.go:83-89 | the text of the first k planned writes is a prefix of the text of all of them |
| `Tfvar.EnvOutputIsPrefix` | pkg/tfvar/tfvar.go:76-89 | whatever the stream holds after the environment formatter, however many writes failed, is a prefix of what it holds when every write succeeds |
| `Tfvar.WriteHeader` | pkg/tfvar/tfvar.go:61-66 | the header, when there is one, is the first planned write, made through the sticky guard; with no header nothing is written |
| `Tfvar.WriteVariables` | pkg/tfvar/tfvar.go:68-87 | the loop makes each variable's planned write in order through the sticky guard, keeping the sticky-error invariant from the first variable to the last |
| `Stream.Writer.Write` | pkg/tfvar/tfvar.go:62-65 | a write either appends its text and uses up one unit of budget, or fails and changes nothing but the attempt count |
| `Tfvar.CommentTextSpec` | pkg/tfvar/tfvar.go:104-116 | the comment starts with `## REQUIRED\n` exactly when the value is null and with `## OPTIONAL\n` otherwise; it ends in a bare `#` exactly when the value is not null; between these sits `# <description>\n` exactly when a description was set |
| `Tfvar.CommentTextFor` | pkg/tfvar/tfvar.go:104-116 | the comment text built piece by piece is exactly the text `CommentTextSpec` characterises |
| `Tfvar.AddVariableTo` | pkg/tfvar/tfvar.go:103-125 | one loop iteration changes the body in place exactly as the document specification adds that variable |
| `Tfvar.MakeCommentTokens` | pkg/tfvar/tfvar.go:132-139 | one comment token whose bytes are the text, verbatim (no `#` is added) |
| `Tfvar.MakeNewlineTokens` | pkg/tfvar/tfvar.go:141-148 | one newline token whose bytes are `\n` |
| `Hclwrite.SetAttribute` | pkg/tfvar/tfvar.go:121-124 | a new name is appended as one assignment at the end; an existing name keeps its position and only its value changes; no other item changes |
| `Hclwrite.AssignmentsSetAttribute` | pkg/tfvar/tfvar.go:121-124 | on the assignments alone, setting an attribute acts as a replace-or-append on name/value pairs |
| `Hclwrite.Body.AppendUnstructuredTokens` | pkg/tfvar/tfvar.go:120-122 | the tokens are added as one item at the end of the body |
| `Hclwrite.Body.SetAttributeValue` | pkg/tfvar/tfvar.go:121-124 | the body becomes the replace-or-append of the assignment |
| `Hclwrite.File.WriteTo` | pkg/tfvar/tfvar.go:128-129 | the whole document is written in one write, which spends one unit of the stream's budget when it succeeds, and that write's failure is returned |
| `Tfvar.WriteAsTFVars` | pkg/tfvar/tfvar.go:94-130 | the body built in place equals the document specification (header comment, then per variable an optional comment, the assignment and an optional newline); it is written once, after the loop, in a single write that spends one unit of budget; the result is nil on success and the wrapped write error otherwise |
| `Tfvar.DocumentOfDistinctNames` | pkg/tfvar/tfvar.go:98-126 | with distinct names, the document is `Unstructured(MakeCommentTokens(header + "\n\n"))` when there is a header, followed by one block per variable in input order: `Attribute(name, value)` alone with descriptions off, and `Unstructured(MakeCommentTokens(CommentText(v)))`, `Attribute(name, value)`, `Unstructured(MakeNewlineTokens())` with descriptions on |
| `Tfvar.DocumentAssignments` | pkg/tfvar/tfvar.go:103-126 | with distinct names, the document assigns each variable exactly once, in input order, to its own value, with null kept as null |
| `Tfvar.DescriptionsKeepAssignments` | pkg/tfvar/tfvar.go:103-126 | for every input, turning descriptions on leaves the document's assignments (names and values, in order) unchanged |
| `Cty.RenderStringList` | pkg/tfvar/tfvar.go:71 | a list of strings renders as `[` + the quoted strings joined by `, ` + `]` |
| `Cty.TokensForValueBytes` | pkg/tfvar/tfvar.go:71-72 | the bytes of the value's tokens are the literal `Render` gives; `RenderQuotesOnlyStrings` and `RenderStringList` state what that literal is for the cases the formatters depend on |
| `Cty.RenderQuotesOnlyStrings` | pkg/tfvar/tfvar.go:71-74 | only a string literal starts or ends with `"`, so trimming touches nothing else |
| `TfvarExamples.SortedDefaults` | pkg/tfvar/tfvar_test.go:56-59 | the test's three variables, sorted by name, have distinct names |
| `TfvarExamples.EnvTestOutput` | pkg/tfvar/tfvar_test.go:62-68 | the planned writes are exactly the three lines the environment test expects |
| `TfvarExamples.EnvTestRun` | pkg/tfvar/tfvar_test.go:61-68 | running the method on a stream that accepts them gives those lines and a nil error |
| `TfvarExamples.EnvStickyRun` | pkg/tfvar/tfvar.go:59-89 | a stream that fails at the second write holds the header alone; exactly two writes are tried; the error is that of the second write |
| `TfvarExamples.TFVarsTestDocument` | pkg/tfvar/tfvar_test.go:71-84 | the test's document is three assignments in order, `region` assigned null |
| `TfvarExamples.TFVarsTestText` | pkg/tfvar/tfvar_test.go:80-83 | the document text is the three expected lines, apart from the alignment of `=` |
| `TfvarExamples.TFVarsCommentExamples` | pkg/tfvar/tfvar.go:104-116 | a required variable with a description gets `## REQUIRED\n# <desc>\n`; an optional one without a description gets `## OPTIONAL\n#` |

## Left out

- `Load` (pkg/tfvar/tfvar.go:30-52) is not modelled. It is a call into Terraform's configuration parser, with filesystem reads and diagnostics. It returns nil and a wrapped error on any diagnostic error. Otherwise it copies each declared variable's fields verbatim, in an unspecified order.
- The body of `hclwrite.TokensForValue` is not modelled. `Cty.Render` stands in for it and is exact only for `null`, bools, strings without characters that need escaping, and lists of such values. String escaping, the formatting of non-integer numbers, the nesting and indentation of maps, and the quoting of map keys that are not identifiers are left out.
- `TfvarExamples.TFVarsTestText`: `hclwrite`'s final serialisation aligns `=` across neighbouring assignments (pkg/tfvar/tfvar_test.go:80-82). `Hclwrite.Bytes` writes `name = value` with single spaces, so the expected text is stated without that alignment.
- `WriteAsTFVars`: the document library may split `f.WriteTo` into several writes. The model writes the document in one write, so it does not cover a failure partway through the document.
- A write that fails is modelled as writing nothing. A real stream may accept part of the text before it fails.
- Error messages from `errors.Wrap` are not modelled. An error is a value naming the formatter, `EnvWriteError` or `TFVarsWriteError`, and carrying the stream's failure.
- `parsingMode` is kept in `Variable` but neither formatter reads it.
- `ParseExport`, `ExportLineRoundTrip`: the value is written between single quotes with no shell escaping. A value that holds `'` gives a line a shell reads differently, or not at all (`QuotesInExportLine`, `ApostropheInValue`). `ParseExport` reads up to the final `'` and so recovers such a value; it is not a model of a shell.
- `Variable` and `VarEnvPrefix` (pkg/tfvar/tfvar.go:20-27, 54) are a datatype and a constant, so they carry no contract. `ExportLineHead` states the prefix, and the rows above state how each field is used.
- Strings are sequences of characters. The Go code's conversions between bytes and strings have no counterpart.
- `DocumentOfDistinctNames`, `DocumentAssignments`: these require distinct variable names. The loader guarantees that. With a repeated name, `SetAttributeValue` rewrites the earlier assignment, and `DescriptionsKeepAssignments` still holds for that case.
- The test file's sorting and its two-argument calls are not modelled. The examples start from the sorted list and pass no header, with descriptions off.
