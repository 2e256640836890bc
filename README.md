# Excel reader tool server, modelled in Dafny

The server exposes one tool, `read_excel`, over the Model Context Protocol.
This project models the two handlers in `src/excel_reader_server/server.py`.

- Listing the tools returns a fixed catalog: one tool, whose JSON Schema
  requires a string `file_path`.
- Calling a tool runs four checks in order, and the first one that fails
  decides the error: unknown tool name, missing or empty arguments, missing
  or falsy `file_path`, and a path that does not exist.
- If every check passes, the handler opens the workbook with computed values
  and walks its sheets in storage order. For each sheet it turns every row
  into a list of cell strings: `None` becomes `""`, and any other value
  becomes its `str()` form. It collects the rows under the sheet's name in an
  insertion-ordered dict.
- Any failure while opening or walking the workbook comes back as one error,
  `Error reading Excel file: <detail>`.

Modules:

- `Wrappers`: `Option` and `Result`.
- `PyText`: Python `str()` of ints and bools, plus a decimal parser that undoes it.
- `Spreadsheet`: cells, rows, sheets, and the `Workbook` type, whose sheet names
  are unique. Also `workbook[name]` and the cell-to-text coercion.
- `InsertionDict`: a Python dict with string keys, as a sequence of pairs.
  `d[k] = v` and `d.get(k)` are modelled on it.
- `Extraction`: the specification `Extracted` of the result mapping, and the
  method `ExtractWorkbook`, which runs the handler's nested loops and is
  proved equal to it.
- `Catalog`: the tool list.
- `Dispatch`: argument values with Python truthiness, the error kinds and
  their messages, the specification `CallTool` of the handler, the method
  `HandleCallTool`, and lemmas on the order of the checks, error wrapping
  and success.

The file-existence probe (`os.path.exists`) and the workbook loader
(`openpyxl.load_workbook(..., data_only=True)`) are function parameters.
The loader returns either a `Workbook` or the text of the exception it raised.

The server has one tool, `read_excel`. It checks whether `file_path` exists
exactly as given, without resolving it to an absolute path
(`src/excel_reader_server/server.py:52`).

A chartsheet appears in `workbook.sheetnames`, but it has no `rows`. Reading
one therefore fails inside the `try` block, and the handler wraps that failure
like any other. The model has a `Chartsheet` kind of sheet for this case.

## Model

| member | source | states |
|---|---|---|
| `Catalog.CatalogContents` | src/excel_reader_server/server.py:18-33 | the catalog holds exactly one tool, `read_excel`; its input is an object that requires `file_path`, and `file_path` is declared a string |
| `Dispatch.UnknownToolFirst` | src/excel_reader_server/server.py:42-43 | a name other than `read_excel` gives the unknown-tool error whatever the arguments, and only such a name gives it; the handler's accepted names are exactly the catalog's |
| `Dispatch.MissingArgumentsSecond` | src/excel_reader_server/server.py:45-46 | with the known tool, absent or empty arguments give "Missing arguments", and no other input does |
| `Dispatch.FilePathRequiredThird` | src/excel_reader_server/server.py:48-50 | with the known tool and non-empty arguments, a missing or falsy `file_path` gives "file_path is required", and no other input does |
| `Dispatch.FileNotFoundFourth` | src/excel_reader_server/server.py:52-53 | once those checks pass, a path the probe reports missing gives the not-found error carrying that path, and no other input does |
| `Dispatch.LoaderNotConsulted` | src/excel_reader_server/server.py:52-57 | unless every check passes and the path exists, the answer does not depend on the loader, so the loader is never consulted |
| `Dispatch.ReadFailureWrapped` | src/excel_reader_server/server.py:55-80 | a load failure or a failure while walking the sheets gives a single read error whose message is "Error reading Excel file: " followed by the underlying text, with no partial result |
| `Dispatch.SuccessIsExtraction` | src/excel_reader_server/server.py:57-70 | a successful answer only comes when every check passes, the path exists and the load succeeds; it is the extraction of that workbook, and its keys are the sheet names in storage order |
| `Dispatch.MessageDeterminesKind` | src/excel_reader_server/server.py:42-80 | the five error messages tell their kinds apart; an unknown-tool or read-error message also determines the name or the detail it carries |
| `Dispatch.ConformingArgumentsValid` | src/excel_reader_server/server.py:22-50 | arguments that meet the advertised schema, with a non-empty `file_path`, pass every check that needs no file system |
| `Dispatch.EmptyPathConformsButIsRejected` | src/excel_reader_server/server.py:48-50 | an empty-string `file_path` meets the schema, yet the handler rejects it with "file_path is required" |
| `Dispatch.HandleCallTool` | src/excel_reader_server/server.py:35-80 | the step-by-step handler, with its early exits and its call of the extraction loops, gives exactly the answer `CallTool` specifies |
| `Extraction.ExtractWorkbook` | src/excel_reader_server/server.py:58-70 | the nested loops, which look each sheet up by name, append one row of text at a time and assign `result[name]`, produce exactly `Extracted`: one entry per sheet in order, or the chartsheet failure |
| `Extraction.ExtractedKeys` | src/excel_reader_server/server.py:61-70 | on success the result's keys are the workbook's sheet names, in storage order |
| `Extraction.ExtractedShape` | src/excel_reader_server/server.py:66-68 | on success each entry has one row per sheet row in order, each row has one string per cell in column order, and each string is that cell's text |
| `Extraction.ExtractedFails` | src/excel_reader_server/server.py:62-66 | extraction fails exactly when some sheet is a chartsheet, and then with the missing-`rows` attribute text |
| `Spreadsheet.LookupByName` | src/excel_reader_server/server.py:61-62 | looking a sheet up by a name taken from `sheetnames` finds that same sheet, because names are unique |
| `Spreadsheet.CellTextEmpty` | src/excel_reader_server/server.py:67 | a cell's text is `""` exactly when the cell is `None`, or is a value whose string form is empty |
| `Spreadsheet.IntegerCellText` | src/excel_reader_server/server.py:67 | an integer cell becomes a decimal string literal, never a number, and the integer can be read back from it |
| `Spreadsheet.FortyTwoCellText` | src/excel_reader_server/server.py:67 | the integer 42 becomes `"42"`, and an empty cell becomes `""` |
| `PyText.NatToString` | src/excel_reader_server/server.py:67 | `str()` of a non-negative int is a non-empty run of digits, with no leading zero for a positive value and a single digit for a value below 10 |
| `PyText.IntToString` | src/excel_reader_server/server.py:67 | `str()` of an int is a decimal literal with no leading zero for a non-zero value, and it starts with a minus sign exactly when the int is negative |
| `PyText.BoolToString` | src/excel_reader_server/server.py:67 | `str()` of a bool is `"True"` or `"False"`, `"True"` exactly when the bool is true, and never an integer literal such as `"1"` |
| `PyText.IntRoundTrip` | src/excel_reader_server/server.py:67 | parsing the text `str()` gives an int returns that int |
| `PyText.IntToStringInjective` | src/excel_reader_server/server.py:67 | two different ints never get the same text |
| `InsertionDict.AssignFresh` | src/excel_reader_server/server.py:70 | assigning a key that is not yet in the dict appends the pair at the end |
| `InsertionDict.AssignExisting` | src/excel_reader_server/server.py:70 | assigning a key that is already in the dict leaves the key order unchanged |
| `InsertionDict.AssignGet` | src/excel_reader_server/server.py:70 | after `d[k] = v`, looking up `k` gives `v`, and every other key gives what it gave before |
| `Catalog.ListTools` | src/excel_reader_server/server.py:18-33 | the fixed tool list; `CatalogContents` states what it holds |
| `Dispatch.CallTool` | src/excel_reader_server/server.py:42-80 | the handler's answer as a function of the tool name, the arguments, the existence probe and the loader; each outcome is characterized by `UnknownToolFirst`, `MissingArgumentsSecond`, `FilePathRequiredThird`, `FileNotFoundFourth`, `ReadFailedOnlyFromReading`, `SuccessWhenEveryStepSucceeds` and `SuccessIsExtraction` |
| `Dispatch.Truthy` | src/excel_reader_server/server.py:45-49 | Python truthiness of an argument value, used by `not file_path`; `FilePathRequiredThird` and `EmptyPathConformsButIsRejected` state its effect |
| `Dispatch.GetArg` | src/excel_reader_server/server.py:48 | `arguments.get("file_path")`, `None` for a missing key; `FilePathRequiredThird` and `FileNotFoundFourth` state its use |
| `Dispatch.PyStr` | src/excel_reader_server/server.py:53 | `str()` of the argument value quoted in the not-found message; used by `Message` |
| `Dispatch.Message` | src/excel_reader_server/server.py:42-80 | the text of each error; `MessageDeterminesKind` shows the kinds are told apart, and `ReadFailureWrapped` gives the read-error prefix |
| `Dispatch.SuccessWhenEveryStepSucceeds` | src/excel_reader_server/server.py:55-77 | when every check passes, the path exists, the load succeeds and every sheet is a worksheet, the answer is `Success` with the extraction of the workbook, keyed by its sheet names in order |
| `Dispatch.ReadFailedOnlyFromReading` | src/excel_reader_server/server.py:55-80 | the read error comes exactly when every check passes, the path exists, and then either the load fails or some sheet is a chartsheet |
| `Extraction.Extracted` | src/excel_reader_server/server.py:58-70 | the result mapping of a workbook, or the chartsheet failure; `ExtractedKeys`, `ExtractedShape` and `ExtractedFails` state its properties, and `ExtractWorkbook` is proved equal to it |
| `Spreadsheet.Lookup` | src/excel_reader_server/server.py:62 | `workbook[name]`, the dict lookup `InsertionDict.Get` on the name-to-sheet list; it finds a sheet exactly when the name is among the sheet names, and `LookupByName` shows it finds the listed one |
| `Spreadsheet.CellText` | src/excel_reader_server/server.py:67 | `""` for `None`, otherwise `str()` of the value; `CellTextEmpty`, `IntegerCellText` and `FortyTwoCellText` state its properties |
| `InsertionDict.Assign` | src/excel_reader_server/server.py:70 | `d[k] = v` grows the dict by one exactly when `k` is new, and afterwards holds the pair `(k, v)`; `AssignFresh`, `AssignExisting`, `AssignGet` and `AssignKeepsDistinct` state the rest |
| `InsertionDict.AssignKeepsDistinct` | src/excel_reader_server/server.py:70 | `d[k] = v` never creates a second entry for a key |
| `Spreadsheet.SheetNames` | src/excel_reader_server/server.py:61 | `workbook.sheetnames`, the keys of the name-to-sheet list in storage order; `ExtractedKeys` and `LookupByName` state its properties |
| `Spreadsheet.RowText` | src/excel_reader_server/server.py:67 | the comprehension mapping each cell of a row to its text, in column order; `ExtractedShape` states its properties |
| `Spreadsheet.SheetText` | src/excel_reader_server/server.py:66-68 | the value `sheet_data` holds after the inner loop: one row of text per sheet row, in order; `ExtractedShape` states its properties |
| `InsertionDict.Get` | src/excel_reader_server/server.py:62 | lookup of the first pair with a key, which finds something exactly when the key is among the dict's keys; `AssignGet` relates it to assignment |

## Left out

- JSON serialization: the `json.dumps(result, indent=2)` text and the `TextContent` envelope are not modelled. The answer is the structured mapping.
- Transport and lifecycle: the MCP server object, its decorators, async execution, `main` and the stdio transport are not modelled.
- Argument checking by the MCP library against the input schema: not modelled, since whether it happens depends on the library version. The model covers the handler on its own.
- `os.path.exists`: modelled as the parameter `pathExists`, which always returns a bool. Two cases raise instead, before the `try` block, so the error escapes the handler without being wrapped. The model captures neither:
  - a `file_path` that is neither a string nor an int (a list or a float, say) makes `os.stat` raise `TypeError`;
  - an int `file_path` outside the range of a C `int` makes `os.stat` raise `OverflowError`.
  `genericpath.exists` catches only `OSError` and `ValueError`.
- Workbook parsing by openpyxl: modelled as the parameter `load`. The row extent `sheet.rows` reports is the library's decision; the model takes the rows as given.
- Python `str()` of floats, dates, times and durations: not modelled. A `Formatted` cell, and an `Other` argument value, carries the text `str()` gives it.
- Float, list and object argument values: modelled only through their truthiness and their `str()` form.
- Python's default limit of 4300 digits when converting an int to a string: not modelled. Past that limit `str()` raises `ValueError`, which the handler would wrap as a read error.
- Sheet names: the model only requires them to be unique as exact strings. openpyxl also keeps them distinct ignoring case, which the model does not need.
