# fem-reference-results: README rendering and new-entity bookkeeping

The repository generates finite-element input decks by scripting an external
meshing session (Cubit, through CubitPy). Almost everything it does happens in
that session or in the downstream solver. Two pieces of shared Python logic can
be stated on their own, and this Dafny project models them:

- **`write_readme`** (`src/femref/utils.py`). It normalises the target path,
  so that a directory gets `/README.md` appended. It then renders the options
  mapping of a generator script as Markdown: a `# title` header, the
  description, one `## key` section with a two-column parameter table for
  every mapping-valued option, and a closing `Last updated:` line.
  - Module `ReadmePath` models the path step.
  - Module `Readme` models the text the function writes, as one pure function
    `Render`. It also gives a line-by-line description of the same text: a
    `Document` and its `Print`.
  - Module `ReadmeParse` holds the reader for that
    text. The reader is the partner of the renderer: a rendered README reads
    back as exactly the title, description, tables (in insertion order, rows
    in insertion order) and update stamp it was made from.
- **`cubit_cmd`** (`src/femref/cubit_utils.py`). It lists the entity IDs before
  and after a command and reports the set difference. It returns a bare ID
  when exactly one ID is new and flattening is allowed. Module `NewEntities`
  models this as a method over the two ID lists.

Modules `Wrappers` (`Option`, `Result`) and `Lines` (prefix and suffix tests,
first occurrence, newline-terminated lines with `Join`/`Split` proved
inverse) are support code.

Modelling choices:

- The options mapping is an ordered `seq<(string, Entry)>`, where
  `Entry = Scalar(text) | Mapping(params)`. Values are already rendered to
  strings.
- `Lookup` returns the first entry with the key. A Python dict never repeats
  a key, so which one it picks is immaterial.
- A missing `title` or `description` is `Err(MissingKey(key, written))`. This
  stands for the `KeyError` the dictionary lookups raise. `title` is looked up
  first, as in the source.
- The file is opened with `"w"`, and so truncated, before the lookups run, and
  the title is written before the description is looked up. `written` is the
  text the file holds when the error is raised. It is empty for a missing
  title. For a missing description it is `# <title>` and a blank line.
- A mapping-valued title or description is interpolated by the parameter
  `show`. This is an unconstrained stand-in, not Python's `str()` of a dict
  (see "## Left out").
- `CubitCmd`'s flag `flattenIfPossible` defaults to `true`, as in the source.
- The `datetime.now().strftime(...)` reading is the string parameter `updated`.
- `cubit_cmd` converts both lists to sets. It returns `list(set)`, whose order
  Python leaves unspecified. The contract of `NewEntities.CubitCmd` therefore
  states membership, absence of repetitions and the count, and never an order.

## Model

| member | source | states |
|---|---|---|
| `ReadmePath.NormalizePath` | src/femref/utils.py:19-20 | the result always ends with `README.md` and starts with the input; it equals the input exactly when the input already ends with `README.md` (a plain suffix test); otherwise the input is followed by `/README.md` |
| `ReadmePath.NormalizeIdempotent` | src/femref/utils.py:19-20 | normalising an already normalised path changes nothing |
| `ReadmePath.KeepsAnyReadmeSuffix` | src/femref/utils.py:19 | `xREADME.md` passes the suffix test and is kept unchanged |
| `ReadmePath.AppendsToDirectory` | src/femref/utils.py:19-20 | `out` becomes `out/README.md`, and `out/` becomes `out//README.md` (no separator is collapsed) |
| `Readme.Lookup` | src/femref/utils.py:24-25 | the lookup fails exactly when no entry has the key, and a found value is stored under that key |
| `Readme.Render` | src/femref/utils.py:5-36 | rendering succeeds exactly when both `title` and `description` are present; a missing `title` is reported before a missing `description`, with an empty file; a missing `description` leaves the title line and a blank line written; the text starts with `# title`, a blank line, the description and two blank lines, and ends with `Last updated: <stamp>` and a newline |
| `Readme.Tables` | src/femref/utils.py:27-28 | a table is produced for an entry exactly when the entry is mapping-valued, with its key and parameters; there are never more tables than entries |
| `Readme.TablesAppend` | src/femref/utils.py:27-33 | sections follow the options' insertion order: the tables of concatenated options are the concatenation of their tables |
| `Readme.ScalarAddsNoTable` | src/femref/utils.py:27-28 | inserting a scalar entry anywhere leaves the sections unchanged |
| `Readme.RenderIsPrint` | src/femref/utils.py:24-36 | the source's sequence of writes equals the line layout of the document: the header lines; per table the `## key` line, the header row, the rule row, one table row per parameter and two blank lines; then the update line. On a missing key both sides give the same error, which carries the partial text already written |
| `ReadmeParse.ParseRow` | src/femref/utils.py:32 | a row read back prints as that same row line, and its parameter name holds no column separator |
| `ReadmeParse.ParseRows` | src/femref/utils.py:31-33 | the rows read back, followed by the closing blank line, are exactly the lines consumed; single-line input gives clean rows |
| `ReadmeParse.ParseSection` | src/femref/utils.py:29-33 | a table read back prints as exactly the lines it consumed (heading, column header, rows, two blank lines) |
| `ReadmeParse.ParseTables` | src/femref/utils.py:27-36 | the tables and stamp read back print as exactly the remaining lines, the update line last |
| `ReadmeParse.Parse` | src/femref/utils.py:24-36 | any text the reader accepts is the printed form of a well-formed document |
| `ReadmeParse.ParsePrint` | src/femref/utils.py:24-36 | every well-formed document reads back from its printed form unchanged |
| `ReadmeParse.ParseIffPrint` | src/femref/utils.py:24-36 | a text reads back as a document if and only if it is that well-formed document's printed form, so printing is injective |
| `ReadmeParse.RenderRoundTrip` | src/femref/utils.py:24-36 | a rendered README reads back as its title, its description, one table per mapping-valued option in insertion order (rows in insertion order, as many rows as parameters) and the update stamp |
| `NewEntities.Flatten` | src/femref/cubit_utils.py:39-42 | the result is a bare ID exactly when the list has one element and flattening is allowed; either form carries the list unchanged |
| `NewEntities.CubitCmd` | src/femref/cubit_utils.py:6-42 | an ID is reported if and only if it is in the after-list and not in the before-list, so removed IDs are never reported; no ID is reported twice; the count equals the size of the set difference; the result is a bare ID exactly when one ID is new and flattening is allowed; when nothing is new the result is the empty list whatever the flag |

A document is well formed when its title, description, stamp, table keys,
parameter names and values hold no line break, and its parameter names hold
no `|`. The round-trip lemmas are stated for well-formed documents only.
Outside that class the Markdown table is ambiguous. Examples are a parameter
name containing ` | `, or a value containing a newline. The source writes such
text without complaint, and the model's `Render` does too.

## Left out

- File I/O: `open(filepath, "w")` and the writes (src/femref/utils.py:22). `Render` returns the text instead, and `NormalizePath` returns the path it would be written to. On a missing key the partial file content is carried in the error.
- The clock: `datetime.now()` and its `strftime` format (src/femref/utils.py:35). The formatted stamp is the parameter `updated`.
- Python's `str()` of ints, floats and dicts in interpolations (src/femref/utils.py:24-25, 32). Values arrive as strings.
- Readme.Render: a mapping-valued title or description is rendered by the parameter `show`, which cannot be Python's `str()` of a dict. That `str()` prints the `repr()` of each value, so `{'a': 1}` and `{'a': '1'}` print differently. Both arrive in the model as the same pre-rendered `Mapping([("a", "1")])`, so the model promises nothing about that header text beyond what `show` returns.
- The meshing session: `parse_cubit_list`, `cmd`, the `command` string and the `track_id` selector (src/femref/cubit_utils.py:31-35). They are reduced to the two ID lists `before` and `after`.
- NewEntities.CubitCmd: does not promise the order of the returned list, because Python's `list(set)` has no specified order.
- `print_mesh_statistics` (src/femref/cubit_utils.py:45-64): console printing over queries to the meshing session.
- The example generator scripts: their command sequences, solver-deck templates and floating-point parameter arithmetic. All of their behaviour lives in the meshing tool and the solver.
