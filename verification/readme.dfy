/** The Markdown rendering of write_readme (src/femref/utils.py), with the file
    write removed: the function returns the text the source writes. */
module Readme {
  import opened Wrappers
  import opened Lines

  /** A value of the options mapping: an already-rendered scalar, or a nested
      mapping of parameters to already-rendered values, in insertion order. */
  datatype Entry = Scalar(text: string) | Mapping(params: seq<(string, string)>)

  /** The options mapping, in insertion order. */
  type Options = seq<(string, Entry)>

  /** The lookup of a required key failed (Python raises KeyError). The file
      has been opened for writing, and so truncated, before the lookups run;
      `written` is what it holds when the error is raised. */
  datatype RenderError = MissingKey(key: string, written: string)

  const TitleKey := "title"
  const DescriptionKey := "description"
  const TitleTag := "# "
  const SectionTag := "## "
  const HeaderRow := "| Parameter | Value |"
  const RuleRow := "|:--|:--|"
  const UpdatedTag := "Last updated: "

  /** The value stored under `key`; the first one if the key were repeated,
      which a Python dict never does. */
  function Lookup(opts: Options, key: string): (r: Option<Entry>)
    ensures r.None? <==> forall i :: 0 <= i < |opts| ==> opts[i].0 != key
    ensures r.Some? ==> (key, r.value) in opts
  {
    if opts == [] then None
    else if opts[0].0 == key then Some(opts[0].1)
    else Lookup(opts[1..], key)
  }

  /** How an entry reads when interpolated into text: a scalar as itself, a
      mapping as `show` renders it (Python's str() of a dict). */
  function Display(e: Entry, show: seq<(string, string)> -> string): string
  {
    match e
    case Scalar(s) => s
    case Mapping(ps) => show(ps)
  }

  /** The first line of the file. */
  function TitleLine(title: string): string
  {
    TitleTag + title
  }

  /** One row of a parameter table. */
  function RowLine(param: string, value: string): string
  {
    "| " + param + " | " + value + " |"
  }

  /** The heading line of a section. */
  function SectionLine(key: string): string
  {
    SectionTag + key
  }

  /** The closing line of the file. */
  function UpdatedLine(updated: string): string
  {
    UpdatedTag + updated
  }

  /** The first header write: the title line and a blank line. */
  function TitleText(title: string): string
  {
    TitleLine(title) + "\n\n"
  }

  /** The header writes: the title line, a blank line, the description, two blank lines. */
  function HeaderText(title: string, description: string): string
  {
    TitleText(title) + description + "\n\n\n"
  }

  /** The rows of one parameter table, one write per parameter. */
  function RowsText(params: seq<(string, string)>): string
  {
    if params == [] then []
    else RowLine(params[0].0, params[0].1) + "\n" + RowsText(params[1..])
  }

  /** The writes for one mapping-valued entry. */
  function SectionText(key: string, params: seq<(string, string)>): string
  {
    SectionLine(key) + "\n" + HeaderRow + "\n" + RuleRow + "\n" + RowsText(params) + "\n\n"
  }

  /** The loop over the options: mapping-valued entries write a section, the
      others write nothing. */
  function SectionsText(opts: Options): string
  {
    if opts == [] then []
    else
      var here := match opts[0].1
        case Scalar(_) => ""
        case Mapping(ps) => SectionText(opts[0].0, ps);
      here + SectionsText(opts[1..])
  }

  /** The title and description as the header writes them, or the key whose
      lookup fails first together with the text written before it fails. */
  function HeaderFields(opts: Options, show: seq<(string, string)> -> string): (r: Result<(string, string), RenderError>)
  {
    match Lookup(opts, TitleKey)
    case None => Err(MissingKey(TitleKey, ""))
    case Some(t) =>
      match Lookup(opts, DescriptionKey)
      case None => Err(MissingKey(DescriptionKey, TitleText(Display(t, show))))
      case Some(d) => Ok((Display(t, show), Display(d, show)))
  }

  /** The whole text write_readme writes, with `updated` standing for the
      formatted clock reading. On a missing key the error carries the text
      already in the file: nothing when the title is missing, the title write
      when the description is. */
  function Render(opts: Options, updated: string, show: seq<(string, string)> -> string): (r: Result<string, RenderError>)
    ensures r.Ok? <==> Lookup(opts, TitleKey).Some? && Lookup(opts, DescriptionKey).Some?
    ensures Lookup(opts, TitleKey).None? ==> r == Err(MissingKey(TitleKey, ""))
    ensures Lookup(opts, TitleKey).Some? && Lookup(opts, DescriptionKey).None? ==>
      r == Err(MissingKey(DescriptionKey, TitleText(Display(Lookup(opts, TitleKey).value, show))))
    ensures r.Ok? ==> IsPrefix(HeaderText(Display(Lookup(opts, TitleKey).value, show), Display(Lookup(opts, DescriptionKey).value, show)), r.value)
    ensures r.Ok? ==> IsSuffix(UpdatedLine(updated) + "\n", r.value)
  {
    match HeaderFields(opts, show)
    case Err(e) => Err(e)
    case Ok((title, description)) =>
      var head := HeaderText(title, description);
      var tail := UpdatedLine(updated) + "\n";
      var text := head + SectionsText(opts) + tail;
      assert text[..|head|] == head;
      assert text[|text| - |tail|..] == tail;
      Ok(text)
  }

  /** One parameter table of the rendered file. */
  datatype Table = Table(key: string, params: seq<(string, string)>)

  /** What a rendered README holds: its title, description, parameter tables
      in order, and update stamp. */
  datatype Document = Document(title: string, description: string, tables: seq<Table>, updated: string)

  /** The mapping-valued entries of the options, in insertion order: exactly the
      entries that get a section. */
  function Tables(opts: Options): (r: seq<Table>)
    ensures |r| <= |opts|
    ensures forall t :: t in r <==> (t.key, Mapping(t.params)) in opts
  {
    if opts == [] then []
    else
      var rest := Tables(opts[1..]);
      assert forall t: Table :: (t.key, Mapping(t.params)) in opts <==>
        opts[0] == (t.key, Mapping(t.params)) || (t.key, Mapping(t.params)) in opts[1..];
      match opts[0].1
      case Scalar(_) => rest
      case Mapping(ps) => [Table(opts[0].0, ps)] + rest
  }

  /** Sections are rendered entry by entry, so the tables of concatenated
      options are the concatenated tables. */
  lemma {:induction false} TablesAppend(a: Options, b: Options)
    ensures Tables(a + b) == Tables(a) + Tables(b)
    decreases |a|
  {
    if a == [] {
      assert a + b == b;
    } else {
      assert (a + b)[0] == a[0];
      assert (a + b)[1..] == a[1..] + b;
      TablesAppend(a[1..], b);
      match a[0].1
      case Scalar(_) =>
      case Mapping(ps) =>
        assert Tables(a) == [Table(a[0].0, ps)] + Tables(a[1..]);
    }
  }

  /** A scalar entry adds no section, wherever it sits. */
  lemma ScalarAddsNoTable(a: Options, key: string, text: string, b: Options)
    ensures Tables(a + [(key, Scalar(text))] + b) == Tables(a + b)
  {
    TablesAppend(a + [(key, Scalar(text))], b);
    TablesAppend(a, [(key, Scalar(text))]);
    TablesAppend(a, b);
  }

  /** The document the options describe, or the key whose lookup fails first. */
  function DocumentOf(opts: Options, updated: string, show: seq<(string, string)> -> string): (r: Result<Document, RenderError>)
  {
    match HeaderFields(opts, show)
    case Err(e) => Err(e)
    case Ok((title, description)) => Ok(Document(title, description, Tables(opts), updated))
  }

  /** The lines of one table: heading, column header, rule, rows, two blank lines. */
  function TableLines(t: Table): seq<string>
  {
    [SectionLine(t.key), HeaderRow, RuleRow] + RowLines(t.params) + ["", ""]
  }

  function RowLines(params: seq<(string, string)>): (r: seq<string>)
    ensures |r| == |params|
    ensures forall i :: 0 <= i < |params| ==> r[i] == RowLine(params[i].0, params[i].1)
  {
    if params == [] then [] else [RowLine(params[0].0, params[0].1)] + RowLines(params[1..])
  }

  function TablesLines(tables: seq<Table>): seq<string>
  {
    if tables == [] then [] else TableLines(tables[0]) + TablesLines(tables[1..])
  }

  /** A document laid out line by line. */
  function DocumentLines(doc: Document): seq<string>
  {
    [TitleLine(doc.title), "", doc.description, "", ""] + TablesLines(doc.tables) + [UpdatedLine(doc.updated)]
  }

  /** A document as text: its lines, each terminated by a line break. */
  function Print(doc: Document): string
  {
    Join(DocumentLines(doc))
  }

  lemma {:induction false} RowsTextJoin(params: seq<(string, string)>)
    ensures RowsText(params) == Join(RowLines(params))
    decreases |params|
  {
    if params != [] {
      RowsTextJoin(params[1..]);
    }
  }

  lemma SectionTextJoin(key: string, params: seq<(string, string)>)
    ensures SectionText(key, params) == Join(TableLines(Table(key, params)))
  {
    var front := [SectionLine(key), HeaderRow, RuleRow];
    var rows := RowLines(params);
    JoinAppend(front + rows, ["", ""]);
    JoinAppend(front, rows);
    RowsTextJoin(params);
    assert Join(["", ""]) == "\n\n";
    assert Join(front[2..]) == RuleRow + "\n";
    assert Join(front[1..]) == HeaderRow + "\n" + RuleRow + "\n";
  }

  lemma {:induction false} SectionsTextJoin(opts: Options)
    ensures SectionsText(opts) == Join(TablesLines(Tables(opts)))
    decreases |opts|
  {
    if opts != [] {
      SectionsTextJoin(opts[1..]);
      match opts[0].1
      case Scalar(_) =>
      case Mapping(ps) =>
        var t := Table(opts[0].0, ps);
        assert Tables(opts) == [t] + Tables(opts[1..]);
        assert TablesLines([t] + Tables(opts[1..])) == TableLines(t) + TablesLines(Tables(opts[1..]));
        JoinAppend(TableLines(t), TablesLines(Tables(opts[1..])));
        SectionTextJoin(opts[0].0, ps);
    }
  }

  lemma HeaderTextJoin(title: string, description: string)
    ensures Join([TitleLine(title), "", description, "", ""]) == HeaderText(title, description)
  {
    var head := [TitleLine(title), "", description, "", ""];
    assert Join(head[4..]) == "\n";
    assert Join(head[3..]) == "\n\n";
    assert Join(head[2..]) == description + "\n\n\n";
    assert Join(head[1..]) == "\n" + description + "\n\n\n";
  }

  /** The source's sequence of writes and the line-by-line layout of the
      document agree: rendering is printing the described document. */
  lemma RenderIsPrint(opts: Options, updated: string, show: seq<(string, string)> -> string)
    ensures DocumentOf(opts, updated, show).Err? ==> Render(opts, updated, show) == Err(DocumentOf(opts, updated, show).error)
    ensures DocumentOf(opts, updated, show).Ok? ==> Render(opts, updated, show) == Ok(Print(DocumentOf(opts, updated, show).value))
  {
    match HeaderFields(opts, show)
    case Err(_) =>
    case Ok((title, description)) =>
      var head := [TitleLine(title), "", description, "", ""];
      var body := TablesLines(Tables(opts));
      var foot := [UpdatedLine(updated)];
      JoinAppend(head + body, foot);
      JoinAppend(head, body);
      SectionsTextJoin(opts);
      HeaderTextJoin(title, description);
      assert Join(foot) == UpdatedLine(updated) + "\n";
      assert Print(Document(title, description, Tables(opts), updated)) == Join(head + body + foot);
  }
}
