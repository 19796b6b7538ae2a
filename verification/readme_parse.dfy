/** Reading a rendered README back: the inverse of printing a document, used to
    show that the rendering loses nothing and adds nothing. */
module ReadmeParse {
  import opened Wrappers
  import opened Lines
  import opened Readme

  /** Parameters whose rows can be read back: single-line names free of the
      column separator, single-line values. */
  predicate CleanParams(params: seq<(string, string)>)
  {
    forall i :: 0 <= i < |params| ==>
      NoNewline(params[i].0) && '|' !in params[i].0 && NoNewline(params[i].1)
  }

  predicate CleanTables(tables: seq<Table>)
  {
    forall i :: 0 <= i < |tables| ==> NoNewline(tables[i].key) && CleanParams(tables[i].params)
  }

  /** A document whose printed form reads back unambiguously. */
  predicate WellFormed(doc: Document)
  {
    && NoNewline(doc.title)
    && NoNewline(doc.description)
    && NoNewline(doc.updated)
    && CleanTables(doc.tables)
  }

  /** A row line, cut around the column separator at position `j` of its
      interior, is the row line of the two parts. */
  lemma RowSplit(line: string, j: nat)
    requires 4 <= |line| && IsPrefix("| ", line) && IsSuffix(" |", line)
    requires 1 <= j && j + 1 < |line| - 4
    requires line[2..|line| - 2][j - 1] == ' ' && line[2..|line| - 2][j] == '|' && line[2..|line| - 2][j + 1] == ' '
    ensures RowLine(line[2..|line| - 2][..j - 1], line[2..|line| - 2][j + 2..]) == line
  {
    var body := line[2..|line| - 2];
    var param := body[..j - 1];
    var value := body[j + 2..];
    assert body[j - 1..j + 2] == " | ";
    assert body == param + body[j - 1..j + 2] + value;
    assert line == line[..2] + body + line[|line| - 2..];
  }

  /** One table row, split at the first column separator. */
  function ParseRow(line: string): (r: Option<(string, string)>)
    ensures r.Some? ==> RowLine(r.value.0, r.value.1) == line && '|' !in r.value.0
    ensures r.Some? && NoNewline(line) ==> NoNewline(r.value.0) && NoNewline(r.value.1)
  {
    if 4 <= |line| && IsPrefix("| ", line) && IsSuffix(" |", line) then
      var body := line[2..|line| - 2];
      match FirstIndex(body, '|')
      case None => None
      case Some(j) =>
        if 1 <= j && j + 1 < |body| && body[j - 1] == ' ' && body[j + 1] == ' ' then
          RowSplit(line, j);
          assert body[..j - 1] == body[..j][..j - 1];
          Some((body[..j - 1], body[j + 2..]))
        else None
    else None
  }

  lemma ParseRowLine(param: string, value: string)
    requires '|' !in param
    ensures ParseRow(RowLine(param, value)) == Some((param, value))
  {
    var line := RowLine(param, value);
    var body := line[2..|line| - 2];
    assert line[..2] == "| ";
    assert line[|line| - 2..] == " |";
    assert body == (param + " ") + ['|'] + (" " + value);
    FirstIndexAfter(param + " ", '|', " " + value);
    assert body[..|param|] == param;
    assert body[|param| + 3..] == value;
  }

  lemma RowsCons(lines: seq<string>, pv: (string, string), params: seq<(string, string)>, rest: seq<string>)
    requires lines != [] && RowLine(pv.0, pv.1) == lines[0]
    requires lines[1..] == RowLines(params) + [""] + rest
    ensures lines == RowLines([pv] + params) + [""] + rest
  {
    assert ([pv] + params)[1..] == params;
    assert lines == [lines[0]] + lines[1..];
  }

  /** A row read from a single line, ahead of rows read from single lines, keeps them clean. */
  lemma CleanParamsCons(lines: seq<string>, pv: (string, string), params: seq<(string, string)>)
    requires lines != [] && RowLine(pv.0, pv.1) == lines[0] && '|' !in pv.0
    requires AllNoNewline(lines[1..]) ==> CleanParams(params)
    ensures AllNoNewline(lines) ==> CleanParams([pv] + params)
  {
    if AllNoNewline(lines) {
      assert NoNewline(lines[0]);
      assert AllNoNewline(lines[1..]);
    }
  }

  /** The rows of a table up to the blank line that ends them, and the lines after it. */
  function ParseRows(lines: seq<string>): (r: Option<(seq<(string, string)>, seq<string>)>)
    ensures r.Some? ==> |r.value.1| < |lines| && lines == RowLines(r.value.0) + [""] + r.value.1
    ensures r.Some? && AllNoNewline(lines) ==> CleanParams(r.value.0)
    decreases |lines|
  {
    if lines == [] then None
    else if lines[0] == "" then
      assert lines == [] + [""] + lines[1..];
      Some(([], lines[1..]))
    else
      match ParseRow(lines[0])
      case None => None
      case Some(pv) =>
        match ParseRows(lines[1..])
        case None => None
        case Some((params, rest)) =>
          RowsCons(lines, pv, params, rest);
          CleanParamsCons(lines, pv, params);
          Some(([pv] + params, rest))
  }

  /** One step of ParseRows: a row line followed by rows that read back. */
  lemma ParseRowsStep(lines: seq<string>, pv: (string, string), params: seq<(string, string)>, rest: seq<string>)
    requires lines != [] && lines[0] != ""
    requires ParseRow(lines[0]) == Some(pv)
    requires ParseRows(lines[1..]) == Some((params, rest))
    ensures ParseRows(lines) == Some(([pv] + params, rest))
  {
  }

  lemma RowLinesSplit(params: seq<(string, string)>, rest: seq<string>)
    requires params != []
    ensures (RowLines(params) + [""] + rest)[0] == RowLine(params[0].0, params[0].1)
    ensures (RowLines(params) + [""] + rest)[1..] == RowLines(params[1..]) + [""] + rest
  {
  }

  lemma {:induction false} ParseRowsLines(params: seq<(string, string)>, rest: seq<string>)
    requires forall i :: 0 <= i < |params| ==> '|' !in params[i].0
    ensures ParseRows(RowLines(params) + [""] + rest) == Some((params, rest))
    decreases |params|
  {
    if params == [] {
      assert RowLines(params) + [""] + rest == [""] + rest;
    } else {
      var lines := RowLines(params) + [""] + rest;
      RowLinesSplit(params, rest);
      ParseRowLine(params[0].0, params[0].1);
      assert |lines[0]| >= 7;
      ParseRowsLines(params[1..], rest);
      ParseRowsStep(lines, params[0], params[1..], rest);
      assert [params[0]] + params[1..] == params;
    }
  }

  lemma TablesLinesCons(t: Table, tables: seq<Table>, after: seq<string>, updated: string)
    requires after == TablesLines(tables) + [UpdatedLine(updated)]
    ensures TableLines(t) + after == TablesLines([t] + tables) + [UpdatedLine(updated)]
  {
    assert ([t] + tables)[1..] == tables;
    assert TablesLines([t] + tables) == TableLines(t) + TablesLines(tables);
  }

  /** A section heading, the column header, rows and a blank line pair make a table. */
  lemma SectionShape(lines: seq<string>, params: seq<(string, string)>, rest: seq<string>)
    requires 3 <= |lines| && IsPrefix(SectionTag, lines[0]) && lines[1] == HeaderRow && lines[2] == RuleRow
    requires lines[3..] == RowLines(params) + [""] + rest
    requires rest != [] && rest[0] == ""
    ensures lines == TableLines(Table(lines[0][|SectionTag|..], params)) + rest[1..]
  {
    assert lines[0] == SectionLine(lines[0][|SectionTag|..]);
    assert lines == lines[..3] + lines[3..];
    assert rest == [""] + rest[1..];
  }

  /** The table read from single lines is clean, and so are the lines after it. */
  lemma SectionClean(lines: seq<string>, params: seq<(string, string)>, rest: seq<string>)
    requires 3 <= |lines| && IsPrefix(SectionTag, lines[0])
    requires lines[3..] == RowLines(params) + [""] + rest && rest != []
    requires AllNoNewline(lines[3..]) ==> CleanParams(params)
    ensures AllNoNewline(lines) ==>
      NoNewline(lines[0][|SectionTag|..]) && CleanParams(params) && AllNoNewline(rest[1..])
  {
    if AllNoNewline(lines) {
      assert AllNoNewline(lines[3..]);
      forall i | 0 <= i < |rest[1..]|
        ensures NoNewline(rest[1..][i])
      {
        assert rest[1..][i] == lines[3..][|RowLines(params)| + 2 + i];
      }
      assert lines[0] == SectionTag + lines[0][|SectionTag|..];
    }
  }

  /** One table: its heading, column header, rows and closing blank lines, and
      the lines after it. */
  function ParseSection(lines: seq<string>): (r: Option<(Table, seq<string>)>)
    ensures r.Some? ==> |r.value.1| < |lines| && lines == TableLines(r.value.0) + r.value.1
    ensures r.Some? && AllNoNewline(lines) ==>
      NoNewline(r.value.0.key) && CleanParams(r.value.0.params) && AllNoNewline(r.value.1)
  {
    if 3 <= |lines| && IsPrefix(SectionTag, lines[0]) && lines[1] == HeaderRow && lines[2] == RuleRow then
      match ParseRows(lines[3..])
      case None => None
      case Some((params, rest)) =>
        if rest != [] && rest[0] == "" then
          SectionShape(lines, params, rest);
          SectionClean(lines, params, rest);
          Some((Table(lines[0][|SectionTag|..], params), rest[1..]))
        else None
    else None
  }

  /** A table read from single lines, ahead of tables read from single lines, keeps them clean. */
  lemma CleanTablesCons(lines: seq<string>, t: Table, rest: seq<string>, tables: seq<Table>)
    requires AllNoNewline(lines) ==> NoNewline(t.key) && CleanParams(t.params) && AllNoNewline(rest)
    requires AllNoNewline(rest) ==> CleanTables(tables)
    ensures AllNoNewline(lines) ==> CleanTables([t] + tables)
  {
  }

  /** The tables of a document and its update stamp, from the lines after the header. */
  function ParseTables(lines: seq<string>): (r: Option<(seq<Table>, string)>)
    ensures r.Some? ==> lines == TablesLines(r.value.0) + [UpdatedLine(r.value.1)]
    ensures r.Some? && AllNoNewline(lines) ==> CleanTables(r.value.0) && NoNewline(r.value.1)
    decreases |lines|
  {
    if |lines| == 1 && IsPrefix(UpdatedTag, lines[0]) then
      assert lines[0] == UpdatedTag + lines[0][|UpdatedTag|..];
      Some(([], lines[0][|UpdatedTag|..]))
    else
      match ParseSection(lines)
      case None => None
      case Some((t, rest)) =>
        match ParseTables(rest)
        case None => None
        case Some((tables, updated)) =>
          TablesLinesCons(t, tables, rest, updated);
          CleanTablesCons(lines, t, rest, tables);
          Some(([t] + tables, updated))
  }

  lemma {:induction false} ParseTablesLines(tables: seq<Table>, updated: string)
    requires forall i :: 0 <= i < |tables| ==> forall k :: 0 <= k < |tables[i].params| ==> '|' !in tables[i].params[k].0
    ensures ParseTables(TablesLines(tables) + [UpdatedLine(updated)]) == Some((tables, updated))
    decreases |tables|
  {
    var lines := TablesLines(tables) + [UpdatedLine(updated)];
    if tables == [] {
      assert lines == [UpdatedTag + updated];
      assert IsPrefix(UpdatedTag, lines[0]);
    } else {
      var t := tables[0];
      var after := TablesLines(tables[1..]) + [UpdatedLine(updated)];
      assert lines == [SectionLine(t.key), HeaderRow, RuleRow] + (RowLines(t.params) + [""] + ([""] + after));
      assert lines[3..] == RowLines(t.params) + [""] + ([""] + after);
      assert lines[0][..|SectionTag|] == SectionTag;
      assert lines[0][|SectionTag|..] == t.key;
      ParseRowsLines(t.params, [""] + after);
      ParseTablesLines(tables[1..], updated);
      assert [t] + tables[1..] == tables;
    }
  }

  /** The five header lines followed by the table lines make a document. */
  lemma HeaderShape(lines: seq<string>, tables: seq<Table>, updated: string)
    requires 5 <= |lines| && IsPrefix(TitleTag, lines[0]) && lines[1] == "" && lines[3] == "" && lines[4] == ""
    requires lines[5..] == TablesLines(tables) + [UpdatedLine(updated)]
    ensures DocumentLines(Document(lines[0][|TitleTag|..], lines[2], tables, updated)) == lines
    ensures AllNoNewline(lines) ==> NoNewline(lines[0][|TitleTag|..]) && NoNewline(lines[2]) && AllNoNewline(lines[5..])
  {
    assert lines[0] == TitleLine(lines[0][|TitleTag|..]);
    assert lines[..5] == [lines[0], "", lines[2], "", ""];
    assert lines == lines[..5] + lines[5..];
    if AllNoNewline(lines) {
      assert NoNewline(lines[0]);
    }
  }

  /** The whole document, from its lines. */
  function ParseLines(lines: seq<string>): (r: Option<Document>)
    ensures r.Some? ==> DocumentLines(r.value) == lines
    ensures r.Some? && AllNoNewline(lines) ==> WellFormed(r.value)
  {
    if 5 <= |lines| && IsPrefix(TitleTag, lines[0]) && lines[1] == "" && lines[3] == "" && lines[4] == "" then
      match ParseTables(lines[5..])
      case None => None
      case Some((tables, updated)) =>
        HeaderShape(lines, tables, updated);
        Some(Document(lines[0][|TitleTag|..], lines[2], tables, updated))
    else None
  }

  /** Reads a README text back into the document it prints. */
  function Parse(text: string): (r: Option<Document>)
    ensures r.Some? ==> WellFormed(r.value) && Print(r.value) == text
  {
    match Split(text)
    case None => None
    case Some(lines) => ParseLines(lines)
  }

  lemma {:induction false} RowLinesClean(params: seq<(string, string)>)
    requires CleanParams(params)
    ensures AllNoNewline(RowLines(params))
  {
    forall i | 0 <= i < |params|
      ensures NoNewline(RowLines(params)[i])
    {
      assert RowLines(params)[i] == "| " + params[i].0 + " | " + params[i].1 + " |";
    }
  }

  lemma {:induction false} TablesLinesClean(tables: seq<Table>)
    requires CleanTables(tables)
    ensures AllNoNewline(TablesLines(tables))
    decreases |tables|
  {
    if tables != [] {
      RowLinesClean(tables[0].params);
      TablesLinesClean(tables[1..]);
    }
  }

  lemma DocumentLinesClean(doc: Document)
    requires WellFormed(doc)
    ensures AllNoNewline(DocumentLines(doc))
  {
    TablesLinesClean(doc.tables);
    var head := [TitleLine(doc.title), "", doc.description, "", ""];
    assert AllNoNewline(head);
    assert DocumentLines(doc) == head + TablesLines(doc.tables) + [UpdatedLine(doc.updated)];
  }

  lemma DocumentLinesShape(doc: Document)
    ensures |DocumentLines(doc)| >= 5
    ensures DocumentLines(doc)[0] == TitleLine(doc.title)
    ensures DocumentLines(doc)[1] == "" && DocumentLines(doc)[3] == "" && DocumentLines(doc)[4] == ""
    ensures DocumentLines(doc)[2] == doc.description
    ensures DocumentLines(doc)[5..] == TablesLines(doc.tables) + [UpdatedLine(doc.updated)]
  {
  }

  lemma TitleLineTag(title: string)
    ensures IsPrefix(TitleTag, TitleLine(title))
    ensures TitleLine(title)[|TitleTag|..] == title
  {
  }

  lemma ParseLinesOf(doc: Document)
    requires CleanTables(doc.tables)
    ensures ParseLines(DocumentLines(doc)) == Some(doc)
  {
    DocumentLinesShape(doc);
    TitleLineTag(doc.title);
    ParseTablesLines(doc.tables, doc.updated);
  }

  /** Parsing undoes printing for every well-formed document. */
  lemma ParsePrint(doc: Document)
    requires WellFormed(doc)
    ensures Parse(Print(doc)) == Some(doc)
  {
    DocumentLinesClean(doc);
    SplitJoin(DocumentLines(doc));
    ParseLinesOf(doc);
  }

  /** A text reads back as a document exactly when it is that well-formed
      document's printed form: printing is injective on well-formed documents
      and the parser accepts nothing else. */
  lemma ParseIffPrint(text: string, doc: Document)
    ensures Parse(text) == Some(doc) <==> WellFormed(doc) && Print(doc) == text
  {
    if WellFormed(doc) && Print(doc) == text {
      ParsePrint(doc);
    }
  }

  /** The README text write_readme produces reads back as the title, the
      description, one table per mapping-valued option in insertion order
      with its rows in insertion order, and the update stamp. */
  lemma RenderRoundTrip(opts: Options, updated: string, show: seq<(string, string)> -> string)
    requires DocumentOf(opts, updated, show).Ok?
    requires WellFormed(DocumentOf(opts, updated, show).value)
    ensures Render(opts, updated, show).Ok?
    ensures Parse(Render(opts, updated, show).value) == Some(Document(
      DocumentOf(opts, updated, show).value.title,
      DocumentOf(opts, updated, show).value.description,
      Tables(opts), updated))
  {
    RenderIsPrint(opts, updated, show);
    ParsePrint(DocumentOf(opts, updated, show).value);
  }
}
