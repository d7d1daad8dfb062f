/**
 * `BlobContextProcessor` of `src/blob/context.rs`: the files blob keeps
 * under `<project>/.blob`. Definitions live one per line,
 * `<timestamp>, <definition>`, in a file per kind under `.definitions`;
 * mutations are saved in a directory per moment under `.mutations`.
 *
 * The files are a map from path to text; a path missing from the map is
 * a file that cannot be opened. Timestamps are tokens carrying the two
 * texts blob prints of them: the date-time of section 5.6 of RFC 3339 and
 * the compact `%Y%m%d%H%M%S` form.
 */
module Context {
  import opened Common
  import opened Text

  /** A moment, as the two texts blob formats it to. */
  datatype Timestamp = Timestamp(rfc3339: string, compact: string)

  /** `BlobDefinition`: a definition and the moment it was saved. */
  datatype Definition = Definition(createdAt: Timestamp, definition: string)

  /** `BlobDefinitionKind`. */
  datatype DefinitionKind = Project | SelfReference

  /** `BlobContextProcessor`: the project the files belong to. */
  datatype Processor = Processor(projectPath: string)

  type Files = map<Path, string>

  /** The file name of each kind of definitions. */
  function AsFilename(kind: DefinitionKind): (name: string)
    ensures name == (if kind.Project? then "_project.md" else "_self.md")
    ensures '/' !in name
  {
    match kind
    case Project => "_project.md"
    case SelfReference => "_self.md"
  }

  // ---------------------------------------------------------------------
  // Paths
  // ---------------------------------------------------------------------

  /** `get_definitions_path`. */
  function DefinitionsPath(projectPath: string): string
  {
    projectPath + "/.blob/.definitions"
  }

  /** `get_mutations_path`. */
  function MutationsPath(projectPath: string): string
  {
    projectPath + "/.blob/.mutations"
  }

  /** The file holding the definitions of one kind. */
  function DefinitionFile(projectPath: string, kind: DefinitionKind): Path
  {
    DefinitionsPath(projectPath) + "/" + AsFilename(kind)
  }

  /**
   * `get_project_mutation_path` and `get_source_file_mutation_path`: the
   * directory of the mutations created at `createdAt`.
   */
  function MutationPath(projectPath: string, createdAt: Timestamp): Path
  {
    MutationsPath(projectPath) + "/" + createdAt.compact
  }

  /** Definitions and mutations of a project are kept apart, under its `.blob` directory. */
  lemma PathsUnderBlob(projectPath: string, kind: DefinitionKind, createdAt: Timestamp)
    ensures DefinitionFile(projectPath, kind) == projectPath + "/.blob/.definitions/" + AsFilename(kind)
    ensures MutationPath(projectPath, createdAt) == projectPath + "/.blob/.mutations/" + createdAt.compact
    ensures DefinitionFile(projectPath, kind) != MutationPath(projectPath, createdAt)
  {
    var d, m := DefinitionFile(projectPath, kind), MutationPath(projectPath, createdAt);
    var k := |projectPath| + 8;
    assert d[k] == 'd' && m[k] == 'm';
  }

  /** `save_project_mutation`: the script goes to `script.sh` in the mutation's directory. */
  function ProjectScriptPath(projectPath: string, createdAt: Timestamp): (r: Path)
    ensures r == MutationsPath(projectPath) + "/" + createdAt.compact + "/script.sh"
  {
    MutationPath(projectPath, createdAt) + "/script.sh"
  }

  /** The last `/`-separated segment of a path. */
  function LastSegment(filePath: string): (r: string)
    ensures '/' !in r
  {
    var parts := Split(filePath, '/');
    SplitPiecesFree(filePath, '/');
    parts[|parts| - 1]
  }

  /**
   * `directories_only`: the path without its last segment, as
   * `split("/")`, `split_last().unwrap()` and `join("/")` compute it.
   * `split_last` cannot fail because a split has at least one piece.
   */
  function DirectoriesOnly(filePath: string): string
  {
    var parts := Split(filePath, '/');
    Join(parts[..|parts| - 1], "/")
  }

  /**
   * A path without `/` has no directories; otherwise the directories,
   * a `/` and the last segment give back the path.
   */
  lemma DirectoriesOnlyParent(filePath: string)
    ensures '/' !in filePath ==> DirectoriesOnly(filePath) == ""
    ensures '/' in filePath ==> DirectoriesOnly(filePath) + "/" + LastSegment(filePath) == filePath
  {
    var parts := Split(filePath, '/');
    SplitCount(filePath, '/');
    CountZero(filePath, '/');
    SplitJoin(filePath, '/');
    if '/' in filePath {
      var init := parts[..|parts| - 1];
      assert parts == init + [parts[|parts| - 1]];
      JoinAppend(init, parts[|parts| - 1], "/");
    }
  }

  /**
   * `save_source_file_mutation`: the mutated file goes to
   * `<mutation dir>/<file path>`, and the directories it needs,
   * `<mutation dir>/<directories_only>`, are created first.
   */
  function SourceFileMutationPaths(projectPath: string, createdAt: Timestamp, filePath: string): (r: (Path, Path))
    ensures r.0 == MutationPath(projectPath, createdAt) + "/" + filePath
  {
    var dir := MutationPath(projectPath, createdAt);
    (dir + "/" + filePath, dir + "/" + DirectoriesOnly(filePath))
  }

  /** The directory created for a nested file is the one the file is written in. */
  lemma SourceFileInCreatedDir(projectPath: string, createdAt: Timestamp, filePath: string)
    requires '/' in filePath
    ensures SourceFileMutationPaths(projectPath, createdAt, filePath).1 + "/" + LastSegment(filePath)
         == SourceFileMutationPaths(projectPath, createdAt, filePath).0
  {
    DirectoriesOnlyParent(filePath);
    var dir := MutationPath(projectPath, createdAt);
    assert dir + "/" + DirectoriesOnly(filePath) + "/" + LastSegment(filePath)
        == dir + "/" + (DirectoriesOnly(filePath) + "/" + LastSegment(filePath));
  }

  // ---------------------------------------------------------------------
  // The definitions file
  // ---------------------------------------------------------------------

  /** One line of a definitions file: `<timestamp>, <definition>` and a newline. */
  function Line(d: Definition): string
  {
    d.createdAt.rfc3339 + ", " + d.definition + "\n"
  }

  /** The text of a definitions file holding `ds`, one line each, in order. */
  function Document(ds: seq<Definition>): string
  {
    if ds == [] then "" else Line(ds[0]) + Document(ds[1..])
  }

  lemma {:induction false} DocumentAppend(ds: seq<Definition>, d: Definition)
    ensures Document(ds + [d]) == Document(ds) + Line(d)
    decreases |ds|
  {
    if ds == [] {
      assert [d][1..] == [];
      assert Line(d) + "" == Line(d);
    } else {
      assert (ds + [d])[0] == ds[0];
      assert (ds + [d])[1..] == ds[1..] + [d];
      DocumentAppend(ds[1..], d);
    }
  }

  /** The definitions saved at `now`, in order. */
  function Stamped(now: Timestamp, definitions: seq<string>): (ds: seq<Definition>)
    ensures |ds| == |definitions|
    ensures forall i :: 0 <= i < |definitions| ==> ds[i] == Definition(now, definitions[i])
  {
    seq(|definitions|, i requires 0 <= i < |definitions| => Definition(now, definitions[i]))
  }

  /** What the parser makes of one line. */
  datatype LineParse = Skipped | Unparsable | Parsed(d: Definition)

  /**
   * One line of `retrieve_definitions`: a line that does not split on `,`
   * into exactly two parts is skipped; otherwise both parts are trimmed
   * and the first parsed as an RFC 3339 date-time (section 5.6 of RFC
   * 3339), where `unwrap` panics on a malformed one.
   */
  function ParseLine(parse: string -> Option<Timestamp>, line: string): (r: LineParse)
    ensures r.Skipped? <==> Count(line, ',') != 1
    ensures r.Parsed? ==> Trimmed(r.d.definition) && ',' !in r.d.definition
    ensures r.Parsed? ==> Some(r.d.createdAt) == parse(Trim(Split(line, ',')[0]))
    ensures r.Parsed? ==> |Split(line, ',')| == 2 && r.d.definition == Trim(Split(line, ',')[1])
    ensures r.Unparsable? <==> Count(line, ',') == 1 && parse(Trim(Split(line, ',')[0])).None?
  {
    var parts := Split(line, ',');
    SplitCount(line, ',');
    if |parts| != 2 then Skipped
    else
      match parse(Trim(parts[0]))
      case None => Unparsable
      case Some(t) =>
        SplitPiecesFree(line, ',');
        TrimTrimmed(parts[1]);
        TrimInside(parts[1], ',');
        Parsed(Definition(t, Trim(parts[1])))
  }

  /** `trim` only removes characters. */
  lemma {:induction false} TrimInside(s: string, c: char)
    requires c !in s
    ensures c !in Trim(s)
  {
    TrimStartSuffix(s);
    TrimEndPrefix(TrimStart(s));
    assert forall k :: 0 <= k < |Trim(s)| ==> Trim(s)[k] == TrimStart(s)[k];
  }

  lemma {:induction false} TrimStartSuffix(s: string)
    ensures exists k :: 0 <= k <= |s| && TrimStart(s) == s[k..]
    decreases |s|
  {
    if s != [] && IsWhitespace(s[0]) {
      TrimStartSuffix(s[1..]);
      var k :| 0 <= k <= |s[1..]| && TrimStart(s[1..]) == s[1..][k..];
      assert s[1..][k..] == s[k + 1..];
    } else {
      assert s == s[0..];
    }
  }

  /** The definitions of the lines, in order, or the panic of the first malformed timestamp. */
  function ParseLines(parse: string -> Option<Timestamp>, lines: seq<string>): (r: Outcome<seq<Definition>>)
    ensures !r.Diverges?
    ensures r.Returns? ==> |r.value| <= |lines|
  {
    if lines == [] then Returns([])
    else
      match ParseLine(parse, lines[0])
      case Skipped => ParseLines(parse, lines[1..])
      case Unparsable => Panics
      case Parsed(d) => Then([d], ParseLines(parse, lines[1..]))
  }

  /** One line of `ParseLines`, from the `i`-th line on. */
  lemma ParseLinesStep(parse: string -> Option<Timestamp>, lines: seq<string>, i: nat)
    requires i < |lines|
    ensures ParseLine(parse, lines[i]).Skipped? ==> ParseLines(parse, lines[i..]) == ParseLines(parse, lines[i + 1..])
    ensures ParseLine(parse, lines[i]).Unparsable? ==> ParseLines(parse, lines[i..]) == Panics
    ensures ParseLine(parse, lines[i]).Parsed? ==>
              ParseLines(parse, lines[i..]) == Then([ParseLine(parse, lines[i]).d], ParseLines(parse, lines[i + 1..]))
  {
    assert lines[i..][0] == lines[i];
    assert lines[i..][1..] == lines[i + 1..];
  }

  /** What `retrieve_definitions` makes of a file's text. */
  function Parse(parse: string -> Option<Timestamp>, contents: string): Outcome<seq<Definition>>
  {
    ParseLines(parse, Split(contents, '\n'))
  }

  /**
   * `retrieve_definitions`: the definitions of the kind's file, or none
   * when the file cannot be opened.
   */
  method RetrieveDefinitions(ctx: Processor, kind: DefinitionKind, files: Files, parse: string -> Option<Timestamp>)
    returns (r: Outcome<seq<Definition>>)
    ensures DefinitionFile(ctx.projectPath, kind) !in files ==> r == Returns([])
    ensures DefinitionFile(ctx.projectPath, kind) in files ==> r == Parse(parse, files[DefinitionFile(ctx.projectPath, kind)])
  {
    var path := DefinitionFile(ctx.projectPath, kind);
    if path !in files {
      return Returns([]);
    }
    var lines := Split(files[path], '\n');
    var definitions: seq<Definition> := [];
    var i := 0;
    assert lines[0..] == lines;
    ThenEmpty(ParseLines(parse, lines));
    while i < |lines|
      invariant 0 <= i <= |lines|
      invariant ParseLines(parse, lines) == Then(definitions, ParseLines(parse, lines[i..]))
    {
      ParseLinesStep(parse, lines, i);
      match ParseLine(parse, lines[i]) {
        case Skipped =>
        case Unparsable =>
          return Panics;
        case Parsed(d) =>
          ThenThen(definitions, [d], ParseLines(parse, lines[i + 1..]));
          definitions := definitions + [d];
      }
      i := i + 1;
    }
    assert lines[i..] == [];
    assert definitions + [] == definitions;
    return Returns(definitions);
  }

  /**
   * A line that parses back to itself: its timestamp text parses to the
   * timestamp, and neither text holds a `,` or a newline or starts or
   * ends with whitespace.
   */
  predicate Storable(parse: string -> Option<Timestamp>, d: Definition)
  {
    && parse(d.createdAt.rfc3339) == Some(d.createdAt)
    && Plain(d.createdAt.rfc3339)
    && Plain(d.definition)
  }

  predicate Plain(s: string)
  {
    ',' !in s && '\n' !in s && Trimmed(s)
  }

  /** The line of a storable definition parses back to it. */
  lemma ParseLineOfLine(parse: string -> Option<Timestamp>, d: Definition)
    requires Storable(parse, d)
    ensures ParseLine(parse, d.createdAt.rfc3339 + ", " + d.definition) == Parsed(d)
  {
    var ts, text := d.createdAt.rfc3339, d.definition;
    assert ts + ", " + text == ts + [','] + ([' '] + text);
    SplitAfterPiece(ts, ',', [' '] + text);
    assert ',' !in [' '] + text;
    SplitNoSeparator([' '] + text, ',');
    TrimOfTrimmed(ts);
    TrimLeadingSpace(text);
  }

  /**
   * Round trip: the text of a definitions file holding storable
   * definitions parses back to exactly those definitions, in order. The
   * empty piece after the last newline is skipped.
   */
  lemma {:induction false} DocumentRoundTrip(parse: string -> Option<Timestamp>, ds: seq<Definition>)
    requires forall i :: 0 <= i < |ds| ==> Storable(parse, ds[i])
    ensures Parse(parse, Document(ds)) == Returns(ds)
    decreases |ds|
  {
    if ds == [] {
      assert Split("", '\n') == [""];
      assert Split("", ',') == [""];
      assert ParseLine(parse, "") == Skipped;
    } else {
      ParseDocumentCons(parse, ds);
      DocumentRoundTrip(parse, ds[1..]);
      assert [ds[0]] + ds[1..] == ds;
    }
  }

  /** The first line of a document parses to its first definition, the rest to the rest. */
  lemma ParseDocumentCons(parse: string -> Option<Timestamp>, ds: seq<Definition>)
    requires ds != [] && Storable(parse, ds[0])
    ensures Parse(parse, Document(ds)) == Then([ds[0]], Parse(parse, Document(ds[1..])))
  {
    var d := ds[0];
    var text := d.createdAt.rfc3339 + ", " + d.definition;
    assert '\n' !in text;
    assert Document(ds) == text + ['\n'] + Document(ds[1..]);
    SplitAfterPiece(text, '\n', Document(ds[1..]));
    ParseLineOfLine(parse, d);
    assert ([text] + Split(Document(ds[1..]), '\n'))[1..] == Split(Document(ds[1..]), '\n');
  }

  // ---------------------------------------------------------------------
  // Saving definitions
  // ---------------------------------------------------------------------

  /**
   * Writing `data` to a file opened for writing, appending or not. The
   * source opens it without `truncate`, so an overwrite keeps the old
   * text past the end of the new one.
   */
  function WriteAsWritten(prior: Option<string>, append: bool, data: string): string
  {
    match prior
    case None => data
    case Some(text) =>
      if append then text + data
      else if |data| < |text| then data + text[|data|..]
      else data
  }

  /** The write intended: appending adds `data` at the end, overwriting replaces the whole file. */
  function Write(prior: Option<string>, append: bool, data: string): (r: string)
    ensures !append || prior.None? ==> r == data
    ensures append && prior.Some? ==> r == prior.value + data
  {
    if append && prior.Some? then prior.value + data else data
  }

  /** The files `a` and `b` agree on every path but `path`. */
  ghost predicate SameElsewhere(a: Files, b: Files, path: Path)
  {
    forall p :: p != path ==> (p in a <==> p in b) && (p in a ==> a[p] == b[p])
  }

  function Lookup(files: Files, path: Path): (r: Option<string>)
    ensures r.Some? <==> path in files
    ensures r.Some? ==> r.value == files[path]
  {
    if path in files then Some(files[path]) else None
  }

  /**
   * An overwrite that leaves a stale line: a `_self.md` that held two
   * definitions, overwritten by one shorter line, still yields the second
   * old definition; the intended write yields only the new one.
   */
  lemma StaleDefinitionSurvives(parse: string -> Option<Timestamp>, t: Timestamp)
    requires t.rfc3339 == "T" && parse("T") == Some(t)
    ensures Parse(parse, WriteAsWritten(Some(Document([Definition(t, "abcdef"), Definition(t, "z")])), false, Document([Definition(t, "a")])))
         == Returns([Definition(t, "a"), Definition(t, "z")])
    ensures Parse(parse, Write(Some(Document([Definition(t, "abcdef"), Definition(t, "z")])), false, Document([Definition(t, "a")])))
         == Returns([Definition(t, "a")])
  {
    var prior, data := Document([Definition(t, "abcdef"), Definition(t, "z")]), Document([Definition(t, "a")]);
    var stale := WriteAsWritten(Some(prior), false, data);
    StaleLines(t);
    StaleLinesParse(parse, t);
    assert Parse(parse, stale) == ParseLines(parse, Split(stale, '\n'));
    FreshParse(parse, t);
    assert Write(Some(prior), false, data) == data;
  }

  lemma FreshParse(parse: string -> Option<Timestamp>, t: Timestamp)
    requires t.rfc3339 == "T" && parse("T") == Some(t)
    ensures Parse(parse, Document([Definition(t, "a")])) == Returns([Definition(t, "a")])
  {
    var dn := Definition(t, "a");
    assert Storable(parse, dn);
    DocumentRoundTrip(parse, [dn]);
  }

  /** The lines left by the overwrite parse to the new definition and the old second one. */
  lemma StaleLinesParse(parse: string -> Option<Timestamp>, t: Timestamp)
    requires t.rfc3339 == "T" && parse("T") == Some(t)
    ensures ParseLines(parse, ["T, a", "cdef"] + Split(Line(Definition(t, "z")), '\n'))
         == Returns([Definition(t, "a"), Definition(t, "z")])
  {
    var dz, dn := Definition(t, "z"), Definition(t, "a");
    var rest := Split(Line(dz), '\n');
    var lines := ["T, a", "cdef"] + rest;
    LastLineParse(parse, t);
    StaleHeadParse(parse, t);
    assert lines[0] == "T, a" && lines[1] == "cdef";
    assert lines[0..] == lines && lines[2..] == rest;
    ParseLinesStep(parse, lines, 1);
    ParseLinesStep(parse, lines, 0);
    assert [dn] + [dz] == [dn, dz];
  }

  lemma LastLineParse(parse: string -> Option<Timestamp>, t: Timestamp)
    requires t.rfc3339 == "T" && parse("T") == Some(t)
    ensures ParseLines(parse, Split(Line(Definition(t, "z")), '\n')) == Returns([Definition(t, "z")])
  {
    var dz := Definition(t, "z");
    assert Storable(parse, dz);
    OneLine(dz);
    DocumentRoundTrip(parse, [dz]);
  }

  lemma StaleHeadParse(parse: string -> Option<Timestamp>, t: Timestamp)
    requires t.rfc3339 == "T" && parse("T") == Some(t)
    ensures ParseLine(parse, "T, a") == Parsed(Definition(t, "a"))
    ensures ParseLine(parse, "cdef") == Skipped
  {
    var dn := Definition(t, "a");
    assert Storable(parse, dn);
    ParseLineOfLine(parse, dn);
    assert dn.createdAt.rfc3339 + ", " + dn.definition == "T, a";
    CountZero("cdef", ',');
  }

  /** The lines of the overwritten file: the new line, the old first line's leftover `cdef`, the old last line. */
  lemma StaleLines(t: Timestamp)
    requires t.rfc3339 == "T"
    ensures Split(WriteAsWritten(Some(Document([Definition(t, "abcdef"), Definition(t, "z")])), false, Document([Definition(t, "a")])), '\n')
         == ["T, a", "cdef"] + Split(Line(Definition(t, "z")), '\n')
  {
    var dz := Definition(t, "z");
    StaleText(t);
    SplitAfterPiece("T, a", '\n', "cdef" + ['\n'] + Line(dz));
    SplitAfterPiece("cdef", '\n', Line(dz));
  }

  /** The text of the overwritten file: the new line, then the old first line's leftover, then the old last line. */
  lemma StaleText(t: Timestamp)
    requires t.rfc3339 == "T"
    ensures WriteAsWritten(Some(Document([Definition(t, "abcdef"), Definition(t, "z")])), false, Document([Definition(t, "a")]))
         == "T, a" + ['\n'] + ("cdef" + ['\n'] + Line(Definition(t, "z")))
  {
    var da, dz, dn := Definition(t, "abcdef"), Definition(t, "z"), Definition(t, "a");
    OneLine(dn);
    TwoLines(da, dz);
    var data, before := Line(dn), Line(da) + Line(dz);
    assert data == "T, a" + ['\n'];
    assert Line(da)[5..] == "cdef" + ['\n'];
    assert before[5..] == Line(da)[5..] + Line(dz);
  }

  lemma TwoLines(a: Definition, b: Definition)
    ensures Document([a, b]) == Line(a) + Line(b)
  {
    OneLine(b);
    DocumentAppend([a], b);
    OneLine(a);
    assert [a] + [b] == [a, b];
  }

  lemma OneLine(d: Definition)
    ensures Document([d]) == Line(d)
  {
    assert [d][1..] == [];
    assert Line(d) + "" == Line(d);
  }

  /**
   * `save_definitions`: every definition is stamped with the same moment
   * and written as one line, in order; the definitions are returned in
   * that order. The file is opened in append mode when `append` is set.
   */
  method SaveDefinitions(ctx: Processor, kind: DefinitionKind, append: bool, definitions: seq<string>, now: Timestamp, files: Files)
    returns (saved: seq<Definition>, files': Files)
    ensures saved == Stamped(now, definitions)
    ensures files' == files[DefinitionFile(ctx.projectPath, kind) := Write(Lookup(files, DefinitionFile(ctx.projectPath, kind)), append, Document(saved))]
  {
    var path := DefinitionFile(ctx.projectPath, kind);
    var written := "";
    saved := [];
    for i := 0 to |definitions|
      invariant |saved| == i
      invariant forall j :: 0 <= j < i ==> saved[j] == Definition(now, definitions[j])
      invariant written == Document(saved)
    {
      var def := Definition(now, definitions[i]);
      DocumentAppend(saved, def);
      written := written + Line(def);
      saved := saved + [def];
    }
    files' := files[path := Write(Lookup(files, path), append, written)];
  }

  /** `save_project_definitions`: appends to `_project.md`. */
  method SaveProjectDefinitions(ctx: Processor, definitions: seq<string>, now: Timestamp, files: Files)
    returns (saved: seq<Definition>, files': Files)
    ensures saved == Stamped(now, definitions)
    ensures files' == files[DefinitionFile(ctx.projectPath, Project) := Write(Lookup(files, DefinitionFile(ctx.projectPath, Project)), true, Document(saved))]
  {
    saved, files' := SaveDefinitions(ctx, Project, true, definitions, now, files);
  }

  /** The six definitions blob records about itself. */
  const SelfDefinitions: seq<string> := [
    "blob is a cli tool to modify the source code with natural language instructions",
    "blob uses OpenAI GPT-3 to understand the instructions and execute the mutations in form of unix instructions or file editing",
    "blob have two commands: `blob do` an `blob define`",
    "`blob do \"YOUR_INSTRUCTION\"` is used to execute a mutation over the entire project file structure",
    "`blob do -f <file> \"YOUR_INSTRUCTION\"` is used to execute a mutation over specific file",
    "`blob define \"YOUR_DEFINITION\"` is used to define a concept and improve the context for blob"
  ]

  /** `new`: the processor, after overwriting `_self.md` with the six self definitions. */
  method New(projectPath: string, now: Timestamp, files: Files) returns (ctx: Processor, files': Files)
    ensures ctx.projectPath == projectPath
    ensures files' == files[DefinitionFile(projectPath, SelfReference) := Document(Stamped(now, SelfDefinitions))]
  {
    ctx := Processor(projectPath);
    var saved, written := SaveDefinitions(ctx, SelfReference, false, SelfDefinitions, now, files);
    files' := written;
  }
}
