/**
 * `BlobContextProcessor` of `src/blob/blob.rs`: the same definitions file
 * format and `.blob` layout as `src/blob/context.rs`, with the project
 * root passed to each call and the moment of a definition optional.
 */
module Blob {
  import opened Common
  import opened Text
  import Context

  /** `BlobDefinition` of this file: the moment is optional. */
  datatype Definition = Definition(createdAt: Option<Context.Timestamp>, definition: string)

  /** `BlobDefinitionKind`. */
  datatype DefinitionKind = User

  function AsFilename(kind: DefinitionKind): (name: string)
    ensures name == "user.md"
  {
    match kind
    case User => "user.md"
  }

  /** The file holding the definitions of one kind, under `get_definitions_path`. */
  function DefinitionFile(rootPath: string, kind: DefinitionKind): Path
  {
    Context.DefinitionsPath(rootPath) + "/" + AsFilename(kind)
  }

  /**
   * `save_new_definition`: the definition, stamped with `now`, and the
   * files after its line is appended to the kind's file (created when
   * missing).
   */
  function SaveNewDefinition(rootPath: string, kind: DefinitionKind, definition: string, now: Context.Timestamp, files: Context.Files)
    : (r: (Definition, Context.Files))
    ensures r.0 == Definition(Some(now), definition)
    ensures DefinitionFile(rootPath, kind) in r.1
    ensures r.1[DefinitionFile(rootPath, kind)]
         == Context.Write(Context.Lookup(files, DefinitionFile(rootPath, kind)), true, Context.Line(Context.Definition(now, definition)))
    ensures Context.SameElsewhere(files, r.1, DefinitionFile(rootPath, kind))
  {
    var path := DefinitionFile(rootPath, kind);
    var line := Context.Line(Context.Definition(now, definition));
    (Definition(Some(now), definition), files[path := Context.Write(Context.Lookup(files, path), true, line)])
  }

  /** `save_new_context`: the script of a project mutation goes to `<mutation dir>/script.sh`. */
  function SaveNewContext(rootPath: string, createdAt: Context.Timestamp): string
  {
    Context.MutationsPath(rootPath) + "/" + createdAt.compact + "/script.sh"
  }

  /** Both processors put the script of a mutation created at the same moment in the same place. */
  lemma ScriptPathsAgree(rootPath: string, createdAt: Context.Timestamp)
    ensures SaveNewContext(rootPath, createdAt) == Context.ProjectScriptPath(rootPath, createdAt)
    ensures SaveNewContext(rootPath, createdAt) == rootPath + "/.blob/.mutations/" + createdAt.compact + "/script.sh"
  {
  }

  /** A parsed definition, with its moment. */
  function WithMoment(d: Context.Definition): Definition
  {
    Definition(Some(d.createdAt), d.definition)
  }

  function WithMoments(ds: seq<Context.Definition>): (r: seq<Definition>)
    ensures |r| == |ds|
    ensures forall i :: 0 <= i < |ds| ==> r[i] == WithMoment(ds[i])
  {
    seq(|ds|, i requires 0 <= i < |ds| => WithMoment(ds[i]))
  }

  /** The outcome of parsing, each definition given its moment. */
  function Lifted(o: Outcome<seq<Context.Definition>>): Outcome<seq<Definition>>
  {
    match o
    case Returns(ds) => Returns(WithMoments(ds))
    case Panics => Panics
    case Diverges => Diverges
  }

  lemma LiftedThen(d: Context.Definition, o: Outcome<seq<Context.Definition>>)
    ensures Lifted(Then([d], o)) == Then([WithMoment(d)], Lifted(o))
  {
    if o.Returns? {
      assert WithMoments([d] + o.value) == [WithMoment(d)] + WithMoments(o.value);
    }
  }

  /**
   * `retrieve_definitions`: the definitions of the kind's file, each with
   * `Some` moment, or none when the file cannot be opened. The lines are
   * parsed as in `src/blob/context.rs`.
   */
  method RetrieveDefinitions(rootPath: string, kind: DefinitionKind, files: Context.Files, parse: string -> Option<Context.Timestamp>)
    returns (r: Outcome<seq<Definition>>)
    ensures DefinitionFile(rootPath, kind) !in files ==> r == Returns([])
    ensures DefinitionFile(rootPath, kind) in files ==> r == Lifted(Context.Parse(parse, files[DefinitionFile(rootPath, kind)]))
    ensures r.Returns? ==> forall i :: 0 <= i < |r.value| ==> r.value[i].createdAt.Some?
  {
    var path := DefinitionFile(rootPath, kind);
    if path !in files {
      return Returns([]);
    }
    var lines := Split(files[path], '\n');
    var definitions: seq<Definition> := [];
    var i := 0;
    assert lines[0..] == lines;
    ThenEmpty(Lifted(Context.ParseLines(parse, lines)));
    while i < |lines|
      invariant 0 <= i <= |lines|
      invariant Lifted(Context.ParseLines(parse, lines)) == Then(definitions, Lifted(Context.ParseLines(parse, lines[i..])))
    {
      Context.ParseLinesStep(parse, lines, i);
      match Context.ParseLine(parse, lines[i]) {
        case Skipped =>
        case Unparsable =>
          return Panics;
        case Parsed(d) =>
          LiftedThen(d, Context.ParseLines(parse, lines[i + 1..]));
          ThenThen(definitions, [WithMoment(d)], Lifted(Context.ParseLines(parse, lines[i + 1..])));
          definitions := definitions + [WithMoment(d)];
      }
      i := i + 1;
    }
    assert lines[i..] == [];
    assert definitions + [] == definitions;
    return Returns(definitions);
  }

  /**
   * Saving a definition and retrieving the kind's definitions gives the
   * ones already there followed by the new one, with its moment, when all
   * of them are storable.
   */
  lemma SaveThenRetrieve(rootPath: string, kind: DefinitionKind, definition: string, now: Context.Timestamp,
                         files: Context.Files, parse: string -> Option<Context.Timestamp>, existing: seq<Context.Definition>)
    requires DefinitionFile(rootPath, kind) in files ==> files[DefinitionFile(rootPath, kind)] == Context.Document(existing)
    requires DefinitionFile(rootPath, kind) !in files ==> existing == []
    requires forall i :: 0 <= i < |existing| ==> Context.Storable(parse, existing[i])
    requires Context.Storable(parse, Context.Definition(now, definition))
    ensures Lifted(Context.Parse(parse, SaveNewDefinition(rootPath, kind, definition, now, files).1[DefinitionFile(rootPath, kind)]))
         == Returns(WithMoments(existing) + [SaveNewDefinition(rootPath, kind, definition, now, files).0])
  {
    var d := Context.Definition(now, definition);
    var all := existing + [d];
    var path := DefinitionFile(rootPath, kind);
    var saved := SaveNewDefinition(rootPath, kind, definition, now, files);
    AppendedDocument(path, d, files, existing);
    assert saved.1[path] == Context.Document(all);
    StorableAppend(parse, existing, d);
    Context.DocumentRoundTrip(parse, all);
    WithMomentsAppend(existing, d);
  }

  lemma WithMomentsAppend(ds: seq<Context.Definition>, d: Context.Definition)
    ensures WithMoments(ds + [d]) == WithMoments(ds) + [WithMoment(d)]
  {
  }

  lemma StorableAppend(parse: string -> Option<Context.Timestamp>, ds: seq<Context.Definition>, d: Context.Definition)
    requires forall i :: 0 <= i < |ds| ==> Context.Storable(parse, ds[i])
    requires Context.Storable(parse, d)
    ensures forall i :: 0 <= i < |ds + [d]| ==> Context.Storable(parse, (ds + [d])[i])
  {
    assert forall i :: 0 <= i < |ds| ==> (ds + [d])[i] == ds[i];
  }

  lemma AppendedDocument(path: Path, d: Context.Definition, files: Context.Files, existing: seq<Context.Definition>)
    requires path in files ==> files[path] == Context.Document(existing)
    requires path !in files ==> existing == []
    ensures Context.Write(Context.Lookup(files, path), true, Context.Line(d)) == Context.Document(existing + [d])
  {
    Context.DocumentAppend(existing, d);
    if path !in files {
      assert Context.Document(existing) + Context.Line(d) == Context.Line(d);
    }
  }
}
