/**
 * The HTML export of the CONSO ontology: the term table is filtered of
 * withdrawn terms, the synonym, cross-reference and relation tables are
 * grouped into lookup tables keyed by term identifier, and one index page
 * plus one page per kept term are written below an output directory.
 *
 * Rows are already-parsed records of strings. Rendering a page is modelled by
 * the page's template arguments, and the filesystem by the list of directory
 * creations and file writes the export performs, in order.
 */
module Html {
  import opened Grouping

  /** The namespace tag of this ontology in the relations table. */
  const LocalNamespace: string := "HBP"

  /** The name that marks a soft-deleted term. */
  const WithdrawnName: string := "WITHDRAWN"

  /** The file name of every page. */
  const IndexFile: string := "index.html"

  datatype Option<T> = None | Some(value: T)

  // ---------------------------------------------------------------------------
  // Rows of the four tables and the tuples appended to the lookup tables

  /** A row of the terms table; `details` are its other columns, passed through to the templates. */
  datatype Term = Term(identifier: string, name: string, details: seq<string>)

  datatype SynonymRow = SynonymRow(identifier: string, synonym: string, reference: string, specificity: string)
  datatype Synonym = Synonym(synonym: string, reference: string, specificity: string)

  datatype XrefRow = XrefRow(identifier: string, database: string, databaseIdentifier: string)
  datatype Xref = Xref(database: string, databaseIdentifier: string)

  datatype RelationRow = RelationRow(
    sourceNamespace: string, sourceIdentifier: string, sourceName: string,
    relation: string,
    targetNamespace: string, targetIdentifier: string, targetName: string)
  datatype Outgoing = Outgoing(relation: string, targetNamespace: string, targetIdentifier: string, targetName: string)
  datatype Incoming = Incoming(sourceNamespace: string, sourceIdentifier: string, sourceName: string, relation: string)

  /** The four input tables, in file order. */
  datatype Tables = Tables(terms: seq<Term>, synonyms: seq<SynonymRow>, xrefs: seq<XrefRow>, relations: seq<RelationRow>)

  function SynonymKey(r: SynonymRow): string { r.identifier }
  function SynonymOf(r: SynonymRow): Synonym { Synonym(r.synonym, r.reference, r.specificity) }

  function XrefKey(r: XrefRow): string { r.identifier }
  function XrefOf(r: XrefRow): Xref { Xref(r.database, r.databaseIdentifier) }

  predicate IsLocalSource(r: RelationRow) { r.sourceNamespace == LocalNamespace }
  function SourceKey(r: RelationRow): string { r.sourceIdentifier }
  function OutgoingOf(r: RelationRow): Outgoing { Outgoing(r.relation, r.targetNamespace, r.targetIdentifier, r.targetName) }

  predicate IsLocalTarget(r: RelationRow) { r.targetNamespace == LocalNamespace }
  function TargetKey(r: RelationRow): string { r.targetIdentifier }
  function IncomingOf(r: RelationRow): Incoming { Incoming(r.sourceNamespace, r.sourceIdentifier, r.sourceName, r.relation) }

  /** The four lookup tables handed to the templates. */
  datatype Indexes = Indexes(
    synonyms: map<string, seq<Synonym>>,
    xrefs: map<string, seq<Xref>>,
    incoming: map<string, seq<Incoming>>,
    outgoing: map<string, seq<Outgoing>>)

  /** A path as its list of components, from the output directory down. */
  type Path = seq<string>

  /** A rendered page, given by the arguments its template is rendered with. */
  datatype Page =
    | IndexPage(terms: seq<Term>, indexes: Indexes, debugLinks: bool)
    | TermPage(row: Term, synonyms: seq<Synonym>, xrefs: seq<Xref>,
               incoming: seq<Incoming>, outgoing: seq<Outgoing>, debugLinks: bool)

  /** What the export does to the filesystem. */
  datatype Effect = MakeDirs(dir: Path) | WriteFile(path: Path, page: Page)

  // ---------------------------------------------------------------------------
  // Withdrawn-term filter

  /** The term rows whose name is not the withdrawn marker, in table order. */
  function KeepTerms(terms: seq<Term>): (kept: seq<Term>)
    ensures forall t :: t in kept <==> t in terms && t.name != WithdrawnName
    ensures |kept| <= |terms|
  {
    if terms == [] then []
    else (if terms[0].name != WithdrawnName then [terms[0]] else []) + KeepTerms(terms[1..])
  }

  /** The filter keeps relative order: filtering a concatenation concatenates the filtered parts. */
  lemma {:induction false} KeepTermsConcat(a: seq<Term>, b: seq<Term>)
    ensures KeepTerms(a + b) == KeepTerms(a) + KeepTerms(b)
  {
    if a == [] {
      assert a + b == b;
    } else {
      assert (a + b)[0] == a[0];
      assert (a + b)[1..] == a[1..] + b;
      KeepTermsConcat(a[1..], b);
    }
  }

  /** The filter removes nothing exactly when no term is withdrawn. */
  lemma {:induction false} KeepTermsIdentity(terms: seq<Term>)
    ensures KeepTerms(terms) == terms <==> forall i :: 0 <= i < |terms| ==> terms[i].name != WithdrawnName
  {
    if terms != [] {
      KeepTermsIdentity(terms[1..]);
      if terms[0].name == WithdrawnName {
        assert |KeepTerms(terms)| < |terms|;
      } else if KeepTerms(terms) == terms {
        assert KeepTerms(terms[1..]) == terms[1..];
      }
      assert forall i :: 1 <= i < |terms| ==> terms[i] == terms[1..][i - 1];
    }
  }

  // ---------------------------------------------------------------------------
  // Synonym, cross-reference and relation indexes

  /** Groups the synonym rows by term identifier. */
  method IndexSynonyms(rows: seq<SynonymRow>) returns (synonyms: map<string, seq<Synonym>>)
    ensures synonyms == Grouped(rows, Always, SynonymKey, SynonymOf)
    ensures forall id :: Lookup(synonyms, id) == Select(rows, Always, SynonymKey, SynonymOf, id)
    ensures TotalLength(synonyms, synonyms.Keys) == |rows|
  {
    synonyms := GroupRows(rows, Always, SynonymKey, SynonymOf);
    CountKeptAlways(rows);
  }

  /** Groups the cross-reference rows by term identifier. */
  method IndexXrefs(rows: seq<XrefRow>) returns (xrefs: map<string, seq<Xref>>)
    ensures xrefs == Grouped(rows, Always, XrefKey, XrefOf)
    ensures forall id :: Lookup(xrefs, id) == Select(rows, Always, XrefKey, XrefOf, id)
    ensures TotalLength(xrefs, xrefs.Keys) == |rows|
  {
    xrefs := GroupRows(rows, Always, XrefKey, XrefOf);
    CountKeptAlways(rows);
  }

  /**
   * One pass over the relation rows: a row whose source is local is appended
   * to the outgoing list of its source, and, independently, a row whose target
   * is local is appended to the incoming list of its target.
   */
  method IndexRelations(rows: seq<RelationRow>)
    returns (incoming: map<string, seq<Incoming>>, outgoing: map<string, seq<Outgoing>>)
    ensures outgoing == Grouped(rows, IsLocalSource, SourceKey, OutgoingOf)
    ensures incoming == Grouped(rows, IsLocalTarget, TargetKey, IncomingOf)
    ensures TotalLength(outgoing, outgoing.Keys) == CountKept(rows, IsLocalSource)
    ensures TotalLength(incoming, incoming.Keys) == CountKept(rows, IsLocalTarget)
  {
    incoming, outgoing := map[], map[];
    assert Grouped([], IsLocalSource, SourceKey, OutgoingOf) == map[];
    assert Grouped([], IsLocalTarget, TargetKey, IncomingOf) == map[];
    for i := 0 to |rows|
      invariant outgoing == Grouped(rows[..i], IsLocalSource, SourceKey, OutgoingOf)
      invariant incoming == Grouped(rows[..i], IsLocalTarget, TargetKey, IncomingOf)
    {
      var row := rows[i];
      assert rows[..i + 1] == rows[..i] + [row];
      GroupedSnoc(rows[..i], row, IsLocalSource, SourceKey, OutgoingOf);
      GroupedSnoc(rows[..i], row, IsLocalTarget, TargetKey, IncomingOf);
      if row.sourceNamespace == LocalNamespace {
        outgoing := Append(outgoing, row.sourceIdentifier,
          Outgoing(row.relation, row.targetNamespace, row.targetIdentifier, row.targetName));
      }
      if row.targetNamespace == LocalNamespace {
        incoming := Append(incoming, row.targetIdentifier,
          Incoming(row.sourceNamespace, row.sourceIdentifier, row.sourceName, row.relation));
      }
    }
    assert rows[..|rows|] == rows;
    GroupedTotal(rows, IsLocalSource, SourceKey, OutgoingOf);
    GroupedTotal(rows, IsLocalTarget, TargetKey, IncomingOf);
  }

  /**
   * A relation row read after the rows `before` is appended to the outgoing list
   * of its source exactly when its source namespace is local, and to the
   * incoming list of its target exactly when its target namespace is local; the
   * two tests are independent, so a row local on both sides lands in both
   * tables and a row local on neither side changes neither.
   */
  lemma RelationClassified(before: seq<RelationRow>, r: RelationRow)
    ensures Select(before + [r], IsLocalSource, SourceKey, OutgoingOf, r.sourceIdentifier)
            == Select(before, IsLocalSource, SourceKey, OutgoingOf, r.sourceIdentifier) + [OutgoingOf(r)]
            <==> r.sourceNamespace == LocalNamespace
    ensures Select(before + [r], IsLocalTarget, TargetKey, IncomingOf, r.targetIdentifier)
            == Select(before, IsLocalTarget, TargetKey, IncomingOf, r.targetIdentifier) + [IncomingOf(r)]
            <==> r.targetNamespace == LocalNamespace
    ensures r.sourceNamespace != LocalNamespace ==>
            forall id :: Select(before + [r], IsLocalSource, SourceKey, OutgoingOf, id)
                         == Select(before, IsLocalSource, SourceKey, OutgoingOf, id)
    ensures r.targetNamespace != LocalNamespace ==>
            forall id :: Select(before + [r], IsLocalTarget, TargetKey, IncomingOf, id)
                         == Select(before, IsLocalTarget, TargetKey, IncomingOf, id)
  {
    LandsIff(before, r, IsLocalSource, SourceKey, OutgoingOf);
    LandsIff(before, r, IsLocalTarget, TargetKey, IncomingOf);
  }

  // ---------------------------------------------------------------------------
  // Output layout

  /** The output directory: the one given, or the default one. */
  function ResolveDirectory(directory: Option<string>, outputDirectory: string): string
  {
    match directory
    case None => outputDirectory
    case Some(d) => d
  }

  /** The lookup tables built from the four tables. */
  function BuildIndexes(tables: Tables): Indexes
  {
    Indexes(
      Grouped(tables.synonyms, Always, SynonymKey, SynonymOf),
      Grouped(tables.xrefs, Always, XrefKey, XrefOf),
      Grouped(tables.relations, IsLocalTarget, TargetKey, IncomingOf),
      Grouped(tables.relations, IsLocalSource, SourceKey, OutgoingOf))
  }

  /** The detail page of one term: its own slice of each lookup table. */
  function TermPageFor(t: Term, idx: Indexes, debugLinks: bool): Page
  {
    TermPage(t,
      Lookup(idx.synonyms, t.identifier), Lookup(idx.xrefs, t.identifier),
      Lookup(idx.incoming, t.identifier), Lookup(idx.outgoing, t.identifier),
      debugLinks)
  }

  /** For each kept term in order: create its subdirectory, then write its page there. */
  function TermEffects(kept: seq<Term>, dir: string, idx: Indexes, debugLinks: bool): seq<Effect>
  {
    if kept == [] then []
    else [MakeDirs([dir, kept[0].identifier]),
          WriteFile([dir, kept[0].identifier, IndexFile], TermPageFor(kept[0], idx, debugLinks))]
         + TermEffects(kept[1..], dir, idx, debugLinks)
  }

  /** Everything one export run does, in order. */
  function ExportEffects(tables: Tables, directory: Option<string>, outputDirectory: string, debugLinks: bool): seq<Effect>
  {
    var kept := KeepTerms(tables.terms);
    var dir := ResolveDirectory(directory, outputDirectory);
    var idx := BuildIndexes(tables);
    [MakeDirs([dir]), WriteFile([dir, IndexFile], IndexPage(kept, idx, debugLinks))]
    + TermEffects(kept, dir, idx, debugLinks)
  }

  /** Every file write comes right after the creation of the directory that holds it. */
  predicate WritesAfterDirs(effects: seq<Effect>)
  {
    forall n :: 0 <= n < |effects| && effects[n].WriteFile? ==>
      0 < n && 0 < |effects[n].path| &&
      effects[n - 1] == MakeDirs(effects[n].path[..|effects[n].path| - 1])
  }

  /** The directories created. */
  function CreatedDirs(effects: seq<Effect>): set<Path>
  {
    set e | e in effects && e.MakeDirs? :: e.dir
  }

  /** The paths of all files written. */
  function WrittenPaths(effects: seq<Effect>): set<Path>
  {
    set e | e in effects && e.WriteFile? :: e.path
  }

  /**
   * The export: filter the terms, build the four lookup tables, pick the
   * output directory, write the index page, then each kept term's page.
   * `outputDirectory` is the default output directory, which the program
   * derives from its own location.
   */
  method Export(tables: Tables, directory: Option<string>, outputDirectory: string, debugLinks: bool)
    returns (effects: seq<Effect>)
    ensures effects == ExportEffects(tables, directory, outputDirectory, debugLinks)
  {
    var kept := KeepTerms(tables.terms);
    var synonyms := IndexSynonyms(tables.synonyms);
    var xrefs := IndexXrefs(tables.xrefs);
    var incoming, outgoing := IndexRelations(tables.relations);
    var dir := outputDirectory;
    if directory.Some? {
      dir := directory.value;
    }
    var idx := Indexes(synonyms, xrefs, incoming, outgoing);
    var pages := WriteTermPages(kept, dir, idx, debugLinks);
    effects := [MakeDirs([dir]), WriteFile([dir, IndexFile], IndexPage(kept, idx, debugLinks))] + pages;
  }

  /** For each kept term in table order: create its subdirectory, then write its page there. */
  method WriteTermPages(kept: seq<Term>, dir: string, idx: Indexes, debugLinks: bool) returns (effects: seq<Effect>)
    ensures effects == TermEffects(kept, dir, idx, debugLinks)
  {
    effects := [];
    for i := 0 to |kept|
      invariant effects == TermEffects(kept[..i], dir, idx, debugLinks)
    {
      var row := kept[i];
      var subdirectory := [dir, row.identifier];
      effects := effects + [MakeDirs(subdirectory), WriteFile(subdirectory + [IndexFile], TermPageFor(row, idx, debugLinks))];
      assert subdirectory + [IndexFile] == [dir, row.identifier, IndexFile];
      assert kept[..i + 1] == kept[..i] + [row];
      assert TermEffects([row], dir, idx, debugLinks)
             == [MakeDirs(subdirectory), WriteFile(subdirectory + [IndexFile], TermPageFor(row, idx, debugLinks))]
      by {
        assert [row][1..] == [];
      }
      TermEffectsConcat(kept[..i], [row], dir, idx, debugLinks);
    }
    assert kept[..|kept|] == kept;
  }

  // ---------------------------------------------------------------------------
  // Lemmas about the per-term loop

  lemma {:induction false} TermEffectsConcat(a: seq<Term>, b: seq<Term>, dir: string, idx: Indexes, debugLinks: bool)
    ensures TermEffects(a + b, dir, idx, debugLinks) == TermEffects(a, dir, idx, debugLinks) + TermEffects(b, dir, idx, debugLinks)
  {
    if a == [] {
      assert a + b == b;
    } else {
      assert (a + b)[0] == a[0];
      assert (a + b)[1..] == a[1..] + b;
      TermEffectsConcat(a[1..], b, dir, idx, debugLinks);
    }
  }

  lemma WrittenPathsConcat(a: seq<Effect>, b: seq<Effect>)
    ensures WrittenPaths(a + b) == WrittenPaths(a) + WrittenPaths(b)
  {
  }

  /** The per-term loop writes one `<dir>/<Identifier>/index.html` per term and nothing else. */
  lemma {:induction false} TermEffectsPaths(kept: seq<Term>, dir: string, idx: Indexes, debugLinks: bool)
    ensures WrittenPaths(TermEffects(kept, dir, idx, debugLinks))
            == set t | t in kept :: [dir, t.identifier, IndexFile]
  {
    if kept != [] {
      var t := kept[0];
      var first := [MakeDirs([dir, t.identifier]), WriteFile([dir, t.identifier, IndexFile], TermPageFor(t, idx, debugLinks))];
      TermEffectsPaths(kept[1..], dir, idx, debugLinks);
      WrittenPathsConcat(first, TermEffects(kept[1..], dir, idx, debugLinks));
      assert WrittenPaths(first) == {[dir, t.identifier, IndexFile]};
      assert kept == [t] + kept[1..];
    }
  }

  lemma CreatedDirsConcat(a: seq<Effect>, b: seq<Effect>)
    ensures CreatedDirs(a + b) == CreatedDirs(a) + CreatedDirs(b)
  {
  }

  /** The per-term loop creates one `<dir>/<Identifier>` per term and no other directory. */
  lemma {:induction false} TermEffectsDirs(kept: seq<Term>, dir: string, idx: Indexes, debugLinks: bool)
    ensures CreatedDirs(TermEffects(kept, dir, idx, debugLinks))
            == set t | t in kept :: [dir, t.identifier]
  {
    if kept != [] {
      var t := kept[0];
      var first := [MakeDirs([dir, t.identifier]), WriteFile([dir, t.identifier, IndexFile], TermPageFor(t, idx, debugLinks))];
      TermEffectsDirs(kept[1..], dir, idx, debugLinks);
      CreatedDirsConcat(first, TermEffects(kept[1..], dir, idx, debugLinks));
      assert CreatedDirs(first) == {[dir, t.identifier]};
      assert kept == [t] + kept[1..];
    }
  }

  /**
   * The per-term loop writes each term's page at the term's own path, and every
   * file it writes is such a page.
   */
  lemma {:induction false} TermEffectsPages(kept: seq<Term>, dir: string, idx: Indexes, debugLinks: bool)
    ensures forall t :: t in kept ==>
              WriteFile([dir, t.identifier, IndexFile], TermPageFor(t, idx, debugLinks)) in TermEffects(kept, dir, idx, debugLinks)
    ensures forall e :: e in TermEffects(kept, dir, idx, debugLinks) && e.WriteFile? ==>
              e.page.TermPage? && e.page.row in kept &&
              e == WriteFile([dir, e.page.row.identifier, IndexFile], TermPageFor(e.page.row, idx, debugLinks))
  {
    if kept != [] {
      TermEffectsPages(kept[1..], dir, idx, debugLinks);
      assert kept == [kept[0]] + kept[1..];
    }
  }

  /** Joining two effect lists keeps writes after their directories, unless the second starts with a write. */
  lemma WritesAfterDirsConcat(a: seq<Effect>, b: seq<Effect>)
    requires WritesAfterDirs(a) && WritesAfterDirs(b)
    requires b != [] ==> !b[0].WriteFile?
    ensures WritesAfterDirs(a + b)
  {
    var effects := a + b;
    forall n | |a| <= n < |effects| && effects[n].WriteFile?
      ensures 0 < n && 0 < |effects[n].path| &&
              effects[n - 1] == MakeDirs(effects[n].path[..|effects[n].path| - 1])
    {
      assert effects[n] == b[n - |a|];
      assert effects[n - 1] == b[n - 1 - |a|];
    }
  }

  /** In the per-term loop, every file write comes right after the creation of its directory. */
  lemma {:induction false} TermEffectsOrdered(kept: seq<Term>, dir: string, idx: Indexes, debugLinks: bool)
    ensures WritesAfterDirs(TermEffects(kept, dir, idx, debugLinks))
    ensures TermEffects(kept, dir, idx, debugLinks) != [] ==> TermEffects(kept, dir, idx, debugLinks)[0].MakeDirs?
  {
    if kept != [] {
      TermEffectsOrdered(kept[1..], dir, idx, debugLinks);
      var t := kept[0];
      var first := [MakeDirs([dir, t.identifier]), WriteFile([dir, t.identifier, IndexFile], TermPageFor(t, idx, debugLinks))];
      assert [dir, t.identifier, IndexFile][..2] == [dir, t.identifier];
      assert WritesAfterDirs(first);
      WritesAfterDirsConcat(first, TermEffects(kept[1..], dir, idx, debugLinks));
    }
  }

  /** The per-term loop reads the lookup tables only at the kept terms' identifiers. */
  lemma {:induction false} TermEffectsLocal(kept: seq<Term>, dir: string, idx1: Indexes, idx2: Indexes, debugLinks: bool)
    requires forall t :: t in kept ==> TermPageFor(t, idx1, debugLinks) == TermPageFor(t, idx2, debugLinks)
    ensures TermEffects(kept, dir, idx1, debugLinks) == TermEffects(kept, dir, idx2, debugLinks)
  {
    if kept != [] {
      assert kept[0] in kept;
      TermEffectsLocal(kept[1..], dir, idx1, idx2, debugLinks);
    }
  }

  // ---------------------------------------------------------------------------
  // Lemmas about the whole export

  /** A kept term's page carries, in table order, the entries of the rows with its identifier. */
  lemma TermPageSlices(tables: Tables, t: Term, debugLinks: bool)
    ensures TermPageFor(t, BuildIndexes(tables), debugLinks)
            == TermPage(t,
                 Select(tables.synonyms, Always, SynonymKey, SynonymOf, t.identifier),
                 Select(tables.xrefs, Always, XrefKey, XrefOf, t.identifier),
                 Select(tables.relations, IsLocalTarget, TargetKey, IncomingOf, t.identifier),
                 Select(tables.relations, IsLocalSource, SourceKey, OutgoingOf, t.identifier),
                 debugLinks)
  {
    GroupedLookup(tables.synonyms, Always, SynonymKey, SynonymOf, t.identifier);
    GroupedLookup(tables.xrefs, Always, XrefKey, XrefOf, t.identifier);
    GroupedLookup(tables.relations, IsLocalTarget, TargetKey, IncomingOf, t.identifier);
    GroupedLookup(tables.relations, IsLocalSource, SourceKey, OutgoingOf, t.identifier);
  }

  /**
   * The files written are `<directory>/index.html` and one
   * `<directory>/<Identifier>/index.html` per kept term, where the directory is
   * the one given or else the default one.
   */
  lemma ExportLayout(tables: Tables, directory: Option<string>, outputDirectory: string, debugLinks: bool)
    ensures var dir := if directory.Some? then directory.value else outputDirectory;
            WrittenPaths(ExportEffects(tables, directory, outputDirectory, debugLinks))
            == {[dir, IndexFile]} + set t | t in KeepTerms(tables.terms) :: [dir, t.identifier, IndexFile]
  {
    var kept := KeepTerms(tables.terms);
    var dir := ResolveDirectory(directory, outputDirectory);
    var idx := BuildIndexes(tables);
    var head := [MakeDirs([dir]), WriteFile([dir, IndexFile], IndexPage(kept, idx, debugLinks))];
    var tail := TermEffects(kept, dir, idx, debugLinks);
    assert ExportEffects(tables, directory, outputDirectory, debugLinks) == head + tail;
    WrittenPathsConcat(head, tail);
    assert WrittenPaths(head) == {[dir, IndexFile]};
    TermEffectsPaths(kept, dir, idx, debugLinks);
  }

  /**
   * The directories created are the output directory and one
   * `<directory>/<Identifier>` per kept term, where the directory is the one
   * given or else the default one.
   */
  lemma ExportDirs(tables: Tables, directory: Option<string>, outputDirectory: string, debugLinks: bool)
    ensures var dir := if directory.Some? then directory.value else outputDirectory;
            CreatedDirs(ExportEffects(tables, directory, outputDirectory, debugLinks))
            == {[dir]} + set t | t in KeepTerms(tables.terms) :: [dir, t.identifier]
  {
    var kept := KeepTerms(tables.terms);
    var dir := ResolveDirectory(directory, outputDirectory);
    var idx := BuildIndexes(tables);
    var head := [MakeDirs([dir]), WriteFile([dir, IndexFile], IndexPage(kept, idx, debugLinks))];
    var tail := TermEffects(kept, dir, idx, debugLinks);
    assert ExportEffects(tables, directory, outputDirectory, debugLinks) == head + tail;
    CreatedDirsConcat(head, tail);
    assert CreatedDirs(head) == {[dir]};
    TermEffectsDirs(kept, dir, idx, debugLinks);
  }

  /**
   * A withdrawn term gets neither a subdirectory nor a page, unless a kept term
   * shares its identifier.
   */
  lemma WithdrawnTermUnwritten(tables: Tables, w: Term, directory: Option<string>, outputDirectory: string, debugLinks: bool)
    requires w in tables.terms && w.name == WithdrawnName
    requires forall t :: t in KeepTerms(tables.terms) ==> t.identifier != w.identifier
    ensures var dir := if directory.Some? then directory.value else outputDirectory;
            var effects := ExportEffects(tables, directory, outputDirectory, debugLinks);
            [dir, w.identifier] !in CreatedDirs(effects) &&
            [dir, w.identifier, IndexFile] !in WrittenPaths(effects)
  {
    ExportDirs(tables, directory, outputDirectory, debugLinks);
    ExportLayout(tables, directory, outputDirectory, debugLinks);
    var dir := if directory.Some? then directory.value else outputDirectory;
    forall t | t in KeepTerms(tables.terms)
      ensures [dir, t.identifier] != [dir, w.identifier]
      ensures [dir, t.identifier, IndexFile] != [dir, w.identifier, IndexFile]
    {
      assert [dir, t.identifier][1] == t.identifier;
      assert [dir, t.identifier, IndexFile][1] == t.identifier;
    }
  }

  /**
   * Term pages are exactly the kept terms' pages: every kept term's page is
   * written in its own subdirectory with the synonyms, cross-references and
   * incoming and outgoing relations whose rows carry its identifier, and every
   * term page written belongs to a kept term in that way.
   */
  lemma TermPagesExact(tables: Tables, directory: Option<string>, outputDirectory: string, debugLinks: bool)
    ensures var dir := if directory.Some? then directory.value else outputDirectory;
            var effects := ExportEffects(tables, directory, outputDirectory, debugLinks);
            forall t :: t in KeepTerms(tables.terms) ==>
              WriteFile([dir, t.identifier, IndexFile],
                TermPage(t,
                  Select(tables.synonyms, Always, SynonymKey, SynonymOf, t.identifier),
                  Select(tables.xrefs, Always, XrefKey, XrefOf, t.identifier),
                  Select(tables.relations, IsLocalTarget, TargetKey, IncomingOf, t.identifier),
                  Select(tables.relations, IsLocalSource, SourceKey, OutgoingOf, t.identifier),
                  debugLinks)) in effects
    ensures var dir := if directory.Some? then directory.value else outputDirectory;
            var effects := ExportEffects(tables, directory, outputDirectory, debugLinks);
            forall e :: e in effects && e.WriteFile? && e.page.TermPage? ==>
              var t := e.page.row;
              t in KeepTerms(tables.terms) && t.name != WithdrawnName &&
              e.path == [dir, t.identifier, IndexFile] &&
              e.page.synonyms == Select(tables.synonyms, Always, SynonymKey, SynonymOf, t.identifier) &&
              e.page.xrefs == Select(tables.xrefs, Always, XrefKey, XrefOf, t.identifier) &&
              e.page.incoming == Select(tables.relations, IsLocalTarget, TargetKey, IncomingOf, t.identifier) &&
              e.page.outgoing == Select(tables.relations, IsLocalSource, SourceKey, OutgoingOf, t.identifier) &&
              e.page.debugLinks == debugLinks
  {
    var kept := KeepTerms(tables.terms);
    var dir := ResolveDirectory(directory, outputDirectory);
    var idx := BuildIndexes(tables);
    var head := [MakeDirs([dir]), WriteFile([dir, IndexFile], IndexPage(kept, idx, debugLinks))];
    var tail := TermEffects(kept, dir, idx, debugLinks);
    assert ExportEffects(tables, directory, outputDirectory, debugLinks) == head + tail;
    TermEffectsPages(kept, dir, idx, debugLinks);
    forall t | t in kept {
      TermPageSlices(tables, t, debugLinks);
    }
  }

  /** Every file is written right after its directory has been created. */
  lemma DirectoryBeforeWrite(tables: Tables, directory: Option<string>, outputDirectory: string, debugLinks: bool)
    ensures WritesAfterDirs(ExportEffects(tables, directory, outputDirectory, debugLinks))
  {
    var kept := KeepTerms(tables.terms);
    var dir := ResolveDirectory(directory, outputDirectory);
    var idx := BuildIndexes(tables);
    var head := [MakeDirs([dir]), WriteFile([dir, IndexFile], IndexPage(kept, idx, debugLinks))];
    var tail := TermEffects(kept, dir, idx, debugLinks);
    assert ExportEffects(tables, directory, outputDirectory, debugLinks) == head + tail;
    TermEffectsOrdered(kept, dir, idx, debugLinks);
    assert [dir, IndexFile][..1] == [dir];
    assert WritesAfterDirs(head);
    WritesAfterDirsConcat(head, tail);
  }

  /**
   * A synonym row whose identifier is no kept term's identifier (an unknown or
   * withdrawn term) is loaded but never reaches any term page: without it the
   * term directories and pages are the same.
   */
  lemma OrphanSynonymUnseen(tables: Tables, j: nat, directory: Option<string>, outputDirectory: string, debugLinks: bool)
    requires j < |tables.synonyms|
    requires forall t :: t in KeepTerms(tables.terms) ==> t.identifier != tables.synonyms[j].identifier
    ensures var without := tables.(synonyms := tables.synonyms[..j] + tables.synonyms[j + 1..]);
            ExportEffects(without, directory, outputDirectory, debugLinks)[2..]
            == ExportEffects(tables, directory, outputDirectory, debugLinks)[2..]
  {
    var without := tables.(synonyms := tables.synonyms[..j] + tables.synonyms[j + 1..]);
    var kept := KeepTerms(tables.terms);
    forall t | t in kept
      ensures TermPageFor(t, BuildIndexes(without), debugLinks) == TermPageFor(t, BuildIndexes(tables), debugLinks)
    {
      TermPageSlices(tables, t, debugLinks);
      TermPageSlices(without, t, debugLinks);
      SelectRemoveOther(tables.synonyms, j, Always, SynonymKey, SynonymOf, t.identifier);
    }
    TermEffectsLocal(kept, ResolveDirectory(directory, outputDirectory), BuildIndexes(without), BuildIndexes(tables), debugLinks);
  }

  /**
   * A cross-reference row whose identifier is no kept term's identifier is
   * loaded but never reaches any term page.
   */
  lemma OrphanXrefUnseen(tables: Tables, j: nat, directory: Option<string>, outputDirectory: string, debugLinks: bool)
    requires j < |tables.xrefs|
    requires forall t :: t in KeepTerms(tables.terms) ==> t.identifier != tables.xrefs[j].identifier
    ensures var without := tables.(xrefs := tables.xrefs[..j] + tables.xrefs[j + 1..]);
            ExportEffects(without, directory, outputDirectory, debugLinks)[2..]
            == ExportEffects(tables, directory, outputDirectory, debugLinks)[2..]
  {
    var without := tables.(xrefs := tables.xrefs[..j] + tables.xrefs[j + 1..]);
    var kept := KeepTerms(tables.terms);
    forall t | t in kept
      ensures TermPageFor(t, BuildIndexes(without), debugLinks) == TermPageFor(t, BuildIndexes(tables), debugLinks)
    {
      TermPageSlices(tables, t, debugLinks);
      TermPageSlices(without, t, debugLinks);
      SelectRemoveOther(tables.xrefs, j, Always, XrefKey, XrefOf, t.identifier);
    }
    TermEffectsLocal(kept, ResolveDirectory(directory, outputDirectory), BuildIndexes(without), BuildIndexes(tables), debugLinks);
  }

  /**
   * A relation row whose source and target identifiers both belong to no kept
   * term is loaded but never reaches any term page.
   */
  lemma OrphanRelationUnseen(tables: Tables, j: nat, directory: Option<string>, outputDirectory: string, debugLinks: bool)
    requires j < |tables.relations|
    requires forall t :: t in KeepTerms(tables.terms) ==>
               t.identifier != tables.relations[j].sourceIdentifier && t.identifier != tables.relations[j].targetIdentifier
    ensures var without := tables.(relations := tables.relations[..j] + tables.relations[j + 1..]);
            ExportEffects(without, directory, outputDirectory, debugLinks)[2..]
            == ExportEffects(tables, directory, outputDirectory, debugLinks)[2..]
  {
    var without := tables.(relations := tables.relations[..j] + tables.relations[j + 1..]);
    var kept := KeepTerms(tables.terms);
    forall t | t in kept
      ensures TermPageFor(t, BuildIndexes(without), debugLinks) == TermPageFor(t, BuildIndexes(tables), debugLinks)
    {
      TermPageSlices(tables, t, debugLinks);
      TermPageSlices(without, t, debugLinks);
      SelectRemoveOther(tables.relations, j, IsLocalTarget, TargetKey, IncomingOf, t.identifier);
      SelectRemoveOther(tables.relations, j, IsLocalSource, SourceKey, OutgoingOf, t.identifier);
    }
    TermEffectsLocal(kept, ResolveDirectory(directory, outputDirectory), BuildIndexes(without), BuildIndexes(tables), debugLinks);
  }
}
