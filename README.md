# CONSO HTML export, modelled in Dafny

This project models the indexing core of the HTML export of the Curation of
Neurodegeneration Supporting Ontology (CONSO), `main` in
`src/conso/export/html/html.py`. Before anything is rendered, the export:

1. drops every term row whose `Name` is `WITHDRAWN`, keeping table order;
2. groups the synonym rows by `Identifier` into lists of
   `(Synonym, Reference, Specificity)`;
3. groups the cross-reference rows by `identifier` into lists of
   `(database, database_identifier)`;
4. makes one pass over the relation rows. A row whose source namespace is the
   local tag `HBP` is appended to `outgoing[Source Identifier]` as
   `(Relation, Target Namespace, Target Identifier, Target Name)`. A row whose
   target namespace is `HBP` is appended to `incoming[Target Identifier]` as
   `(Source Namespace, Source Identifier, Source Name, Relation)`. The two tests
   are independent, so one row can land in both tables;
5. picks the output directory (the given one, or the default
   `OUTPUT_DIRECTORY`). It writes `<directory>/index.html`, then, for each kept
   term in table order, creates `<directory>/<Identifier>` and writes that term's
   page there as `index.html`.

Files:

- `grouping.dfy` (module `Grouping`) holds the `defaultdict(list)` pattern
  shared by the three grouping loops. `Lookup` reads a table and gives `[]`
  for an absent key. `Append` is the in-place `.append`. `Select` is the
  reference definition of one key's list: the entries of the matching rows, in
  table order. `Grouped` is the whole table a pass should produce.
  `GroupRows` is the loop itself. The lemmas cover order, membership, exact
  length, the empty list for absent keys, a row's effect on the table, and
  the fact that the list lengths over all keys add up to the number of kept
  rows.
- `html.dfy` (module `Html`) holds the rows of the four tables, the tuples
  appended to the lookup tables, the withdrawn filter and the three indexing
  methods. It also holds the export, whose filesystem effects are an ordered
  list of `MakeDirs` and `WriteFile` values. A rendered page is given by the
  arguments its template is rendered with. The lemmas cover the layout of the
  written files and of the created directories, each term page's four slices,
  and the order of directory creation and writing. They also show that a
  withdrawn term gets no subdirectory and no page, and that synonym,
  cross-reference and relation rows keyed by ids outside the kept terms never
  reach a term page.

The source's loops become Dafny loops over `seq`s of rows. Their lookup tables
are `map<string, seq<_>>` values updated by `Append`, and each loop invariant
says "the table equals `Grouped` of the rows seen so far".

## Model

| member | source | states |
|---|---|---|
| `Grouping.Append` | src/conso/export/html/html.py:40 | appending to a `defaultdict(list)` adds the key if absent, extends that key's list by exactly the new entry, and leaves every other key's list unchanged |
| `Grouping.GroupRows` | src/conso/export/html/html.py:38-44 | the grouping loop returns exactly `Grouped` of the rows: its keys are the identifiers of the kept rows, every lookup (absent keys giving `[]`) is the reference list `Select`, and the list lengths over all keys add up to the number of kept rows |
| `Grouping.GroupedSnoc` | src/conso/export/html/html.py:39-40 | reading one more row appends its entry under its own key when the row is kept, and leaves the table unchanged otherwise |
| `Grouping.SelectConcat` | src/conso/export/html/html.py:38-40 | grouping a table split into two parts gives, under every key, the first part's list followed by the second part's (table order is kept) |
| `Grouping.SelectSnoc` | src/conso/export/html/html.py:39-40 | one more row adds at most its own entry, at the end, and only under its own key |
| `Grouping.LandsIff` | src/conso/export/html/html.py:48-62 | a row is appended at the end of its key's list if and only if its filter holds; a row that fails the filter changes no list |
| `Grouping.SelectMember` | src/conso/export/html/html.py:38-40 | an entry is in the list under `k` if and only if some kept row with key `k` produced it |
| `Grouping.SelectLength` | src/conso/export/html/html.py:38-40 | the list under `k` has exactly one entry per kept row with key `k`, so nothing is deduplicated |
| `Grouping.SelectEmptyIff` | src/conso/export/html/html.py:42-44 | the list under `k` is empty if and only if no kept row has key `k` |
| `Grouping.SelectRemoveOther` | src/conso/export/html/html.py:83-90 | removing a row whose key is not `k` leaves the list under `k` unchanged |
| `Grouping.GroupedLookup` | src/conso/export/html/html.py:85-88 | looking up any identifier in the grouped table, with `[]` for absent keys, gives the reference list for that identifier |
| `Grouping.GroupedTotal` | src/conso/export/html/html.py:38-62 | summed over all keys of the grouped table, the list lengths equal the number of kept rows |
| `Html.KeepTerms` | src/conso/export/html/html.py:36 | a term is kept if and only if it is an input term whose name is not `WITHDRAWN`; no term is added |
| `Html.KeepTermsConcat` | src/conso/export/html/html.py:36 | filtering a concatenation gives the concatenation of the filtered parts, so relative order is kept |
| `Html.KeepTermsIdentity` | src/conso/export/html/html.py:36 | the filter returns its input unchanged if and only if no term is named `WITHDRAWN` |
| `Html.IndexSynonyms` | src/conso/export/html/html.py:38-40 | the synonym table maps each identifier to its rows' `(Synonym, Reference, Specificity)` in table order, absent identifiers read as `[]`, and the lengths over all keys add up to the number of synonym rows |
| `Html.IndexXrefs` | src/conso/export/html/html.py:42-44 | the cross-reference table maps each identifier to its rows' `(database, database_identifier)` in table order, absent identifiers read as `[]`, and the lengths add up to the number of xref rows |
| `Html.IndexRelations` | src/conso/export/html/html.py:46-62 | one pass builds `outgoing`, the grouping by source identifier of the rows with source namespace `HBP`, and `incoming`, the grouping by target identifier of the rows with target namespace `HBP`; the total lengths equal the numbers of such rows |
| `Html.RelationClassified` | src/conso/export/html/html.py:48-62 | a relation row is appended to `outgoing[Source Identifier]` if and only if its source namespace is `HBP`, and to `incoming[Target Identifier]` if and only if its target namespace is `HBP`; the two tests are independent, and a row local on neither side changes neither table |
| `Html.Export` | src/conso/export/html/html.py:35-92 | the export performs exactly `ExportEffects`: it creates the output directory, writes the index page, then creates each kept term's subdirectory and writes its page, in order |
| `Html.WriteTermPages` | src/conso/export/html/html.py:80-92 | the per-term loop creates `<dir>/<Identifier>` and writes `<dir>/<Identifier>/index.html` for each kept term, in table order |
| `Html.TermEffectsPaths` | src/conso/export/html/html.py:80-91 | the per-term loop writes one `<dir>/<Identifier>/index.html` per kept term and no other file |
| `Html.TermEffectsPages` | src/conso/export/html/html.py:80-91 | the per-term loop writes every kept term's page at its own path, and every file it writes is such a page |
| `Html.TermEffectsOrdered` | src/conso/export/html/html.py:80-92 | in the per-term loop, every file write comes right after the creation of its directory |
| `Html.TermEffectsLocal` | src/conso/export/html/html.py:83-90 | the per-term output depends on the lookup tables only through each kept term's page (`TermPageFor`, which reads them at `t.identifier`): two sets of tables giving every kept term the same page give the same per-term effects |
| `Html.TermEffectsDirs` | src/conso/export/html/html.py:80-82 | the per-term loop creates one `<dir>/<Identifier>` per kept term and no other directory |
| `Html.TermPageSlices` | src/conso/export/html/html.py:83-90 | a term page receives, for its own identifier, the synonyms, cross-references, and incoming and outgoing relations of exactly the rows carrying that identifier, in table order |
| `Html.ExportLayout` | src/conso/export/html/html.py:64-91 | the written files are `<dir>/index.html` plus one `<dir>/<Identifier>/index.html` per kept term, where `dir` is the given directory or else `OUTPUT_DIRECTORY` |
| `Html.ExportDirs` | src/conso/export/html/html.py:64-82 | the directories created are `<dir>` plus one `<dir>/<Identifier>` per kept term, where `dir` is the given directory or else `OUTPUT_DIRECTORY` |
| `Html.WithdrawnTermUnwritten` | src/conso/export/html/html.py:36-91 | a withdrawn term whose identifier no kept term shares gets no `<dir>/<Identifier>` directory and no `<dir>/<Identifier>/index.html` |
| `Html.TermPagesExact` | src/conso/export/html/html.py:80-91 | every kept term gets a page at `<dir>/<Identifier>/index.html` holding its four slices; every term page written belongs to a kept, non-withdrawn term, at that path and with those slices |
| `Html.DirectoryBeforeWrite` | src/conso/export/html/html.py:67-92 | every file is written right after the directory that holds it is created |
| `Html.OrphanSynonymUnseen` | src/conso/export/html/html.py:80-90 | a synonym row whose identifier belongs to no kept term never reaches a term page: without it, every per-term effect is the same |
| `Html.OrphanXrefUnseen` | src/conso/export/html/html.py:80-90 | a cross-reference row whose identifier belongs to no kept term never reaches a term page |
| `Html.OrphanRelationUnseen` | src/conso/export/html/html.py:80-90 | a relation row whose source and target identifiers belong to no kept term never reaches a term page |

## Left out

- Reading the TSV files (`pd.read_csv`) and pandas semantics are not modelled. This covers NaN for empty cells, type coercion of columns and boolean-mask filtering. Rows are already-parsed records of strings, so a missing `Name` (NaN, which pandas keeps because NaN differs from `WITHDRAWN`) has no counterpart.
- Template rendering (Jinja2, `autoescape=True`, the `index.html` and `term.html` templates) is not modelled. The templates are not part of this model. A page is given by the arguments it is rendered with (`IndexPage`, `TermPage`), so escaping and the HTML text are not covered.
- `debug_links` is only forwarded to the templates. The model carries it in each page and gives it no other meaning.
- Filesystem effects (`os.makedirs` with `exist_ok=True`, `open`, `print` to a file) are modelled as the ordered list of `MakeDirs` and `WriteFile` effects. The model does not cover overwriting, the trailing newline that `print` adds, permission or space failures, or output left behind when a later write fails.
- `os.path.join` is modelled as a list of path components. Its string rules are not modelled: separator handling, and an absolute component discarding the ones before it.
- The paths `HERE`, `ROOT`, the `*_PATH` constants and `OUTPUT_DIRECTORY` are computed from the module's own location. `OUTPUT_DIRECTORY` is the parameter `outputDirectory` of `Export`. `CLASSES_PATH` is never read.
- The program has no error handling of its own. A missing input file, a missing column or a failed write raises from the library that hit it, and the model has no error path for these.
- Indexing a `defaultdict` at lines 85-88 inserts an empty list for an absent key. This happens after the index page has been rendered and cannot be observed, so the model reads with `Lookup` instead.
- `IndexPage`: the four `defaultdict`s passed to the index template (lines 69-76) are Python dicts, whose keys keep the order in which each identifier was first appended. The model's `map<string, seq<_>>` has no key order, so `IndexPage` does not record it. This matters only if the `index.html` template iterates the dicts, and that template is not part of this model.
- `Html.OrphanSynonymUnseen`, `Html.OrphanXrefUnseen`, `Html.OrphanRelationUnseen`: the index page receives the complete lookup tables, orphan keys included (lines 69-76). So these lemmas speak of the term pages and their directories only, not of the index page.
