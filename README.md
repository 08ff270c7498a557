# anvi'o external EcoPhylo workflow, argument table and file helpers, in Dafny

This project models three pieces of anvi'o and proves properties of the model.

1. **The external-EcoPhylo workflow definition**
   (`anvio/workflows/external_ecophylo/__init__.py`), module `ExternalEcoPhylo`.
   - The class `ExternalEcoPhyloWorkflow` has fields for the tables its
     constructor registers: the Snakemake rules, the general parameters, the
     acceptable parameters per rule, the default configuration and the
     directory layout.
   - It also has fields for the state `init` assigns:
     - the names list, the names' directories and the input-directories dict;
     - the mode and the external HMM dict;
     - the two tree-engine `run` settings and the clusterize settings;
     - the target files.
   - `Init` merges the metagenomes and external-genomes catalogs and derives
     the mode. It rejects HMM names containing `_` and insists on a tree
     engine. It then plans the targets.
   - `GetTargetFiles` builds the target list in a loop: five fixed paths
     per HMM, plus the tree of the engine whose `run` equals `True`, with
     iqtree first.
   - Python's insertion-ordered `dict` is in module `Dicts`.
   - `os.path.join` and `os.path.dirname` are in module `Paths`.
   - Configuration values, with Python's truth test and `== True`, are in
     module `PyValues`.
2. **The argument table of `anvio/__init__.py`**, module `Args`.
   - `D` is the table of the 78 arguments: flags and `add_argument` keyword
     arguments.
   - `A` returns an argument's flags.
   - `K` copies an argument's keyword arguments and writes the overrides
     over them, one key at a time.
   - A proof covers every entry of `D`: each `store_true` switch defaults
     to `False`, and every flag is an option string.
3. **Three routines of `anvio/filesnpaths.py`**, module `FilesNPaths`.
   - The constructor of `FilesNPathsError` collapses runs of spaces in its
     message, in a loop.
   - `get_num_lines_in_file` counts `readline` results, in a loop.
   - `is_file_tab_delimited` skips comment lines, checks that the separator
     occurs, and compares the field counts of all lines.

Throughout, a file's contents are passed as text, a parsed table as a
sequence of rows, and a looked-up config value as a `PyValue` parameter.

## Model

| member | source | states |
|---|---|---|
| PyValues.Truthy | anvio/workflows/external_ecophylo/__init__.py:129-194 | Python's truth test as `if x:` / `not x` apply it: false exactly for None, False, 0, a zero float, "", [] and {} |
| PyValues.EqualsTrue | anvio/workflows/external_ecophylo/__init__.py:228-233 | Python's `== True`: it holds only for truthy values; for a bool it is the bool itself; a string, list, dict or None never equals True |
| Paths.Join | anvio/workflows/external_ecophylo/__init__.py:207-235 | `os.path.join`: an absolute second part replaces the first; a plain directory and a relative part are joined with exactly one `/` |
| Paths.AfterLastSlash | anvio/workflows/external_ecophylo/__init__.py:135 | `p.rfind('/') + 1`, the cut point of `dirname`, never lies beyond the end of the path |
| Paths.StripTrailingSlashes | anvio/workflows/external_ecophylo/__init__.py:135 | `rstrip('/')` never lengthens the path and leaves no trailing separator |
| Paths.StripTrailingSlashesSpec | anvio/workflows/external_ecophylo/__init__.py:135 | the `rstrip('/')` inside `dirname` removes only separators, and all the trailing ones |
| Paths.Dirname | anvio/workflows/external_ecophylo/__init__.py:135 | `os.path.dirname(p)`: never longer than the part of `p` up to its last separator, and empty when `p` has no separator |
| Paths.DirnamePrefix | anvio/workflows/external_ecophylo/__init__.py:135 | `os.path.dirname(p)` is a prefix of `p`, and it is empty for a path without a separator |
| Paths.DirnameOfJoin | anvio/workflows/external_ecophylo/__init__.py:135 | `dirname` undoes `join` for a plain directory and a name without separators |
| Dicts.Dedup | anvio/workflows/external_ecophylo/__init__.py:164 | making the list unique never lengthens it |
| Dicts.DedupMembers | anvio/workflows/external_ecophylo/__init__.py:164 | the unique list holds exactly the elements of the original |
| Dicts.DedupDistinct | anvio/workflows/external_ecophylo/__init__.py:164 | the unique list holds no element twice |
| Dicts.DedupOfDistinct | anvio/workflows/external_ecophylo/__init__.py:164 | a list without repetitions is left unchanged |
| Dicts.DedupAppend | anvio/workflows/external_ecophylo/__init__.py:164 | a further element is added to the unique list only if it is new |
| Dicts.DedupOrder | anvio/workflows/external_ecophylo/__init__.py:164 | the order the model chooses for `list(set(...))`, which Python leaves undefined: an element earlier in the unique list first occurs in the original before any occurrence of a later one |
| Dicts.Empty | anvio/workflows/external_ecophylo/__init__.py:127 | `{}` has no keys and no entries |
| Dicts.Set | anvio/workflows/external_ecophylo/__init__.py:136 | `d[k] = v` maps `k` to `v`; a new key goes to the end of the key order and an existing key keeps its place |
| Dicts.Firsts | anvio/workflows/external_ecophylo/__init__.py:136 | the key column of a zip: element `i` is the first component of pair `i` |
| Dicts.FromPairs | anvio/workflows/external_ecophylo/__init__.py:136 | `dict(pairs)` is a well-formed dict: its key order lists exactly its keys |
| Dicts.FromPairsKeys | anvio/workflows/external_ecophylo/__init__.py:136 | the keys of `dict(pairs)` are the pairs' keys in order of first occurrence |
| Dicts.FromPairsDistinct | anvio/workflows/external_ecophylo/__init__.py:136 | `dict(pairs)` lists no key twice |
| Dicts.FromPairsDomain | anvio/workflows/external_ecophylo/__init__.py:136 | a key is in `dict(pairs)` exactly when some pair carries it |
| Dicts.FromPairsLastWins | anvio/workflows/external_ecophylo/__init__.py:136 | the last pair with a key decides that key's value |
| Dicts.FromPairsSnoc | anvio/workflows/external_ecophylo/__init__.py:136 | one more pair in `dict(zip(...))` assigns its key, whatever was there before |
| Dicts.UnionUpdate | anvio/workflows/external_ecophylo/__init__.py:136 | assigning a key after `update` is assigning it in the dict merged in |
| Dicts.FromPairsConcat | anvio/workflows/external_ecophylo/__init__.py:136-153 | `dict(xs + ys)` maps keys like `dict(xs)` overlaid by `dict(ys)` |
| Dicts.Unseen | anvio/workflows/external_ecophylo/__init__.py:136 | the keys new to a dict are never more than the keys offered |
| Dicts.UnseenMembers | anvio/workflows/external_ecophylo/__init__.py:136 | the new keys are exactly the offered keys that are not already in the dict |
| Dicts.UpdateWith | anvio/workflows/external_ecophylo/__init__.py:136 | assigning keys one by one keeps the dict well formed |
| Dicts.UpdateWithSpec | anvio/workflows/external_ecophylo/__init__.py:136 | after assigning distinct keys, the domain is the old keys plus the assigned ones; assigned keys take the new value and the others keep theirs; old keys keep their place and new keys follow in order |
| Dicts.Update | anvio/workflows/external_ecophylo/__init__.py:136 | `d.update(e)` keeps the dict well formed |
| Dicts.UpdateSpec | anvio/workflows/external_ecophylo/__init__.py:136-153 | after `d.update(e)` the entries are those of `d` overridden by `e`; the keys of `d` keep their place and those new to `d` follow in the order of `e` |
| Dicts.UpdateEmpty | anvio/workflows/external_ecophylo/__init__.py:127-136 | updating an empty dict gives the other dict's entries |
| Dicts.UpdateEmptyTwice | anvio/workflows/external_ecophylo/__init__.py:127-153 | updating `{}` with `dict(xs)` and then with `dict(ys)` maps keys like `dict(xs + ys)` |
| ExternalEcoPhylo.AcceptableParamsNameRules | anvio/workflows/external_ecophylo/__init__.py:36-75 | every rule with acceptable parameters is one of the workflow's rules |
| ExternalEcoPhylo.DefaultsNameRulesOrParams | anvio/workflows/external_ecophylo/__init__.py:36-101 | every default belongs to a rule or to a general parameter |
| ExternalEcoPhylo.DefaultsAreAcceptable | anvio/workflows/external_ecophylo/__init__.py:63-101 | every per-rule default other than `threads` is a key that rule accepts |
| ExternalEcoPhylo.DefaultTreeEngine | anvio/workflows/external_ecophylo/__init__.py:98-99 | by default fasttree's `run` equals True, and iqtree has no `run` default at all |
| ExternalEcoPhylo.CatalogNames | anvio/workflows/external_ecophylo/__init__.py:133 | there is one name per catalog row |
| ExternalEcoPhylo.CatalogDirnames | anvio/workflows/external_ecophylo/__init__.py:134-135 | there is one dirname per catalog row |
| ExternalEcoPhylo.CatalogPairs | anvio/workflows/external_ecophylo/__init__.py:136 | there is one zipped pair per catalog row |
| ExternalEcoPhylo.HmmPairs | anvio/workflows/external_ecophylo/__init__.py:180 | there is one zipped pair per HMM row |
| ExternalEcoPhylo.CatalogNamesAt | anvio/workflows/external_ecophylo/__init__.py:133 | name `i` is the name of row `i` |
| ExternalEcoPhylo.CatalogPairsAt | anvio/workflows/external_ecophylo/__init__.py:134-136 | pair `i` is row `i`'s name with the dirname of its contigs database |
| ExternalEcoPhylo.HmmPairsAt | anvio/workflows/external_ecophylo/__init__.py:180 | pair `i` is HMM row `i`'s name and path |
| ExternalEcoPhylo.CatalogPairsConcat | anvio/workflows/external_ecophylo/__init__.py:136-153 | zipping two catalogs one after the other is zipping their concatenation |
| ExternalEcoPhylo.CatalogDirnamesAt | anvio/workflows/external_ecophylo/__init__.py:135 | dirname `i` is the dirname of row `i`'s contigs database |
| ExternalEcoPhylo.CatalogDirnamesMembers | anvio/workflows/external_ecophylo/__init__.py:135 | a directory is in the dirname list exactly when some row's contigs database lies in it |
| ExternalEcoPhylo.CatalogDirnamesConcat | anvio/workflows/external_ecophylo/__init__.py:137-154 | extending `names_dirs` with both catalogs lists the dirnames of their concatenation |
| ExternalEcoPhylo.CatalogNamesConcat | anvio/workflows/external_ecophylo/__init__.py:138-155 | extending the names list with both catalogs lists the names of their concatenation |
| ExternalEcoPhylo.FirstsOfCatalogPairs | anvio/workflows/external_ecophylo/__init__.py:133-136 | the keys of the zipped pairs are the catalog's names |
| ExternalEcoPhylo.UnderscoreKeysAreUnderscoreRows | anvio/workflows/external_ecophylo/__init__.py:180-186 | some key of the HMM dict contains `_` exactly when some HMM row's name does |
| ExternalEcoPhylo.InputDirsOf | anvio/workflows/external_ecophylo/__init__.py:127-153 | `input_dirs_dict` after both catalogs is a well-formed dict |
| ExternalEcoPhylo.InputDirsAsOneDict | anvio/workflows/external_ecophylo/__init__.py:127-153 | the two updates map names like one dict built from the metagenome pairs followed by the external-genome pairs |
| ExternalEcoPhylo.InputDirsLastRowWins | anvio/workflows/external_ecophylo/__init__.py:135-153 | every name maps to the dirname of the last row carrying it, so an external genome overrides a metagenome of the same name |
| ExternalEcoPhylo.InputDirsDomain | anvio/workflows/external_ecophylo/__init__.py:136-153 | the names in `input_dirs_dict` are exactly the names of the two catalogs |
| ExternalEcoPhylo.LayoutKeysRegistered | anvio/workflows/external_ecophylo/__init__.py:104-111 | whatever the super class registered, the four directories `get_target_files` reads are registered |
| ExternalEcoPhylo.WorkflowDirsLayout | anvio/workflows/external_ecophylo/__init__.py:104-120 | after the constructor and `init`'s `LOGS_DIR` update, the targets use the workflow's own four directories |
| ExternalEcoPhylo.TreeTarget | anvio/workflows/external_ecophylo/__init__.py:226-236 | at most one tree target per HMM, and one exactly when iqtree's or fasttree's `run` equals True |
| ExternalEcoPhylo.HmmTargets | anvio/workflows/external_ecophylo/__init__.py:206-236 | an HMM's block is five fixed targets plus its tree target; the third and fourth are `h_state_imported.done` and `h_combined.done` |
| ExternalEcoPhylo.PlanLength | anvio/workflows/external_ecophylo/__init__.py:206-236 | with blocks of one size, the plan has that many entries per HMM |
| ExternalEcoPhylo.PlanConcat | anvio/workflows/external_ecophylo/__init__.py:206-236 | planning two HMM lists one after the other gives the two plans one after the other |
| ExternalEcoPhylo.PlanBlock | anvio/workflows/external_ecophylo/__init__.py:206-236 | with blocks of one size, slice `i` of the plan is the block of HMM `i` |
| ExternalEcoPhylo.HmmBlockSize | anvio/workflows/external_ecophylo/__init__.py:206-236 | every HMM's block has 6 targets when either engine's `run` equals True, else 5 |
| ExternalEcoPhylo.TargetPlan | anvio/workflows/external_ecophylo/__init__.py:204-238 | the target list has N×5 entries, or N×6 when iqtree's or fasttree's `run` equals True |
| ExternalEcoPhylo.TargetPlanConcat | anvio/workflows/external_ecophylo/__init__.py:206-236 | the targets of two HMM lists are the two target lists in order |
| ExternalEcoPhylo.TargetPlanBlock | anvio/workflows/external_ecophylo/__init__.py:206-236 | block `i` of the target list is the targets of the `i`-th HMM in the dict's key order |
| ExternalEcoPhylo.JoinComponent | anvio/workflows/external_ecophylo/__init__.py:207-230 | joining a plain directory and a path that starts with one component inserts exactly one `/`, giving a plain directory again |
| ExternalEcoPhylo.TreeTargetSpelledOut | anvio/workflows/external_ecophylo/__init__.py:228-236 | for an HMM name that is one path component (non-empty, no `/`) under a trees directory that does not end with `/`: the tree target is `<trees>/h/h.iqtree` when iqtree's `run` equals True whatever fasttree's is, else `<trees>/h/h.nwk` when fasttree's does, else there is none |
| ExternalEcoPhylo.HmmTargetsSpelledOut | anvio/workflows/external_ecophylo/__init__.py:206-236 | for an HMM name that is one path component (non-empty, no `/`) and directories that are non-empty and do not end with `/`: the block is `<fastas>/h/h_external_gene_calls_all_renamed.tsv`, `<msa_stats>/h/h_stats.tsv`, `h_state_imported.done`, `h_combined.done`, `<misc_data>/h_misc.tsv`, in that order, then the tree target |
| ExternalEcoPhylo.WorkflowLayoutIsPlain | anvio/workflows/external_ecophylo/__init__.py:105-109 | the workflow's four target directories are plain, so the spelled-out forms apply to them |
| ExternalEcoPhylo.ModeOf | anvio/workflows/external_ecophylo/__init__.py:167-172 | mode is metagenomes when only that catalog is given, external genomes when only that one is, both when both are; with neither, no mode is assigned and the old value stays |
| ExternalEcoPhylo.InitFrom | anvio/workflows/external_ecophylo/__init__.py:114-201 | what `init` assigns: the `LOGS_DIR` entry; the names in catalog order; the unique dirnames; the input dirs; the mode; the HMM dict; the error raised for an underscore name, then for no truthy engine, then for a missing HMM dict; the engine and clusterize settings read so far; and, without an error, the target plan |
| ExternalEcoPhylo.InitEngines | anvio/workflows/external_ecophylo/__init__.py:191-201 | the engine settings are stored; fails exactly when neither engine is truthy, else plans the targets from the HMM dict, failing when there is none |
| ExternalEcoPhylo.ExternalEcoPhyloWorkflow.constructor | anvio/workflows/external_ecophylo/__init__.py:32-111 | the super class's rules and general parameters extended with the workflow's own; its acceptable parameters, defaults and directories updated with the workflow's own |
| ExternalEcoPhylo.ExternalEcoPhyloWorkflow.GetTargetFiles | anvio/workflows/external_ecophylo/__init__.py:203-238 | the loop returns the target plan of the HMM dict's keys under the registered directories, or fails when no HMM dict was ever loaded |
| ExternalEcoPhylo.NamesDirsMembers | anvio/workflows/external_ecophylo/__init__.py:129-164 | after `init`, `names_dirs` holds a directory exactly when the contigs database of some row of either catalog lies in it |
| ExternalEcoPhylo.ExternalEcoPhyloWorkflow.Init | anvio/workflows/external_ecophylo/__init__.py:114-201 | the new fields and the raised error are those `InitFrom` gives for the old fields, and the target directories stay registered |
| ExternalEcoPhylo.ExternalEcoPhyloWorkflow.SetFields | anvio/workflows/external_ecophylo/__init__.py:120-201 | afterwards the fields `init` assigns hold the given values |
| ExternalEcoPhylo.SingleHmmWithIqtree | anvio/workflows/external_ecophylo/__init__.py:206-231 | one HMM `RiboL2` with iqtree on gives six targets, the last `EXTERNAL_ECO_PHYLO_WORKFLOW/05_TREES/RiboL2/RiboL2.iqtree` |
| ExternalEcoPhylo.RiboL2TreePath | anvio/workflows/external_ecophylo/__init__.py:228-231 | the iqtree target of that example is the single path `EXTERNAL_ECO_PHYLO_WORKFLOW/05_TREES/RiboL2/RiboL2.iqtree` |
| Args.D | anvio/__init__.py:23-632 | the 78 entries of the table, with their flags and keyword arguments as written; its properties are stated by `Args.TableIsWellFormed` |
| Args.TableOf | anvio/__init__.py:23-632 | the ids of the table built from a dict display are exactly the ids listed |
| Args.A | anvio/__init__.py:635-636 | an id's flags are exactly the first component of its entry, and an unknown id fails |
| Args.K | anvio/__init__.py:638-643 | fails exactly for an unknown id; the result's keys are the defaults' keys plus the overrides' keys; every override wins; every default not overridden is kept; without overrides the result is the table's entry |
| Args.KThenDefaults | anvio/__init__.py:638-643 | after a call with any overrides, a later call without overrides still gets the table's defaults |
| Args.TableOfWellFormed | anvio/__init__.py:23-632 | a display whose every entry is well formed builds a well-formed table |
| Args.Rows0WellFormed | anvio/__init__.py:24-169 | the first 20 entries are well formed |
| Args.Rows1WellFormed | anvio/__init__.py:170-323 | the next 20 entries are well formed |
| Args.Rows2WellFormed | anvio/__init__.py:324-473 | the next 20 entries are well formed |
| Args.Rows3WellFormed | anvio/__init__.py:474-631 | the last 18 entries are well formed |
| Args.TableIsWellFormed | anvio/__init__.py:23-632 | in `D`, every entry with `'action': 'store_true'` also has `'default': False`, and every entry's flags are a non-empty list of strings that start with `-` and go on after it |
| FilesNPaths.Squeeze | anvio/filesnpaths.py:27-32 | the message as the loop is meant to leave it, never longer than the input; its meaning is given by `SqueezeRun`, `SqueezeHasNoDoubleSpace` and `SqueezeKeepsNonSpaces` |
| FilesNPaths.FindDoubleSpace | anvio/filesnpaths.py:28 | `find("  ")`: the index of the first two consecutive spaces, or -1 exactly when there are none |
| FilesNPaths.ReplaceDoubleSpaces | anvio/filesnpaths.py:29 | `replace("  ", " ")` never lengthens the message |
| FilesNPaths.Spaces | anvio/filesnpaths.py:27-31 | a run of `n` spaces |
| FilesNPaths.ReplaceFirst | anvio/filesnpaths.py:29 | a replacement keeps the first character, and empties only an empty message |
| FilesNPaths.SqueezeFirst | anvio/filesnpaths.py:27-31 | collapsing keeps the first character, and empties only an empty message |
| FilesNPaths.SqueezeCons | anvio/filesnpaths.py:27-31 | a character in front of a message survives the collapse unless it is a space followed by a space |
| FilesNPaths.ReplaceShortens | anvio/filesnpaths.py:28-29 | each replacement strictly shortens a message that still has two consecutive spaces, so the loop ends |
| FilesNPaths.ReplaceKeepsSqueeze | anvio/filesnpaths.py:27-31 | a replacement does not change what the message collapses to: the loop's invariant |
| FilesNPaths.SqueezeHasNoDoubleSpace | anvio/filesnpaths.py:27-32 | a collapsed message holds no two consecutive spaces |
| FilesNPaths.SqueezeWithoutDoubleSpace | anvio/filesnpaths.py:27-32 | a message without two consecutive spaces is stored unchanged |
| FilesNPaths.SqueezeIdempotent | anvio/filesnpaths.py:27-32 | collapsing twice is collapsing once |
| FilesNPaths.SqueezeKeepsNonSpaces | anvio/filesnpaths.py:27-32 | every non-space character is kept, in order |
| FilesNPaths.SqueezeConsConcat | anvio/filesnpaths.py:27-32 | a character in front of a piece survives the collapse or not independently of what follows the piece |
| FilesNPaths.SqueezeConcat | anvio/filesnpaths.py:27-32 | two pieces that do not meet in two spaces collapse separately |
| FilesNPaths.SqueezeSpaces | anvio/filesnpaths.py:27-32 | a run of spaces collapses to one space |
| FilesNPaths.SqueezeRun | anvio/filesnpaths.py:27-32 | a maximal run of spaces between two pieces of text becomes a single space, and each piece collapses on its own |
| FilesNPaths.FilesNPathsError.constructor | anvio/filesnpaths.py:25-32 | the stored message is the input with every maximal run of spaces collapsed to one space; it holds no two consecutive spaces; its non-space characters are the input's, in order |
| FilesNPaths.LineLength | anvio/filesnpaths.py:146-147 | the first line is non-empty, within the text, and ends with a newline unless it is the whole rest of the text |
| FilesNPaths.FirstLineHasOneNewline | anvio/filesnpaths.py:146-147 | the first line has no newline before its last character |
| FilesNPaths.Lines | anvio/filesnpaths.py:146-147 | the lines `readline`/`readlines` return: there are no more lines than characters, and none exactly for empty text |
| FilesNPaths.NewlineCount | anvio/filesnpaths.py:146-147 | there are never more newlines than characters |
| FilesNPaths.NewlineCountZero | anvio/filesnpaths.py:146-147 | the count is zero exactly when the text has no `'\n'` |
| FilesNPaths.NewlineCountConcat | anvio/filesnpaths.py:139-150 | newlines are counted additively over a concatenation |
| FilesNPaths.FirstLineNewlines | anvio/filesnpaths.py:146-147 | the first line has exactly one newline, or none when it is an unterminated last line |
| FilesNPaths.LinesCount | anvio/filesnpaths.py:139-150 | there is one line per newline, plus one when the text does not end with a newline |
| FilesNPaths.LinesConcat | anvio/filesnpaths.py:146-147 | the lines put back together give the text, and none of them is empty |
| FilesNPaths.ReadLine | anvio/filesnpaths.py:147 | `readline()` returns "" exactly at the end of the file, and otherwise the next line |
| FilesNPaths.GetNumLinesInFile | anvio/filesnpaths.py:139-150 | the loop counts the file's lines: 0 for an empty file, else the number of newlines plus one if the file ends without one |
| FilesNPaths.StripLeft | anvio/filesnpaths.py:69 | `lstrip(' ')` never lengthens the line |
| FilesNPaths.StripRight | anvio/filesnpaths.py:69 | `rstrip(' ')` never lengthens the line |
| FilesNPaths.StripLeftSpec | anvio/filesnpaths.py:69 | `lstrip(' ')` removes exactly the leading spaces and leaves a suffix that does not start with one |
| FilesNPaths.StripRightSpec | anvio/filesnpaths.py:69 | `rstrip(' ')` removes exactly the trailing spaces and leaves a prefix that does not end with one |
| FilesNPaths.Strip | anvio/filesnpaths.py:69 | `strip(' ')` never lengthens the line and leaves a line that neither starts nor ends with a space |
| FilesNPaths.IsComment | anvio/filesnpaths.py:69-70 | a line counts as a comment exactly when its first non-space character is `#` |
| FilesNPaths.Occurrences | anvio/filesnpaths.py:75 | the separator occurrences `split` cuts at do not overlap: there are at most the line's length divided by the separator's length of them |
| FilesNPaths.FieldCount | anvio/filesnpaths.py:75 | `split` always yields at least one field |
| FilesNPaths.SingleFieldIffNoSeparator | anvio/filesnpaths.py:75 | a line splits into one field exactly when the separator occurs nowhere in it |
| FilesNPaths.EmptyIsOneField | anvio/filesnpaths.py:75 | the "" of `readline()` at the end of the file is one field |
| FilesNPaths.FirstDataIndex | anvio/filesnpaths.py:68-73 | where the comment-skipping loop stops: every earlier line is a comment and the line there, if any, is not |
| FilesNPaths.SameFieldCounts | anvio/filesnpaths.py:80 | every line has the first line's field count exactly when any two lines have the same field count |
| FilesNPaths.FieldCounts | anvio/filesnpaths.py:80 | the set built by the comprehension holds every line's field count, and is empty exactly when there are no lines |
| FilesNPaths.OneFieldCount | anvio/filesnpaths.py:80 | the set of field counts has exactly one element when the file has lines and they all agree |
| FilesNPaths.IsFileTabDelimited | anvio/filesnpaths.py:64-84 | an empty separator fails; otherwise it fails when the first non-comment line (or the end of the file) is one field, and it returns True exactly when that line has more than one field and every line, comments included, has the same field count |

## Left out

- File I/O is not modelled: `open`, `os.stat`, `mmap`, `f.seek` and `filesnpaths.is_file_exists` in `init` and `is_file_tab_delimited`. Contents are passed as text.
- `pandas.read_csv` is not modelled, nor the `IndexError`-to-`ConfigError` wrapping around it. Catalogs and the HMM list are already-parsed rows: `None` stands for a falsy config value, `Some(rows)` for a loaded table.
- The super class `WorkflowSuperClass` is not part of this model. Its initial tables are constructor parameters, and `super().init()` is not modelled. `get_param_value_from_config` lookups are parameters of `Init`; how config values are merged is not modelled.
- Snakemake rule execution and the external programs the rules call are not modelled.
- `ExternalEcoPhylo.InitFrom`: `list(set(names_dirs))` has no defined order in Python. The model keeps the first occurrence of each directory, in order; only membership and uniqueness of `names_dirs` are promised.
- Several fields of `init` are not kept as fields: `metagenomes` and `external_genomes` (the config values, of which only whether they are truthy is kept, as `None` or `Some(rows)`), the data frames, the per-catalog name, path and dirname lists, `external_hmm_list_path`, and `external_genomes_names_list` on its `else` branch. Their values only feed `names_list`, `names_dirs`, `input_dirs_dict`, `mode` and the HMM dict.
- `ExternalEcoPhylo.InitFrom`: the target plan it stores is `TargetPlan`. `GetTargetFiles` is proved to return exactly that, but `Init` does not call the method.
- The constructor tables are `const` fields, since nothing in the modelled code changes them after the constructor.
- The catalog and HMM paths are kept as written. Only the dirname of a contigs path is computed.
- The model follows the code as written. In particular:
  - when neither catalog is given, nothing is raised and `mode` is not assigned (anvio/workflows/external_ecophylo/__init__.py:167-172);
  - names are not checked for duplicates across the two catalogs;
  - a truthy `run` value not equal to `True` passes the engine check (:194) but gives no tree target (:228-236);
  - when both `run` values equal `True`, only the iqtree target is emitted (:228-233);
  - the iqtree defaults have no `run` key (:99).
- The version discovery and printing code and the Python-version guard of `anvio/__init__.py` are left out: they are environment and I/O.
- `Args.D`: the help texts are one opaque `Help` value, and Python type objects are kept by name. Floats are exact decimals (`mantissa`, `exponent`); float arithmetic is not modelled.
- `Args.D` is written as the dictionary display's pairs, entered left to right by `TableOf`.
- `Args.A` and `Args.K` take the table as a parameter, and callers pass `D`. The source reads the module-level table.
- `Args.K` deep-copies the entry in the source; here the table is an immutable value, so no separate copy is needed.
- `FilesNPaths.FilesNPathsError.constructor`: the `AttributeError` that the default `e = None` would cause is not modelled, because the message is always a string here.
- `__str__` of `FilesNPathsError` is not modelled: it only does formatting through `textwrap` and ANSI colours.
- `filesnpaths.py` is Python 2 code. Only `'\n'` ends a line, as `readline` on a plain file and on an `mmap` buffer does; universal newlines are not modelled.
- `FilesNPaths.IsFileTabDelimited`: the `ValueError` of `split('')` is modelled as the `EmptySeparator` error. Its exception messages are not modelled.
- The other functions of `filesnpaths.py` are not in the core and are not modelled. This covers the existence, writability and JSON checks, temporary files and output directories.
