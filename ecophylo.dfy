/**
 * The external-EcoPhylo workflow definition: the rule, parameter, default
 * and directory tables its constructor registers, and `Init`, which merges
 * the input catalogs, derives the mode, validates the HMM names and the tree
 * engine choice and plans the target files.
 */
module ExternalEcoPhylo {
  import opened Wrappers
  import opened Dicts
  import opened Paths
  import opened PyValues

  // ---------------------------------------------------------------------
  // Tables registered by the constructor
  // ---------------------------------------------------------------------

  /** The Snakemake rules this workflow adds. */
  const EcoPhyloRules: seq<string> := [
    "anvi_run_hmms_hmmsearch",
    "filter_hmm_hits_by_query_coverage",
    "anvi_get_sequences_for_hmm_hits_SCGs",
    "anvi_estimate_scg_taxonomy_for_SCGs",
    "filter_for_scg_sequences_and_metadata",
    "cat_ribo_proteins_to_one_fasta",
    "anvi_script_reformat_fasta",
    "cat_misc_data_to_one_file",
    "join_renamed_fasta_with_misc_data",
    "remove_redundant_sequences_mmseqs",
    "align_muscle",
    "trim_alignment",
    "remove_sequences_with_X_percent_gaps",
    "get_gap_count_distribution",
    "filter_out_outlier_sequences",
    "anvi_get_sequences_for_gene_calls",
    "fasttree",
    "iqtree",
    "run_metagenomics_workflow"
  ]

  /** The workflow-wide parameters this workflow adds: the two catalogs and the HMM list. */
  const EcoPhyloGeneralParams: seq<string> := ["metagenomes", "external_genomes", "external_hmm_list"]

  /** Per rule, the config keys a user may set (`additional_params` passes free-form options on). */
  const EcoPhyloAcceptableParams: map<string, seq<string>> := map[
    "filter_hmm_hits_by_query_coverage" := ["--hmm-source", "--query-coverage", "additional_params"],
    "anvi_get_sequences_for_hmm_hits_SCGs" := ["--hmm-source"],
    "anvi_estimate_scg_taxonomy_for_SCGs" := ["--metagenome-mode"],
    "remove_redundant_sequences_mmseqs" := ["--min-seq-id"],
    "trim_alignment" := ["-gt", "-gappyout", "additional_params"],
    "remove_sequences_with_X_percent_gaps" := ["--max-percentage-gaps"],
    "filter_out_outlier_sequences" := ["-M"],
    "fasttree" := ["run"],
    "iqtree" := ["run", "-m", "additional_params"],
    "run_metagenomics_workflow" := ["clusterize", "cluster_submission_params"]
  ]

  function Threads(n: int): PyValue {
    PyDict(map["threads" := PyInt(n)])
  }

  /** The default configuration this workflow adds. */
  const EcoPhyloDefaults: map<string, PyValue> := map[
    "metagenomes" := PyStr("metagenomes.txt"),
    "external_genomes" := PyStr("external-genomes.txt"),
    "anvi_script_reformat_fasta" := Threads(5),
    "external_hmm_list" := PyStr("external_hmm_list.txt"),
    "anvi_run_hmms_hmmsearch" := Threads(5),
    "filter_hmm_hits_by_query_coverage" := PyDict(map["threads" := PyInt(5), "--query-coverage" := PyFloat(8, -1), "--hmm-source" := PyStr("Bacteria_71")]),
    "anvi_estimate_scg_taxonomy_for_SCGs" := PyDict(map["threads" := PyInt(5), "--metagenome-mode" := PyBool(true)]),
    "filter_for_scg_sequences_and_metadata" := Threads(5),
    "cat_ribo_proteins_to_one_fasta" := Threads(5),
    "anvi_get_sequences_for_hmm_hits_SCGs" := PyDict(map["threads" := PyInt(5), "--hmm-source" := PyStr("Bacteria_71")]),
    "join_renamed_fasta_with_misc_data" := Threads(5),
    "remove_redundant_sequences_mmseqs" := PyDict(map["threads" := PyInt(5), "--min-seq-id" := PyFloat(94, -2)]),
    "align_muscle" := Threads(5),
    "remove_sequences_with_X_percent_gaps" := PyDict(map["threads" := PyInt(5), "--max-percentage-gaps" := PyInt(50)]),
    "get_gap_count_distribution" := Threads(5),
    "filter_out_outlier_sequences" := Threads(5),
    "trim_alignment" := PyDict(map["threads" := PyInt(5), "-gappyout" := PyBool(true)]),
    "fasttree" := PyDict(map["run" := PyBool(true), "threads" := PyInt(5)]),
    "iqtree" := PyDict(map["threads" := PyInt(5), "-m" := PyStr("MFP")]),
    "run_metagenomics_workflow" := PyDict(map["threads" := PyInt(10), "clusterize" := PyBool(false)])
  ]

  const RibosomalProteinFastas := "RIBOSOMAL_PROTEIN_FASTAS"
  const FastasDir := "EXTERNAL_ECO_PHYLO_WORKFLOW/02_NR_FASTAS"
  const MsaStatsDir := "EXTERNAL_ECO_PHYLO_WORKFLOW/04_SEQUENCE_STATS"
  const TreesDir := "EXTERNAL_ECO_PHYLO_WORKFLOW/05_TREES"
  const MiscDataDir := "EXTERNAL_ECO_PHYLO_WORKFLOW/06_MISC_DATA"
  const RibosomalProteinMsaStats := "RIBOSOMAL_PROTEIN_MSA_STATS"
  const Trees := "TREES"
  const MiscData := "MISC_DATA"
  const LogsDirKey := "LOGS_DIR"
  const LogsDir := "EXTERNAL_ECO_PHYLO_WORKFLOW/00_LOGS"

  /** The directory layout this workflow adds. */
  const EcoPhyloDirs: map<string, string> := map[
    "EXTRACTED_RIBO_PROTEINS_DIR" := "EXTERNAL_ECO_PHYLO_WORKFLOW/01_REFERENCE_PROTEIN_DATA",
    RibosomalProteinFastas := FastasDir,
    "MSA" := "EXTERNAL_ECO_PHYLO_WORKFLOW/03_MSA",
    RibosomalProteinMsaStats := MsaStatsDir,
    Trees := TreesDir,
    MiscData := MiscDataDir,
    "SCG_NT_FASTAS" := "EXTERNAL_ECO_PHYLO_WORKFLOW/07_SCG_NT_FASTAS",
    "RIBOSOMAL_PROTEIN_FASTAS_RENAMED" := "EXTERNAL_ECO_PHYLO_WORKFLOW/08_RIBOSOMAL_PROTEIN_FASTAS_RENAMED"
  ]

  /** Every rule that declares acceptable parameters is one of the workflow's rules. */
  lemma {:induction false} AcceptableParamsNameRules()
    ensures forall rule :: rule in EcoPhyloAcceptableParams ==> rule in EcoPhyloRules
  {
  }

  /** Every default belongs to a rule or a general parameter. */
  lemma {:induction false} DefaultsNameRulesOrParams()
    ensures forall key :: key in EcoPhyloDefaults ==> key in EcoPhyloRules || key in EcoPhyloGeneralParams
  {
  }

  /** Every per-rule default other than `threads` is a key that rule accepts. */
  lemma {:induction false} DefaultsAreAcceptable()
    ensures forall rule, key ::
      rule in EcoPhyloDefaults && EcoPhyloDefaults[rule].PyDict? && key in EcoPhyloDefaults[rule].entries && key != "threads"
      ==> rule in EcoPhyloAcceptableParams && key in EcoPhyloAcceptableParams[rule]
  {
  }

  /** Out of the box only fasttree is switched on: iqtree has no `run` default. */
  lemma {:induction false} DefaultTreeEngine()
    ensures EcoPhyloDefaults["fasttree"].PyDict? && "run" in EcoPhyloDefaults["fasttree"].entries
    ensures EqualsTrue(EcoPhyloDefaults["fasttree"].entries["run"])
    ensures EcoPhyloDefaults["iqtree"].PyDict? && "run" !in EcoPhyloDefaults["iqtree"].entries
  {
  }

  // ---------------------------------------------------------------------
  // Catalogs and the HMM list
  // ---------------------------------------------------------------------

  /** A row of metagenomes.txt or external-genomes.txt. */
  datatype CatalogRow = CatalogRow(name: string, contigsDbPath: string)

  /** A row of the external HMM list. */
  datatype HmmRow = HmmRow(name: string, path: string)

  datatype Mode = Metagenomes | ExternalGenomes | Both

  /** The configuration errors `Init` raises, and the missing-attribute error of `GetTargetFiles`. */
  datatype InitError =
    | UnderscoreInHmmName   // an HMM name contains '_'
    | NoTreeEngine          // neither iqtree nor fasttree `run` is truthy
    | NoHmmList             // no HMM list was ever loaded, so there is no HMM dict to plan from

  /** The rows of a catalog that is present, or none. */
  function RowsOf<T>(catalog: Option<seq<T>>): seq<T> {
    if catalog.Some? then catalog.value else []
  }

  /** `df.name.to_list()` */
  function CatalogNames(rows: seq<CatalogRow>): (r: seq<string>)
    ensures |r| == |rows|
  {
    if rows == [] then [] else CatalogNames(rows[..|rows| - 1]) + [rows[|rows| - 1].name]
  }

  /** `[os.path.dirname(x) for x in df.contigs_db_path]` */
  function CatalogDirnames(rows: seq<CatalogRow>): (r: seq<string>)
    ensures |r| == |rows|
  {
    if rows == [] then [] else CatalogDirnames(rows[..|rows| - 1]) + [Dirname(rows[|rows| - 1].contigsDbPath)]
  }

  /** `zip(names, dirnames)` */
  function CatalogPairs(rows: seq<CatalogRow>): (r: seq<(string, string)>)
    ensures |r| == |rows|
  {
    if rows == [] then []
    else CatalogPairs(rows[..|rows| - 1]) + [(rows[|rows| - 1].name, Dirname(rows[|rows| - 1].contigsDbPath))]
  }

  /** `zip(df.name, df.path)` */
  function HmmPairs(rows: seq<HmmRow>): (r: seq<(string, string)>)
    ensures |r| == |rows|
  {
    if rows == [] then [] else HmmPairs(rows[..|rows| - 1]) + [(rows[|rows| - 1].name, rows[|rows| - 1].path)]
  }

  /** Row `i` of a catalog gives name `i` of the name list. */
  lemma {:induction false} CatalogNamesAt(rows: seq<CatalogRow>)
    ensures forall i :: 0 <= i < |rows| ==> CatalogNames(rows)[i] == rows[i].name
  {
    if rows != [] {
      CatalogNamesAt(rows[..|rows| - 1]);
    }
  }

  /** Row `i` of a catalog gives entry `i` of the dirname list: the dirname of its contigs database. */
  lemma {:induction false} CatalogDirnamesAt(rows: seq<CatalogRow>)
    ensures forall i :: 0 <= i < |rows| ==> CatalogDirnames(rows)[i] == Dirname(rows[i].contigsDbPath)
  {
    if rows != [] {
      CatalogDirnamesAt(rows[..|rows| - 1]);
    }
  }

  /** A directory is listed exactly when some row's contigs database lies in it. */
  lemma {:induction false} CatalogDirnamesMembers(rows: seq<CatalogRow>, d: string)
    ensures d in CatalogDirnames(rows) <==> exists row :: row in rows && Dirname(row.contigsDbPath) == d
  {
    CatalogDirnamesAt(rows);
    if d in CatalogDirnames(rows) {
      var i :| 0 <= i < |rows| && CatalogDirnames(rows)[i] == d;
      assert rows[i] in rows;
    }
    if exists row :: row in rows && Dirname(row.contigsDbPath) == d {
      var row :| row in rows && Dirname(row.contigsDbPath) == d;
      var i :| 0 <= i < |rows| && rows[i] == row;
      assert CatalogDirnames(rows)[i] == d;
    }
  }

  /** Listing the dirnames of two catalogs one after the other is listing the dirnames of their concatenation. */
  lemma {:induction false} CatalogDirnamesConcat(xs: seq<CatalogRow>, ys: seq<CatalogRow>)
    ensures CatalogDirnames(xs + ys) == CatalogDirnames(xs) + CatalogDirnames(ys)
  {
    if ys == [] {
      assert xs + ys == xs;
    } else {
      var init := ys[..|ys| - 1];
      assert (xs + ys)[..|xs + ys| - 1] == xs + init;
      CatalogDirnamesConcat(xs, init);
    }
  }

  /** Row `i` of a catalog gives pair `i`: its name and the dirname of its contigs database. */
  lemma {:induction false} CatalogPairsAt(rows: seq<CatalogRow>)
    ensures forall i :: 0 <= i < |rows| ==> CatalogPairs(rows)[i] == (rows[i].name, Dirname(rows[i].contigsDbPath))
  {
    if rows != [] {
      CatalogPairsAt(rows[..|rows| - 1]);
    }
  }

  /** Row `i` of the HMM list gives pair `i`: its name and its path. */
  lemma {:induction false} HmmPairsAt(rows: seq<HmmRow>)
    ensures forall i :: 0 <= i < |rows| ==> HmmPairs(rows)[i] == (rows[i].name, rows[i].path)
  {
    if rows != [] {
      HmmPairsAt(rows[..|rows| - 1]);
    }
  }

  /** Pairing two catalogs one after the other is pairing their concatenation. */
  lemma {:induction false} CatalogPairsConcat(xs: seq<CatalogRow>, ys: seq<CatalogRow>)
    ensures CatalogPairs(xs + ys) == CatalogPairs(xs) + CatalogPairs(ys)
  {
    if ys == [] {
      assert xs + ys == xs;
    } else {
      var init := ys[..|ys| - 1];
      assert (xs + ys)[..|xs + ys| - 1] == xs + init;
      CatalogPairsConcat(xs, init);
    }
  }

  /** Listing the names of two catalogs one after the other is listing the names of their concatenation. */
  lemma {:induction false} CatalogNamesConcat(xs: seq<CatalogRow>, ys: seq<CatalogRow>)
    ensures CatalogNames(xs + ys) == CatalogNames(xs) + CatalogNames(ys)
  {
    if ys == [] {
      assert xs + ys == xs;
    } else {
      var init := ys[..|ys| - 1];
      assert (xs + ys)[..|xs + ys| - 1] == xs + init;
      CatalogNamesConcat(xs, init);
    }
  }

  /** The keys of the zipped pairs are the catalog's names. */
  lemma {:induction false} FirstsOfCatalogPairs(rows: seq<CatalogRow>)
    ensures Firsts(CatalogPairs(rows)) == CatalogNames(rows)
  {
    if rows != [] {
      var init := rows[..|rows| - 1];
      var ps := CatalogPairs(rows);
      assert ps[..|ps| - 1] == CatalogPairs(init);
      FirstsOfCatalogPairs(init);
    }
  }

  predicate HasUnderscoreName(rows: seq<HmmRow>) {
    exists i :: 0 <= i < |rows| && '_' in rows[i].name
  }

  /** `any("_" in s for s in keys)` */
  predicate UnderscoreKey(keys: seq<string>) {
    exists k :: k in keys && '_' in k
  }

  /** Some key of the HMM dict contains '_' exactly when some row's name does. */
  lemma {:induction false} UnderscoreKeysAreUnderscoreRows(rows: seq<HmmRow>)
    ensures UnderscoreKey(FromPairs(HmmPairs(rows)).keys) <==> HasUnderscoreName(rows)
  {
    var ps := HmmPairs(rows);
    FromPairsKeys(ps);
    DedupMembers(Firsts(ps));
    HmmPairsAt(rows);
    if k :| k in FromPairs(ps).keys && '_' in k {
      assert k in Firsts(ps);
      var i :| 0 <= i < |Firsts(ps)| && Firsts(ps)[i] == k;
      assert rows[i].name == k;
    }
    if HasUnderscoreName(rows) {
      var i :| 0 <= i < |rows| && '_' in rows[i].name;
      assert Firsts(ps)[i] == rows[i].name;
    }
  }

  /**
   * `input_dirs_dict` once `init` has read the catalogs: empty, then updated
   * with the metagenomes' name/dirname pairs if that catalog is given, then
   * with the external genomes' pairs if that one is.
   */
  function InputDirsOf(metagenomes: Option<seq<CatalogRow>>, externalGenomes: Option<seq<CatalogRow>>): (r: Dict<string, string>)
    ensures r.Valid()
  {
    var afterMetagenomes := if metagenomes.Some? then Update(Empty(), FromPairs(CatalogPairs(metagenomes.value))) else Empty();
    if externalGenomes.Some? then Update(afterMetagenomes, FromPairs(CatalogPairs(externalGenomes.value))) else afterMetagenomes
  }

  /** The pairs of both catalogs, metagenomes first. */
  function AllCatalogPairs(metagenomes: Option<seq<CatalogRow>>, externalGenomes: Option<seq<CatalogRow>>): seq<(string, string)> {
    CatalogPairs(RowsOf(metagenomes) + RowsOf(externalGenomes))
  }

  /** The two `update` calls map names like one `dict` built from both catalogs' pairs, in order. */
  lemma {:induction false} InputDirsAsOneDict(metagenomes: Option<seq<CatalogRow>>, externalGenomes: Option<seq<CatalogRow>>)
    ensures InputDirsOf(metagenomes, externalGenomes).entries == FromPairs(AllCatalogPairs(metagenomes, externalGenomes)).entries
  {
    var ms, es := RowsOf(metagenomes), RowsOf(externalGenomes);
    CatalogPairsConcat(ms, es);
    FromPairsConcat(CatalogPairs(ms), CatalogPairs(es));
    var fromMs := FromPairs(CatalogPairs(ms));
    var afterMetagenomes := if metagenomes.Some? then Update(Empty(), fromMs) else Empty();
    assert afterMetagenomes.entries == fromMs.entries by {
      if metagenomes.Some? {
        FromPairsDistinct(CatalogPairs(ms));
        UpdateEmpty(fromMs);
      }
    }
    if externalGenomes.Some? {
      FromPairsDistinct(CatalogPairs(es));
      UpdateSpec(afterMetagenomes, FromPairs(CatalogPairs(es)));
    }
  }

  /**
   * In `input_dirs_dict` every catalog name maps to the dirname of the last
   * row carrying it, external genomes coming after metagenomes.
   */
  lemma {:induction false} InputDirsLastRowWins(metagenomes: Option<seq<CatalogRow>>, externalGenomes: Option<seq<CatalogRow>>, i: nat)
    requires i < |RowsOf(metagenomes) + RowsOf(externalGenomes)|
    requires var rows := RowsOf(metagenomes) + RowsOf(externalGenomes);
             forall j :: i < j < |rows| ==> rows[j].name != rows[i].name
    ensures var dirs := InputDirsOf(metagenomes, externalGenomes);
            var row := (RowsOf(metagenomes) + RowsOf(externalGenomes))[i];
            row.name in dirs.entries && dirs.entries[row.name] == Dirname(row.contigsDbPath)
  {
    InputDirsAsOneDict(metagenomes, externalGenomes);
    CatalogPairsAt(RowsOf(metagenomes) + RowsOf(externalGenomes));
    FromPairsLastWins(AllCatalogPairs(metagenomes, externalGenomes), i);
  }

  /** The names in `input_dirs_dict` are exactly the names of both catalogs. */
  lemma {:induction false} InputDirsDomain(metagenomes: Option<seq<CatalogRow>>, externalGenomes: Option<seq<CatalogRow>>, name: string)
    ensures name in InputDirsOf(metagenomes, externalGenomes).entries <==>
            name in CatalogNames(RowsOf(metagenomes)) || name in CatalogNames(RowsOf(externalGenomes))
  {
    var ms, es := RowsOf(metagenomes), RowsOf(externalGenomes);
    InputDirsAsOneDict(metagenomes, externalGenomes);
    FromPairsDomain(AllCatalogPairs(metagenomes, externalGenomes), name);
    FirstsOfCatalogPairs(ms + es);
    CatalogNamesConcat(ms, es);
  }

  // ---------------------------------------------------------------------
  // Target planning
  // ---------------------------------------------------------------------

  /** The four directories the targets live in. */
  datatype Layout = Layout(fastas: string, msaStats: string, miscData: string, trees: string)

  const WorkflowLayout := Layout(FastasDir, MsaStatsDir, MiscDataDir, TreesDir)

  /** The directory table registers the four directories the targets live in. */
  predicate HasLayoutKeys(dirs: map<string, string>) {
    RibosomalProteinFastas in dirs && RibosomalProteinMsaStats in dirs && MiscData in dirs && Trees in dirs
  }

  /** Whatever the super class registered, this workflow's directories include the four target ones. */
  lemma {:induction false} LayoutKeysRegistered(superDirs: map<string, string>)
    ensures HasLayoutKeys(superDirs + EcoPhyloDirs)
  {
    assert HasLayoutKeys(EcoPhyloDirs);
  }

  /** The four target directories, as `get_target_files` looks them up in `dirs_dict`. */
  function LayoutOf(dirs: map<string, string>): Layout
    requires HasLayoutKeys(dirs)
  {
    Layout(dirs[RibosomalProteinFastas], dirs[RibosomalProteinMsaStats], dirs[MiscData], dirs[Trees])
  }

  /**
   * Whatever directories the super class registers, the workflow's own
   * table and the `LOGS_DIR` entry set by `init` leave the targets in the
   * workflow's layout.
   */
  lemma {:induction false} WorkflowDirsLayout(superDirs: map<string, string>)
    ensures HasLayoutKeys((superDirs + EcoPhyloDirs)[LogsDirKey := LogsDir])
    ensures LayoutOf((superDirs + EcoPhyloDirs)[LogsDirKey := LogsDir]) == WorkflowLayout
  {
  }

  // the file name endings of the per-HMM targets
  const RenamedSuffix := "_external_gene_calls_all_renamed.tsv"
  const StatsSuffix := "_stats.tsv"
  const StateImportedSuffix := "_state_imported.done"
  const CombinedSuffix := "_combined.done"
  const MiscSuffix := "_misc.tsv"
  const IqtreeSuffix := ".iqtree"
  const NwkSuffix := ".nwk"

  /** The final tree of one HMM: iqtree's when its `run` equals True, else fasttree's when its does. */
  function TreeTarget(trees: string, hmm: string, runIqtree: PyValue, runFasttree: PyValue): (r: seq<string>)
    ensures |r| <= 1
    ensures |r| == 1 <==> EqualsTrue(runIqtree) || EqualsTrue(runFasttree)
  {
    if EqualsTrue(runIqtree) then [Join(Join(trees, hmm), hmm + IqtreeSuffix)]
    else if EqualsTrue(runFasttree) then [Join(Join(trees, hmm), hmm + NwkSuffix)]
    else []
  }

  /** The targets of one HMM, in the order they are planned. */
  function HmmTargets(layout: Layout, hmm: string, runIqtree: PyValue, runFasttree: PyValue): (r: seq<string>)
    ensures |r| == 5 + |TreeTarget(layout.trees, hmm, runIqtree, runFasttree)|
    ensures r[2] == hmm + StateImportedSuffix && r[3] == hmm + CombinedSuffix
  {
    [ Join(layout.fastas, hmm + "/" + hmm + RenamedSuffix),
      Join(Join(layout.msaStats, hmm), hmm + StatsSuffix),
      hmm + StateImportedSuffix,
      hmm + CombinedSuffix,
      Join(layout.miscData, hmm + MiscSuffix)
    ] + TreeTarget(layout.trees, hmm, runIqtree, runFasttree)
  }

  /** The targets of several HMMs: the block of each, one after the other, in the order given. */
  function Plan(block: string -> seq<string>, hmms: seq<string>): seq<string> {
    if hmms == [] then []
    else Plan(block, hmms[..|hmms| - 1]) + block(hmms[|hmms| - 1])
  }

  /** Blocks of one size make a plan of that size per HMM. */
  lemma {:induction false} PlanLength(block: string -> seq<string>, hmms: seq<string>, size: nat)
    requires forall h :: |block(h)| == size
    ensures |Plan(block, hmms)| == |hmms| * size
  {
    if hmms != [] {
      var n := |hmms| - 1;
      PlanLength(block, hmms[..n], size);
      assert (n + 1) * size == n * size + size;
    }
  }

  /** Planning two lists one after the other gives the two plans one after the other. */
  lemma {:induction false} PlanConcat(block: string -> seq<string>, xs: seq<string>, ys: seq<string>)
    ensures Plan(block, xs + ys) == Plan(block, xs) + Plan(block, ys)
  {
    if ys == [] {
      assert xs + ys == xs;
    } else {
      var n := |ys| - 1;
      assert (xs + ys)[..|xs + ys| - 1] == xs + ys[..n];
      PlanConcat(block, xs, ys[..n]);
    }
  }

  /** With blocks of one size, block `i` of the plan is the block of `hmms[i]`. */
  lemma {:induction false} PlanBlock(block: string -> seq<string>, hmms: seq<string>, size: nat, i: nat)
    requires forall h :: |block(h)| == size
    requires i < |hmms|
    ensures var plan := Plan(block, hmms);
            i * size + size <= |plan| && plan[i * size .. i * size + size] == block(hmms[i])
  {
    var before := Plan(block, hmms[..i]);
    var after := Plan(block, hmms[i + 1..]);
    assert hmms == hmms[..i] + ([hmms[i]] + hmms[i + 1..]);
    PlanConcat(block, hmms[..i], [hmms[i]] + hmms[i + 1..]);
    PlanConcat(block, [hmms[i]], hmms[i + 1..]);
    assert [hmms[i]][..0] == [];
    assert Plan(block, [hmms[i]]) == block(hmms[i]);
    PlanLength(block, hmms[..i], size);
    assert Plan(block, hmms) == before + block(hmms[i]) + after;
  }

  /** `target_files`: the block of `HmmTargets` of each HMM. */
  function HmmBlock(layout: Layout, runIqtree: PyValue, runFasttree: PyValue): string -> seq<string> {
    h => HmmTargets(layout, h, runIqtree, runFasttree)
  }

  /**
   * The targets of all HMMs, one block after the other: N×5 of them, or
   * N×6 when either engine's `run` equals True.
   */
  function TargetPlan(layout: Layout, hmms: seq<string>, runIqtree: PyValue, runFasttree: PyValue): (r: seq<string>)
    ensures |r| == |hmms| * BlockSize(runIqtree, runFasttree)
  {
    HmmBlockSize(layout, runIqtree, runFasttree);
    PlanLength(HmmBlock(layout, runIqtree, runFasttree), hmms, BlockSize(runIqtree, runFasttree));
    Plan(HmmBlock(layout, runIqtree, runFasttree), hmms)
  }

  /** Targets per HMM: five fixed ones and a tree when either engine's `run` equals True. */
  function BlockSize(runIqtree: PyValue, runFasttree: PyValue): nat {
    if EqualsTrue(runIqtree) || EqualsTrue(runFasttree) then 6 else 5
  }

  lemma {:induction false} HmmBlockSize(layout: Layout, runIqtree: PyValue, runFasttree: PyValue)
    ensures forall h :: |HmmBlock(layout, runIqtree, runFasttree)(h)| == BlockSize(runIqtree, runFasttree)
  {
    forall h
      ensures |HmmBlock(layout, runIqtree, runFasttree)(h)| == BlockSize(runIqtree, runFasttree)
    {
      assert HmmBlock(layout, runIqtree, runFasttree)(h) == HmmTargets(layout, h, runIqtree, runFasttree);
    }
  }

  /** Planning two lists of HMMs one after the other gives the two plans one after the other. */
  lemma {:induction false} TargetPlanConcat(layout: Layout, xs: seq<string>, ys: seq<string>, runIqtree: PyValue, runFasttree: PyValue)
    ensures TargetPlan(layout, xs + ys, runIqtree, runFasttree)
         == TargetPlan(layout, xs, runIqtree, runFasttree) + TargetPlan(layout, ys, runIqtree, runFasttree)
  {
    PlanConcat(HmmBlock(layout, runIqtree, runFasttree), xs, ys);
  }

  /** The plan is the HMMs' blocks in order: block `i` holds the targets of `hmms[i]`. */
  lemma {:induction false} TargetPlanBlock(layout: Layout, hmms: seq<string>, runIqtree: PyValue, runFasttree: PyValue, i: nat)
    requires i < |hmms|
    ensures var b := BlockSize(runIqtree, runFasttree);
            var plan := TargetPlan(layout, hmms, runIqtree, runFasttree);
            0 <= i * b && i * b + b <= |plan| && plan[i * b .. i * b + b] == HmmTargets(layout, hmms[i], runIqtree, runFasttree)
  {
    HmmBlockSize(layout, runIqtree, runFasttree);
    PlanBlock(HmmBlock(layout, runIqtree, runFasttree), hmms, BlockSize(runIqtree, runFasttree), i);
    assert HmmBlock(layout, runIqtree, runFasttree)(hmms[i]) == HmmTargets(layout, hmms[i], runIqtree, runFasttree);
  }

  /** Joining a plain directory and a path that starts with a single component inserts one separator. */
  lemma {:induction false} JoinComponent(dir: string, h: string, rest: string)
    requires IsPlainDir(dir) && IsComponent(h)
    ensures Join(dir, h + rest) == dir + "/" + h + rest
    ensures IsPlainDir(dir + "/" + h)
  {
    assert h[0] in h && h[|h| - 1] in h;
    assert (h + rest)[0] == h[0];
    var p := dir + "/" + h;
    assert p[|p| - 1] == h[|h| - 1];
    assert dir + "/" + (h + rest) == dir + "/" + h + rest;
  }

  /** The tree target of a component-named HMM under a plain trees directory, spelled out. */
  lemma {:induction false} TreeTargetSpelledOut(trees: string, h: string, runIqtree: PyValue, runFasttree: PyValue)
    requires IsComponent(h) && IsPlainDir(trees)
    ensures TreeTarget(trees, h, runIqtree, runFasttree) ==
      if EqualsTrue(runIqtree) then [trees + "/" + h + "/" + h + IqtreeSuffix]
      else if EqualsTrue(runFasttree) then [trees + "/" + h + "/" + h + NwkSuffix]
      else []
  {
    JoinComponent(trees, h, "");
    assert trees + "/" + h + "" == trees + "/" + h;
    var dir := trees + "/" + h;
    JoinComponent(dir, h, IqtreeSuffix);
    JoinComponent(dir, h, NwkSuffix);
  }

  /**
   * For an HMM name that is one path component, in a layout of plain
   * directories, the block spelled out: the five fixed paths, then
   * `<trees>/h/h.iqtree` when iqtree's `run` equals True (whatever fasttree's
   * is), else `<trees>/h/h.nwk` when fasttree's does, else nothing.
   */
  lemma {:induction false} HmmTargetsSpelledOut(layout: Layout, h: string, runIqtree: PyValue, runFasttree: PyValue)
    requires IsComponent(h)
    requires IsPlainDir(layout.fastas) && IsPlainDir(layout.msaStats) && IsPlainDir(layout.miscData) && IsPlainDir(layout.trees)
    ensures HmmTargets(layout, h, runIqtree, runFasttree) ==
      [ layout.fastas + "/" + h + "/" + h + RenamedSuffix,
        layout.msaStats + "/" + h + "/" + h + StatsSuffix,
        h + StateImportedSuffix,
        h + CombinedSuffix,
        layout.miscData + "/" + h + MiscSuffix
      ] + (if EqualsTrue(runIqtree) then [layout.trees + "/" + h + "/" + h + IqtreeSuffix]
           else if EqualsTrue(runFasttree) then [layout.trees + "/" + h + "/" + h + NwkSuffix]
           else [])
  {
    JoinComponent(layout.fastas, h, "/" + h + RenamedSuffix);
    assert h + ("/" + h + RenamedSuffix) == h + "/" + h + RenamedSuffix;
    assert layout.fastas + "/" + h + ("/" + h + RenamedSuffix) == layout.fastas + "/" + h + "/" + h + RenamedSuffix;
    JoinComponent(layout.msaStats, h, "");
    assert layout.msaStats + "/" + h + "" == layout.msaStats + "/" + h;
    JoinComponent(layout.msaStats + "/" + h, h, StatsSuffix);
    JoinComponent(layout.miscData, h, MiscSuffix);
    TreeTargetSpelledOut(layout.trees, h, runIqtree, runFasttree);
  }

  /** The workflow's own directories are plain, so the spelled-out form applies to them. */
  lemma {:induction false} WorkflowLayoutIsPlain()
    ensures IsPlainDir(WorkflowLayout.fastas) && IsPlainDir(WorkflowLayout.msaStats)
    ensures IsPlainDir(WorkflowLayout.miscData) && IsPlainDir(WorkflowLayout.trees)
    ensures WorkflowLayout.trees == "EXTERNAL_ECO_PHYLO_WORKFLOW/05_TREES"
  {
  }

  // ---------------------------------------------------------------------
  // What `init` does to the fields it assigns
  // ---------------------------------------------------------------------

  /**
   * The mode after `init`: which catalogs are given; nothing is assigned,
   * and the previous mode stays, when neither is.
   */
  function ModeOf(metagenomes: Option<seq<CatalogRow>>, externalGenomes: Option<seq<CatalogRow>>, previous: Option<Mode>): (m: Option<Mode>)
    ensures metagenomes.Some? && externalGenomes.None? ==> m == Some(Metagenomes)
    ensures metagenomes.None? && externalGenomes.Some? ==> m == Some(ExternalGenomes)
    ensures metagenomes.Some? && externalGenomes.Some? ==> m == Some(Both)
    ensures metagenomes.None? && externalGenomes.None? ==> m == previous
  {
    match (metagenomes, externalGenomes)
    case (Some(_), None) => Some(Metagenomes)
    case (None, Some(_)) => Some(ExternalGenomes)
    case (Some(_), Some(_)) => Some(Both)
    case (None, None) => previous
  }

  /** The fields of the workflow object that `init` assigns, as values. */
  datatype InitFields = InitFields(
    dirsDict: map<string, string>,
    namesList: seq<string>,
    namesDirs: seq<string>,
    inputDirs: Dict<string, string>,
    mode: Option<Mode>,
    externalHmms: Option<Dict<string, string>>,
    runIqtree: PyValue,
    runFasttree: PyValue,
    clusterizeMetagenomicsWorkflow: PyValue,
    metagenomicsWorkflowHpcString: PyValue,
    targetFiles: seq<string>)

  /**
   * The effect of `init` on those fields, with the error it raises, if any:
   * the logs directory and the catalogs first, then the HMM dict and its
   * name check, then the engine settings and their check, then the
   * clusterize settings and the target plan. A raised error leaves every
   * field not yet reached as it was.
   */
  function InitFrom(f: InitFields, metagenomes: Option<seq<CatalogRow>>, externalGenomes: Option<seq<CatalogRow>>,
                    hmmList: Option<seq<HmmRow>>, iqtreeRun: PyValue, fasttreeRun: PyValue,
                    clusterize: PyValue, clusterSubmissionParams: PyValue): (r: (InitFields, Option<InitError>))
    requires HasLayoutKeys(f.dirsDict)
    ensures HasLayoutKeys(r.0.dirsDict) && r.0.dirsDict == f.dirsDict[LogsDirKey := LogsDir]
    // the merged catalogs
    ensures r.0.namesList == CatalogNames(RowsOf(metagenomes)) + CatalogNames(RowsOf(externalGenomes))
    ensures r.0.namesDirs == Dedup(CatalogDirnames(RowsOf(metagenomes)) + CatalogDirnames(RowsOf(externalGenomes)))
    ensures r.0.inputDirs == InputDirsOf(metagenomes, externalGenomes)
    ensures r.0.mode == ModeOf(metagenomes, externalGenomes, f.mode)
    // the HMM dict
    ensures r.0.externalHmms == if hmmList.Some? then Some(FromPairs(HmmPairs(hmmList.value))) else f.externalHmms
    // the errors, in the order they are raised
    ensures r.1 == Some(UnderscoreInHmmName) <==> hmmList.Some? && HasUnderscoreName(hmmList.value)
    ensures r.1 == Some(NoTreeEngine) <==>
      !(hmmList.Some? && HasUnderscoreName(hmmList.value)) && !Truthy(iqtreeRun) && !Truthy(fasttreeRun)
    ensures r.1 == Some(NoHmmList) <==>
      !(hmmList.Some? && HasUnderscoreName(hmmList.value)) && (Truthy(iqtreeRun) || Truthy(fasttreeRun))
      && r.0.externalHmms.None?
    // the engine settings are read once the HMM names have passed
    ensures r.1 != Some(UnderscoreInHmmName) ==> r.0.runIqtree == iqtreeRun && r.0.runFasttree == fasttreeRun
    ensures r.1 == Some(UnderscoreInHmmName) ==> r.0.runIqtree == f.runIqtree && r.0.runFasttree == f.runFasttree
    ensures r.1 == None || r.1 == Some(NoHmmList) ==>
      r.0.clusterizeMetagenomicsWorkflow == clusterize && r.0.metagenomicsWorkflowHpcString == clusterSubmissionParams
    ensures r.1 == Some(UnderscoreInHmmName) || r.1 == Some(NoTreeEngine) ==>
      r.0.clusterizeMetagenomicsWorkflow == f.clusterizeMetagenomicsWorkflow
      && r.0.metagenomicsWorkflowHpcString == f.metagenomicsWorkflowHpcString
    // the plan
    ensures r.1 == None ==>
      r.0.targetFiles == TargetPlan(LayoutOf(r.0.dirsDict), r.0.externalHmms.value.keys, iqtreeRun, fasttreeRun)
    ensures r.1 != None ==> r.0.targetFiles == f.targetFiles
  {
    // `names_list`, `names_dirs` (then `list(set(names_dirs))`), `input_dirs_dict` and `mode`
    var catalogs := f.(dirsDict := f.dirsDict[LogsDirKey := LogsDir],
                       namesList := CatalogNames(RowsOf(metagenomes)) + CatalogNames(RowsOf(externalGenomes)),
                       namesDirs := Dedup(CatalogDirnames(RowsOf(metagenomes)) + CatalogDirnames(RowsOf(externalGenomes))),
                       inputDirs := InputDirsOf(metagenomes, externalGenomes),
                       mode := ModeOf(metagenomes, externalGenomes, f.mode));
    var hmms := if hmmList.Some? then catalogs.(externalHmms := Some(FromPairs(HmmPairs(hmmList.value)))) else catalogs;
    var underscore := hmmList.Some? && UnderscoreKey(hmms.externalHmms.value.keys);
    assert underscore <==> hmmList.Some? && HasUnderscoreName(hmmList.value) by {
      if hmmList.Some? {
        UnderscoreKeysAreUnderscoreRows(hmmList.value);
      }
    }
    if underscore then (hmms, Some(UnderscoreInHmmName))
    else InitEngines(hmms, iqtreeRun, fasttreeRun, clusterize, clusterSubmissionParams)
  }

  /**
   * After `init`, `names_dirs` holds a directory exactly when the contigs
   * database of some row of either catalog lies in it.
   */
  lemma {:induction false} NamesDirsMembers(f: InitFields, metagenomes: Option<seq<CatalogRow>>, externalGenomes: Option<seq<CatalogRow>>,
                                            hmmList: Option<seq<HmmRow>>, iqtreeRun: PyValue, fasttreeRun: PyValue,
                                            clusterize: PyValue, clusterSubmissionParams: PyValue, d: string)
    requires HasLayoutKeys(f.dirsDict)
    ensures d in InitFrom(f, metagenomes, externalGenomes, hmmList, iqtreeRun, fasttreeRun, clusterize, clusterSubmissionParams).0.namesDirs
            <==> exists row :: row in RowsOf(metagenomes) + RowsOf(externalGenomes) && Dirname(row.contigsDbPath) == d
  {
    var ms, es := RowsOf(metagenomes), RowsOf(externalGenomes);
    DedupMembers(CatalogDirnames(ms) + CatalogDirnames(es));
    CatalogDirnamesConcat(ms, es);
    CatalogDirnamesMembers(ms + es, d);
  }

  /**
   * The rest of `init` once the HMM names have passed: the engine settings,
   * the check that one engine is truthy, the clusterize settings, and the
   * plan, which needs the HMM dict (without one `get_target_files` fails on
   * the missing attribute).
   */
  function InitEngines(f: InitFields, iqtreeRun: PyValue, fasttreeRun: PyValue,
                       clusterize: PyValue, clusterSubmissionParams: PyValue): (r: (InitFields, Option<InitError>))
    requires HasLayoutKeys(f.dirsDict)
    ensures r.0.dirsDict == f.dirsDict && r.0.namesList == f.namesList && r.0.namesDirs == f.namesDirs
    ensures r.0.inputDirs == f.inputDirs && r.0.mode == f.mode && r.0.externalHmms == f.externalHmms
    ensures r.0.runIqtree == iqtreeRun && r.0.runFasttree == fasttreeRun
    ensures r.1 == Some(NoTreeEngine) <==> !Truthy(iqtreeRun) && !Truthy(fasttreeRun)
    ensures r.1 == Some(NoHmmList) <==> (Truthy(iqtreeRun) || Truthy(fasttreeRun)) && f.externalHmms.None?
    ensures r.1 == None || r.1 == Some(NoTreeEngine) || r.1 == Some(NoHmmList)
    ensures r.1 != Some(NoTreeEngine) ==>
      r.0.clusterizeMetagenomicsWorkflow == clusterize && r.0.metagenomicsWorkflowHpcString == clusterSubmissionParams
    ensures r.1 == Some(NoTreeEngine) ==>
      r.0.clusterizeMetagenomicsWorkflow == f.clusterizeMetagenomicsWorkflow
      && r.0.metagenomicsWorkflowHpcString == f.metagenomicsWorkflowHpcString
    ensures r.1 == None ==> r.0.targetFiles == TargetPlan(LayoutOf(f.dirsDict), f.externalHmms.value.keys, iqtreeRun, fasttreeRun)
    ensures r.1 != None ==> r.0.targetFiles == f.targetFiles
  {
    var engines := f.(runIqtree := iqtreeRun, runFasttree := fasttreeRun);
    if !Truthy(iqtreeRun) && !Truthy(fasttreeRun) then (engines, Some(NoTreeEngine))
    else
      var clustered := engines.(clusterizeMetagenomicsWorkflow := clusterize,
                                metagenomicsWorkflowHpcString := clusterSubmissionParams);
      if clustered.externalHmms.None? then (clustered, Some(NoHmmList))
      else
        var plan := TargetPlan(LayoutOf(clustered.dirsDict), clustered.externalHmms.value.keys, iqtreeRun, fasttreeRun);
        (clustered.(targetFiles := plan), None)
  }

  class ExternalEcoPhyloWorkflow {
    // registered by the constructor; nothing in the modelled code changes the first four
    const rules: seq<string>
    const generalParams: seq<string>
    const ruleAcceptableParams: map<string, seq<string>>
    const defaultConfig: map<string, PyValue>
    var dirsDict: map<string, string>
    // assigned by Init
    var namesList: seq<string>
    var namesDirs: seq<string>
    var inputDirs: Dict<string, string>
    var mode: Option<Mode>
    var externalHmms: Option<Dict<string, string>>
    var runIqtree: PyValue
    var runFasttree: PyValue
    var clusterizeMetagenomicsWorkflow: PyValue
    var metagenomicsWorkflowHpcString: PyValue
    var targetFiles: seq<string>

    /** The target directories stay registered. */
    ghost predicate Valid()
      reads this
    {
      HasLayoutKeys(dirsDict)
    }

    /**
     * The workflow definition: the super class's tables (given here, as
     * `init_workflow_super_class` leaves them) extended with this workflow's
     * rules and general parameters and updated with its acceptable
     * parameters, defaults and directories.
     */
    constructor (superRules: seq<string>, superGeneralParams: seq<string>,
                 superAcceptableParams: map<string, seq<string>>,
                 superDefaults: map<string, PyValue>, superDirs: map<string, string>)
      ensures Valid()
      ensures rules == superRules + EcoPhyloRules
      ensures generalParams == superGeneralParams + EcoPhyloGeneralParams
      ensures ruleAcceptableParams == superAcceptableParams + EcoPhyloAcceptableParams
      ensures defaultConfig == superDefaults + EcoPhyloDefaults
      ensures dirsDict == superDirs + EcoPhyloDirs
      ensures externalHmms == None && mode == None && targetFiles == []
    {
      rules := superRules + EcoPhyloRules;
      generalParams := superGeneralParams + EcoPhyloGeneralParams;
      ruleAcceptableParams := superAcceptableParams + EcoPhyloAcceptableParams;
      defaultConfig := superDefaults + EcoPhyloDefaults;
      LayoutKeysRegistered(superDirs);
      dirsDict := superDirs + EcoPhyloDirs;
      namesList, namesDirs, inputDirs := [], [], Empty();
      mode, externalHmms := None, None;
      runIqtree, runFasttree := PyNone, PyNone;
      clusterizeMetagenomicsWorkflow, metagenomicsWorkflowHpcString := PyNone, PyNone;
      targetFiles := [];
    }

    /**
     * `get_target_files`: for every HMM, in the HMM dict's key order, the five
     * fixed targets followed by the tree target of the engine whose `run` equals True.
     */
    method GetTargetFiles() returns (r: Result<seq<string>, InitError>)
      requires Valid()
      ensures externalHmms.None? ==> r == Err(NoHmmList)
      ensures externalHmms.Some? ==> r == Ok(TargetPlan(LayoutOf(dirsDict), externalHmms.value.keys, runIqtree, runFasttree))
    {
      if externalHmms.None? {
        return Err(NoHmmList);
      }
      var hmms := externalHmms.value.keys;
      var layout := LayoutOf(dirsDict);
      var iqtree, fasttree := runIqtree, runFasttree;
      var files: seq<string> := [];
      for i := 0 to |hmms|
        invariant files == TargetPlan(layout, hmms[..i], iqtree, fasttree)
      {
        var hmm := hmms[i];
        var block := [
          Join(layout.fastas, hmm + "/" + hmm + RenamedSuffix),
          Join(Join(layout.msaStats, hmm), hmm + StatsSuffix),
          hmm + StateImportedSuffix,
          hmm + CombinedSuffix,
          Join(layout.miscData, hmm + MiscSuffix)
        ];
        if EqualsTrue(iqtree) {
          block := block + [Join(Join(layout.trees, hmm), hmm + IqtreeSuffix)];
        } else if EqualsTrue(fasttree) {
          block := block + [Join(Join(layout.trees, hmm), hmm + NwkSuffix)];
        }
        assert block == HmmTargets(layout, hmm, iqtree, fasttree);
        files := files + block;
        assert hmms[..i + 1][..i] == hmms[..i];
      }
      assert hmms[..|hmms|] == hmms;
      return Ok(files);
    }

    /** The fields `init` assigns, as they are now. */
    function Fields(): InitFields
      reads this
    {
      InitFields(dirsDict, namesList, namesDirs, inputDirs, mode, externalHmms, runIqtree, runFasttree,
                 clusterizeMetagenomicsWorkflow, metagenomicsWorkflowHpcString, targetFiles)
    }

    /**
     * `init`: the catalogs (None when their config value is falsy, else their
     * rows), the HMM list (likewise), and the looked-up `run` and clusterize
     * settings, with the new fields and the error as `InitFrom` gives them.
     * The plan `InitFrom` stores is `TargetPlan`, which is what
     * `GetTargetFiles` returns on the new fields.
     */
    method Init(metagenomes: Option<seq<CatalogRow>>, externalGenomes: Option<seq<CatalogRow>>,
                hmmList: Option<seq<HmmRow>>, iqtreeRun: PyValue, fasttreeRun: PyValue,
                clusterize: PyValue, clusterSubmissionParams: PyValue)
      returns (err: Option<InitError>)
      requires Valid()
      modifies this
      ensures Valid()
      ensures (Fields(), err) == InitFrom(old(Fields()), metagenomes, externalGenomes, hmmList,
                                          iqtreeRun, fasttreeRun, clusterize, clusterSubmissionParams)
    {
      var r := InitFrom(Fields(), metagenomes, externalGenomes, hmmList,
                        iqtreeRun, fasttreeRun, clusterize, clusterSubmissionParams);
      SetFields(r.0);
      err := r.1;
    }

    /** Assigns the fields `init` sets, all at once. */
    method SetFields(f: InitFields)
      modifies this`dirsDict, this`namesList, this`namesDirs, this`inputDirs, this`mode, this`externalHmms,
               this`runIqtree, this`runFasttree, this`clusterizeMetagenomicsWorkflow,
               this`metagenomicsWorkflowHpcString, this`targetFiles
      ensures Fields() == f
    {
      dirsDict, namesList, namesDirs, inputDirs, mode := f.dirsDict, f.namesList, f.namesDirs, f.inputDirs, f.mode;
      externalHmms, runIqtree, runFasttree := f.externalHmms, f.runIqtree, f.runFasttree;
      clusterizeMetagenomicsWorkflow, metagenomicsWorkflowHpcString := f.clusterizeMetagenomicsWorkflow, f.metagenomicsWorkflowHpcString;
      targetFiles := f.targetFiles;
    }
  }

  /** The worked example: one HMM, iqtree on, gives six targets ending in its iqtree file. */
  lemma {:induction false} SingleHmmWithIqtree()
    ensures var plan := TargetPlan(WorkflowLayout, ["RiboL2"], PyBool(true), PyNone);
            |plan| == 6 && plan[5] == "EXTERNAL_ECO_PHYLO_WORKFLOW/05_TREES/RiboL2/RiboL2.iqtree"
  {
    var plan := TargetPlan(WorkflowLayout, ["RiboL2"], PyBool(true), PyNone);
    var block := HmmBlock(WorkflowLayout, PyBool(true), PyNone);
    assert ["RiboL2"][..0] == [];
    assert plan == Plan(block, []) + block("RiboL2");
    assert plan == HmmTargets(WorkflowLayout, "RiboL2", PyBool(true), PyNone);
    WorkflowLayoutIsPlain();
    HmmTargetsSpelledOut(WorkflowLayout, "RiboL2", PyBool(true), PyNone);
    assert plan[5] == WorkflowLayout.trees + "/" + "RiboL2" + "/" + "RiboL2" + IqtreeSuffix;
    RiboL2TreePath();
  }

  /** The iqtree target of the worked example, written out as one path. */
  lemma {:induction false} RiboL2TreePath()
    ensures WorkflowLayout.trees + "/" + "RiboL2" + "/" + "RiboL2" + IqtreeSuffix
         == "EXTERNAL_ECO_PHYLO_WORKFLOW/05_TREES/RiboL2/RiboL2.iqtree"
  {
    assert WorkflowLayout.trees == "EXTERNAL_ECO_PHYLO_WORKFLOW/05_TREES";
    assert IqtreeSuffix == ".iqtree";
  }
}
