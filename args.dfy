/**
 * The command-line argument table shared by the anvi'o programs, and its two
 * accessors: `A` gives the flags of an argument, `K` the keyword arguments
 * for argparse, with overrides laid over the table's defaults.
 */
module Args {
  import opened Wrappers

  /**
   * A keyword-argument value as the table writes it. Help texts are kept as
   * one opaque value; a Python type object (`int`, `float`, `str`) by its
   * name; a float by its decimal `mantissa * 10^exponent`.
   */
  datatype ArgValue =
    | Str(s: string)
    | Int(n: int)
    | Bool(b: bool)
    | Float(mantissa: int, exponent: int)
    | TypeName(name: string)
    | Help

  /** One table entry: the flags and the keyword arguments of `add_argument`. */
  datatype Entry = Entry(flags: seq<string>, kwargs: map<string, ArgValue>)


  /**
   * The dictionary display `D` as the key/value pairs it lists, in the
   * source's order. The list is written as four consecutive slices of 20
   * pairs (the last of 18) so that facts about it can be proved slice by
   * slice.
   */
  const Rows: seq<(string, Entry)> := Rows0 + Rows1 + Rows2 + Rows3

  const Rows0: seq<(string, Entry)> := [
      ("profile-db", Entry(["-p", "--profile-db"],
        map["metavar" := Str("PROFILE_DB"), "required" := Bool(true), "help" := Help])),
      ("serialized-profile", Entry(["-d", "--serialized-profile"],
        map["metavar" := Str("PROFILE"), "help" := Help])),
      ("samples-information-db", Entry(["-s", "--samples-information-db"],
        map["metavar" := Str("SAMPLES_DB"), "help" := Help])),
      ("contigs-db", Entry(["-c", "--contigs-db"],
        map["metavar" := Str("CONTIGS_DB"), "required" := Bool(true), "help" := Help])),
      ("runinfo", Entry(["-r", "--runinfo"],
        map["metavar" := Str("RUNINFO_PATH"), "required" := Bool(true), "help" := Help])),
      ("additional-view", Entry(["-V", "--additional-view"],
        map["metavar" := Str("TAB_DELIM_FILE"), "help" := Help])),
      ("fasta-file", Entry(["-f", "--fasta-file"],
        map["metavar" := Str("FASTA"), "help" := Help])),
      ("samples-information", Entry(["-D", "--samples-information"],
        map["metavar" := Str("TAB_DELIM_FILE"), "help" := Help])),
      ("samples-order", Entry(["-R", "--samples-order"],
        map["metavar" := Str("TAB_DELIM_FILE"), "help" := Help])),
      ("split-length", Entry(["-L", "--split-length"],
        map["metavar" := Str("INT"), "default" := Int(20000), "type" := TypeName("int"), "help" := Help])),
      ("kmer-size", Entry(["-K", "--kmer-size"],
        map["metavar" := Str("INT"), "default" := Int(4), "type" := TypeName("int"), "help" := Help])),
      ("skip-gene-calling", Entry(["--skip-gene-calling"],
        map["default" := Bool(false), "action" := Str("store_true"), "help" := Help])),
      ("contigs-fasta", Entry(["-f", "--contigs-fasta"],
        map["metavar" := Str("FASTA"), "required" := Bool(true), "help" := Help])),
      ("view-data", Entry(["-d", "--view-data"],
        map["metavar" := Str("TAB_DELIM_FILE"), "help" := Help])),
      ("tree", Entry(["-t", "--tree"],
        map["metavar" := Str("NEWICK"), "help" := Help])),
      ("additional-layers", Entry(["-A", "--additional-layers"],
        map["metavar" := Str("TAB_DELIM_FILE"), "help" := Help])),
      ("view", Entry(["--view"],
        map["metavar" := Str("NAME"), "help" := Help])),
      ("table", Entry(["--table"],
        map["metavar" := Str("TABLE_NAME"), "help" := Help])),
      ("fields", Entry(["-f", "--fields"],
        map["metavar" := Str("FIELD(S)"), "help" := Help])),
      ("list", Entry(["-l", "--list"],
        map["default" := Bool(false), "action" := Str("store_true"), "help" := Help]))
    ]

  const Rows1: seq<(string, Entry)> := [
      ("title", Entry(["--title"],
        map["metavar" := Str("NAME"), "help" := Help])),
      ("split-hmm-layers", Entry(["--split-hmm-layers"],
        map["default" := Bool(false), "action" := Str("store_true"), "help" := Help])),
      ("hmm-sources", Entry(["--hmm-sources"],
        map["metavar" := Str("SOURCE NAME"), "help" := Help])),
      ("list-available-hmm-sources", Entry(["-l", "--list-available-hmm-sources"],
        map["default" := Bool(false), "action" := Str("store_true"), "help" := Help])),
      ("search-terms", Entry(["--search-terms"],
        map["metavar" := Str("SEARCH_TERMS"), "help" := Help])),
      ("list-contigs", Entry(["--list-contigs"],
        map["default" := Bool(false), "action" := Str("store_true"), "help" := Help])),
      ("list-collections", Entry(["--list-collections"],
        map["default" := Bool(false), "action" := Str("store_true"), "help" := Help])),
      ("show-views", Entry(["--show-views"],
        map["default" := Bool(false), "action" := Str("store_true"), "help" := Help])),
      ("list-completeness-sources", Entry(["--list-completeness-sources"],
        map["default" := Bool(false), "action" := Str("store_true"), "help" := Help])),
      ("completeness-source", Entry(["--completeness-source"],
        map["metavar" := Str("NAME"), "help" := Help])),
      ("splits-of-interest", Entry(["--splits-of-interest"],
        map["metavar" := Str("FILE"), "help" := Help])),
      ("contigs-of-interest", Entry(["--contigs-of-interest"],
        map["metavar" := Str("FILE"), "help" := Help])),
      ("bin-id", Entry(["-b", "--bin-id"],
        map["metavar" := Str("BIN_NAME"), "help" := Help])),
      ("bin-ids-file", Entry(["-B", "--bin-ids-file"],
        map["metavar" := Str("FILE_PATH"), "help" := Help])),
      ("collection-id", Entry(["-C", "--collection-id"],
        map["metavar" := Str("COLLECTION_NAME"), "help" := Help])),
      ("num-positions-from-each-split", Entry(["--num-positions-from-each-split"],
        map["metavar" := Str("INT"), "default" := Int(2), "type" := TypeName("int"), "help" := Help])),
      ("min-scatter", Entry(["-m", "--min-scatter"],
        map["metavar" := Str("INT"), "default" := Int(1), "type" := TypeName("int"), "help" := Help])),
      ("min-coverage-in-each-sample", Entry(["--min-coverage-in-each-sample"],
        map["metavar" := Str("INT"), "default" := Int(0), "type" := TypeName("int"), "help" := Help])),
      ("min-ratio-of-competings-nts", Entry(["-r", "--min-ratio"],
        map["metavar" := Str("FLOAT"), "default" := Int(0), "type" := TypeName("float"), "help" := Help])),
      ("min-occurrence-of-variable-postiions", Entry(["-x", "--min-occurrence"],
        map["metavar" := Str("NUM_SAMPLES"), "default" := Int(1), "type" := TypeName("int"), "help" := Help]))
    ]

  const Rows2: seq<(string, Entry)> := [
      ("samples-of-interest", Entry(["--samples-of-interest"],
        map["metavar" := Str("FILE"), "help" := Help])),
      ("quince-mode", Entry(["--quince-mode"],
        map["default" := Bool(false), "action" := Str("store_true"), "help" := Help])),
      ("transpose", Entry(["--transpose"],
        map["default" := Bool(false), "action" := Str("store_true"), "help" := Help])),
      ("skip-check-names", Entry(["--skip-check-names"],
        map["default" := Bool(false), "action" := Str("store_true"), "help" := Help])),
      ("experimental-org-input-dir", Entry(["-i", "--input-directory"],
        map["metavar" := Str("DIR_PATH"), "type" := TypeName("str"), "help" := Help])),
      ("clustering-name", Entry(["-N", "--name"],
        map["metavar" := Str("NAME"), "type" := TypeName("str"), "help" := Help])),
      ("output-dir", Entry(["-o", "--output-dir"],
        map["metavar" := Str("DIR_PATH"), "type" := TypeName("str"), "help" := Help])),
      ("output-file", Entry(["-o", "--output-file"],
        map["metavar" := Str("FILE_PATH"), "type" := TypeName("str"), "help" := Help])),
      ("output-db-path", Entry(["-o", "--output-db-path"],
        map["metavar" := Str("DB_FILE_PATH"), "type" := TypeName("str"), "help" := Help])),
      ("output-file-prefix", Entry(["-O", "--output-file-prefix"],
        map["metavar" := Str("FILENAME_PREFIX"), "type" := TypeName("str"), "help" := Help])),
      ("dry-run", Entry(["--dry-run"],
        map["default" := Bool(false), "action" := Str("store_true"), "help" := Help])),
      ("verbose", Entry(["--verbose"],
        map["default" := Bool(false), "action" := Str("store_true"), "help" := Help])),
      ("debug", Entry(["--debug"],
        map["default" := Bool(false), "action" := Str("store_true"), "help" := Help])),
      ("ip-address", Entry(["-I", "--ip-address"],
        map["metavar" := Str("IP_ADDR"), "type" := TypeName("str"), "default" := Str("0.0.0.0"), "help" := Help])),
      ("port-number", Entry(["-P", "--port-number"],
        map["metavar" := Str("INT"), "default" := Int(8080), "type" := TypeName("int"), "help" := Help])),
      ("read-only", Entry(["--read-only"],
        map["default" := Bool(false), "action" := Str("store_true"), "help" := Help])),
      ("server-only", Entry(["--server-only"],
        map["default" := Bool(false), "action" := Str("store_true"), "help" := Help])),
      ("skip-store-in-db", Entry(["--skip-store-in-db"],
        map["default" := Bool(false), "action" := Str("store_true"), "help" := Help])),
      ("source-identifier", Entry(["--source-identifier"],
        map["metavar" := Str("NAME"), "default" := Str("UNKNOWN_SOURCE"), "help" := Help])),
      ("min-e-value", Entry(["-e", "--min-e-value"],
        map["metavar" := Str("E-VALUE"), "default" := Float(1, -15), "type" := TypeName("float"), "help" := Help]))
    ]

  const Rows3: seq<(string, Entry)> := [
      ("colors", Entry(["--colors"],
        map["metavar" := Str("TAB_DELIM_FILE"), "help" := Help])),
      ("contigs-mode", Entry(["--contigs-mode"],
        map["default" := Bool(false), "action" := Str("store_true"), "help" := Help])),
      ("sample-name", Entry(["-S", "--sample-name"],
        map["metavar" := Str("NAME"), "help" := Help])),
      ("skip-hierarchical-clustering", Entry(["--skip-hierarchical-clustering"],
        map["default" := Bool(false), "action" := Str("store_true"), "help" := Help])),
      ("cluster-contigs", Entry(["--cluster-contigs"],
        map["default" := Bool(false), "action" := Str("store_true"), "help" := Help])),
      ("skip-concoct-binning", Entry(["--skip-concoct-binning"],
        map["default" := Bool(false), "action" := Str("store_true"), "help" := Help])),
      ("overwrite-output-destinations", Entry(["-W", "--overwrite-output-destinations"],
        map["default" := Bool(false), "action" := Str("store_true"), "help" := Help])),
      ("report-variability-full", Entry(["--report-variability-full"],
        map["default" := Bool(false), "action" := Str("store_true"), "help" := Help])),
      ("manual-mode", Entry(["--manual-mode"],
        map["default" := Bool(false), "action" := Str("store_true"), "help" := Help])),
      ("hmm-profile-dir", Entry(["-H", "--hmm-profile-dir"],
        map["metavar" := Str("PATH"), "help" := Help])),
      ("min-contig-length", Entry(["-M", "--min-contig-length"],
        map["metavar" := Str("INT"), "default" := Int(5000), "type" := TypeName("int"), "help" := Help])),
      ("min-mean-coverage", Entry(["-X", "--min-mean-coverage"],
        map["metavar" := Str("INT"), "default" := Int(0), "type" := TypeName("int"), "help" := Help])),
      ("min-coverage-for-variability", Entry(["-V", "--min-coverage-for-variability"],
        map["metavar" := Str("INT"), "default" := Int(10), "type" := TypeName("int"), "help" := Help])),
      ("contigs-and-positions", Entry(["-P", "--contigs-and-positions"],
        map["metavar" := Str("TAB_DELIM_FILE"), "required" := Bool(true), "help" := Help])),
      ("state", Entry(["--state"],
        map["metavar" := Str("NAME"), "help" := Help])),
      ("show-states", Entry(["--show-states"],
        map["default" := Bool(false), "action" := Str("store_true"), "help" := Help])),
      ("skip-init-functions", Entry(["--skip-init-functions"],
        map["default" := Bool(false), "action" := Str("store_true"), "help" := Help])),
      ("quick-summary", Entry(["--quick-summary"],
        map["default" := Bool(false), "action" := Str("store_true"), "help" := Help]))
    ]

  /**
   * A dictionary display: the pairs are entered left to right, so a key
   * listed twice would keep its last value.
   */
  function TableOf(rows: seq<(string, Entry)>): (table: map<string, Entry>)
    ensures table.Keys == set i | 0 <= i < |rows| :: rows[i].0
  {
    if rows == [] then map[]
    else
      var last := rows[|rows| - 1];
      TableOf(rows[..|rows| - 1])[last.0 := last.1]
  }

  /** The anvi'o argument table. */
  const D: map<string, Entry> := TableOf(Rows)

  /**
   * `A(param_id)`: the flags of an argument. The source reads the
   * module-level table; here the table is a parameter (the anvi'o one is
   * `D`). `None` stands for the `KeyError` of an unknown id.
   */
  function A(table: map<string, Entry>, id: string): (r: Option<seq<string>>)
    ensures r.Some? <==> id in table
    ensures r.Some? ==> r.value == table[id].flags
  {
    if id in table then Some(table[id].flags) else None
  }

  /**
   * `K(param_id, params_dict)`: a copy of the argument's default keyword
   * arguments with every key of `params` written over it, one key at a
   * time. The table is a value, so the copy the loop updates is never the
   * table's own map, and a later call sees the same defaults. `None` stands
   * for the `KeyError` of an unknown id.
   */
  method K(table: map<string, Entry>, id: string, params: map<string, ArgValue>)
    returns (r: Option<map<string, ArgValue>>)
    ensures r.None? <==> id !in table
    ensures r.Some? ==> r.value.Keys == table[id].kwargs.Keys + params.Keys
    ensures r.Some? ==> forall k :: k in params ==> r.value[k] == params[k]
    ensures r.Some? ==> forall k :: k in table[id].kwargs && k !in params ==> r.value[k] == table[id].kwargs[k]
    ensures id in table && params == map[] ==> r == Some(table[id].kwargs)
  {
    if id !in table {
      return None;
    }
    var defaults := table[id].kwargs;
    var kwargs := defaults;
    var pending := params.Keys;
    while pending != {}
      invariant pending <= params.Keys
      invariant kwargs.Keys == defaults.Keys + (params.Keys - pending)
      invariant forall k :: k in params && k !in pending ==> kwargs[k] == params[k]
      invariant forall k :: k in defaults && (k !in params || k in pending) ==> kwargs[k] == defaults[k]
      decreases pending
    {
      var key :| key in pending;
      kwargs := kwargs[key := params[key]];
      pending := pending - {key};
    }
    if params == map[] {
      assert kwargs == defaults;
    }
    return Some(kwargs);
  }

  /**
   * `K` leaves the table as it was: after a call with any overrides, a
   * later call for the same id without overrides gets the table's defaults.
   * This holds because the table here is an immutable value; it would hold
   * without the source's `deepcopy` as well, so it says nothing about
   * aliasing between the table and the returned dict.
   */
  method KThenDefaults(table: map<string, Entry>, id: string, params: map<string, ArgValue>)
    returns (first: Option<map<string, ArgValue>>, later: Option<map<string, ArgValue>>)
    ensures first.None? <==> id !in table
    ensures later == if id in table then Some(table[id].kwargs) else None
  {
    first := K(table, id, params);
    later := K(table, id, map[]);
  }

  /** An entry declaring `'action': 'store_true'` also declares `'default': False`. */
  predicate StoreTrueDefaultsFalse(e: Entry) {
    "action" in e.kwargs && e.kwargs["action"] == Str("store_true") ==>
      "default" in e.kwargs && e.kwargs["default"] == Bool(false)
  }

  /** Every flag is an option string: it starts with `-` and names something after it. */
  predicate OptionFlags(e: Entry) {
    e.flags != [] && forall i :: 0 <= i < |e.flags| ==> |e.flags[i]| > 1 && e.flags[i][0] == '-'
  }

  predicate WellFormedEntry(e: Entry) {
    StoreTrueDefaultsFalse(e) && OptionFlags(e)
  }

  /** Every entry of `table` satisfies both rules. */
  predicate WellFormedTable(table: map<string, Entry>) {
    forall id :: id in table ==> WellFormedEntry(table[id])
  }

  /** Every pair of `rows` carries a well-formed entry. */
  predicate WellFormedRows(rows: seq<(string, Entry)>) {
    forall i :: 0 <= i < |rows| ==> WellFormedEntry(rows[i].1)
  }

  /** A display of well-formed entries builds a well-formed table. */
  lemma {:induction false} TableOfWellFormed(rows: seq<(string, Entry)>)
    requires WellFormedRows(rows)
    ensures WellFormedTable(TableOf(rows))
  {
    if rows != [] {
      TableOfWellFormed(rows[..|rows| - 1]);
    }
  }

  lemma {:induction false} Rows0WellFormed()
    ensures forall i :: 0 <= i < |Rows0| ==> WellFormedEntry(Rows0[i].1)
  {
  }

  lemma {:induction false} Rows1WellFormed()
    ensures forall i :: 0 <= i < |Rows1| ==> WellFormedEntry(Rows1[i].1)
  {
  }

  lemma {:induction false} Rows2WellFormed()
    ensures forall i :: 0 <= i < |Rows2| ==> WellFormedEntry(Rows2[i].1)
  {
  }

  lemma {:induction false} Rows3WellFormed()
    ensures forall i :: 0 <= i < |Rows3| ==> WellFormedEntry(Rows3[i].1)
  {
  }

  /**
   * The anvi'o table is well formed: every `store_true` switch defaults to
   * `False`, and every flag is an option string.
   */
  lemma {:induction false} TableIsWellFormed()
    ensures WellFormedTable(D)
  {
    Rows0WellFormed();
    Rows1WellFormed();
    Rows2WellFormed();
    Rows3WellFormed();
    assert WellFormedRows(Rows) by {
      forall i | 0 <= i < |Rows|
        ensures WellFormedEntry(Rows[i].1)
      {
        if i < 20 {
          assert Rows[i] == Rows0[i];
        } else if i < 40 {
          assert Rows[i] == Rows1[i - 20];
        } else if i < 60 {
          assert Rows[i] == Rows2[i - 40];
        } else {
          assert Rows[i] == Rows3[i - 60];
        }
      }
    }
    TableOfWellFormed(Rows);
  }
}
