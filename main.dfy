/**
 * The driver: checks the directory to process, builds the rule registry from
 * the default and user pattern files, and walks the directory tree applying
 * every rule whose file pattern matches an entry's name.
 */
module Driver {
  import opened Common
  import opened Regex
  import opened Files
  import opened PatternUtils

  // ---------------------------------------------------------------------------
  // Loading the pattern files

  /**
   * What reading and parsing a pattern source yields: the exception it throws
   * (a missing resource, an unreadable file) or the parsed key/value table.
   */
  datatype SourceText = Unreadable(exception: string) | Table(props: Props)

  /** A pattern source with the text that precedes the exception when it fails. */
  datatype Source = Source(prefix: string, text: SourceText)

  /** The tables loaded, in order, and the error that stopped loading, if any. */
  datatype Loaded = Loaded(tables: seq<Props>, error: Option<string>)

  /**
   * One iteration of a loading loop: loadPattern's table, or the text of the
   * exception caught around it (an IllegalStateException for a rejected table).
   */
  function LoadSource(eng: Engine, text: SourceText): (r: Result<Props>)
    ensures r.Success? ==> text.Table? && r.value == text.props && WellFormed(eng, r.value)
    ensures text.Table? && r.Failure? ==>
      Validate(eng, text.props).Some? && r.error == "java.lang.IllegalStateException: " + Validate(eng, text.props).value
    ensures text.Unreadable? ==> r == Failure(text.exception)
  {
    match text
    case Unreadable(e) => Failure(e)
    case Table(p) =>
      match LoadPattern(eng, p)
      case Success(q) => Success(q)
      case Failure(msg) => Failure("java.lang.IllegalStateException: " + msg)
  }

  /** Load the sources in order, stopping at the first that fails. */
  function LoadAll(eng: Engine, sources: seq<Source>): Loaded {
    if sources == [] then Loaded([], None)
    else match LoadSource(eng, sources[0].text)
      case Failure(e) => Loaded([], Some(sources[0].prefix + e))
      case Success(p) =>
        var rest := LoadAll(eng, sources[1..]);
        Loaded([p] + rest.tables, rest.error)
  }

  /**
   * Loading is fail-fast: the tables are those of a prefix of the sources,
   * each the table its source loads to; it fails exactly when that prefix is
   * not all of them, and then with the message of the first source that does
   * not load, no later source being loaded.
   */
  lemma {:induction false} LoadAllFailFast(eng: Engine, sources: seq<Source>)
    ensures var o := LoadAll(eng, sources);
      && |o.tables| <= |sources|
      && (forall j :: 0 <= j < |o.tables| ==>
            LoadSource(eng, sources[j].text) == Success(o.tables[j]) && WellFormed(eng, o.tables[j]))
      && (o.error.None? <==> |o.tables| == |sources|)
      && (o.error.Some? ==>
            && LoadSource(eng, sources[|o.tables|].text).Failure?
            && o.error.value == sources[|o.tables|].prefix + LoadSource(eng, sources[|o.tables|].text).error)
  {
    if sources != [] && LoadSource(eng, sources[0].text).Success? {
      LoadAllFailFast(eng, sources[1..]);
    }
  }

  /** Loading a + b is loading a and, only if that succeeded, continuing with b. */
  lemma {:induction false} LoadAllAppend(eng: Engine, a: seq<Source>, b: seq<Source>)
    ensures var oa := LoadAll(eng, a);
      LoadAll(eng, a + b) ==
        if oa.error.Some? then oa
        else Loaded(oa.tables + LoadAll(eng, b).tables, LoadAll(eng, b).error)
  {
    if a == [] {
      assert a + b == b;
    } else {
      assert (a + b)[0] == a[0];
      assert (a + b)[1..] == a[1..] + b;
      LoadAllAppend(eng, a[1..], b);
    }
  }

  /** The bundled pattern files, as the class loader supplies them. */
  function DefaultSources(resource: string -> SourceText): seq<Source> {
    seq(|DEFAULT_PATTERNS|, k requires 0 <= k < |DEFAULT_PATTERNS| =>
      Source("Failed to load default pattern '" + DEFAULT_PATTERNS[k] + "': ", resource(DEFAULT_PATTERNS[k])))
  }

  /** The user's pattern files, in the order given. */
  function FileSources(files: seq<Path>, open: Path -> SourceText): seq<Source> {
    seq(|files|, k requires 0 <= k < |files| =>
      Source("Failed to load pattern file '" + Render(files[k]) + "': ", open(files[k])))
  }

  /** The bundled pattern files when they are enabled, otherwise none. */
  function EnabledDefaults(useDefaults: bool, resource: string -> SourceText): seq<Source> {
    if useDefaults then DefaultSources(resource) else []
  }

  /** Everything loadPatterns loads: the defaults only when enabled, then the user files. */
  function AllSources(useDefaults: bool, files: seq<Path>, resource: string -> SourceText, open: Path -> SourceText): seq<Source> {
    EnabledDefaults(useDefaults, resource) + FileSources(files, open)
  }

  /** A bad default pattern stops loading before any user pattern file is read. */
  lemma BadDefaultStopsLoading(eng: Engine, files: seq<Path>, resource: string -> SourceText, open: Path -> SourceText)
    requires LoadAll(eng, DefaultSources(resource)).error.Some?
    ensures LoadAll(eng, AllSources(true, files, resource, open)) == LoadAll(eng, DefaultSources(resource))
  {
    LoadAllAppend(eng, DefaultSources(resource), FileSources(files, open));
  }

  /** One step of loading from the k-th source on: the k-th source fails, or its table is followed by the rest. */
  lemma LoadAllStep(eng: Engine, sources: seq<Source>, k: nat)
    requires k < |sources|
    ensures var r, rest := LoadSource(eng, sources[k].text), LoadAll(eng, sources[k + 1..]);
      LoadAll(eng, sources[k..]) ==
        if r.Failure? then Loaded([], Some(sources[k].prefix + r.error))
        else Loaded([r.value] + rest.tables, rest.error)
  {
    var tail := sources[k..];
    assert tail[0] == sources[k] && tail[1..] == sources[k + 1..];
  }

  /** The registry after adding the loaded tables under the fresh identities next, next + 1, ... */
  function Register(before: map<nat, Props>, next: nat, tables: seq<Props>): map<nat, Props>
    decreases |tables|
  {
    if tables == [] then before
    else Register(before, next, tables[..|tables| - 1])[next + |tables| - 1 := tables[|tables| - 1]]
  }

  /** Registering one more table puts it under the next fresh key. */
  lemma RegisterSnoc(before: map<nat, Props>, next: nat, tables: seq<Props>, t: Props)
    ensures Register(before, next, tables + [t]) == Register(before, next, tables)[next + |tables| := t]
  {
    assert (tables + [t])[..|tables|] == tables;
  }

  /** The j-th loaded table sits under the j-th fresh identity. */
  lemma {:induction false} RegisterAt(before: map<nat, Props>, next: nat, tables: seq<Props>, j: nat)
    requires j < |tables|
    ensures next + j in Register(before, next, tables) && Register(before, next, tables)[next + j] == tables[j]
    decreases |tables|
  {
    var init := tables[..|tables| - 1];
    if j < |init| {
      RegisterAt(before, next, init, j);
      assert init[j] == tables[j];
    }
  }

  /**
   * Registering keeps every earlier entry, adds each table under its own
   * fresh key and nothing else.
   */
  lemma {:induction false} RegisterFacts(before: map<nat, Props>, next: nat, tables: seq<Props>)
    requires forall id :: id in before ==> id < next
    ensures forall id :: id in before ==> id in Register(before, next, tables) && Register(before, next, tables)[id] == before[id]
    ensures forall id: nat :: next <= id < next + |tables| ==>
      id in Register(before, next, tables) && Register(before, next, tables)[id] == tables[id - next]
    ensures forall id :: id in Register(before, next, tables) ==> id in before || next <= id < next + |tables|
    decreases |tables|
  {
    if tables != [] {
      RegisterFacts(before, next, tables[..|tables| - 1]);
    }
    forall id: nat | next <= id < next + |tables|
      ensures id in Register(before, next, tables) && Register(before, next, tables)[id] == tables[id - next]
    {
      RegisterAt(before, next, tables, id - next);
    }
  }

  /**
   * Since each compiled file pattern is a new key, the registry grows by one
   * entry per loaded table, even when two tables share a file pattern.
   */
  lemma {:induction false} RegisterGrows(before: map<nat, Props>, next: nat, tables: seq<Props>)
    requires forall id :: id in before ==> id < next
    ensures |Register(before, next, tables)| == |before| + |tables|
    decreases |tables|
  {
    if tables != [] {
      var init := tables[..|tables| - 1];
      RegisterGrows(before, next, init);
      RegisterFacts(before, next, init);
      assert next + |init| !in Register(before, next, init);
    }
  }

  /** Registering t1 and then t2 is registering t1 + t2. */
  lemma {:induction false} RegisterAppend(before: map<nat, Props>, next: nat, t1: seq<Props>, t2: seq<Props>)
    ensures Register(before, next, t1 + t2) == Register(Register(before, next, t1), next + |t1|, t2)
    decreases |t2|
  {
    if t2 == [] {
      assert t1 + t2 == t1;
    } else {
      assert (t1 + t2)[..|t1 + t2| - 1] == t1 + t2[..|t2| - 1];
      RegisterAppend(before, next, t1, t2[..|t2| - 1]);
    }
  }

  /** Registering well-formed tables under fresh identities keeps every registered table well-formed and below the counter. */
  lemma RegisterValid(eng: Engine, before: map<nat, Props>, next: nat, tables: seq<Props>)
    requires forall id :: id in before ==> id < next && WellFormed(eng, before[id])
    requires forall j :: 0 <= j < |tables| ==> WellFormed(eng, tables[j])
    ensures forall id :: id in Register(before, next, tables) ==>
      id < next + |tables| && WellFormed(eng, Register(before, next, tables)[id])
  {
    RegisterFacts(before, next, tables);
  }

  // ---------------------------------------------------------------------------
  // Walking the directory tree

  /** What a walk needs: the engine, the failing writes, the rules in the registry's iteration order, and the flags. */
  datatype Config = Config(eng: Engine, failures: map<Path, string>, rules: seq<Props>, recursive: bool, dryRun: bool)

  predicate ConfigOk(cfg: Config) {
    forall j :: 0 <= j < |cfg.rules| ==> WellFormed(cfg.eng, cfg.rules[j])
  }

  predicate IsDotEntry(name: string) {
    name == "." || name == ".."
  }

  /** Rule j's file pattern matches the whole of `name`. */
  predicate Matches(cfg: Config, j: nat, name: string)
    requires ConfigOk(cfg) && j < |cfg.rules|
  {
    cfg.eng.fullMatch(cfg.rules[j][KEY_FILEPATTERN], name)
  }

  /** Some rule's file pattern matches the whole of `name`. */
  predicate AnyMatch(cfg: Config, name: string)
    requires ConfigOk(cfg)
  {
    exists j :: 0 <= j < |cfg.rules| && Matches(cfg, j, name)
  }

  /** The inner loop of remove: rules j.. tried on one entry, processing it for each match, stopping at an error. */
  function MatchRules(cfg: Config, c: Content, f: Path, name: string, j: nat): Outcome
    requires ConfigOk(cfg)
    decreases |cfg.rules| - j
  {
    if j >= |cfg.rules| then Outcome(c, None)
    else if !Matches(cfg, j, name) then MatchRules(cfg, c, f, name, j + 1)
    else
      var o := ProcessOutcome(cfg.eng, cfg.failures, c, f, cfg.rules[j], cfg.dryRun);
      if o.error.Some? then o else MatchRules(cfg, o.content, f, name, j + 1)
  }

  /** remove(dir): nothing when the directory cannot be listed, otherwise its entries in listing order. */
  function WalkDir(cfg: Config, c: Content, dir: Path, node: Node): Outcome
    requires ConfigOk(cfg)
    decreases node, 2, 0
  {
    if node.Dir? && node.listable then WalkEntries(cfg, c, dir, node, 0) else Outcome(c, None)
  }

  /** The entries of `node` from the i-th on, stopping at the first error. */
  function WalkEntries(cfg: Config, c: Content, dir: Path, node: Node, i: nat): Outcome
    requires ConfigOk(cfg) && node.Dir?
    decreases node, 1, |node.entries| - i
  {
    if i >= |node.entries| then Outcome(c, None)
    else
      var o := EntryOutcome(cfg, c, dir, node.entries[i]);
      if o.error.Some? then o else WalkEntries(cfg, o.content, dir, node, i + 1)
  }

  /**
   * One entry: "." and ".." are skipped; in recursive mode a directory is
   * walked; anything else, directories included when not recursive, is tried
   * against every rule.
   */
  function EntryOutcome(cfg: Config, c: Content, dir: Path, e: Node): Outcome
    requires ConfigOk(cfg)
    decreases e, 3, 0
  {
    if IsDotEntry(e.name) then Outcome(c, None)
    else if cfg.recursive && e.Dir? then WalkDir(cfg, c, dir + [e.name], e)
    else MatchRules(cfg, c, dir + [e.name], e.name, 0)
  }

  // Reference definitions: processing for the matching rules, as a filter and a fold.

  /** The rules whose file pattern matches the whole of `name`, in order. */
  function MatchingRules(eng: Engine, rules: seq<Props>, name: string): (r: seq<Props>)
    requires forall j :: 0 <= j < |rules| ==> WellFormed(eng, rules[j])
    ensures forall j :: 0 <= j < |r| ==> WellFormed(eng, r[j])
  {
    if rules == [] then []
    else
      assert WellFormed(eng, rules[0]);
      (if eng.fullMatch(rules[0][KEY_FILEPATTERN], name) then [rules[0]] else [])
        + MatchingRules(eng, rules[1..], name)
  }

  /** Process one file with each table in turn, stopping at the first error. */
  function ProcessEach(eng: Engine, failures: map<Path, string>, c: Content, f: Path, tables: seq<Props>, dryRun: bool): Outcome
    requires forall j :: 0 <= j < |tables| ==> WellFormed(eng, tables[j])
  {
    if tables == [] then Outcome(c, None)
    else
      var o := ProcessOutcome(eng, failures, c, f, tables[0], dryRun);
      if o.error.Some? then o else ProcessEach(eng, failures, o.content, f, tables[1..], dryRun)
  }

  /** An entry is processed once for each rule that fully matches its name, in the rules' order, and for no other. */
  lemma {:induction false} MatchRulesIsFilteredFold(cfg: Config, c: Content, f: Path, name: string, j: nat)
    requires ConfigOk(cfg) && j <= |cfg.rules|
    ensures MatchRules(cfg, c, f, name, j)
      == ProcessEach(cfg.eng, cfg.failures, c, f, MatchingRules(cfg.eng, cfg.rules[j..], name), cfg.dryRun)
    decreases |cfg.rules| - j
  {
    var rest := cfg.rules[j..];
    if j < |cfg.rules| {
      assert rest[0] == cfg.rules[j] && rest[1..] == cfg.rules[j + 1..];
      var tail := MatchingRules(cfg.eng, cfg.rules[j + 1..], name);
      if Matches(cfg, j, name) {
        var o := ProcessOutcome(cfg.eng, cfg.failures, c, f, cfg.rules[j], cfg.dryRun);
        assert ([cfg.rules[j]] + tail)[1..] == tail;
        MatchRulesIsFilteredFold(cfg, o.content, f, name, j + 1);
      } else {
        assert [] + tail == tail;
        MatchRulesIsFilteredFold(cfg, c, f, name, j + 1);
      }
    } else {
      assert rest == [];
    }
  }

  /** Every rule from j on whose pattern matches, processing a file that cannot be read fails at the first match. */
  lemma {:induction false} UnreadableMatchFails(cfg: Config, c: Content, f: Path, name: string, j: nat, k: nat)
    requires ConfigOk(cfg) && f !in c
    requires j <= k < |cfg.rules| && Matches(cfg, k, name)
    ensures MatchRules(cfg, c, f, name, j) == Outcome(c, Some("Failed to load file: " + Render(f)))
    decreases k - j
  {
    if !Matches(cfg, j, name) {
      UnreadableMatchFails(cfg, c, f, name, j + 1, k);
    }
  }

  /**
   * Without recursion a directory is not skipped: when some rule's file
   * pattern matches its name, processing it fails to load it and the error
   * stops the walk.
   */
  lemma FlatModeMatchedDirectoryFails(cfg: Config, top: seq<Node>, c: Content, dir: Path, e: Node)
    requires ConfigOk(cfg) && !cfg.recursive && e.Dir? && !IsDotEntry(e.name)
    requires OnlyFiles(top, c) && Lookup(top, dir + [e.name]) == Some(e) && AnyMatch(cfg, e.name)
    ensures EntryOutcome(cfg, c, dir, e) == Outcome(c, Some("Failed to load file: " + Render(dir + [e.name])))
  {
    assert dir + [e.name] !in c;
    var k :| 0 <= k < |cfg.rules| && Matches(cfg, k, e.name);
    UnreadableMatchFails(cfg, c, dir + [e.name], e.name, 0, k);
  }

  /** The files a walk of `node` may rewrite: the non-dot entries it tries against the rules whose names some rule matches. */
  function Candidates(cfg: Config, dir: Path, node: Node): set<Path>
    requires ConfigOk(cfg)
    decreases node, 2, 0
  {
    if node.Dir? && node.listable then EntriesCandidates(cfg, dir, node, 0) else {}
  }

  function EntriesCandidates(cfg: Config, dir: Path, node: Node, i: nat): set<Path>
    requires ConfigOk(cfg) && node.Dir?
    decreases node, 1, |node.entries| - i
  {
    if i >= |node.entries| then {}
    else EntryCandidates(cfg, dir, node.entries[i]) + EntriesCandidates(cfg, dir, node, i + 1)
  }

  function EntryCandidates(cfg: Config, dir: Path, e: Node): set<Path>
    requires ConfigOk(cfg)
    decreases e, 3, 0
  {
    if IsDotEntry(e.name) then {}
    else if cfg.recursive && e.Dir? then Candidates(cfg, dir + [e.name], e)
    else if AnyMatch(cfg, e.name) then {dir + [e.name]}
    else {}
  }

  /** `c2` has the files of `c1`, and differs from it only at paths in `allowed`. */
  predicate Confined(c1: Content, c2: Content, allowed: set<Path>) {
    c2.Keys == c1.Keys && forall p :: p in c1 && p !in allowed ==> c2[p] == c1[p]
  }

  /** Trying rules on one entry rewrites at most that entry, not at all when no rule matches, and never on a dry run. */
  lemma {:induction false} MatchRulesFrame(cfg: Config, c: Content, f: Path, name: string, j: nat)
    requires ConfigOk(cfg)
    ensures Confined(c, MatchRules(cfg, c, f, name, j).content, {f})
    ensures (forall k :: j <= k < |cfg.rules| ==> !Matches(cfg, k, name)) ==> MatchRules(cfg, c, f, name, j) == Outcome(c, None)
    ensures cfg.dryRun ==> MatchRules(cfg, c, f, name, j).content == c
    decreases |cfg.rules| - j
  {
    if j < |cfg.rules| {
      if Matches(cfg, j, name) {
        var o := ProcessOutcome(cfg.eng, cfg.failures, c, f, cfg.rules[j], cfg.dryRun);
        ProcessKeepsFiles(cfg.eng, cfg.failures, c, f, cfg.rules[j], cfg.dryRun);
        MatchRulesFrame(cfg, o.content, f, name, j + 1);
      } else {
        MatchRulesFrame(cfg, c, f, name, j + 1);
      }
    }
  }

  /**
   * A walk keeps the set of files, changes only the candidates of the walked
   * tree (so an entry no rule matches is untouched), and changes nothing at
   * all on a dry run.
   */
  lemma {:induction false} WalkDirFrame(cfg: Config, c: Content, dir: Path, node: Node)
    requires ConfigOk(cfg)
    ensures Confined(c, WalkDir(cfg, c, dir, node).content, Candidates(cfg, dir, node))
    ensures cfg.dryRun ==> WalkDir(cfg, c, dir, node).content == c
    decreases node, 2, 0
  {
    if node.Dir? && node.listable {
      WalkEntriesFrame(cfg, c, dir, node, 0);
    }
  }

  lemma {:induction false} WalkEntriesFrame(cfg: Config, c: Content, dir: Path, node: Node, i: nat)
    requires ConfigOk(cfg) && node.Dir?
    ensures Confined(c, WalkEntries(cfg, c, dir, node, i).content, EntriesCandidates(cfg, dir, node, i))
    ensures cfg.dryRun ==> WalkEntries(cfg, c, dir, node, i).content == c
    decreases node, 1, |node.entries| - i
  {
    if i < |node.entries| {
      var e := node.entries[i];
      EntryFrame(cfg, c, dir, e);
      var o := EntryOutcome(cfg, c, dir, e);
      if o.error.None? {
        WalkEntriesFrame(cfg, o.content, dir, node, i + 1);
      }
    }
  }

  lemma {:induction false} EntryFrame(cfg: Config, c: Content, dir: Path, e: Node)
    requires ConfigOk(cfg)
    ensures Confined(c, EntryOutcome(cfg, c, dir, e).content, EntryCandidates(cfg, dir, e))
    ensures cfg.dryRun ==> EntryOutcome(cfg, c, dir, e).content == c
    decreases e, 3, 0
  {
    if !IsDotEntry(e.name) {
      if cfg.recursive && e.Dir? {
        WalkDirFrame(cfg, c, dir + [e.name], e);
      } else {
        MatchRulesFrame(cfg, c, dir + [e.name], e.name, 0);
      }
    }
  }

  /** The candidates of a walk lie strictly below the walked directory. */
  lemma {:induction false} CandidatesBelow(cfg: Config, dir: Path, node: Node)
    requires ConfigOk(cfg)
    ensures forall p :: p in Candidates(cfg, dir, node) ==> |p| > |dir| && p[..|dir|] == dir
    decreases node, 2, 0
  {
    if node.Dir? && node.listable {
      EntriesCandidatesBelow(cfg, dir, node, 0);
    }
  }

  lemma {:induction false} EntriesCandidatesBelow(cfg: Config, dir: Path, node: Node, i: nat)
    requires ConfigOk(cfg) && node.Dir?
    ensures forall p :: p in EntriesCandidates(cfg, dir, node, i) ==> |p| > |dir| && p[..|dir|] == dir
    decreases node, 1, |node.entries| - i
  {
    if i < |node.entries| {
      EntryCandidatesBelow(cfg, dir, node.entries[i]);
      EntriesCandidatesBelow(cfg, dir, node, i + 1);
    }
  }

  lemma {:induction false} EntryCandidatesBelow(cfg: Config, dir: Path, e: Node)
    requires ConfigOk(cfg)
    ensures forall p :: p in EntryCandidates(cfg, dir, e) ==> |p| > |dir| && p[..|dir|] == dir
    ensures cfg.recursive && e.Dir? ==> dir + [e.name] !in EntryCandidates(cfg, dir, e)
    decreases e, 3, 0
  {
    if !IsDotEntry(e.name) && cfg.recursive && e.Dir? {
      var sub := dir + [e.name];
      CandidatesBelow(cfg, sub, e);
      forall p | p in Candidates(cfg, sub, e) ensures |p| > |dir| && p[..|dir|] == dir {
        assert p[..|sub|][..|dir|] == dir;
      }
    }
  }

  // ---------------------------------------------------------------------------
  // The directory check

  /** What check() returns for the directory setting, testing in this order. */
  function CheckResult(dir: Option<Path>, top: seq<Node>): Option<string> {
    match dir
    case None => Some("No directory set!")
    case Some(d) =>
      match Lookup(top, d)
      case None => Some("Directory does not exist: " + Render(d))
      case Some(n) => if !n.Dir? then Some("Not a directory: " + Render(d)) else None
  }

  /** The registry's tables in the order `order` enumerates their keys. */
  function InOrder(patterns: map<nat, Props>, order: seq<nat>): seq<Props>
    requires forall j :: 0 <= j < |order| ==> order[j] in patterns
  {
    seq(|order|, j requires 0 <= j < |order| => patterns[order[j]])
  }

  /** `order` lists every key of `keys` exactly once: one iteration of a hash map's key set. */
  predicate IsEnumeration(order: seq<nat>, keys: set<nat>) {
    && (forall j :: 0 <= j < |order| ==> order[j] in keys)
    && (forall id :: id in keys ==> id in order)
    && (forall i, j :: 0 <= i < j < |order| ==> order[i] != order[j])
  }

  class Main {
    /** java.util.regex. */
    const eng: Engine
    /** The file system the run reads and rewrites. */
    const fs: FileSystem

    /** The directory to process (null when unset). */
    var dir: Option<Path>
    var recursive: bool
    var defaultPatterns: bool
    var patternFiles: seq<Path>
    var dryRun: bool
    /** The loaded tables, keyed by the identity of their compiled file pattern. */
    var patterns: map<nat, Props>
    /** How many file patterns have been compiled: the next fresh identity. */
    var compiled: nat

    ghost predicate Valid()
      reads this
    {
      forall id :: id in patterns ==> id < compiled && WellFormed(eng, patterns[id])
    }

    /** The walk configuration for an iteration order of the registry. */
    function Setup(order: seq<nat>): (cfg: Config)
      reads this
      requires Valid() && IsEnumeration(order, patterns.Keys)
      ensures ConfigOk(cfg)
    {
      Config(eng, fs.writeFailures, InOrder(patterns, order), recursive, dryRun)
    }

    /** The defaults of the no-argument constructor. */
    constructor (eng: Engine, fs: FileSystem)
      ensures this.eng == eng && this.fs == fs
      ensures dir == None && !recursive && defaultPatterns && patternFiles == [] && !dryRun
      ensures patterns == map[] && compiled == 0 && Valid()
    {
      this.eng := eng;
      this.fs := fs;
      dir := None;
      recursive := false;
      defaultPatterns := true;
      patternFiles := [];
      dryRun := false;
      patterns := map[];
      compiled := 0;
    }

    /** check(): passes exactly when a directory is set, exists and is a directory. */
    method Check() returns (r: Option<string>)
      ensures r == CheckResult(dir, fs.top)
      ensures r.None? <==> dir.Some? && fs.Stat(dir.value).Some? && fs.Stat(dir.value).value.Dir?
    {
      if dir.None? {
        return Some("No directory set!");
      }
      var d := dir.value;
      var entry := fs.Stat(d);
      if entry.None? {
        return Some("Directory does not exist: " + Render(d));
      }
      if !entry.value.Dir? {
        return Some("Not a directory: " + Render(d));
      }
      return None;
    }

    /** One loading loop of loadPatterns: each source in order under a fresh key, stopping at the first that fails. */
    method LoadSources(sources: seq<Source>) returns (r: Option<string>)
      modifies this`patterns, this`compiled
      ensures var o := LoadAll(eng, sources);
        && r == o.error
        && patterns == Register(old(patterns), old(compiled), o.tables)
        && compiled == old(compiled) + |o.tables|
    {
      ghost var loaded: seq<Props> := [];
      var k := 0;
      while k < |sources|
        invariant 0 <= k <= |sources|
        invariant compiled == old(compiled) + |loaded|
        invariant patterns == Register(old(patterns), old(compiled), loaded)
        invariant LoadAll(eng, sources) == Loaded(loaded + LoadAll(eng, sources[k..]).tables, LoadAll(eng, sources[k..]).error)
      {
        LoadAllStep(eng, sources, k);
        var table := LoadSource(eng, sources[k].text);
        if table.Failure? {
          assert loaded + [] == loaded;
          return Some(sources[k].prefix + table.error);
        }
        RegisterSnoc(old(patterns), old(compiled), loaded, table.value);
        assert loaded + ([table.value] + LoadAll(eng, sources[k + 1..]).tables)
          == (loaded + [table.value]) + LoadAll(eng, sources[k + 1..]).tables;
        patterns := patterns[compiled := table.value];
        compiled := compiled + 1;
        loaded := loaded + [table.value];
        k := k + 1;
      }
      assert sources[k..] == [] && loaded + [] == loaded;
      return None;
    }

    /**
     * loadPatterns(): the default pattern files when enabled, then the user's,
     * each added under a fresh key; the first that fails ends it.
     */
    method LoadPatterns(resource: string -> SourceText, open: Path -> SourceText) returns (r: Option<string>)
      modifies this`patterns, this`compiled
      ensures var o := LoadAll(eng, AllSources(defaultPatterns, patternFiles, resource, open));
        && r == o.error
        && patterns == Register(old(patterns), old(compiled), o.tables)
        && compiled == old(compiled) + |o.tables|
    {
      var sources := AllSources(defaultPatterns, patternFiles, resource, open);
      r := LoadSources(sources);
    }

    /**
     * The inner loop of remove: the registry's tables in `order`, processing
     * the entry with each whose file pattern matches its name; the first error
     * ends it.
     */
    method MatchPatterns(f: Path, name: string, order: seq<nat>) returns (r: Option<string>)
      requires Valid() && IsEnumeration(order, patterns.Keys)
      modifies fs
      ensures Outcome(fs.content, r) == MatchRules(Setup(order), old(fs.content), f, name, 0)
    {
      ghost var cfg := Setup(order);
      var j := 0;
      while j < |order|
        invariant 0 <= j <= |order|
        invariant MatchRules(cfg, old(fs.content), f, name, 0) == MatchRules(cfg, fs.content, f, name, j)
      {
        var props := patterns[order[j]];
        if eng.fullMatch(props[KEY_FILEPATTERN], name) {
          var result := ProcessFile(fs, eng, f, props, dryRun);
          if result.Some? {
            return result;
          }
        }
        j := j + 1;
      }
      return None;
    }

    /**
     * remove(dir): every entry of a listable directory in listing order, each
     * matching rule in `order`; the first error ends the walk.
     */
    method Remove(d: Path, node: Node, order: seq<nat>) returns (r: Option<string>)
      requires Valid() && IsEnumeration(order, patterns.Keys)
      modifies fs
      ensures Outcome(fs.content, r) == WalkDir(Setup(order), old(fs.content), d, node)
      decreases node
    {
      ghost var cfg := Setup(order);
      if !(node.Dir? && node.listable) {
        return None;
      }
      var files := node.entries;
      var i := 0;
      while i < |files|
        invariant 0 <= i <= |files|
        invariant WalkDir(cfg, old(fs.content), d, node) == WalkEntries(cfg, fs.content, d, node, i)
      {
        var f := files[i];
        var result := None;
        if !IsDotEntry(f.name) {
          if recursive && f.Dir? {
            result := Remove(d + [f.name], f, order);
          } else {
            result := MatchPatterns(d + [f.name], f.name, order);
          }
        }
        if result.Some? {
          return result;
        }
        i := i + 1;
      }
      return None;
    }

    /** execute(): check, then load the patterns, then walk the directory, stopping at the first failure. */
    method Execute(resource: string -> SourceText, open: Path -> SourceText, arrange: set<nat> -> seq<nat>)
      returns (r: Option<string>)
      requires Valid() && fs.Valid()
      requires forall keys :: IsEnumeration(arrange(keys), keys)
      modifies this`patterns, this`compiled, fs
      ensures Valid() && fs.Valid()
      ensures CheckResult(dir, fs.top).Some? ==>
        && r == CheckResult(dir, fs.top)
        && patterns == old(patterns) && compiled == old(compiled)
        && fs.content == old(fs.content)
      ensures CheckResult(dir, fs.top).None? ==>
        var o := LoadAll(eng, AllSources(defaultPatterns, patternFiles, resource, open));
        && patterns == Register(old(patterns), old(compiled), o.tables)
        && compiled == old(compiled) + |o.tables|
        && (o.error.Some? ==> r == Some("Failed to load patterns: " + o.error.value) && fs.content == old(fs.content))
        && (o.error.None? ==>
              Outcome(fs.content, r) == WalkDir(Setup(arrange(patterns.Keys)), old(fs.content), dir.value, Lookup(fs.top, dir.value).value))
    {
      r := Check();
      if r.None? {
        r := LoadPatterns(resource, open);
        ghost var all := AllSources(defaultPatterns, patternFiles, resource, open);
        LoadAllFailFast(eng, all);
        RegisterValid(eng, old(patterns), old(compiled), LoadAll(eng, all).tables);
        if r.Some? {
          r := Some("Failed to load patterns: " + r.value);
        }
      }
      if r.None? {
        var node := fs.Stat(dir.value).value;
        WalkDirFrame(Setup(arrange(patterns.Keys)), fs.content, dir.value, node);
        r := Remove(dir.value, node, arrange(patterns.Keys));
      }
    }
  }
}
