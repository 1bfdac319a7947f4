/**
 * The pattern engine: validating a rule table (a parsed key/value pattern
 * file), loading it, and applying its find/replace pairs to one file.
 */
module PatternUtils {
  import opened Common
  import opened Numerals
  import opened Regex
  import opened Files

  /** A parsed pattern file: its keys and values. */
  type Props = map<string, string>

  /** The bundled pattern files, loaded first and in this order. */
  const DEFAULT_PATTERNS: seq<string> := [
    "com/github/fracpete/removegpl/java_jflex_cup.props",
    "com/github/fracpete/removegpl/python.props"
  ]

  const KEY_FILEPATTERN: string := "filepattern"
  const KEY_NUMPATTERNS: string := "numpatterns"
  const KEY_FIND: string := "find"
  const KEY_REPLACE: string := "replace"

  /** "find<k>", the key of the k-th find expression. */
  function FindKey(k: nat): string {
    KEY_FIND + Decimal(k)
  }

  /** "replace<k>", the key of the k-th replacement template. */
  function ReplaceKey(k: nat): string {
    KEY_REPLACE + Decimal(k)
  }

  // ---------------------------------------------------------------------------
  // Validation

  /** Everything checkPattern demands of pair `k`. */
  predicate PairOk(eng: Engine, p: Props, k: nat) {
    FindKey(k) in p && eng.compiles(p[FindKey(k)]) && ReplaceKey(k) in p
  }

  /** The first of pair `k`'s three checks that fails, with checkPattern's message. */
  function PairError(eng: Engine, p: Props, k: nat): (r: Option<string>)
    ensures r.None? <==> PairOk(eng, p, k)
  {
    var find := FindKey(k);
    var replace := ReplaceKey(k);
    if find !in p then Some("Missing key: " + find)
    else if !eng.compiles(p[find]) then
      Some("Failed to compile find pattern '" + find + ": " + eng.syntaxError(p[find]))
    else if replace !in p then Some("Missing key: " + replace)
    else None
  }

  /** The first failing check among pairs k..num, in index order. */
  function PairsError(eng: Engine, p: Props, k: nat, num: int): Option<string>
    decreases num - k
  {
    if k > num then None
    else if PairError(eng, p, k).Some? then PairError(eng, p, k)
    else PairsError(eng, p, k + 1, num)
  }

  /**
   * What checkPattern returns: None (null) when the table is valid, otherwise
   * the message of the first failing check, in the order filepattern present,
   * filepattern compiles, numpatterns present, numpatterns parses, then for
   * each pair find present, find compiles, replace present.
   */
  function Validate(eng: Engine, p: Props): Option<string> {
    if KEY_FILEPATTERN !in p then Some("Missing key: " + KEY_FILEPATTERN)
    else if !eng.compiles(p[KEY_FILEPATTERN]) then
      Some("Failed to compile regexp: " + p[KEY_FILEPATTERN])
    else if KEY_NUMPATTERNS !in p then Some("Missing key: " + KEY_NUMPATTERNS)
    else match ParseInt(p[KEY_NUMPATTERNS])
      case None => Some("Failed to parse value for '" + KEY_NUMPATTERNS + "': " + p[KEY_NUMPATTERNS])
      case Some(num) => PairsError(eng, p, 1, num)
  }

  /** The declared number of pairs of a table whose numpatterns parses. */
  function DeclaredCount(p: Props): int
    requires KEY_NUMPATTERNS in p && ParseInt(p[KEY_NUMPATTERNS]).Some?
  {
    ParseInt(p[KEY_NUMPATTERNS]).value
  }

  /** A valid rule table, stated independently of the order of the checks. */
  predicate WellFormed(eng: Engine, p: Props) {
    && KEY_FILEPATTERN in p
    && eng.compiles(p[KEY_FILEPATTERN])
    && KEY_NUMPATTERNS in p
    && ParseInt(p[KEY_NUMPATTERNS]).Some?
    && forall k :: 1 <= k <= DeclaredCount(p) ==> PairOk(eng, p, k)
  }

  /**
   * The pair checks report nothing exactly when every pair in k..num passes,
   * and otherwise report the failure of the LOWEST failing pair, all pairs
   * before it having passed.
   */
  lemma {:induction false} PairsErrorFirst(eng: Engine, p: Props, k: nat, num: int)
    ensures PairsError(eng, p, k, num).None? <==> forall j :: k <= j <= num ==> PairOk(eng, p, j)
    ensures PairsError(eng, p, k, num).Some? ==>
      exists j :: k <= j <= num && PairError(eng, p, j) == PairsError(eng, p, k, num)
        && forall i :: k <= i < j ==> PairOk(eng, p, i)
    decreases num - k
  {
    if k <= num && PairError(eng, p, k).None? {
      PairsErrorFirst(eng, p, k + 1, num);
      if PairsError(eng, p, k + 1, num).Some? {
        var j :| k + 1 <= j <= num && PairError(eng, p, j) == PairsError(eng, p, k + 1, num)
          && forall i :: k + 1 <= i < j ==> PairOk(eng, p, i);
        assert forall i :: k <= i < j ==> PairOk(eng, p, i);
      } else {
        assert forall j :: k <= j <= num ==> PairOk(eng, p, j) by {
          forall j | k <= j <= num ensures PairOk(eng, p, j) {
            if j > k {
              assert k + 1 <= j <= num;
            }
          }
        }
      }
    }
  }

  /** checkPattern returns null exactly when the table is well formed. */
  lemma ValidateSound(eng: Engine, p: Props)
    ensures Validate(eng, p).None? <==> WellFormed(eng, p)
  {
    if KEY_FILEPATTERN in p && eng.compiles(p[KEY_FILEPATTERN]) && KEY_NUMPATTERNS in p
       && ParseInt(p[KEY_NUMPATTERNS]).Some?
    {
      PairsErrorFirst(eng, p, 1, DeclaredCount(p));
    }
  }

  /** A missing filepattern is reported as exactly that, whatever else the table holds. */
  lemma MissingFilePattern(eng: Engine, p: Props)
    requires KEY_FILEPATTERN !in p
    ensures Validate(eng, p) == Some("Missing key: filepattern")
  {
    assert "Missing key: " + KEY_FILEPATTERN == "Missing key: filepattern";
  }

  /** A count that parses to zero or less needs no find/replace keys at all. */
  lemma NonPositiveCount(eng: Engine, p: Props)
    requires KEY_FILEPATTERN in p && eng.compiles(p[KEY_FILEPATTERN])
    requires KEY_NUMPATTERNS in p && ParseInt(p[KEY_NUMPATTERNS]).Some?
    requires DeclaredCount(p) <= 0
    ensures Validate(eng, p) == None && WellFormed(eng, p)
  {
  }

  /** `p` and `q` agree on whether they hold `key` and on its value. */
  predicate SameOn(p: Props, q: Props, key: string) {
    (key in p <==> key in q) && (key in p ==> p[key] == q[key])
  }

  /** `p` and `q` agree on every key checkPattern looks at in `p`. */
  predicate AgreeOnChecked(p: Props, q: Props) {
    && SameOn(p, q, KEY_FILEPATTERN)
    && SameOn(p, q, KEY_NUMPATTERNS)
    && (KEY_NUMPATTERNS in p && ParseInt(p[KEY_NUMPATTERNS]).Some? ==>
          forall k :: 1 <= k <= DeclaredCount(p) ==> SameOn(p, q, FindKey(k)) && SameOn(p, q, ReplaceKey(k)))
  }

  lemma {:induction false} PairsErrorAgree(eng: Engine, p: Props, q: Props, k: nat, num: int)
    requires forall j :: k <= j <= num ==> SameOn(p, q, FindKey(j)) && SameOn(p, q, ReplaceKey(j))
    ensures PairsError(eng, p, k, num) == PairsError(eng, q, k, num)
    decreases num - k
  {
    if k <= num {
      assert SameOn(p, q, FindKey(k)) && SameOn(p, q, ReplaceKey(k));
      PairsErrorAgree(eng, p, q, k + 1, num);
    }
  }

  /**
   * Only filepattern, numpatterns and find<i>/replace<i> for i in 1..num are
   * examined: tables that agree on those get the same verdict, so every other
   * key is ignored.
   */
  lemma OtherKeysIgnored(eng: Engine, p: Props, q: Props)
    requires AgreeOnChecked(p, q)
    ensures Validate(eng, p) == Validate(eng, q)
  {
    if KEY_FILEPATTERN in p && KEY_NUMPATTERNS in p && ParseInt(p[KEY_NUMPATTERNS]).Some? {
      PairsErrorAgree(eng, p, q, 1, DeclaredCount(p));
    }
  }

  /** checkPattern: the counting loop with early returns. */
  method CheckPattern(eng: Engine, p: Props) returns (r: Option<string>)
    ensures r == Validate(eng, p)
    ensures r.None? <==> WellFormed(eng, p)
  {
    ValidateSound(eng, p);
    if KEY_FILEPATTERN !in p {
      return Some("Missing key: " + KEY_FILEPATTERN);
    }
    if !eng.compiles(p[KEY_FILEPATTERN]) {
      return Some("Failed to compile regexp: " + p[KEY_FILEPATTERN]);
    }
    if KEY_NUMPATTERNS !in p {
      return Some("Missing key: " + KEY_NUMPATTERNS);
    }
    var numStr := p[KEY_NUMPATTERNS];
    var parsed := ParseInt(numStr);
    if parsed.None? {
      return Some("Failed to parse value for '" + KEY_NUMPATTERNS + "': " + numStr);
    }
    var num := parsed.value;
    var i := 0;
    while i < num
      invariant 0 <= i && (i <= num || num < 0)
      invariant PairsError(eng, p, 1, num) == PairsError(eng, p, i + 1, num)
    {
      var key := FindKey(i + 1);
      if key !in p {
        return Some("Missing key: " + key);
      }
      if !eng.compiles(p[key]) {
        return Some("Failed to compile find pattern '" + key + ": " + eng.syntaxError(p[key]));
      }
      key := ReplaceKey(i + 1);
      if key !in p {
        return Some("Missing key: " + key);
      }
      i := i + 1;
    }
    return None;
  }

  /**
   * loadPattern after Properties.load: the table itself when checkPattern
   * accepts it, otherwise a failure carrying exactly checkPattern's message.
   */
  function LoadPattern(eng: Engine, p: Props): (r: Result<Props>)
    ensures r.Success? <==> WellFormed(eng, p)
    ensures r.Success? ==> r.value == p
    ensures r.Failure? ==> Validate(eng, p) == Some(r.error)
  {
    ValidateSound(eng, p);
    match Validate(eng, p)
    case None => Success(p)
    case Some(msg) => Failure(msg)
  }

  // ---------------------------------------------------------------------------
  // Applying the replacements

  /** The number of pairs processFile applies: its loop runs while i < num. */
  function Count(eng: Engine, p: Props): nat
    requires WellFormed(eng, p)
  {
    if DeclaredCount(p) < 0 then 0 else DeclaredCount(p)
  }

  /** The (find, replace) values of pair `k` of a valid table. */
  function PairAt(eng: Engine, p: Props, k: nat): (string, string)
    requires WellFormed(eng, p) && 1 <= k <= Count(eng, p)
  {
    assert PairOk(eng, p, k);
    (p[FindKey(k)], p[ReplaceKey(k)])
  }

  /** The (find, replace) pairs of a valid table, pair 1 first. */
  function Pairs(eng: Engine, p: Props): seq<(string, string)>
    requires WellFormed(eng, p)
  {
    seq(Count(eng, p), k requires 0 <= k < Count(eng, p) => PairAt(eng, p, k + 1))
  }

  /** One pair applied as a global substitution to every line. */
  function OnePass(eng: Engine, pair: (string, string), lines: seq<string>): seq<string> {
    seq(|lines|, n requires 0 <= n < |lines| => eng.replaceAll(lines[n], pair.0, pair.1))
  }

  /** The pairs applied pass after pass, each pass's output the next one's input. */
  function Passes(eng: Engine, pairs: seq<(string, string)>, lines: seq<string>): seq<string>
    decreases |pairs|
  {
    if pairs == [] then lines
    else OnePass(eng, pairs[|pairs| - 1], Passes(eng, pairs[..|pairs| - 1], lines))
  }

  /** The pairs folded over a single line in index order. */
  function RewriteLine(eng: Engine, pairs: seq<(string, string)>, line: string): string
    decreases |pairs|
  {
    if pairs == [] then line
    else
      var (find, replace) := pairs[|pairs| - 1];
      eng.replaceAll(RewriteLine(eng, pairs[..|pairs| - 1], line), find, replace)
  }

  /**
   * Applying the pairs pass by pass keeps the number of lines, and line n of
   * the result is the fold of the pairs, in index order, over original line n.
   */
  lemma {:induction false} PassesPerLine(eng: Engine, pairs: seq<(string, string)>, lines: seq<string>)
    ensures |Passes(eng, pairs, lines)| == |lines|
    ensures forall n :: 0 <= n < |lines| ==> Passes(eng, pairs, lines)[n] == RewriteLine(eng, pairs, lines[n])
    decreases |pairs|
  {
    if pairs != [] {
      PassesPerLine(eng, pairs[..|pairs| - 1], lines);
    }
  }

  /** Running pairs a then pairs b is running a + b: passes compose in order. */
  lemma {:induction false} PassesCompose(eng: Engine, a: seq<(string, string)>, b: seq<(string, string)>, lines: seq<string>)
    ensures Passes(eng, a + b, lines) == Passes(eng, b, Passes(eng, a, lines))
    decreases |b|
  {
    if b == [] {
      assert a + b == a;
    } else {
      var ab := a + b;
      assert ab[..|ab| - 1] == a + b[..|b| - 1];
      assert ab[|ab| - 1] == b[|b| - 1];
      PassesCompose(eng, a, b[..|b| - 1], lines);
    }
  }

  /** The content a valid table rewrites `lines` into. */
  function Rewrite(eng: Engine, p: Props, lines: seq<string>): seq<string>
    requires WellFormed(eng, p)
  {
    Passes(eng, Pairs(eng, p), lines)
  }

  /**
   * processFile's effect: a read failure reports the file and writes nothing;
   * unchanged content or a dry run reports nothing and writes nothing;
   * otherwise the rewritten lines are saved and the save's verdict returned.
   */
  function ProcessOutcome(eng: Engine, failures: map<Path, string>, c: Content, f: Path, p: Props, dryRun: bool): Outcome
    requires WellFormed(eng, p)
  {
    if f !in c then Outcome(c, Some("Failed to load file: " + Render(f)))
    else
      var updated := Rewrite(eng, p, c[f]);
      if updated == c[f] || dryRun then Outcome(c, None)
      else WriteOutcome(c, failures, f, updated)
  }

  /** Processing never creates or removes a file; a dry run changes no file at all. */
  lemma ProcessKeepsFiles(eng: Engine, failures: map<Path, string>, c: Content, f: Path, p: Props, dryRun: bool)
    requires WellFormed(eng, p)
    ensures ProcessOutcome(eng, failures, c, f, p, dryRun).content.Keys == c.Keys
    ensures forall g :: g in c && g != f ==> ProcessOutcome(eng, failures, c, f, p, dryRun).content[g] == c[g]
    ensures dryRun ==> ProcessOutcome(eng, failures, c, f, p, dryRun).content == c
  {
  }

  /**
   * A successful processing that writes leaves in `f` the original lines, each
   * rewritten by the fold of the pairs: same number of lines, line by line.
   */
  lemma ProcessRewritesLines(eng: Engine, failures: map<Path, string>, c: Content, f: Path, p: Props)
    requires WellFormed(eng, p)
    requires f in c && f !in failures
    ensures var o := ProcessOutcome(eng, failures, c, f, p, false);
      && o.error.None?
      && |o.content[f]| == |c[f]|
      && forall n :: 0 <= n < |c[f]| ==> o.content[f][n] == RewriteLine(eng, Pairs(eng, p), c[f][n])
  {
    PassesPerLine(eng, Pairs(eng, p), c[f]);
  }

  /**
   * For a table stable under re-application on this file's lines, processing
   * the file a second time changes nothing and writes nothing.
   */
  lemma ReprocessIsNoop(eng: Engine, failures: map<Path, string>, c: Content, f: Path, p: Props, dryRun: bool)
    requires WellFormed(eng, p)
    requires f in c
    requires forall n :: 0 <= n < |c[f]| ==>
      RewriteLine(eng, Pairs(eng, p), RewriteLine(eng, Pairs(eng, p), c[f][n])) == RewriteLine(eng, Pairs(eng, p), c[f][n])
    requires ProcessOutcome(eng, failures, c, f, p, false).error.None?
    ensures var c1 := ProcessOutcome(eng, failures, c, f, p, false).content;
      ProcessOutcome(eng, failures, c1, f, p, dryRun) == Outcome(c1, None)
  {
    var pairs := Pairs(eng, p);
    var once := Rewrite(eng, p, c[f]);
    PassesPerLine(eng, pairs, c[f]);
    PassesPerLine(eng, pairs, once);
    var c1 := ProcessOutcome(eng, failures, c, f, p, false).content;
    assert c1[f] == once;
    assert Rewrite(eng, p, once) == once;
  }

  /** The inner loop of processFile: one pair substituted into every line, in place. */
  method ReplaceInEveryLine(eng: Engine, updated: array<string>, find: string, replace: string)
    modifies updated
    ensures updated[..] == OnePass(eng, (find, replace), old(updated[..]))
  {
    ghost var before := updated[..];
    var n := 0;
    while n < updated.Length
      invariant 0 <= n <= updated.Length
      invariant forall k :: 0 <= k < n ==> updated[k] == eng.replaceAll(before[k], find, replace)
      invariant forall k :: n <= k < updated.Length ==> updated[k] == before[k]
    {
      updated[n] := eng.replaceAll(updated[n], find, replace);
      n := n + 1;
    }
  }

  /** The outer loop of processFile: pairs 1..num applied in index order, each pass in place. */
  method ApplyPairs(eng: Engine, p: Props, updated: array<string>)
    requires WellFormed(eng, p)
    modifies updated
    ensures updated[..] == Rewrite(eng, p, old(updated[..]))
  {
    ghost var lines := updated[..];
    ghost var pairs := Pairs(eng, p);
    var num := DeclaredCount(p);
    var i := 0;
    while i < num
      invariant 0 <= i <= Count(eng, p)
      invariant updated[..] == Passes(eng, pairs[..i], lines)
    {
      assert PairOk(eng, p, i + 1);
      var find := p[FindKey(i + 1)];
      var replace := p[ReplaceKey(i + 1)];
      ReplaceInEveryLine(eng, updated, find, replace);
      assert pairs[..i + 1][..i] == pairs[..i];
      i := i + 1;
    }
    assert pairs[..i] == pairs;
  }

  /** The comparison loop of processFile: whether some line differs, stopping at the first that does. */
  method Differs(original: seq<string>, updated: array<string>) returns (different: bool)
    requires |original| == updated.Length
    ensures different <==> exists k :: 0 <= k < |original| && original[k] != updated[k]
    ensures different <==> original != updated[..]
  {
    different := false;
    var i := 0;
    while i < |original|
      invariant 0 <= i <= |original|
      invariant forall k :: 0 <= k < i ==> original[k] == updated[k]
    {
      if original[i] != updated[i] {
        different := true;
        break;
      }
      i := i + 1;
    }
    if !different {
      assert original == updated[..];
    }
  }

  /**
   * processFile: copy the lines, overwrite them in place pair by pair, look
   * for a changed line, then save unless nothing changed or it is a dry run.
   */
  method ProcessFile(fs: FileSystem, eng: Engine, f: Path, p: Props, dryRun: bool) returns (r: Option<string>)
    requires WellFormed(eng, p)
    modifies fs
    ensures Outcome(fs.content, r) == ProcessOutcome(eng, fs.writeFailures, old(fs.content), f, p, dryRun)
  {
    var original := fs.ReadLines(f);
    if original.None? {
      return Some("Failed to load file: " + Render(f));
    }
    var lines := original.value;
    var updated := new string[|lines|](n requires 0 <= n < |lines| => lines[n]);
    assert updated[..] == lines;
    ApplyPairs(eng, p, updated);
    PassesPerLine(eng, Pairs(eng, p), lines);
    var different := Differs(lines, updated);
    r := None;
    if different && !dryRun {
      r := fs.WriteLines(f, updated[..]);
    }
  }
}
