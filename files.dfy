/**
 * The file system the tool walks and rewrites. Its directory structure is a
 * tree of named entries that the tool never changes; the lines of each
 * readable regular file are the mutable part. Reads and writes are abstract
 * operations that can fail.
 */
module Files {
  import opened Common

  /** A path as its components, e.g. ["src", "Main.java"]; [] names nothing. */
  type Path = seq<string>

  /** The lines of every regular file that can be read, by path. */
  type Content = map<Path, seq<string>>

  /** A directory entry: `listable` is false when listing it fails (permissions, a race). */
  datatype Node = File(name: string) | Dir(name: string, entries: seq<Node>, listable: bool)

  /** The state of the files after an operation, and its error message if it failed. */
  datatype Outcome = Outcome(content: Content, error: Option<string>)

  /** File.toString: the components joined by '/'. */
  function Render(p: Path): (s: string)
    ensures |p| == 1 ==> s == p[0]
  {
    if |p| == 0 then ""
    else if |p| == 1 then p[0]
    else Render(p[..|p| - 1]) + "/" + p[|p| - 1]
  }

  /** The first entry called `name`. */
  function Find(entries: seq<Node>, name: string): (r: Option<Node>)
    ensures r.Some? ==> r.value in entries && r.value.name == name
    ensures r.None? ==> forall e :: e in entries ==> e.name != name
  {
    if entries == [] then None
    else if entries[0].name == name then Some(entries[0])
    else Find(entries[1..], name)
  }

  /** The entry a path names, starting from the entries of the working directory. */
  function Lookup(top: seq<Node>, p: Path): Option<Node>
    decreases |p|
  {
    if p == [] then None
    else match Find(top, p[0])
      case None => None
      case Some(n) =>
        if |p| == 1 then Some(n)
        else match n
          case File(_) => None
          case Dir(_, entries, _) => Lookup(entries, p[1..])
  }

  /** Every path that has lines names a regular file of the tree: a directory is never readable. */
  ghost predicate OnlyFiles(top: seq<Node>, c: Content) {
    forall p :: p in c ==> Lookup(top, p).Some? && Lookup(top, p).value.File?
  }

  /** The message FileUtils.saveFile returns when writing `p` throws `exception`. */
  function WriteError(p: Path, exception: string): string {
    "Failed to write content to '" + Render(p) + "': " + exception
  }

  /**
   * Truncate-and-rewrite `p` with `lines`: it fails with the path's recorded
   * exception, leaving the files as they were, or replaces the file's lines.
   */
  function WriteOutcome(c: Content, failures: map<Path, string>, p: Path, lines: seq<string>): (o: Outcome)
    ensures o.error.None? <==> p !in failures
    ensures o.error.None? ==> o.content == c[p := lines]
    ensures o.error.Some? ==> o.content == c && o.error.value == WriteError(p, failures[p])
  {
    if p in failures then Outcome(c, Some(WriteError(p, failures[p])))
    else Outcome(c[p := lines], None)
  }

  class FileSystem {
    /** The entries of the working directory. */
    const top: seq<Node>
    /** The exception text a write to each of these paths throws. */
    const writeFailures: map<Path, string>
    /** The lines of every readable regular file. */
    var content: Content

    /** Only regular files of the tree have lines. */
    ghost predicate Valid()
      reads this
    {
      OnlyFiles(top, content)
    }

    constructor (top: seq<Node>, content: Content, writeFailures: map<Path, string>)
      ensures this.top == top && this.content == content && this.writeFailures == writeFailures
    {
      this.top := top;
      this.content := content;
      this.writeFailures := writeFailures;
    }

    /** File.exists() and File.isDirectory() of `p`, as the entry it names. */
    function Stat(p: Path): Option<Node> {
      Lookup(top, p)
    }

    /** FileUtils.loadFile: the file's lines, or None when reading it throws. */
    method ReadLines(p: Path) returns (r: Option<seq<string>>)
      ensures r.Some? <==> p in content
      ensures r.Some? ==> r.value == content[p]
    {
      if p in content {
        r := Some(content[p]);
      } else {
        r := None;
      }
    }

    /** FileUtils.saveFile on a file that was read: null on success, otherwise its error message. */
    method WriteLines(p: Path, lines: seq<string>) returns (r: Option<string>)
      requires p in content
      modifies this
      ensures old(Valid()) ==> Valid()
      ensures Outcome(content, r) == WriteOutcome(old(content), writeFailures, p, lines)
    {
      var o := WriteOutcome(content, writeFailures, p, lines);
      content := o.content;
      r := o.error;
    }
  }
}
