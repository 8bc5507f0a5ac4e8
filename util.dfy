/**
 * `src/util.rs`: character-safe truncation and the validation steps of
 * `resolve_repo_path`. The file system calls of the latter (`canonicalize`,
 * `exists`) are parameters: a path is a sequence of components, and the two
 * calls are a function from a path to its canonical form (or an error text)
 * and a predicate on paths.
 */
module Util {
  import opened Results
  import opened Strings

  /**
   * `truncate(s, max)` counts characters, so it never splits one: text that
   * fits is kept, otherwise the first `max` characters when `max <= 3`, and
   * the first `max - 3` followed by "..." when `max > 3`.
   */
  function Truncate(s: string, max: nat): (r: string)
    ensures |r| <= max
    ensures max == 0 ==> r == ""
    ensures |s| <= max ==> r == s
    ensures |s| > max && max <= 3 ==> r == s[..max]
    ensures |s| > max && max > 3 ==> r == s[..max - 3] + "..."
  {
    if max == 0 then ""
    else if |s| <= max then s
    else if max <= 3 then s[..max]
    else s[..max - 3] + "..."
  }

  /** A truncation is either the whole text or a prefix of it, possibly marked with "...". */
  lemma TruncateKeepsPrefix(s: string, max: nat)
    ensures var r := Truncate(s, max);
      r == s || (r <= s && |r| == max) || (|r| == max && EndsWith(r, "...") && r[..max - 3] <= s)
  {
  }

  /** Truncating twice to the same width changes nothing more. */
  lemma TruncateIdempotent(s: string, max: nat)
    ensures Truncate(Truncate(s, max), max) == Truncate(s, max)
  {
  }

  /** The cases of the program's tests: "ééééé" to 4 is "é...", "こんにちは" to 3 is "こんに". */
  lemma TruncateExamples()
    ensures Truncate("ééééé", 4) == "é..."
    ensures Truncate("こんにちは", 3) == "こんに"
    ensures Truncate("こんにちは", 0) == ""
  {
  }

  // ---- resolve_repo_path ----

  /** A file-system path as its components. */
  type PathBuf = seq<string>

  /** `Path::is_absolute` on Unix: the path starts at the root. */
  predicate IsAbsolute(candidate: string) { |candidate| > 0 && candidate[0] == '/' }

  /** Some component of the candidate is `..` (`Component::ParentDir`). */
  predicate HasParentDir(candidate: string)
  {
    exists i :: 0 <= i < |Split(candidate, '/')| && Split(candidate, '/')[i] == ".."
  }

  /** The file-system calls of `resolve_repo_path`. */
  datatype FsView = FsView(canonicalize: PathBuf -> Result<PathBuf, string>, pathExists: PathBuf -> bool)

  datatype RepoPath = RepoPath(absolute: PathBuf, relative: PathBuf)

  /** The normal components of the candidate, the ones `PathBuf::join` appends. */
  function NormalComponents(candidate: string): PathBuf
  {
    NormalPieces(Split(candidate, '/'))
  }

  /** The pieces that are neither empty (repeated or trailing `/`) nor `.`. */
  function NormalPieces(pieces: seq<string>): (r: seq<string>)
    ensures |r| <= |pieces|
    ensures forall k :: 0 <= k < |r| ==> r[k] != "" && r[k] != "."
  {
    if pieces == [] then []
    else (if pieces[0] == "" || pieces[0] == "." then [] else [pieces[0]]) + NormalPieces(pieces[1..])
  }

  /**
   * The candidate ends in `/` or `/.`: its text then names a directory, and
   * `exists` and `canonicalize` fail on it when the last component is a file.
   */
  predicate NamesDirectory(candidate: string)
  {
    var pieces := Split(candidate, '/');
    pieces[|pieces| - 1] == "" || pieces[|pieces| - 1] == "."
  }

  /**
   * `root.join(candidate)` as the file-system calls see it: the normal
   * components, and a final empty component when the candidate names a
   * directory, so that the trailing separator reaches `exists`.
   */
  function Joined(root: PathBuf, candidate: string): PathBuf
  {
    root + NormalComponents(candidate) + (if NamesDirectory(candidate) then [""] else [])
  }

  predicate IsPrefix(p: PathBuf, q: PathBuf) { |p| <= |q| && q[..|p|] == p }

  /**
   * `resolve_repo_path(repo_root, candidate)`: the three textual checks come
   * first and their errors do not depend on the file system at all; then the
   * root is canonicalised, the joined path must exist, its canonical form must
   * lie under the root, and the relative path is what follows the root.
   */
  function ResolveRepoPath(fs: FsView, repoRoot: PathBuf, candidate: string): (r: Result<RepoPath, string>)
    ensures candidate == "" ==> r == Err("Path is empty")
    ensures candidate != "" && IsAbsolute(candidate) ==> r == Err("Absolute paths are not allowed: " + candidate)
    ensures candidate != "" && !IsAbsolute(candidate) && HasParentDir(candidate)
            ==> r == Err("Parent traversal is not allowed: " + candidate)
    ensures r.Ok? ==> candidate != "" && !IsAbsolute(candidate) && !HasParentDir(candidate)
    ensures r.Ok? ==> fs.canonicalize(repoRoot).Ok?
                      && IsPrefix(fs.canonicalize(repoRoot).value, r.value.absolute)
                      && r.value.absolute == fs.canonicalize(repoRoot).value + r.value.relative
    ensures r.Ok? ==> var root := fs.canonicalize(repoRoot).value;
                      fs.pathExists(Joined(root, candidate))
                      && fs.canonicalize(Joined(root, candidate)) == Ok(r.value.absolute)
  {
    if candidate == "" then Err("Path is empty")
    else if IsAbsolute(candidate) then Err("Absolute paths are not allowed: " + candidate)
    else if HasParentDir(candidate) then Err("Parent traversal is not allowed: " + candidate)
    else match fs.canonicalize(repoRoot)
      case Err(e) => Err("Failed to resolve repo root: " + e)
      case Ok(root) =>
        var joined := Joined(root, candidate);
        if !fs.pathExists(joined) then Err("File does not exist: " + candidate)
        else match fs.canonicalize(joined)
          case Err(e) => Err("Failed to resolve path " + candidate + ": " + e)
          case Ok(absolute) =>
            if !IsPrefix(root, absolute) then Err("Path escapes repository: " + candidate)
            else
              assert absolute == root + absolute[|root|..];
              Ok(RepoPath(absolute, absolute[|root|..]))
  }

  /** A resolved path never escapes: a canonical form outside the root is an error. */
  lemma EscapeRejected(fs: FsView, repoRoot: PathBuf, candidate: string)
    requires fs.canonicalize(repoRoot).Ok?
    requires var joined := Joined(fs.canonicalize(repoRoot).value, candidate);
      fs.canonicalize(joined).Ok? && !IsPrefix(fs.canonicalize(repoRoot).value, fs.canonicalize(joined).value)
    ensures ResolveRepoPath(fs, repoRoot, candidate).Err?
  {
  }

  /** A repository `repo` holding one regular file `a.rs`, with every path already canonical. */
  function RegularFileRepo(): FsView
  {
    FsView(p => Ok(p), p => p == ["repo"] || p == ["repo", "a.rs"])
  }

  /**
   * A trailing `/` reaches the file system: with `a.rs` a regular file of the
   * repository, "a.rs" resolves and "a.rs/" does not exist.
   */
  lemma TrailingSlashChecked()
    ensures var fs := RegularFileRepo();
      && ResolveRepoPath(fs, ["repo"], "a.rs") == Ok(RepoPath(["repo", "a.rs"], ["a.rs"]))
      && ResolveRepoPath(fs, ["repo"], "a.rs/") == Err("File does not exist: a.rs/")
  {
    assert FindChar("a.rs", '/') == None;
    assert Split("a.rs", '/') == ["a.rs"];
    assert FindChar("a.rs/", '/') == Some(4);
    assert "a.rs/"[..4] == "a.rs" && "a.rs/"[5..] == "";
    assert FindChar("", '/') == None;
    assert Split("", '/') == [""];
    assert Split("a.rs/", '/') == ["a.rs", ""];
    assert NormalPieces(["a.rs", ""]) == ["a.rs"] by {
      assert ["a.rs", ""][1..] == [""];
      assert [""][1..] == [];
    }
    assert !HasParentDir("a.rs") && !HasParentDir("a.rs/");
    assert Joined(["repo"], "a.rs") == ["repo", "a.rs"];
    assert Joined(["repo"], "a.rs/") == ["repo", "a.rs", ""];
    assert !RegularFileRepo().pathExists(["repo", "a.rs", ""]);
    assert !IsAbsolute("a.rs/");
    assert "File does not exist: " + "a.rs/" == "File does not exist: a.rs/";
  }
}
