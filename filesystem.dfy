/**
 * The working tree as the core code sees it through `std::fs`: a map from
 * repository-relative path to text content. Directories are not modelled.
 * Every file-system call is numbered by `tick`; the call numbered `k` fails
 * with an injected I/O error exactly when `k` is in `faults`, which stands
 * for permission errors, full disks and the like. Missing files fail on
 * their own (reading, copying, renaming or removing a path that is absent).
 * Writing and copying are not atomic: they truncate the target before the
 * data goes in, so a failing call numbered `k` with `k` in `torn` leaves the
 * target holding only the first `torn[k]` characters of what it was given.
 */
module FileSystem {
  import opened Results

  datatype IoError = NotFound | Injected(call: nat)

  /** The text `e.to_string()` gives for an I/O error. */
  function Describe(e: IoError): string
  {
    match e
    case NotFound => "No such file or directory (os error 2)"
    case Injected(_) => "Input/output error (os error 5)"
  }

  class Disk {
    var files: map<string, string>
    var tick: nat
    const faults: set<nat>
    const torn: map<nat, nat>

    constructor (initial: map<string, string>, failing: set<nat>, truncated: map<nat, nat>)
      ensures files == initial && tick == 0 && faults == failing && torn == truncated
    {
      files := initial;
      tick := 0;
      faults := failing;
      torn := truncated;
    }

    /** `Path::exists`: never fails and is not numbered. */
    predicate Exists(path: string)
      reads this
    {
      path in files
    }

    /** `fs::read_to_string`. */
    method Read(path: string) returns (r: Result<string, IoError>)
      modifies this`tick
      ensures tick == old(tick) + 1
      ensures r.Ok? <==> old(tick) !in faults && path in files
      ensures r.Ok? ==> r.value == files[path]
      ensures r.Err? && old(tick) in faults ==> r.error == Injected(old(tick))
      ensures r.Err? && old(tick) !in faults ==> r.error == NotFound
    {
      if tick in faults {
        r := Err(Injected(tick));
      } else if path in files {
        r := Ok(files[path]);
      } else {
        r := Err(NotFound);
      }
      tick := tick + 1;
    }

    /** `fs::write`: creates or replaces the file; a failing write may leave it truncated. */
    method Write(path: string, content: string) returns (r: Result<(), IoError>)
      modifies this
      ensures tick == old(tick) + 1
      ensures r.Ok? <==> old(tick) !in faults
      ensures r.Err? ==> r.error == Injected(old(tick))
      ensures r.Ok? ==> files == old(files)[path := content]
      ensures r.Err? ==> files == AfterFailedWrite(old(files), path, content, old(tick), torn)
    {
      if tick in faults {
        files := AfterFailedWrite(files, path, content, tick, torn);
        r := Err(Injected(tick));
      } else {
        files := files[path := content];
        r := Ok(());
      }
      tick := tick + 1;
    }

    /** `fs::remove_file`. */
    method Remove(path: string) returns (r: Result<(), IoError>)
      modifies this
      ensures tick == old(tick) + 1
      ensures r.Ok? <==> old(tick) !in faults && path in old(files)
      ensures r.Err? ==> r.error == if old(tick) in faults then Injected(old(tick)) else NotFound
      ensures files == if r.Ok? then old(files) - {path} else old(files)
    {
      if tick in faults {
        r := Err(Injected(tick));
      } else if path in files {
        files := files - {path};
        r := Ok(());
      } else {
        r := Err(NotFound);
      }
      tick := tick + 1;
    }

    /** `fs::rename`: moves the content, replacing any file at the destination. */
    method Rename(from: string, to: string) returns (r: Result<(), IoError>)
      modifies this
      ensures tick == old(tick) + 1
      ensures r.Ok? <==> old(tick) !in faults && from in old(files)
      ensures r.Err? ==> r.error == if old(tick) in faults then Injected(old(tick)) else NotFound
      ensures files == if r.Ok? then (old(files) - {from})[to := old(files)[from]] else old(files)
    {
      if tick in faults {
        r := Err(Injected(tick));
      } else if from in files {
        files := (files - {from})[to := files[from]];
        r := Ok(());
      } else {
        r := Err(NotFound);
      }
      tick := tick + 1;
    }

    /**
     * `fs::copy`: the destination receives the source's content. The source
     * is opened first, so a missing source leaves the destination alone; a
     * copy that fails after that may leave the destination truncated.
     */
    method Copy(from: string, to: string) returns (r: Result<(), IoError>)
      modifies this
      ensures tick == old(tick) + 1
      ensures r.Ok? <==> old(tick) !in faults && from in old(files)
      ensures r.Err? ==> r.error == if old(tick) in faults then Injected(old(tick)) else NotFound
      ensures r.Ok? ==> files == old(files)[to := old(files)[from]]
      ensures r.Err? ==> files == if from in old(files) then AfterFailedWrite(old(files), to, old(files)[from], old(tick), torn)
                                  else old(files)
    {
      if tick in faults {
        if from in files {
          files := AfterFailedWrite(files, to, files[from], tick, torn);
        }
        r := Err(Injected(tick));
      } else if from in files {
        files := files[to := files[from]];
        r := Ok(());
      } else {
        r := Err(NotFound);
      }
      tick := tick + 1;
    }

    /** `fs::create_dir_all` for the parent of `path`; directories leave no trace in `files`. */
    method CreateParentDirs(path: string) returns (r: Result<(), IoError>)
      modifies this`tick
      ensures tick == old(tick) + 1
      ensures r.Ok? <==> old(tick) !in faults
    {
      if tick in faults {
        r := Err(Injected(tick));
      } else {
        r := Ok(());
      }
      tick := tick + 1;
    }
  }

  /** No call numbered in `[from, to)` fails. */
  predicate NoFaultIn(faults: set<nat>, from: nat, to: nat)
  {
    forall t :: from <= t < to ==> t !in faults
  }

  /**
   * The tree after a failing call numbered `k` that was putting `content` at
   * `path`: when the call had truncated the target (`k in torn`), the path
   * holds the characters that reached it; otherwise nothing changed.
   */
  function AfterFailedWrite(files: map<string, string>, path: string, content: string, k: nat, torn: map<nat, nat>)
    : (r: map<string, string>)
    ensures PartialWrite(files, r, path, content)
    ensures k !in torn ==> r == files
  {
    if k in torn then
      var n := if torn[k] < |content| then torn[k] else |content|;
      files[path := content[..n]]
    else files
  }

  /** `after` is `before`, or `before` with `path` holding a prefix of `content`. */
  predicate PartialWrite(before: map<string, string>, after: map<string, string>, path: string, content: string)
  {
    after == before || (path in after && after == before[path := after[path]] && after[path] <= content)
  }
}
