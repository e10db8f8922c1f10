/** Where the continuous-integration runners install the framework's two
    command-line tools, `pavex` and `pavexc`, for a given runner target. The
    generated workflow calls these functions for every target it builds on;
    a target other than `linux` and `windows` is taken to be the macOS
    runner. */
module CiPaths {
  import opened Strings

  /** The install path of the `pavex` binary on the runner for `target`. */
  function PavexPath(target: string): (r: string)
    ensures EndsWith(r, ".exe") <==> target == "windows"
    ensures '/' in r <==> target != "windows"
  {
    match target
    case "linux" => "/home/runner/.cargo/bin/pavex"
    case "windows" => "C:\\Users\\runneradmin\\.cargo\\bin\\pavex.exe"
    case _ => "/Users/runner/.cargo/bin/pavex"
  }

  /** The install path of the `pavexc` binary on the runner for `target`. */
  function PavexcPath(target: string): (r: string)
    ensures EndsWith(r, ".exe") <==> target == "windows"
    ensures '/' in r <==> target != "windows"
  {
    match target
    case "linux" => "/home/runner/.cargo/bin/pavexc"
    case "windows" => "C:\\Users\\runneradmin\\.cargo\\bin\\pavexc.exe"
    case _ => "/Users/runner/.cargo/bin/pavexc"
  }

  /** The three runner layouts: Linux under `/home/runner`, Windows under
      `C:\Users\runneradmin`, and every other target under `/Users/runner`. */
  lemma PathsPerTarget(target: string)
    ensures PavexPath("linux") == "/home/runner/.cargo/bin/pavex"
    ensures PavexPath("windows") == "C:\\Users\\runneradmin\\.cargo\\bin\\pavex.exe"
    ensures target != "linux" && target != "windows" ==>
      PavexPath(target) == "/Users/runner/.cargo/bin/pavex"
    ensures PavexcPath("linux") == "/home/runner/.cargo/bin/pavexc"
    ensures PavexcPath("windows") == "C:\\Users\\runneradmin\\.cargo\\bin\\pavexc.exe"
    ensures target != "linux" && target != "windows" ==>
      PavexcPath(target) == "/Users/runner/.cargo/bin/pavexc"
  {
  }

  /** Renaming the binary of a path made of a directory, the name `pavex`
      and an extension, where neither the directory nor the extension holds a
      `p`, touches only the binary name. */
  lemma RenameBinary(path: string, renamed: string, dir: string, ext: string)
    requires 'p' !in dir && 'p' !in ext
    requires path == dir + "pavex" + ext && renamed == dir + "pavexc" + ext
    ensures Replace(path, "pavex", "pavexc") == renamed
  {
    ReplaceAfterPrefix(dir, "pavex", "pavexc", ext);
    ReplaceWithoutFirstChar(ext, "pavex", "pavexc");
  }

  /** The renaming on each runner layout. The paths are parameters pinned to
      their literal values, rather than calls of `PavexPath`, so that the
      verifier sees each layout's strings on their own and not through the
      three-way match on the target, which keeps each proof small. */
  lemma RenamedOnLinux(path: string, renamed: string)
    requires path == "/home/runner/.cargo/bin/pavex" && renamed == "/home/runner/.cargo/bin/pavexc"
    ensures Replace(path, "pavex", "pavexc") == renamed
  {
    RenameBinary(path, renamed, "/home/runner/.cargo/bin/", "");
  }

  lemma RenamedOnWindows(path: string, renamed: string)
    requires path == "C:\\Users\\runneradmin\\.cargo\\bin\\pavex.exe"
    requires renamed == "C:\\Users\\runneradmin\\.cargo\\bin\\pavexc.exe"
    ensures Replace(path, "pavex", "pavexc") == renamed
  {
    RenameBinary(path, renamed, "C:\\Users\\runneradmin\\.cargo\\bin\\", ".exe");
  }

  lemma RenamedOnMacOs(path: string, renamed: string)
    requires path == "/Users/runner/.cargo/bin/pavex" && renamed == "/Users/runner/.cargo/bin/pavexc"
    ensures Replace(path, "pavex", "pavexc") == renamed
  {
    RenameBinary(path, renamed, "/Users/runner/.cargo/bin/", "");
  }

  /** Both tools are installed side by side: for every target, the `pavexc`
      path is the `pavex` path with the binary name `pavex` replaced by
      `pavexc`, and no other part of the path changes. */
  lemma {:induction false} PavexcBesidePavex(target: string)
    ensures PavexcPath(target) == Replace(PavexPath(target), "pavex", "pavexc")
  {
    if target == "linux" {
      RenamedOnLinux(PavexPath(target), PavexcPath(target));
    } else if target == "windows" {
      RenamedOnWindows(PavexPath(target), PavexcPath(target));
    } else {
      RenamedOnMacOs(PavexPath(target), PavexcPath(target));
    }
  }
}
