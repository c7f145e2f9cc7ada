/**
 * The computations of neo/sys/linux/main.cpp that the model covers: the
 * rounding in Sys_GetSystemRam, the XDG configuration and save paths, the
 * PATH_CONFIG, PATH_SAVE and PATH_EXE branches of Sys_GetPath, and the
 * fs_basepath handling of the start-up launcher in main.
 *
 * Environment variables, sysconf results, the launcher's settings file and
 * the directory picked in its dialog are parameters. A C string pointer is
 * an Option<string>, None for NULL.
 */
module LinuxMain {
  import opened Wrappers
  import Launcher

  // --------------------------------------------------------------- memory

  /** Sys_GetSystemRam's fallback when sysconf fails. */
  const RAM_FALLBACK_MB := 512
  const BYTES_PER_MB := 1024 * 1024

  /**
   * (mb + 8) & ~15: clearing the low four bits of a two's complement value
   * rounds it down to a multiple of 16, which is x - x mod 16 with a
   * non-negative mod.
   */
  function RoundRam(mb: int): (r: int)
    ensures r % 16 == 0
    ensures mb - 7 <= r <= mb + 8
  {
    (mb + 8) - (mb + 8) % 16
  }

  /** The rounding is to the nearest multiple of 16, ties upward: it is the only multiple of 16 in [mb - 7, mb + 8]. */
  lemma RoundRamIsNearest(mb: int, m: int)
    requires m % 16 == 0 && mb - 7 <= m <= mb + 8
    ensures m == RoundRam(mb)
  {
    var r := RoundRam(mb);
    assert (m - r) % 16 == 0;
    assert -15 <= m - r <= 15;
  }

  /** (int)(double) of a non-negative product truncates toward zero. */
  function TruncatedDiv(a: int, b: int): int
    requires b > 0
  {
    if a >= 0 then a / b else -((-a) / b)
  }

  /** Sys_GetSystemRam: 512 when either sysconf query fails, else the megabytes rounded to 16. */
  function SystemRam(physPages: int, pageSize: int): (r: int)
    ensures physPages == -1 || pageSize == -1 ==> r == RAM_FALLBACK_MB
    ensures physPages != -1 && pageSize != -1 ==> r % 16 == 0
    ensures physPages >= 0 && pageSize >= 0 && physPages != -1 && pageSize != -1 ==>
              physPages * pageSize / BYTES_PER_MB - 7 <= r <= physPages * pageSize / BYTES_PER_MB + 8
  {
    if physPages == -1 || pageSize == -1 then RAM_FALLBACK_MB
    else RoundRam(TruncatedDiv(physPages * pageSize, BYTES_PER_MB))
  }

  // ---------------------------------------------------------------- paths

  /** MAX_OSPATH, the size of Sys_GetPath's buffer. */
  const MAX_OSPATH := 256
  /** PATH_MAX, the size of save_path and path_exe. */
  const PATH_MAX := 4096

  /** snprintf into a buffer of `size` bytes keeps at most size - 1 characters. */
  function Truncate(s: string, size: nat): (r: string)
    requires size > 0
    ensures |r| <= size - 1 && r <= s
    ensures |s| <= size - 1 ==> r == s
  {
    if |s| <= size - 1 then s else s[..size - 1]
  }

  /** The application directory: ru.sashikknox/doom3es in the Sailfish OS build, dhewm3 otherwise. */
  function AppDir(sailfish: bool): string
  {
    if sailfish then "ru.sashikknox/doom3es" else "dhewm3"
  }

  /** The XDG rule: $XDG_..._HOME/app when the variable is set, $HOME/fallback/app otherwise. */
  function XdgPath(xdgHome: Option<string>, home: string, fallback: string, sailfish: bool, size: nat): (r: string)
    requires size > 0
    ensures |r| <= size - 1
    ensures xdgHome.Some? ==> r <= xdgHome.value + "/" + AppDir(sailfish)
    ensures xdgHome.None? ==> r <= home + "/" + fallback + "/" + AppDir(sailfish)
  {
    match xdgHome
    case Some(dir) => Truncate(dir + "/" + AppDir(sailfish), size)
    case None => Truncate(home + "/" + fallback + "/" + AppDir(sailfish), size)
  }

  /** The PATH_CONFIG branch: XDG_CONFIG_HOME, else $HOME/.config, in a MAX_OSPATH buffer. */
  function ConfigPath(xdgConfigHome: Option<string>, home: string, sailfish: bool): (r: string)
    ensures |r| < MAX_OSPATH
  {
    XdgPath(xdgConfigHome, home, ".config", sailfish, MAX_OSPATH)
  }

  /** SetSavePath: XDG_DATA_HOME, else $HOME/.local/share, in a PATH_MAX buffer. */
  function SavePath(xdgDataHome: Option<string>, home: string, sailfish: bool): (r: string)
    ensures |r| < PATH_MAX
  {
    XdgPath(xdgDataHome, home, ".local/share", sailfish, PATH_MAX)
  }

  /** When nothing is cut off, the path is exactly the directory, a slash and the application directory. */
  lemma ConfigPathExact(xdgConfigHome: Option<string>, home: string, sailfish: bool)
    ensures xdgConfigHome.Some? && |xdgConfigHome.value| + 1 + |AppDir(sailfish)| < MAX_OSPATH ==>
              ConfigPath(xdgConfigHome, home, sailfish) == xdgConfigHome.value + "/" + AppDir(sailfish)
    ensures xdgConfigHome.None? && |home| + 9 + |AppDir(sailfish)| < MAX_OSPATH ==>
              ConfigPath(xdgConfigHome, home, sailfish) == home + "/.config/" + AppDir(sailfish)
  {
    if xdgConfigHome.None? {
      assert home + "/" + ".config" + "/" + AppDir(sailfish) == home + "/.config/" + AppDir(sailfish);
    }
  }

  /** The save path never comes out empty, whatever the environment holds. */
  lemma SavePathNonEmpty(xdgDataHome: Option<string>, home: string, sailfish: bool)
    ensures SavePath(xdgDataHome, home, sailfish) != ""
  {
    var full := match xdgDataHome
      case Some(dir) => dir + "/" + AppDir(sailfish)
      case None => home + "/" + ".local/share" + "/" + AppDir(sailfish);
    assert |full| > 0;
    assert |SavePath(xdgDataHome, home, sailfish)| > 0;
  }

  /** The sysPath_t values whose branches are modelled. */
  datatype SysPath = PathConfig | PathSave | PathExe

  /** The static save_path and path_exe buffers. */
  class PosixPaths {
    var savePath: string
    var exePath: string

    constructor ()
      ensures savePath == "" && exePath == ""
    {
      savePath := "";
      exePath := "";
    }

    /**
     * The start of main: path_exe is what the platform lookup found, else
     * realpath(argv[0]) (None when it fails or argc is 0); then SetSavePath.
     */
    method InitPaths(platformExe: string, realArgv0: Option<string>, xdgDataHome: Option<string>, home: string, sailfish: bool)
      modifies this
      ensures exePath == if platformExe != "" then platformExe else match realArgv0 case Some(p) => p case None => ""
      ensures savePath == SavePath(xdgDataHome, home, sailfish)
    {
      var pathArgv := match realArgv0 case Some(p) => p case None => "";
      exePath := platformExe;
      if exePath == "" {
        exePath := pathArgv;
      }
      savePath := SavePath(xdgDataHome, home, sailfish);
    }

    /**
     * Sys_GetPath for PATH_CONFIG, PATH_SAVE and PATH_EXE: the configuration
     * path always succeeds; the other two succeed exactly when their buffer
     * is not empty, and the path is cleared otherwise.
     */
    method GetPath(kind: SysPath, xdgConfigHome: Option<string>, home: string, sailfish: bool) returns (ok: bool, path: string)
      ensures kind == PathConfig ==> ok && path == ConfigPath(xdgConfigHome, home, sailfish)
      ensures kind == PathSave ==> ok == (savePath != "") && path == (if ok then savePath else "")
      ensures kind == PathExe ==> ok == (exePath != "") && path == (if ok then exePath else "")
    {
      path := "";
      match kind {
        case PathConfig =>
          path := ConfigPath(xdgConfigHome, home, sailfish);
          return true, path;
        case PathSave =>
          if savePath != "" {
            path := savePath;
            return true, path;
          }
          return false, path;
        case PathExe =>
          if exePath != "" {
            path := exePath;
            return true, path;
          }
          return false, path;
      }
    }
  }

  // ------------------------------------------------------------ argv

  /** The number of slots main adds: "+set", "fs_basepath" and the path. */
  const ARGC_ADD := 3

  /** argv[i] for 0 <= i <= argc; argv[argc] is the terminating NULL. */
  function ArgAt(args: seq<string>, i: nat): Option<string>
  {
    if i < |args| then Some(args[i]) else None
  }

  function Pointers(args: seq<string>): (r: seq<Option<string>>)
    ensures |r| == |args| && forall i :: 0 <= i < |args| ==> r[i] == Some(args[i])
  {
    seq(|args|, i requires 0 <= i < |args| => Some(args[i]))
  }

  /**
   * The argument scan and the argv_copy of main. When "fs_basepath" is
   * found at index 1 or later the path is the next argument and no copy is
   * made; otherwise the copy holds argv, "+set", "fs_basepath" and a NULL
   * slot for the path.
   */
  method ScanArgs(args: seq<string>) returns (noBasepath: bool, basepath: Option<string>, argvCopy: seq<Option<string>>)
    ensures noBasepath == (Launcher.BasepathIndex(args, 1) == -1)
    ensures !noBasepath ==> basepath == ArgAt(args, Launcher.BasepathIndex(args, 1)) && argvCopy == []
    ensures noBasepath ==> basepath.None? && |argvCopy| == |args| + ARGC_ADD
                           && argvCopy[..|args|] == Pointers(args)
                           && argvCopy[|args|..] == [Some("+set"), Some("fs_basepath"), None]
  {
    noBasepath := true;
    basepath := None;
    argvCopy := [];
    var i := 1;
    while i < |args|
      invariant 1 <= i && (i <= |args| || |args| == 0)
      invariant Launcher.BasepathIndex(args, 1) == Launcher.BasepathIndex(args, i)
    {
      if args[i] == "fs_basepath" {
        noBasepath := false;
        i := i + 1;
        basepath := ArgAt(args, i);
        break;
      }
      i := i + 1;
    }
    if noBasepath {
      var argcCopy := |args| + ARGC_ADD;
      argvCopy := seq(argcCopy, _ => None);
      for j := 0 to |args|
        invariant |argvCopy| == argcCopy
        invariant forall k :: 0 <= k < j ==> argvCopy[k] == Some(args[k])
        invariant forall k :: j <= k < argcCopy ==> argvCopy[k] == None
      {
        argvCopy := argvCopy[j := Some(args[j])];
      }
      argvCopy := argvCopy[|args| := Some("+set")][|args| + 1 := Some("fs_basepath")];
      assert argvCopy[|args|..] == [Some("+set"), Some("fs_basepath"), None];
    }
  }

  /** What reaches the engine and what is written back to the launcher's file. */
  datatype Launch = Launch(engineArgs: seq<Option<string>>, written: Option<string>)

  /** The start-up as written can also write through the NULL argv_copy. */
  datatype Startup = Started(launch: Launch) | NullArgvWrite

  /**
   * The whole fs_basepath path of main as written. `saved` is the string
   * read from the settings file (None when it cannot be opened); `selected`
   * the directory picked in the dialog, if any. The picked directory is
   * offered only while no base path is known, and it sets no_basepath to
   * false, so common->Init then gets the original argv.
   */
  function StartupAsWritten(args: seq<string>, saved: Option<string>, selected: Option<string>): Startup
  {
    var idx := Launcher.BasepathIndex(args, 1);
    var built := idx == -1;
    var copy0 := if built then Pointers(args) + [Some("+set"), Some("fs_basepath"), None] else [];
    var useSaved := saved.Some? && saved.value != "";
    if useSaved && !built then NullArgvWrite
    else
      var copy1 := if useSaved then copy0[|args| + 2 := saved] else copy0;
      var pick := built && selected.Some? && selected.value != "";
      var copy2 := if pick then copy1[|args| + 2 := selected] else copy1;
      var noBasepath := built && !pick;
      var engine := if |args| > 1 then (if noBasepath then copy2[1..] else Pointers(args)[1..]) else [];
      Started(Launch(engine, if pick then selected else None))
  }

  /**
   * The evidently intended start-up: the settings file is consulted only
   * when argv_copy exists, and the engine gets argv_copy whenever it was
   * built, so a directory picked in the dialog is passed on. That includes
   * a launch with no arguments besides the program name, the usual launch
   * from an icon, where the source calls common->Init(0, NULL) instead.
   */
  function StartupCorrected(args: seq<string>, saved: Option<string>, selected: Option<string>): Launch
  {
    var idx := Launcher.BasepathIndex(args, 1);
    var built := idx == -1;
    var copy0 := if built then Pointers(args) + [Some("+set"), Some("fs_basepath"), None] else [];
    var useSaved := built && saved.Some? && saved.value != "";
    var copy1 := if useSaved then copy0[|args| + 2 := saved] else copy0;
    var pick := built && selected.Some? && selected.value != "";
    var copy2 := if pick then copy1[|args| + 2 := selected] else copy1;
    var engine := if built && |args| >= 1 then copy2[1..] else if |args| > 1 then Pointers(args)[1..] else [];
    Launch(engine, if pick then selected else None)
  }

  /** The path the engine should start with: the command line's, else the one picked, else the saved one. */
  function IntendedBasepath(args: seq<string>, saved: Option<string>, selected: Option<string>): Option<string>
  {
    var idx := Launcher.BasepathIndex(args, 1);
    if idx != -1 then ArgAt(args, idx)
    else if selected.Some? && selected.value != "" then selected
    else if saved.Some? && saved.value != "" then saved
    else None
  }

  /** Apart from the three faults, the start-up as written is the corrected one. */
  lemma AsWrittenAgreesOutsideFaults(args: seq<string>, saved: Option<string>, selected: Option<string>)
    requires StartupAsWritten(args, saved, selected).Started?
    requires selected.None? || selected.value == "" || Launcher.BasepathIndex(args, 1) != -1
    requires |args| != 1
    ensures StartupAsWritten(args, saved, selected).launch == StartupCorrected(args, saved, selected)
  {
  }

  /** As written: fs_basepath on the command line plus a saved path writes through the NULL argv_copy. */
  lemma SavedPathWithCommandLineBasepathFaults()
    ensures StartupAsWritten(["doom3", "+set", "fs_basepath", "/x"], Some("/y"), None) == NullArgvWrite
  {
    assert Launcher.BasepathIndex(["doom3", "+set", "fs_basepath", "/x"], 1) == 3;
  }

  /** As written: a directory picked in the dialog does not reach the engine. */
  lemma PickedPathDroppedAsWritten()
    ensures StartupAsWritten(["doom3", "+set", "r_mode", "3"], None, Some("/data")).launch.engineArgs
         == [Some("+set"), Some("r_mode"), Some("3")]
  {
    var args := ["doom3", "+set", "r_mode", "3"];
    assert Launcher.BasepathIndex(args, 1) == -1;
    assert Pointers(args)[1..] == [Some("+set"), Some("r_mode"), Some("3")];
  }

  /**
   * As written: launched with no arguments, the engine starts without the
   * directory just picked in the dialog, although the launcher saves it.
   */
  lemma IconLaunchDropsBasepathAsWritten()
    ensures var l := StartupAsWritten(["doom3"], None, Some("/data")).launch;
            l.engineArgs == [] && l.written == Some("/data")
  {
    assert Launcher.BasepathIndex(["doom3"], 1) == -1;
  }

  /**
   * Corrected: given the program name, the engine gets the original
   * arguments and, when the launcher built its copy, "+set fs_basepath"
   * with the intended path in the last slot; a picked path is written back.
   */
  lemma CorrectedStartupPassesBasepath(args: seq<string>, saved: Option<string>, selected: Option<string>)
    requires |args| >= 1
    ensures var l := StartupCorrected(args, saved, selected);
            var idx := Launcher.BasepathIndex(args, 1);
            l.engineArgs[..|args| - 1] == Pointers(args)[1..]
            && (idx == -1 ==> |l.engineArgs| == |args| + 2
                              && l.engineArgs[|args| - 1..] == [Some("+set"), Some("fs_basepath"), IntendedBasepath(args, saved, selected)])
            && (idx != -1 ==> |l.engineArgs| == |args| - 1)
            && (idx != -1 && idx < |args| ==> l.engineArgs[idx - 1] == IntendedBasepath(args, saved, selected))
            && (l.written.Some? ==> l.written == IntendedBasepath(args, saved, selected))
  {
    var idx := Launcher.BasepathIndex(args, 1);
    var l := StartupCorrected(args, saved, selected);
    if idx == -1 {
      var copy0 := Pointers(args) + [Some("+set"), Some("fs_basepath"), None];
      assert copy0[..|args|] == Pointers(args);
    } else if idx < |args| {
      assert l.engineArgs == Pointers(args)[1..];
      assert l.engineArgs[idx - 1] == Pointers(args)[idx];
    }
  }
}
