/**
 * The bodies of the `fork.open` and `fork.openHere` commands: resolve the root
 * path, then either report that no working folder was found or build the launch
 * command. The ambient editor and process state is one `Host` value.
 */
module Commands {
  import opened Wrappers
  import opened RootPath
  import opened Launch
  import Quoting

  /** What the editor and the process show a command at the moment it runs. */
  datatype Host = Host(
    activeDocument: Option<Path>,
    folders: Option<seq<WorkspaceFolder>>,
    getWorkspaceFolder: FolderOracle,
    quickPickChoice: Option<nat>,
    platform: string,
    windowsPath: Option<string>,
    env: ProcessEnv)

  /** "Working folder not found", or whatever `openWithFork` then does. */
  datatype Outcome = WorkingFolderNotFound | Opened(launch: LaunchResult)

  /** The error text the extension shows for an outcome, if it shows one. */
  function ErrorMessage(o: Outcome): (m: Option<string>)
    ensures m.None? <==> o.Opened? && o.launch.Exec?
  {
    match o
    case WorkingFolderNotFound => Some("Fork error: Working folder not found, open a folder and try again")
    case Opened(UnsupportedPlatform) => Some("Fork error: Unsupported platform. Only macOS and Windows are supported.")
    case Opened(Exec(_)) => None
  }

  /** `if (!rootPath)`: the error is reported for an undefined and for an empty root path. */
  function OpenResolved(rootPath: Option<Path>, host: Host): Outcome
  {
    if rootPath.None? || rootPath.value == "" then WorkingFolderNotFound
    else Opened(OpenWithFork(host.platform, host.windowsPath, host.env, rootPath.value))
  }

  function Resolve(uri: Option<Path>, host: Host): Resolution
  {
    ResolveRootPath(uri, host.activeDocument, host.folders, host.getWorkspaceFolder, host.quickPickChoice)
  }

  /** `fork.open`: no argument. */
  function ForkOpen(host: Host): Outcome
  {
    OpenResolved(Resolve(None, host).root, host)
  }

  /** `fork.openHere`: an optional URI from the context menu. */
  function ForkOpenHere(uri: Option<Path>, host: Host): Outcome
  {
    OpenResolved(Resolve(uri, host).root, host)
  }

  /**
   * A command reports "Working folder not found" exactly when resolution yields no
   * path or the empty path; otherwise it does what `openWithFork` does on that path.
   */
  lemma NotFoundIffUnresolved(uri: Option<Path>, host: Host)
    ensures var root := Resolve(uri, host).root;
      && (ForkOpenHere(uri, host) == WorkingFolderNotFound <==> root.None? || root.value == "")
      && (root.Some? && root.value != "" ==>
            ForkOpenHere(uri, host) == Opened(OpenWithFork(host.platform, host.windowsPath, host.env, root.value)))
  {
  }

  /** `fork.open` behaves as `fork.openHere` invoked without a URI. */
  lemma OpenIsOpenHereWithoutUri(host: Host)
    ensures ForkOpen(host) == ForkOpenHere(None, host)
  {
  }

  /**
   * The platform is looked at only after resolution: on an unsupported platform a
   * missing folder is still reported as such, and any found folder gives the
   * unsupported-platform error.
   */
  lemma UnsupportedAfterResolution(uri: Option<Path>, host: Host)
    requires host.platform != "darwin" && host.platform != "win32"
    ensures var root := Resolve(uri, host).root;
      ForkOpenHere(uri, host) ==
        if root.None? || root.value == "" then WorkingFolderNotFound else Opened(UnsupportedPlatform)
  {
  }

  /** A context-menu URI inside a folder launches Fork on the folder, never reporting a missing folder. */
  lemma OpenHereInFolder(u: Path, host: Host)
    requires host.getWorkspaceFolder(u).Some?
    requires host.getWorkspaceFolder(u).value.path != ""
    ensures ForkOpenHere(Some(u), host) ==
      Opened(OpenWithFork(host.platform, host.windowsPath, host.env, host.getWorkspaceFolder(u).value.path))
  {
  }

  /**
   * On macOS with a single open folder and no focused file, `fork.open` runs
   * `open -a "Fork" "<folder path>"`, the path unchanged when it has no quote,
   * whatever the Windows setting and the environment say.
   */
  lemma MacSingleFolder(f: WorkspaceFolder, getWorkspaceFolder: FolderOracle, choice: Option<nat>,
                        windowsPath: Option<string>, env: ProcessEnv)
    requires f.path != "" && '"' !in f.path
    ensures ForkOpen(Host(None, Some([f]), getWorkspaceFolder, choice, "darwin", windowsPath, env)) ==
            Opened(Exec("open -a \"Fork\" \"" + f.path + "\""))
  {
    var host := Host(None, Some([f]), getWorkspaceFolder, choice, "darwin", windowsPath, env);
    SingleFolder(None, f, getWorkspaceFolder, choice);
    assert Resolve(None, host).root == Some(f.path);
    Quoting.EscapeIdentity(f.path);
  }

  /**
   * Two open folders on Windows, no focused file, the second quick-pick entry
   * chosen, no `fork.windowsPath` setting and LOCALAPPDATA set: `fork.open` starts
   * Fork\current\Fork.exe under LOCALAPPDATA on the second folder.
   */
  lemma WindowsPickSecond(a: WorkspaceFolder, b: WorkspaceFolder, localAppData: string,
                          getWorkspaceFolder: FolderOracle)
    requires b.path != "" && '"' !in b.path && localAppData != ""
    ensures ForkOpen(Host(None, Some([a, b]), getWorkspaceFolder, Some(1), "win32", None,
                          ProcessEnv(Some(localAppData), None))) ==
            Opened(Exec("\"" + localAppData + "\\Fork\\current\\Fork.exe\" \"" + b.path + "\""))
  {
    var env := ProcessEnv(Some(localAppData), None);
    var host := Host(None, Some([a, b]), getWorkspaceFolder, Some(1), "win32", None, env);
    SeveralFolders(None, [a, b], getWorkspaceFolder, Some(1));
    assert Resolve(None, host).root == Some(b.path);
    var forkPath := ForkPath(None, env);
    assert forkPath == localAppData + "\\Fork\\current\\Fork.exe";
    Quoting.EscapeIdentity(b.path);
    calc {
      WindowsCommand(forkPath, b.path);
      "\"" + forkPath + "\" \"" + b.path + "\"";
      "\"" + localAppData + ("\\Fork\\current\\Fork.exe" + "\" \"") + b.path + "\"";
      { assert "\\Fork\\current\\Fork.exe" + "\" \"" == "\\Fork\\current\\Fork.exe\" \""; }
      "\"" + localAppData + "\\Fork\\current\\Fork.exe\" \"" + b.path + "\"";
    }
  }
}
