/**
 * `openWithFork` and `getDefaultWindowsForkPath`: the shell command that starts
 * Fork on a root path. `process.platform`, the `fork.windowsPath` setting and the
 * environment variables LOCALAPPDATA and USERPROFILE are parameters; the model
 * stops at the command string handed to `exec`.
 */
module Launch {
  import opened Wrappers
  import opened Quoting

  /** The environment variables the Windows branch reads (`process.env`). */
  datatype ProcessEnv = ProcessEnv(localAppData: Option<string>, userProfile: Option<string>)

  /** The command handed to `exec`, or the unsupported-platform error. */
  datatype LaunchResult = Exec(command: string) | UnsupportedPlatform

  /** JavaScript truthiness of a string that may be undefined. */
  predicate Truthy(s: Option<string>)
  {
    s.Some? && s.value != ""
  }

  /** The separator of Windows paths. */
  const WinSep: char := '\\'

  /** Joins the non-empty segments with the separator, skipping empty ones. */
  function JoinSegments(segments: seq<string>): string
  {
    if segments == [] then []
    else if segments[0] == [] then JoinSegments(segments[1..])
    else
      var rest := JoinSegments(segments[1..]);
      if rest == [] then segments[0] else segments[0] + [WinSep] + rest
  }

  /** Two joined texts put together with one separator between them, if both are non-empty. */
  function Glue(x: string, y: string): string
  {
    if x == [] then y else if y == [] then x else x + [WinSep] + y
  }

  /** `path.join` on Windows, without its normalisation: "." when every segment is empty. */
  function Join(segments: seq<string>): (r: string)
    ensures r != []
  {
    var j := JoinSegments(segments);
    if j == [] then "." else j
  }

  /** Joining yields the empty text exactly when every segment is empty. */
  lemma {:induction false} JoinSegmentsEmpty(segments: seq<string>)
    ensures JoinSegments(segments) == [] <==> forall i :: 0 <= i < |segments| ==> segments[i] == []
  {
    if segments != [] {
      JoinSegmentsEmpty(segments[1..]);
      assert forall i :: 1 <= i < |segments| ==> segments[i] == segments[1..][i - 1];
    }
  }

  /** Joining a concatenation glues the two joined halves together. */
  lemma {:induction false} JoinSegmentsAppend(a: seq<string>, b: seq<string>)
    ensures JoinSegments(a + b) == Glue(JoinSegments(a), JoinSegments(b))
  {
    if a == [] {
      assert a + b == b;
    } else {
      assert (a + b)[0] == a[0];
      assert (a + b)[1..] == a[1..] + b;
      JoinSegmentsAppend(a[1..], b);
    }
  }

  /** A non-empty directory followed by non-empty names is joined with one separator each. */
  lemma JoinUnder(dir: string, names: seq<string>)
    requires dir != []
    requires forall i :: 0 <= i < |names| ==> names[i] != []
    ensures names != [] ==> Join([dir] + names) == dir + [WinSep] + JoinSegments(names)
    ensures names == [] ==> Join([dir] + names) == dir
  {
    JoinSegmentsAppend([dir], names);
    assert [dir][1..] == [];
    JoinSegmentsEmpty(names);
    if names != [] {
      assert names[0] != [];
    }
  }

  /**
   * The LOCALAPPDATA directory: the variable itself when it is set and non-empty,
   * otherwise `join(USERPROFILE || "", "AppData", "Local")`.
   */
  function LocalAppDataDir(env: ProcessEnv): (r: string)
    ensures Truthy(env.localAppData) ==> r == env.localAppData.value
    ensures !Truthy(env.localAppData) && Truthy(env.userProfile) ==>
      r == env.userProfile.value + "\\AppData\\Local"
    ensures !Truthy(env.localAppData) && !Truthy(env.userProfile) ==> r == "AppData\\Local"
  {
    if Truthy(env.localAppData) then env.localAppData.value
    else
      var profile := if Truthy(env.userProfile) then env.userProfile.value else "";
      JoinLocal(profile);
      Join([profile, "AppData", "Local"])
  }

  lemma JoinLocal(profile: string)
    ensures profile != [] ==> Join([profile, "AppData", "Local"]) == profile + "\\AppData\\Local"
    ensures profile == [] ==> Join([profile, "AppData", "Local"]) == "AppData\\Local"
  {
    if profile != [] {
      JoinUnder(profile, ["AppData", "Local"]);
      assert ["AppData", "Local"][1..] == ["Local"];
      assert ["Local"][1..] == [];
    } else {
      assert ["AppData", "Local"][1..] == ["Local"];
      assert ["Local"][1..] == [];
    }
  }

  /** `getDefaultWindowsForkPath`: Fork\current\Fork.exe under the LOCALAPPDATA directory. */
  function DefaultWindowsForkPath(env: ProcessEnv): (r: string)
    ensures r == LocalAppDataDir(env) + "\\Fork\\current\\Fork.exe"
  {
    var dir := LocalAppDataDir(env);
    JoinUnder(dir, ["Fork", "current", "Fork.exe"]);
    assert ["Fork", "current", "Fork.exe"][1..] == ["current", "Fork.exe"];
    assert ["current", "Fork.exe"][1..] == ["Fork.exe"];
    assert ["Fork.exe"][1..] == [];
    Join([dir, "Fork", "current", "Fork.exe"])
  }

  /**
   * The executable started on Windows: the `fork.windowsPath` setting when it is
   * set and non-empty (`||`), otherwise the default install location.
   */
  function ForkPath(windowsPath: Option<string>, env: ProcessEnv): (r: string)
    ensures r != []
    ensures Truthy(windowsPath) ==> r == windowsPath.value
    ensures !Truthy(windowsPath) ==> r == LocalAppDataDir(env) + "\\Fork\\current\\Fork.exe"
  {
    if Truthy(windowsPath) then windowsPath.value else DefaultWindowsForkPath(env)
  }

  /** The macOS command: `open -a "Fork" "<escaped root>"`. */
  function DarwinCommand(rootPath: string): string
  {
    "open -a \"Fork\" \"" + Escape(rootPath) + "\""
  }

  /** The Windows command: `"<fork path>" "<escaped root>"`; the executable path is not escaped. */
  function WindowsCommand(forkPath: string, rootPath: string): string
  {
    "\"" + forkPath + "\" \"" + Escape(rootPath) + "\""
  }

  function OpenWithFork(platform: string, windowsPath: Option<string>, env: ProcessEnv,
                        rootPath: string): LaunchResult
  {
    if platform == "darwin" then Exec(DarwinCommand(rootPath))
    else if platform == "win32" then Exec(WindowsCommand(ForkPath(windowsPath, env), rootPath))
    else UnsupportedPlatform
  }

  /**
   * Platform dispatch: macOS and Windows get a command, every other platform the
   * unsupported-platform error; the macOS command does not depend on the Windows
   * setting or the environment.
   */
  lemma Dispatch(platform: string, windowsPath: Option<string>, env: ProcessEnv, rootPath: string,
                 windowsPath': Option<string>, env': ProcessEnv)
    ensures OpenWithFork(platform, windowsPath, env, rootPath).UnsupportedPlatform? <==>
      platform != "darwin" && platform != "win32"
    ensures platform == "darwin" ==>
      OpenWithFork(platform, windowsPath, env, rootPath) == OpenWithFork(platform, windowsPath', env', rootPath)
  {
  }

  /**
   * On macOS the command is `open -a "Fork" "` followed by a quoted argument that
   * reads back as exactly the root path, and nothing after it, if and only if the
   * root path does not end in a backslash.
   */
  lemma DarwinArgument(rootPath: string)
    ensures var arg := Escape(rootPath) + "\"";
      && DarwinCommand(rootPath) == "open -a \"Fork\" \"" + arg
      && (ReadQuoted(arg) == Some((rootPath, "")) <==> !EndsWithBackslash(rootPath))
  {
    QuotedRoundTrip(rootPath, "");
    assert Escape(rootPath) + "\"" + "" == Escape(rootPath) + "\"";
  }

  /**
   * On Windows the command is a quote, then text that reads back as the executable
   * path followed by ` "` and the escaped root path exactly when the executable path
   * has no quote and does not end in a backslash; that argument reads back as
   * exactly the root path exactly when the root path does not end in a backslash.
   */
  lemma WindowsArguments(forkPath: string, rootPath: string)
    ensures var arg := Escape(rootPath) + "\"";
      && WindowsCommand(forkPath, rootPath) == "\"" + forkPath + "\" \"" + arg
      && (ReadQuoted(forkPath + "\" \"" + arg) == Some((forkPath, " \"" + arg)) <==>
            '"' !in forkPath && !EndsWithBackslash(forkPath))
      && (ReadQuoted(arg) == Some((rootPath, "")) <==> !EndsWithBackslash(rootPath))
  {
    var arg := Escape(rootPath) + "\"";
    var rest := " \"" + arg;
    var t := forkPath + "\" \"" + arg;
    assert t == forkPath + "\"" + rest;
    EscapeIdentity(forkPath);
    if '"' !in forkPath && !EndsWithBackslash(forkPath) {
      QuotedRoundTrip(forkPath, rest);
    }
    if ReadQuoted(t) == Some((forkPath, rest)) {
      ReadQuotedSound(t);
      assert t == Escape(forkPath) + "\"" + rest;
      assert |Escape(forkPath)| == |forkPath|;
      assert Escape(forkPath) == t[..|forkPath|] == forkPath;
    }
    QuotedRoundTrip(rootPath, "");
    assert arg == Escape(rootPath) + "\"" + "";
  }

  /** The default Windows executable path never ends in a backslash. */
  lemma DefaultPathShape(env: ProcessEnv)
    ensures !EndsWithBackslash(DefaultWindowsForkPath(env))
    ensures '"' in DefaultWindowsForkPath(env) <==> '"' in LocalAppDataDir(env)
  {
    var dir := LocalAppDataDir(env);
    var tail := "\\Fork\\current\\Fork.exe";
    assert forall c :: c in dir + tail <==> c in dir || c in tail;
    assert '"' !in tail;
  }

  /**
   * A workspace opened at a drive root such as `C:\` gives a Windows command whose
   * quoted argument does not read back as the drive root: its trailing backslash
   * escapes the closing quote.
   */
  lemma DriveRootArgument()
    ensures ReadQuoted(Escape("C:\\") + "\"") != Some(("C:\\", ""))
  {
    QuotedRoundTrip("C:\\", "");
    assert Escape("C:\\") + "\"" + "" == Escape("C:\\") + "\"";
  }
}
