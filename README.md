# Fork launcher for VS Code: root-path resolution and launch command

This project models the logic of the VS Code extension that opens the current
workspace in the Fork Git client (`src/index.ts`). Two small decisions are modelled:

- **Root-path resolution** (`resolveRootPath`). It picks the directory to open. The
  order is: an explicit URI (its containing workspace folder, or the URI itself),
  then the active editor's workspace folder, then the only open folder, then the
  user's choice in a quick pick over two or more folders.
- **Launch-command construction** (`openWithFork`, `getDefaultWindowsForkPath`). It
  builds the shell command handed to `exec`. On `darwin` this is
  `open -a "Fork" "<root>"`. On `win32` it is `"<fork path>" "<root>"`. Every other
  platform gets the unsupported-platform error. In both commands every `"` in the
  root path is escaped as `\"`.

The bodies of the two commands, `fork.open` and `fork.openHere`, are modelled as
well: resolve first, then either report "Working folder not found" or build the
command.

Everything is pure: Dafny functions over explicit inputs, and lemmas about them.
VS Code state and process state are parameters:

- the explicit URI and the active document, as paths;
- the workspace folders, as `Option<seq<WorkspaceFolder>>`;
- `workspace.getWorkspaceFolder`, as an uninterpreted function `Path -> Option<WorkspaceFolder>`;
- the quick-pick answer, as `Option<nat>`;
- `process.platform`, as a string;
- the `fork.windowsPath` setting and the variables LOCALAPPDATA and USERPROFILE, as optional strings.

Files:

- `wrappers.dfy` holds `Option`.
- `quoting.dfy` holds the quote escaping and `ReadQuoted`, a reader for a
  double-quoted argument in the same convention. The reader is the escaping's inverse.
- `launch.dfy` holds `path.join` as the model sees it, the default Windows path, and
  the platform dispatch.
- `root_path.dfy` holds `resolveRootPath`.
- `commands.dfy` holds the two command bodies.

What the code does, and the model with it:

- There is no WSL branch, no path translation and no check that an executable exists.
- The default Windows path is `LOCALAPPDATA\Fork\current\Fork.exe`.
- Both branches escape `"` as `\"`, and both go through `exec`, which runs a shell.
- The platform is examined only after the root path has been resolved. On an
  unsupported platform the quick pick is still shown, and a missing folder is still
  reported as "Working folder not found" (`Commands.UnsupportedAfterResolution`).
- The commands test `!rootPath`. So an empty resolved path is reported as "Working
  folder not found", the same as an undefined one (`Commands.NotFoundIffUnresolved`).

One consequence of the escaping convention is proved. A quoted argument reads back
as the root path exactly when the path does not end in a backslash
(`Quoting.QuotedRoundTrip`). A drive root such as `C:\` is a case where it does not
(`Launch.DriveRootArgument`). This holds for the model's own reader. It says nothing
about how a particular shell parses the command.

## Model

| member | source | states |
|---|---|---|
| Quoting.Escape | src/index.ts:15 | Escaping the root path makes it longer by exactly the number of `"` characters, and every `"` in the result is preceded by a backslash |
| Quoting.EscapeConcat | src/index.ts:27 | The global replace works character by character: escaping a concatenation is the concatenation of the escaped parts |
| Quoting.EscapeReplacesQuotes | src/index.ts:15 | Wherever it stands, a `"` becomes `\"` and any other character is kept unchanged |
| Quoting.EscapeIdentity | src/index.ts:27 | Escaping leaves a string unchanged if and only if the string contains no `"` |
| Quoting.ReadQuotedPrepend | src/index.ts:16 | Reading escaped text followed by more text gives the original text back and then continues with the rest, unless a trailing backslash meets a following quote |
| Quoting.ReadQuotedSound | src/index.ts:28 | Any successful read of a quoted argument splits the input into escaped text, a closing quote and the rest, and the text read never ends in a backslash |
| Quoting.QuotedRoundTrip | src/index.ts:16 | `Escape(s)` followed by a closing quote reads back as exactly `s` if and only if `s` does not end in a backslash |
| Launch.Join | src/index.ts:9 | `path.join` never yields an empty path |
| Launch.JoinUnder | src/index.ts:9 | Joining a non-empty directory with non-empty names puts exactly one separator between parts |
| Launch.LocalAppDataDir | src/index.ts:8 | The directory is LOCALAPPDATA when that is set and non-empty. Otherwise it is `USERPROFILE\AppData\Local` when USERPROFILE is set and non-empty, and `AppData\Local` when neither is |
| Launch.DefaultWindowsForkPath | src/index.ts:7-10 | The default executable is `Fork\current\Fork.exe` under that directory |
| Launch.ForkPath | src/index.ts:26 | The Windows executable is the `fork.windowsPath` setting when it is set and non-empty, and the default path otherwise. It is never empty |
| Launch.DefaultPathShape | src/index.ts:9 | The default executable path never ends in a backslash, and it contains a quote only if the directory does |
| Launch.Dispatch | src/index.ts:12-37 | Only `darwin` and `win32` give a command, and every other platform gives the unsupported-platform error. The macOS command does not depend on the Windows setting or the environment |
| Launch.DarwinArgument | src/index.ts:14-16 | The macOS command is `open -a "Fork" "` followed by a quoted argument. That argument reads back as exactly the root path if and only if the root does not end in a backslash |
| Launch.WindowsArguments | src/index.ts:24-28 | The Windows command is the quoted executable path followed by the quoted escaped root. The executable part reads back if and only if the executable has no quote and does not end in a backslash; the root part reads back if and only if the root does not end in a backslash |
| Launch.DarwinCommand | src/index.ts:16 | Definition of the macOS command template, with no contract of its own; `Launch.DarwinArgument` states what it contains |
| Launch.WindowsCommand | src/index.ts:28 | Definition of the Windows command template, with no contract of its own; `Launch.WindowsArguments` states what it contains |
| Launch.OpenWithFork | src/index.ts:12-37 | Definition of the platform dispatch, with no contract of its own; `Launch.Dispatch`, `Launch.DarwinArgument` and `Launch.WindowsArguments` state its properties |
| Launch.DriveRootArgument | src/index.ts:27-28 | For the drive root `C:\` the quoted argument does not read back as `C:\` |
| RootPath.PickItems | src/index.ts:60-64 | The pick list has one entry per folder, in order. Each entry has label = name, description = path, and carries its folder |
| RootPath.ShowQuickPick | src/index.ts:65-69 | Definition of the user's answer to the quick pick, with no contract of its own: a valid index picks that item, anything else is a dismissal; `RootPath.SeveralFolders` states its effect |
| RootPath.ResolveRootPath | src/index.ts:39-70 | Definition of the resolution order, with no contract of its own; the `RootPath` lemmas below state each branch and the if-and-only-if characterisations |
| RootPath.UriInFolder | src/index.ts:40-43 | An explicit URI inside a workspace folder resolves to that folder's path, not to the URI, and no prompt is shown |
| RootPath.UriOutsideFolders | src/index.ts:44 | An explicit URI outside every folder resolves to the URI path unchanged |
| RootPath.UriDecides | src/index.ts:39-45 | With an explicit URI the result is always defined and no prompt is shown. The active editor, the folder list and the quick-pick answer do not affect it |
| RootPath.ActiveEditorInFolder | src/index.ts:47-52 | Without a URI, an active document inside a folder resolves to that folder, whatever the folders and the answer |
| RootPath.NoFolders | src/index.ts:54-56 | Without a URI or an applicable editor, undefined or empty folders give undefined with no prompt |
| RootPath.SingleFolder | src/index.ts:57-58 | Without a URI or an applicable editor, exactly one folder gives that folder's path, with no prompt and whatever the answer |
| RootPath.SeveralFolders | src/index.ts:60-69 | With two or more folders the prompt lists one entry per folder in order. The result is the chosen folder's path, or undefined on dismissal |
| RootPath.NotFound | src/index.ts:39-70 | Resolution gives undefined if and only if: there is no URI, no applicable editor, and either no folder or a dismissed pick over two or more folders |
| RootPath.PromptShown | src/index.ts:54-69 | A quick pick is shown if and only if: there is no URI, no applicable editor, and two or more folders. A path it yields is one of those folders' paths |
| RootPath.TwoFoldersPickSecond | src/index.ts:60-69 | Folders "A" at /r/a and "B" at /r/b: the pick lists "A" then "B", and choosing the second entry gives /r/b |
| Commands.ErrorMessage | src/index.ts:81 | An error message is shown exactly when no command is executed |
| Commands.OpenResolved | src/index.ts:80-83 | Definition of the `!rootPath` test followed by `openWithFork` (also at lines 89-92), with no contract of its own; `Commands.NotFoundIffUnresolved` states its properties |
| Commands.ForkOpen | src/index.ts:78-85 | Definition of the `fork.open` body, with no contract of its own; `Commands.OpenIsOpenHereWithoutUri` and `Commands.MacSingleFolder` state its properties |
| Commands.ForkOpenHere | src/index.ts:87-94 | Definition of the `fork.openHere` body, with no contract of its own; `Commands.NotFoundIffUnresolved`, `Commands.UnsupportedAfterResolution` and `Commands.OpenHereInFolder` state its properties |
| Commands.NotFoundIffUnresolved | src/index.ts:87-93 | "Working folder not found" is reported if and only if resolution gives undefined or the empty path. Otherwise the outcome is `openWithFork` on the resolved path |
| Commands.OpenIsOpenHereWithoutUri | src/index.ts:78-94 | `fork.open` behaves as `fork.openHere` without a URI |
| Commands.UnsupportedAfterResolution | src/index.ts:79-84 | On an unsupported platform the outcome is "Working folder not found" when resolution fails, and the unsupported-platform error otherwise |
| Commands.OpenHereInFolder | src/index.ts:88-93 | A context-menu URI inside a folder with a non-empty path launches Fork on that folder |
| Commands.MacSingleFolder | src/index.ts:79-84 | On macOS with one folder and no focused file, `fork.open` runs `open -a "Fork" "<folder>"` with the quote-free folder path unchanged |
| Commands.WindowsPickSecond | src/index.ts:79-84 | On Windows with two folders, the second chosen, no setting and LOCALAPPDATA set, `fork.open` runs `"<LOCALAPPDATA>\Fork\current\Fork.exe" "<second folder>"` |

## Left out

- `activate`, `deactivate`, command registration, the status-bar item, `context.subscriptions` and `console.log` (src/index.ts:74-111): these are host glue. Error messages are tagged outcomes (`Commands.Outcome`), and the texts are kept in `Commands.ErrorMessage`.
- `window.showQuickPick` (src/index.ts:65-68): this is interactive I/O. It is replaced by the answer as an input index. An index outside the list counts as a dismissal, because the real quick pick can only return one of its items.
- `workspace.getWorkspaceFolder`: this is host containment logic (symlinks, URI schemes). It is an uninterpreted function parameter, not prefix matching.
- `exec` and its error callbacks (`Fork error: ${err}`, src/index.ts:16-20, 28-32): these spawn processes. The model stops at the command string.
- How a shell or the Windows argument parser reads the command is external behaviour. `Quoting.ReadQuoted` is the model's own reader for the `\"` convention, not a model of any shell. This matters because `$`, backticks and backslashes are not escaped.
- `Launch.Join`: models `path.join` on Windows only by dropping empty segments, joining with `\` and giving "." when nothing is left. Normalisation (`..`, `.`, repeated or forward slashes) is not modelled.
- `Uri` objects are represented by their `fsPath`. `async`/`await` is not modelled, since nothing here depends on timing.
- WSL translation, executable existence checks and candidate lists do not appear in the code, so they are not modelled.
