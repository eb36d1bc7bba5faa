/**
 * `resolveRootPath`: which directory a Fork command opens. The editor's ambient
 * state is passed in: the explicit URI of a context-menu invocation, the path of the
 * active editor's document, the open workspace folders, the host's containment
 * lookup `workspace.getWorkspaceFolder` (an uninterpreted oracle), and the user's
 * answer to the quick pick (an index into the list shown, or None on dismissal).
 */
module RootPath {
  import opened Wrappers

  /** A file-system path, as `Uri.fsPath` gives it. */
  type Path = string

  datatype WorkspaceFolder = WorkspaceFolder(name: string, path: Path)

  /** One entry of the folder quick pick (`label` is a Dafny keyword, hence `itemLabel`). */
  datatype QuickPickItem = QuickPickItem(itemLabel: string, description: string, folder: WorkspaceFolder)

  /** The host's lookup of the workspace folder that contains a path, if any. */
  type FolderOracle = Path -> Option<WorkspaceFolder>

  /** The directory chosen, and the quick pick shown on the way, if one was shown. */
  datatype Resolution = Resolution(root: Option<Path>, prompt: Option<seq<QuickPickItem>>)

  /** The quick-pick entries: one per folder, in order, labelled by name and described by path. */
  function PickItems(folders: seq<WorkspaceFolder>): (items: seq<QuickPickItem>)
    ensures |items| == |folders|
    ensures forall i :: 0 <= i < |folders| ==>
      items[i].itemLabel == folders[i].name && items[i].description == folders[i].path &&
      items[i].folder == folders[i]
  {
    if folders == [] then []
    else [QuickPickItem(folders[0].name, folders[0].path, folders[0])] + PickItems(folders[1..])
  }

  /** `showQuickPick`: the user's answer picks one of the items, or dismisses the list. */
  function ShowQuickPick(items: seq<QuickPickItem>, choice: Option<nat>): Option<QuickPickItem>
  {
    if choice.Some? && choice.value < |items| then Some(items[choice.value]) else None
  }

  /** True if the active editor's document lies in a workspace folder. */
  predicate InFolder(activeDocument: Option<Path>, getWorkspaceFolder: FolderOracle)
  {
    activeDocument.Some? && getWorkspaceFolder(activeDocument.value).Some?
  }

  function ResolveRootPath(uri: Option<Path>, activeDocument: Option<Path>,
                           folders: Option<seq<WorkspaceFolder>>,
                           getWorkspaceFolder: FolderOracle, choice: Option<nat>): Resolution
  {
    if uri.Some? then
      match getWorkspaceFolder(uri.value)
      case Some(wf) => Resolution(Some(wf.path), None)
      case None => Resolution(Some(uri.value), None)
    else if InFolder(activeDocument, getWorkspaceFolder) then
      Resolution(Some(getWorkspaceFolder(activeDocument.value).value.path), None)
    else if folders.None? || |folders.value| == 0 then
      Resolution(None, None)
    else if |folders.value| == 1 then
      Resolution(Some(folders.value[0].path), None)
    else
      var items := PickItems(folders.value);
      match ShowQuickPick(items, choice)
      case Some(pick) => Resolution(Some(pick.folder.path), Some(items))
      case None => Resolution(None, Some(items))
  }

  /** An explicit URI inside a workspace folder opens that folder, not the URI itself. */
  lemma UriInFolder(u: Path, activeDocument: Option<Path>, folders: Option<seq<WorkspaceFolder>>,
                    getWorkspaceFolder: FolderOracle, choice: Option<nat>)
    requires getWorkspaceFolder(u).Some?
    ensures ResolveRootPath(Some(u), activeDocument, folders, getWorkspaceFolder, choice) ==
            Resolution(Some(getWorkspaceFolder(u).value.path), None)
  {
  }

  /** An explicit URI outside every workspace folder is opened as it is. */
  lemma UriOutsideFolders(u: Path, activeDocument: Option<Path>, folders: Option<seq<WorkspaceFolder>>,
                          getWorkspaceFolder: FolderOracle, choice: Option<nat>)
    requires getWorkspaceFolder(u).None?
    ensures ResolveRootPath(Some(u), activeDocument, folders, getWorkspaceFolder, choice) ==
            Resolution(Some(u), None)
  {
  }

  /**
   * With an explicit URI a directory is always found, no quick pick is shown, and
   * neither the active editor, the folder list nor the user's answer changes the result.
   */
  lemma UriDecides(u: Path, getWorkspaceFolder: FolderOracle,
                   a1: Option<Path>, f1: Option<seq<WorkspaceFolder>>, c1: Option<nat>,
                   a2: Option<Path>, f2: Option<seq<WorkspaceFolder>>, c2: Option<nat>)
    ensures ResolveRootPath(Some(u), a1, f1, getWorkspaceFolder, c1).root.Some?
    ensures ResolveRootPath(Some(u), a1, f1, getWorkspaceFolder, c1).prompt.None?
    ensures ResolveRootPath(Some(u), a1, f1, getWorkspaceFolder, c1) ==
            ResolveRootPath(Some(u), a2, f2, getWorkspaceFolder, c2)
  {
  }

  /**
   * Without a URI, an active document inside a workspace folder opens that folder,
   * however many folders are open and whatever the user would pick.
   */
  lemma ActiveEditorInFolder(d: Path, folders: Option<seq<WorkspaceFolder>>,
                             getWorkspaceFolder: FolderOracle, choice: Option<nat>)
    requires getWorkspaceFolder(d).Some?
    ensures ResolveRootPath(None, Some(d), folders, getWorkspaceFolder, choice) ==
            Resolution(Some(getWorkspaceFolder(d).value.path), None)
  {
  }

  /** Without a URI or an applicable active editor, no open folder means no directory. */
  lemma NoFolders(activeDocument: Option<Path>, folders: Option<seq<WorkspaceFolder>>,
                  getWorkspaceFolder: FolderOracle, choice: Option<nat>)
    requires !InFolder(activeDocument, getWorkspaceFolder)
    requires folders.None? || folders.value == []
    ensures ResolveRootPath(None, activeDocument, folders, getWorkspaceFolder, choice) ==
            Resolution(None, None)
  {
  }

  /** Without a URI or an applicable active editor, a single folder is opened without a prompt. */
  lemma SingleFolder(activeDocument: Option<Path>, f: WorkspaceFolder,
                     getWorkspaceFolder: FolderOracle, choice: Option<nat>)
    requires !InFolder(activeDocument, getWorkspaceFolder)
    ensures ResolveRootPath(None, activeDocument, Some([f]), getWorkspaceFolder, choice) ==
            Resolution(Some(f.path), None)
  {
  }

  /**
   * Without a URI or an applicable active editor, two or more folders are offered
   * in a quick pick with one entry per folder, in order (label = name,
   * description = path); the result is the chosen folder's path, or None when the
   * user dismisses the list.
   */
  lemma SeveralFolders(activeDocument: Option<Path>, folders: seq<WorkspaceFolder>,
                       getWorkspaceFolder: FolderOracle, choice: Option<nat>)
    requires !InFolder(activeDocument, getWorkspaceFolder)
    requires |folders| >= 2
    ensures var r := ResolveRootPath(None, activeDocument, Some(folders), getWorkspaceFolder, choice);
      && r.prompt.Some?
      && |r.prompt.value| == |folders|
      && (forall i :: 0 <= i < |folders| ==>
            r.prompt.value[i].itemLabel == folders[i].name &&
            r.prompt.value[i].description == folders[i].path)
      && r.root == (if choice.Some? && choice.value < |folders| then Some(folders[choice.value].path) else None)
  {
  }

  /**
   * The only ways to find no directory: no URI, no applicable active editor, and
   * either no folder open or a dismissed quick pick over two or more folders.
   */
  lemma NotFound(uri: Option<Path>, activeDocument: Option<Path>, folders: Option<seq<WorkspaceFolder>>,
                 getWorkspaceFolder: FolderOracle, choice: Option<nat>)
    ensures ResolveRootPath(uri, activeDocument, folders, getWorkspaceFolder, choice).root.None? <==>
      && uri.None?
      && !InFolder(activeDocument, getWorkspaceFolder)
      && (|| folders.None?
          || |folders.value| == 0
          || (|folders.value| >= 2 && !(choice.Some? && choice.value < |folders.value|)))
  {
  }

  /**
   * A quick pick is shown exactly when there is no URI, no applicable active editor,
   * and two or more folders; any directory it yields is one of those folders.
   */
  lemma PromptShown(uri: Option<Path>, activeDocument: Option<Path>, folders: Option<seq<WorkspaceFolder>>,
                    getWorkspaceFolder: FolderOracle, choice: Option<nat>)
    ensures var r := ResolveRootPath(uri, activeDocument, folders, getWorkspaceFolder, choice);
      && (r.prompt.Some? <==>
            uri.None? && !InFolder(activeDocument, getWorkspaceFolder) && folders.Some? && |folders.value| >= 2)
      && (r.prompt.Some? && r.root.Some? ==>
            exists i :: 0 <= i < |folders.value| && r.root.value == folders.value[i].path)
  {
    var r := ResolveRootPath(uri, activeDocument, folders, getWorkspaceFolder, choice);
    if r.prompt.Some? && r.root.Some? {
      assert r.root.value == folders.value[choice.value].path;
    }
  }

  /**
   * Two folders "A" at /r/a and "B" at /r/b, no focused file: the quick pick lists
   * exactly "A" and "B", and choosing the second entry opens /r/b.
   */
  lemma TwoFoldersPickSecond(getWorkspaceFolder: FolderOracle)
    ensures var r := ResolveRootPath(None, None, Some([WorkspaceFolder("A", "/r/a"), WorkspaceFolder("B", "/r/b")]),
                                     getWorkspaceFolder, Some(1));
      r.prompt.Some? && |r.prompt.value| == 2 &&
      r.prompt.value[0].itemLabel == "A" && r.prompt.value[1].itemLabel == "B" &&
      r.root == Some("/r/b")
  {
  }
}
