/** The file browser (apps/Files.tsx): a fixed mock folder tree, the
    folder being shown, and a back/forward history of visited folders. */
module FilesApp {
  import opened Types

  datatype FileType = Folder | TextFile | ImageFile | AudioFile

  datatype FileItem = FileItem(name: string, kind: FileType, size: Option<string>)

  /** The mock tree: each top-level folder and its listing. */
  function FileSystem(): map<string, seq<FileItem>>
  {
    map[
      "Home" := [FileItem("Desktop", Folder, None), FileItem("Documents", Folder, None),
                 FileItem("Downloads", Folder, None), FileItem("Pictures", Folder, None),
                 FileItem("Music", Folder, None)],
      "Desktop" := [FileItem("project_notes.txt", TextFile, Some("2 KB")),
                    FileItem("Screenshot_2024.png", ImageFile, Some("1.2 MB"))],
      "Documents" := [FileItem("CV_Hamza.pdf", TextFile, Some("450 KB")),
                      FileItem("School_Project.docx", TextFile, Some("22 KB"))],
      "Downloads" := [FileItem("ubuntu-22.04-iso", Folder, None),
                      FileItem("installer_script.sh", TextFile, Some("4 KB"))],
      "Pictures" := [FileItem("Wallpapers", Folder, None), FileItem("me.jpg", ImageFile, Some("3.4 MB"))],
      "Music" := [FileItem("chill_beats.mp3", AudioFile, Some("5 MB"))],
      "Trash" := [FileItem("old_file.txt", TextFile, Some("1 KB"))]
    ]
  }

  /** The sidebar's destinations, in order. */
  const Sidebar: seq<string> := ["Home", "Desktop", "Documents", "Downloads", "Pictures", "Music", "Trash"]

  /** `currentItems`: the listing of a known folder, and nothing for any other name. */
  function Listing(path: string): seq<FileItem>
  {
    if path in FileSystem() then FileSystem()[path] else []
  }

  datatype BrowseState = BrowseState(currentPath: string, history: seq<string>, historyIndex: nat)

  function InitialBrowse(): BrowseState
  {
    BrowseState("Home", ["Home"], 0)
  }

  /** The index points into the history and names the folder shown. */
  predicate Valid(s: BrowseState)
  {
    s.historyIndex < |s.history| && s.currentPath == s.history[s.historyIndex]
  }

  /** `history.slice(0, k)`. */
  function Prefix(h: seq<string>, k: nat): seq<string>
  {
    if k >= |h| then h else h[..k]
  }

  /** `navigateTo`: any name is accepted; the entries after the current one are dropped. */
  function NavigateTo(s: BrowseState, name: string): BrowseState
  {
    var newHistory := Prefix(s.history, s.historyIndex + 1) + [name];
    BrowseState(name, newHistory, |newHistory| - 1)
  }

  function NavigateBack(s: BrowseState): BrowseState
    requires Valid(s)
  {
    if s.historyIndex > 0 then s.(historyIndex := s.historyIndex - 1, currentPath := s.history[s.historyIndex - 1])
    else s
  }

  function NavigateForward(s: BrowseState): BrowseState
    requires Valid(s)
  {
    if s.historyIndex < |s.history| - 1 then
      s.(historyIndex := s.historyIndex + 1, currentPath := s.history[s.historyIndex + 1])
    else s
  }

  /** A double click opens folders and ignores files. */
  function OpenItem(s: BrowseState, item: FileItem): BrowseState
  {
    if item.kind == Folder then NavigateTo(s, item.name) else s
  }

  // ---------------------------------------------------------------------
  // Properties

  lemma InitialValid()
    ensures Valid(InitialBrowse())
    ensures Listing(InitialBrowse().currentPath) == FileSystem()["Home"]
  {
  }

  /** Navigating keeps the history up to the current entry, appends the new
      name, points at it and shows it. */
  lemma NavigateEffect(s: BrowseState, name: string)
    requires Valid(s)
    ensures var t := NavigateTo(s, name);
            Valid(t) && t.currentPath == name &&
            t.history == s.history[..s.historyIndex + 1] + [name] &&
            t.historyIndex == s.historyIndex + 1
  {
  }

  /** Navigating drops the forward entries: afterwards there is nothing to go forward to. */
  lemma NavigateDropsForward(s: BrowseState, name: string)
    requires Valid(s)
    ensures NavigateForward(NavigateTo(s, name)) == NavigateTo(s, name)
    ensures s.historyIndex > 0 ==> NavigateBack(NavigateTo(s, name)).currentPath == s.currentPath
  {
  }

  /** No existence check: a name outside the tree is shown, with an empty listing. */
  lemma NavigateAnywhere(s: BrowseState, name: string)
    requires name !in FileSystem()
    ensures NavigateTo(s, name).currentPath == name
    ensures Listing(NavigateTo(s, name).currentPath) == []
  {
  }

  /** Back is a no-op at the first entry; otherwise it steps one entry back
      and shows it. Neither direction touches the history list. */
  lemma BackEffect(s: BrowseState)
    requires Valid(s)
    ensures Valid(NavigateBack(s)) && NavigateBack(s).history == s.history
    ensures s.historyIndex == 0 <==> NavigateBack(s) == s
    ensures s.historyIndex > 0 ==> NavigateBack(s).historyIndex == s.historyIndex - 1
  {
  }

  lemma ForwardEffect(s: BrowseState)
    requires Valid(s)
    ensures Valid(NavigateForward(s)) && NavigateForward(s).history == s.history
    ensures s.historyIndex == |s.history| - 1 <==> NavigateForward(s) == s
    ensures s.historyIndex < |s.history| - 1 ==> NavigateForward(s).historyIndex == s.historyIndex + 1
  {
  }

  /** Back then forward, or forward then back, returns to the same state. */
  lemma BackForwardRoundTrip(s: BrowseState)
    requires Valid(s)
    ensures s.historyIndex > 0 ==> NavigateForward(NavigateBack(s)) == s
    ensures s.historyIndex < |s.history| - 1 ==> NavigateBack(NavigateForward(s)) == s
  {
  }

  /** Every sidebar destination has a listing; the subfolders inside the
      tree have none, so opening one shows an empty folder. */
  lemma TreeShape()
    ensures forall i :: 0 <= i < |Sidebar| ==> Sidebar[i] in FileSystem() && Listing(Sidebar[i]) != []
    ensures Listing("ubuntu-22.04-iso") == [] && Listing("Wallpapers") == []
    ensures forall p :: p in FileSystem() ==> p in Sidebar
  {
  }

  /** Opening a folder navigates to it by name; opening a file does nothing. */
  lemma OpenItemEffect(s: BrowseState, item: FileItem)
    ensures item.kind == Folder ==> OpenItem(s, item).currentPath == item.name
    ensures item.kind != Folder ==> OpenItem(s, item) == s
  {
  }

  // ---------------------------------------------------------------------
  // The browser as an object with fields

  class FileBrowser {
    var currentPath: string
    var history: seq<string>
    var historyIndex: nat

    function State(): BrowseState
      reads this
    {
      BrowseState(currentPath, history, historyIndex)
    }

    function CurrentItems(): seq<FileItem>
      reads this
    {
      Listing(currentPath)
    }

    constructor ()
      ensures State() == InitialBrowse()
    {
      currentPath := "Home";
      history := ["Home"];
      historyIndex := 0;
    }

    method Navigate(folderName: string)
      modifies this
      ensures State() == NavigateTo(old(State()), folderName)
    {
      var newHistory := Prefix(history, historyIndex + 1);
      newHistory := newHistory + [folderName];
      history := newHistory;
      historyIndex := |newHistory| - 1;
      currentPath := folderName;
    }

    method Back()
      requires Valid(State())
      modifies this
      ensures State() == NavigateBack(old(State()))
    {
      if historyIndex > 0 {
        historyIndex := historyIndex - 1;
        currentPath := history[historyIndex];
      }
    }

    method Forward()
      requires Valid(State())
      modifies this
      ensures State() == NavigateForward(old(State()))
    {
      if historyIndex < |history| - 1 {
        historyIndex := historyIndex + 1;
        currentPath := history[historyIndex];
      }
    }

    method DoubleClick(item: FileItem)
      modifies this
      ensures State() == OpenItem(old(State()), item)
    {
      if item.kind == Folder {
        Navigate(item.name);
      }
    }
  }
}
