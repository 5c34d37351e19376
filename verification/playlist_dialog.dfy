/** The playlist dialog (src/components/downloads/PlaylistDialog.tsx): a
    name and a directory, a create button that needs a name, and the
    playlist stage's progress bar. */
module PlaylistDialog {
  import opened Wrappers
  import opened StatusDisplay
  import opened Commands
  import opened DownloadStatus

  datatype Dialog = Dialog(playlistName: string, currentDir: string)

  /** What `onCreatePlaylist` receives. */
  datatype Request = Request(name: string, dir: string)

  /** The directory field starts at the output directory it was given. */
  function Init(outputDir: string): (d: Dialog)
    ensures d.playlistName == "" && d.currentDir == outputDir
  {
    Dialog("", outputDir)
  }

  function SetName(d: Dialog, name: string): (r: Dialog)
    ensures r.playlistName == name && r.currentDir == d.currentDir
  {
    d.(playlistName := name)
  }

  function SetDir(d: Dialog, dir: string): (r: Dialog)
    ensures r.currentDir == dir && r.playlistName == d.playlistName
  {
    d.(currentDir := dir)
  }

  /** `handleCreatePlaylist`: an empty name is refused; otherwise the name
      and directory are handed on as they stand.  The dialog keeps its
      fields whatever the callee reports. */
  function HandleCreate(d: Dialog): (r: (Dialog, Result<Request>))
    ensures r.0 == d
    ensures r.1.Err? <==> d.playlistName == ""
    ensures r.1.Err? ==> r.1.problem == PlaylistNameRequired
    ensures r.1.Ok? ==> r.1.value == Request(d.playlistName, d.currentDir)
  {
    if d.playlistName == "" then (d, Err(PlaylistNameRequired))
    else (d, Ok(Request(d.playlistName, d.currentDir)))
  }

  /** A request handed to the tracker's `createPlaylist` publishes the `find`
      command for exactly the typed name and directory, and the bar appears
      at 0 for the started stage. */
  lemma CreateForwardsToTracker(d: Dialog, t: Tracker)
    requires HandleCreate(d).1.Ok?
    ensures var req := HandleCreate(d).1.value;
            var started := CreatePlaylist(t, req.name, req.dir).0;
            started.currentCommand == PlaylistCommand(d.playlistName, d.currentDir)
            && ActiveProgress(started.playlist) == Some(0)
  {
  }

  /** The bar stays up while the stage runs and disappears when it completes:
      after ten ticks of a freshly started stage nothing is drawn. */
  lemma BarGoneWhenDone(t: Tracker, name: string, dir: string)
    requires Valid(t)
    ensures var s := CreatePlaylist(t, name, dir).0;
            ActiveProgress(Ticks(s, PlaylistStage, 9).playlist) == Some(90)
            && ActiveProgress(Ticks(s, PlaylistStage, 10).playlist).None?
  {
    var s := CreatePlaylist(t, name, dir).0;
    TicksProgress(s, PlaylistStage, 9);
    PlaylistCompletesAfterTenTicks(t, name, dir);
  }
}
