/** The YouTube download tab (src/components/downloads/YoutubeDownloadTab.tsx):
    its form, the download handler that builds the yt-dlp command and starts
    the tracker, the thumbnail follow-up run on completion, and what the tab
    shows. */
module YoutubeTab {
  import opened Wrappers
  import opened StatusDisplay
  import opened Commands
  import opened DownloadStatus

  datatype Form = Form(
    url: string,
    outputDir: string,
    embedThumbnails: bool,
    writeAllThumbs: bool,
    downloadType: DownloadType,
    bitrate: Bitrate)

  /** The tab: its form, its own tracker instance, and the follow-up decision
      the `onComplete` closure of the running download captured. */
  datatype Tab = Tab(form: Form, tracker: Tracker, thumbnailsOnComplete: bool)

  /** One edit of a form control. */
  datatype Edit =
    | SetUrl(url: string)
    | SetOutputDir(dir: string)
    | SetEmbedThumbnails(embed: bool)
    | SetWriteAllThumbs(writeAll: bool)
    | SetDownloadType(ty: DownloadType)
    | SetBitrate(bitrate: Bitrate)

  /** Whether any thumbnail option is ticked. */
  predicate WantsThumbnails(f: Form) {
    f.embedThumbnails || f.writeAllThumbs
  }

  function Init(): (tab: Tab)
    ensures tab.form == Form("", "/youtube", true, false, Single, Kbps320)
    ensures tab.tracker == DownloadStatus.Init()
  {
    Tab(Form("", "/youtube", true, false, Single, Kbps320), DownloadStatus.Init(), false)
  }

  /** Every form control is disabled while a download runs; an edit then
      changes nothing. */
  function ApplyEdit(tab: Tab, e: Edit): (r: Tab)
    ensures tab.tracker.isDownloading ==> r == tab
    ensures r.tracker == tab.tracker && r.thumbnailsOnComplete == tab.thumbnailsOnComplete
    ensures !tab.tracker.isDownloading ==>
              match e
              case SetUrl(u) => r.form == tab.form.(url := u)
              case SetOutputDir(d) => r.form == tab.form.(outputDir := d)
              case SetEmbedThumbnails(b) => r.form == tab.form.(embedThumbnails := b)
              case SetWriteAllThumbs(b) => r.form == tab.form.(writeAllThumbs := b)
              case SetDownloadType(ty) => r.form == tab.form.(downloadType := ty)
              case SetBitrate(b) => r.form == tab.form.(bitrate := b)
  {
    if tab.tracker.isDownloading then tab
    else
      var f := tab.form;
      var g := match e
        case SetUrl(u) => f.(url := u)
        case SetOutputDir(d) => f.(outputDir := d)
        case SetEmbedThumbnails(b) => f.(embedThumbnails := b)
        case SetWriteAllThumbs(b) => f.(writeAllThumbs := b)
        case SetDownloadType(ty) => f.(downloadType := ty)
        case SetBitrate(b) => f.(bitrate := b);
      tab.(form := g)
  }

  /** The download button is disabled while a download runs. */
  predicate DownloadEnabled(tab: Tab) {
    !tab.tracker.isDownloading
  }

  /** `handleYoutubeDownload`: refuse an empty URL; otherwise build the
      yt-dlp command from the form and start the tracker with the form's
      download type, capturing whether thumbnails follow.  A press on the
      disabled button changes nothing. */
  function HandleDownload(tab: Tab): (r: Result<Tab>)
    ensures !DownloadEnabled(tab) ==> r == Ok(tab)
    ensures r.Err? <==> DownloadEnabled(tab) && tab.form.url == ""
    ensures r.Err? ==> r.problem == UrlRequired
    ensures r.Ok? ==> r.value.form == tab.form
    ensures DownloadEnabled(tab) && r.Ok? ==>
              var t := r.value.tracker;
              && t.currentCommand == FormCommand(tab.form)
              && t.downloadTimer == Some(tab.form.downloadType)
              && t.isDownloading && t.download == DownloadStarted
              && t.progress == 0 && !t.downloadComplete
              && t.embed == Waiting && t.playlist == Waiting
              && t.embedTimer == tab.tracker.embedTimer && t.playlistTimer == tab.tracker.playlistTimer
              && (r.value.thumbnailsOnComplete <==> WantsThumbnails(tab.form))
  {
    if !DownloadEnabled(tab) then Ok(tab)
    else if tab.form.url == "" then Err(UrlRequired)
    else
      var f := tab.form;
      Ok(Tab(f, StartDownload(tab.tracker, FormCommand(f), f.downloadType), WantsThumbnails(f)))
  }

  /** One download tick seen from the tab: the tick that takes the counter
      to 100 completes the download, and then the captured `onComplete`
      starts the thumbnail embedding if asked; otherwise the embed stage is
      left alone. */
  function OnDownloadTick(tab: Tab): (r: Tab)
    requires tab.tracker.downloadTimer.Some?
    ensures r.form == tab.form && r.thumbnailsOnComplete == tab.thumbnailsOnComplete
    ensures var fires := tab.tracker.progress + 2 >= 100 && tab.thumbnailsOnComplete;
            && r.tracker.embed == (if fires then EmbedStarted(Thumbnails) else tab.tracker.embed)
            && r.tracker.embedTimer == (if fires then Some(Thumbnails) else tab.tracker.embedTimer)
    ensures r.tracker.progress == if tab.tracker.progress + 2 >= 100 then 100 else tab.tracker.progress + 2
    ensures r.tracker.currentCommand == tab.tracker.currentCommand
    ensures Valid(tab.tracker) ==>
              (tab.tracker.progress + 2 >= 100 <==> r.tracker.downloadComplete && !r.tracker.isDownloading)
  {
    var (u, completed) := DownloadTick(tab.tracker);
    if completed && tab.thumbnailsOnComplete then tab.(tracker := SimulateEmbed(u, Thumbnails))
    else tab.(tracker := u)
  }

  /** What the tab keeps true: the tracker's invariant, and while a download
      runs the form is frozen, so the captured type, the follow-up decision
      and the published command are still those of the form. */
  predicate TabValid(tab: Tab) {
    && Valid(tab.tracker)
    && (tab.tracker.isDownloading ==>
          tab.tracker.downloadTimer == Some(tab.form.downloadType)
          && tab.thumbnailsOnComplete == WantsThumbnails(tab.form)
          && tab.tracker.currentCommand == FormCommand(tab.form))
  }

  /** The yt-dlp command the form describes. */
  function FormCommand(f: Form): string {
    YtDlpCommand(f.url, f.outputDir, f.embedThumbnails, f.writeAllThumbs, f.downloadType, f.bitrate)
  }

  lemma InitValid()
    ensures TabValid(Init())
  {
  }

  lemma {:induction false} EditKeepsValid(tab: Tab, e: Edit)
    requires TabValid(tab)
    ensures TabValid(ApplyEdit(tab, e))
  {
    if !tab.tracker.isDownloading {
      assert !ApplyEdit(tab, e).tracker.isDownloading;
    }
  }

  lemma HandleDownloadKeepsValid(tab: Tab)
    requires TabValid(tab)
    ensures HandleDownload(tab).Ok? ==> TabValid(HandleDownload(tab).value)
  {
  }

  lemma OnDownloadTickKeepsValid(tab: Tab)
    requires TabValid(tab) && tab.tracker.downloadTimer.Some?
    ensures TabValid(OnDownloadTick(tab))
  {
    var (u, completed) := DownloadTick(tab.tracker);
    if completed && tab.thumbnailsOnComplete {
      assert !SimulateEmbed(u, Thumbnails).isDownloading;
    }
  }

  /** The tick that completes a download starts the thumbnail embedding
      exactly when a thumbnail option was ticked; otherwise the embed stage
      stays as the download left it. */
  lemma CompletionStartsThumbnails(tab: Tab)
    requires TabValid(tab) && tab.tracker.downloadTimer.Some?
    requires tab.tracker.progress + 2 >= 100
    ensures var r := OnDownloadTick(tab).tracker;
            r.downloadComplete
            && (WantsThumbnails(tab.form) ==> r.embedTimer == Some(Thumbnails) && r.embed == EmbedStarted(Thumbnails))
            && (!WantsThumbnails(tab.form) ==> r.embed == tab.tracker.embed && r.embedTimer == tab.tracker.embedTimer)
  {
  }

  /** A whole download started from the tab: 49 ticks of progress, then the
      completing tick with the thumbnail follow-up decided by the form. */
  lemma DownloadRunFromTab(tab: Tab)
    requires TabValid(tab) && DownloadEnabled(tab) && tab.form.url != ""
    ensures var started := HandleDownload(tab).value;
            var before := started.(tracker := Ticks(started.tracker, DownloadStage, 49));
            before.tracker.downloadTimer.Some?
            && before.tracker.progress == 98
            && OnDownloadTick(before).tracker.downloadComplete
            && (OnDownloadTick(before).tracker.embed.status == Active <==> WantsThumbnails(tab.form))
  {
    var started := HandleDownload(tab).value;
    DownloadRunsFortyNineTicks(tab.tracker, FormCommand(tab.form), tab.form.downloadType);
    var before := started.(tracker := Ticks(started.tracker, DownloadStage, 49));
    assert before.tracker.embed == Waiting;
  }

  // ---------------------------------------------------------------------
  // What the tab shows
  // ---------------------------------------------------------------------

  /** The status panel: shown while downloading or once complete; the
      processing row only for a thumbnail option after completion, the
      playlist row only for a completed playlist download. */
  function StatusPanel(tab: Tab): (items: Option<seq<Item>>)
    ensures items.Some? <==> tab.tracker.isDownloading || tab.tracker.downloadComplete
    ensures items.Some? ==> |items.value| >= 1 && items.value[0].info == tab.tracker.download
    ensures items.Some? ==>
              (HasRow(items.value, ProcessingRow) <==> WantsThumbnails(tab.form) && tab.tracker.downloadComplete)
    ensures items.Some? ==>
              (HasRow(items.value, PlaylistRow) <==> tab.form.downloadType == Playlist && tab.tracker.downloadComplete)
  {
    var t := tab.tracker;
    if t.isDownloading || t.downloadComplete then
      Some(Render(t.download,
                  if WantsThumbnails(tab.form) && t.downloadComplete then Some(t.embed) else None,
                  if tab.form.downloadType == Playlist && t.downloadComplete then Some(t.playlist) else None))
    else None
  }

  datatype Action = CreatePlaylistAction | EditCoverAction | NewFolderAction

  /** The buttons under the download button after a completed download. */
  function FollowUpActions(tab: Tab): (acts: set<Action>)
    ensures CreatePlaylistAction in acts <==> tab.tracker.downloadComplete && tab.form.downloadType == Playlist
    ensures EditCoverAction in acts <==> tab.tracker.downloadComplete
    ensures NewFolderAction in acts <==> tab.tracker.downloadComplete
  {
    if !tab.tracker.downloadComplete then {}
    else if tab.form.downloadType == Playlist then {CreatePlaylistAction, EditCoverAction, NewFolderAction}
    else {EditCoverAction, NewFolderAction}
  }

  /** A valid tab shows the command of a finished download: after the
      completing tick the command box holds exactly the yt-dlp command the
      form describes. */
  lemma CommandShownAfterCompletion(tab: Tab)
    requires TabValid(tab) && tab.tracker.downloadTimer.Some?
    requires tab.tracker.progress + 2 >= 100
    ensures CommandBox(OnDownloadTick(tab).tracker) == Some(FormCommand(tab.form))
  {
    var f := tab.form;
    YtDlpCommandNotEmpty(f.url, f.outputDir, f.embedThumbnails, f.writeAllThumbs, f.downloadType, f.bitrate);
  }
}
