/** The Spotify download tab (src/components/downloads/SpotifyDownloadTab.tsx):
    its form with the coupled lyrics checkboxes, the download handler that
    builds the spotdl command, the lyrics embedding run on completion or on
    demand, and what the tab shows. */
module SpotifyTab {
  import opened Wrappers
  import opened StatusDisplay
  import opened Commands
  import opened DownloadStatus

  datatype Form = Form(
    url: string,
    outputDir: string,
    generateLyrics: bool,
    embedLyrics: bool,
    downloadType: DownloadType,
    bitrate: Bitrate)

  /** The tab: its form, its own tracker instance, and the follow-up decision
      the `onComplete` closure of the running download captured. */
  datatype Tab = Tab(form: Form, tracker: Tracker, lyricsOnComplete: bool)

  /** One edit of a form control. */
  datatype Edit =
    | SetUrl(url: string)
    | SetOutputDir(dir: string)
    | SetGenerateLyrics(generate: bool)
    | SetEmbedLyrics(embed: bool)
    | SetDownloadType(ty: DownloadType)
    | SetBitrate(bitrate: Bitrate)

  /** Lyrics are embedded automatically once the download completes. */
  predicate AutoEmbed(f: Form) {
    f.generateLyrics && f.embedLyrics
  }

  function Init(): (tab: Tab)
    ensures tab.form == Form("", "/audio", true, true, Single, Kbps320)
    ensures tab.tracker == DownloadStatus.Init()
  {
    Tab(Form("", "/audio", true, true, Single, Kbps320), DownloadStatus.Init(), false)
  }

  /** Whether a control accepts input: everything is disabled while a
      download runs, and the embed checkbox also while no lyrics files are
      generated. */
  predicate Enabled(tab: Tab, e: Edit) {
    !tab.tracker.isDownloading && (e.SetEmbedLyrics? ==> tab.form.generateLyrics)
  }

  /** A control edit; unticking "generate lyrics" also unticks "embed
      lyrics".  A disabled control changes nothing. */
  function ApplyEdit(tab: Tab, e: Edit): (r: Tab)
    ensures !Enabled(tab, e) ==> r == tab
    ensures r.tracker == tab.tracker && r.lyricsOnComplete == tab.lyricsOnComplete
    ensures Enabled(tab, e) ==>
              match e
              case SetUrl(u) => r.form == tab.form.(url := u)
              case SetOutputDir(d) => r.form == tab.form.(outputDir := d)
              case SetGenerateLyrics(b) =>
                r.form == tab.form.(generateLyrics := b, embedLyrics := b && tab.form.embedLyrics)
              case SetEmbedLyrics(b) => r.form == tab.form.(embedLyrics := b)
              case SetDownloadType(ty) => r.form == tab.form.(downloadType := ty)
              case SetBitrate(b) => r.form == tab.form.(bitrate := b)
  {
    if !Enabled(tab, e) then tab
    else
      var f := tab.form;
      var g := match e
        case SetUrl(u) => f.(url := u)
        case SetOutputDir(d) => f.(outputDir := d)
        case SetGenerateLyrics(b) => if b then f.(generateLyrics := true) else f.(generateLyrics := false, embedLyrics := false)
        case SetEmbedLyrics(b) => f.(embedLyrics := b)
        case SetDownloadType(ty) => f.(downloadType := ty)
        case SetBitrate(b) => f.(bitrate := b);
      tab.(form := g)
  }

  /** The download button is disabled while a download runs. */
  predicate DownloadEnabled(tab: Tab) {
    !tab.tracker.isDownloading
  }

  /** The spotdl command the form describes. */
  function FormCommand(f: Form): string {
    SpotdlCommand(f.url, f.outputDir, f.bitrate, f.generateLyrics)
  }

  /** `handleSpotifyDownload`: refuse an empty URL; otherwise build the spotdl
      command and start the tracker, capturing whether lyrics follow.  A
      press on the disabled button changes nothing. */
  function HandleDownload(tab: Tab): (r: Result<Tab>)
    ensures !DownloadEnabled(tab) ==> r == Ok(tab)
    ensures r.Err? <==> DownloadEnabled(tab) && tab.form.url == ""
    ensures r.Err? ==> r.problem == UrlRequired
    ensures r.Ok? ==> r.value.form == tab.form
    ensures DownloadEnabled(tab) && r.Ok? ==>
              var t := r.value.tracker;
              && t.currentCommand == FormCommand(tab.form)
              && t.downloadTimer == Some(tab.form.downloadType)
              && t.isDownloading && t.download == DownloadStarted
              && t.progress == 0 && !t.downloadComplete
              && t.embed == Waiting && t.playlist == Waiting
              && t.embedTimer == tab.tracker.embedTimer && t.playlistTimer == tab.tracker.playlistTimer
              && (r.value.lyricsOnComplete <==> AutoEmbed(tab.form))
  {
    if !DownloadEnabled(tab) then Ok(tab)
    else if tab.form.url == "" then Err(UrlRequired)
    else
      var f := tab.form;
      Ok(Tab(f, StartDownload(tab.tracker, FormCommand(f), f.downloadType), AutoEmbed(f)))
  }

  /** One download tick seen from the tab: the tick that takes the counter
      to 100 completes the download, and then the captured `onComplete`
      starts the lyrics embedding if asked; otherwise the embed stage is
      left alone. */
  function OnDownloadTick(tab: Tab): (r: Tab)
    requires tab.tracker.downloadTimer.Some?
    ensures r.form == tab.form && r.lyricsOnComplete == tab.lyricsOnComplete
    ensures var fires := tab.tracker.progress + 2 >= 100 && tab.lyricsOnComplete;
            && r.tracker.embed == (if fires then EmbedStarted(Lyrics) else tab.tracker.embed)
            && r.tracker.embedTimer == (if fires then Some(Lyrics) else tab.tracker.embedTimer)
    ensures r.tracker.progress == if tab.tracker.progress + 2 >= 100 then 100 else tab.tracker.progress + 2
    ensures r.tracker.currentCommand == tab.tracker.currentCommand
    ensures Valid(tab.tracker) ==>
              (tab.tracker.progress + 2 >= 100 <==> r.tracker.downloadComplete && !r.tracker.isDownloading)
  {
    var (u, completed) := DownloadTick(tab.tracker);
    if completed && tab.lyricsOnComplete then tab.(tracker := SimulateEmbed(u, Lyrics))
    else tab.(tracker := u)
  }

  /** The "Embed Lyrics" button is offered after a completed download whose
      lyrics files were generated but not embedded automatically. */
  predicate ManualEmbedOffered(tab: Tab) {
    tab.tracker.downloadComplete && tab.form.generateLyrics && !tab.form.embedLyrics
  }

  /** Pressing "Embed Lyrics"; without the button there is nothing to press. */
  function ClickEmbedLyrics(tab: Tab): (r: Tab)
    ensures ManualEmbedOffered(tab) ==> r == tab.(tracker := SimulateEmbed(tab.tracker, Lyrics))
    ensures !ManualEmbedOffered(tab) ==> r == tab
    ensures r.tracker.embedTimer.Some? && r.tracker.embedTimer != tab.tracker.embedTimer ==> ManualEmbedOffered(tab)
  {
    if ManualEmbedOffered(tab) then tab.(tracker := SimulateEmbed(tab.tracker, Lyrics)) else tab
  }

  /** What the tab keeps true: the tracker's invariant, "embed lyrics" only
      with "generate lyrics", and while a download runs the form is frozen,
      so the captured type, the follow-up decision and the published command
      are still those of the form. */
  predicate TabValid(tab: Tab) {
    && Valid(tab.tracker)
    && (tab.form.embedLyrics ==> tab.form.generateLyrics)
    && (tab.tracker.isDownloading ==>
          tab.tracker.downloadTimer == Some(tab.form.downloadType)
          && tab.lyricsOnComplete == AutoEmbed(tab.form)
          && tab.tracker.currentCommand == FormCommand(tab.form))
  }

  lemma InitValid()
    ensures TabValid(Init())
  {
  }

  /** The checkbox coupling keeps "embed lyrics" implying "generate lyrics",
      whatever control is used. */
  lemma {:induction false} EditKeepsValid(tab: Tab, e: Edit)
    requires TabValid(tab)
    ensures TabValid(ApplyEdit(tab, e))
  {
    if Enabled(tab, e) {
      assert !ApplyEdit(tab, e).tracker.isDownloading;
    }
  }

  lemma HandleDownloadKeepsValid(tab: Tab)
    requires TabValid(tab)
    ensures HandleDownload(tab).Ok? ==> TabValid(HandleDownload(tab).value)
  {
  }

  lemma OnDownloadTickKeepsValid(tab: Tab)
    requires TabValid(tab) && tab.tracker.downloadTimer.Some?
    ensures TabValid(OnDownloadTick(tab))
  {
    var (u, completed) := DownloadTick(tab.tracker);
    if completed && tab.lyricsOnComplete {
      assert !SimulateEmbed(u, Lyrics).isDownloading;
    }
  }

  lemma ClickEmbedLyricsKeepsValid(tab: Tab)
    requires TabValid(tab)
    ensures TabValid(ClickEmbedLyrics(tab))
  {
  }

  /** The tick that completes a download starts the lyrics embedding when
      both lyrics options were ticked; otherwise the embed stage stays as the
      download left it. */
  lemma CompletionStartsLyrics(tab: Tab)
    requires TabValid(tab) && tab.tracker.downloadTimer.Some?
    requires tab.tracker.progress + 2 >= 100
    ensures var r := OnDownloadTick(tab).tracker;
            r.downloadComplete
            && (AutoEmbed(tab.form) ==> r.embedTimer == Some(Lyrics) && r.embed == EmbedStarted(Lyrics))
            && (!AutoEmbed(tab.form) ==> r.embed == tab.tracker.embed && r.embedTimer == tab.tracker.embedTimer)
  {
  }

  /** After a completed download with lyrics files, exactly one way of
      embedding them applies: automatically, or by the offered button. */
  lemma LyricsEmbeddedOneWay(tab: Tab)
    requires TabValid(tab) && tab.tracker.downloadComplete && tab.form.generateLyrics
    ensures AutoEmbed(tab.form) != ManualEmbedOffered(tab)
  {
  }

  /** Without lyrics files neither way applies. */
  lemma NoLyricsNoEmbedding(tab: Tab)
    requires TabValid(tab) && !tab.form.generateLyrics
    ensures !AutoEmbed(tab.form) && !ManualEmbedOffered(tab)
  {
  }

  /** A whole download started from the tab: 49 ticks of progress, then the
      completing tick with the lyrics follow-up decided by the form. */
  lemma DownloadRunFromTab(tab: Tab)
    requires TabValid(tab) && DownloadEnabled(tab) && tab.form.url != ""
    ensures var started := HandleDownload(tab).value;
            var before := started.(tracker := Ticks(started.tracker, DownloadStage, 49));
            before.tracker.downloadTimer.Some?
            && before.tracker.progress == 98
            && OnDownloadTick(before).tracker.downloadComplete
            && (OnDownloadTick(before).tracker.embed.status == Active <==> AutoEmbed(tab.form))
  {
    var started := HandleDownload(tab).value;
    DownloadRunsFortyNineTicks(tab.tracker, FormCommand(tab.form), tab.form.downloadType);
    var before := started.(tracker := Ticks(started.tracker, DownloadStage, 49));
    assert before.tracker.embed == Waiting;
  }

  // ---------------------------------------------------------------------
  // What the tab shows
  // ---------------------------------------------------------------------

  /** The status panel: shown while downloading or once complete; the
      processing row whenever lyrics are embedded automatically (even while
      the download still runs), the playlist row only for a completed
      playlist download. */
  function StatusPanel(tab: Tab): (items: Option<seq<Item>>)
    ensures items.Some? <==> tab.tracker.isDownloading || tab.tracker.downloadComplete
    ensures items.Some? ==> |items.value| >= 1 && items.value[0].info == tab.tracker.download
    ensures items.Some? ==> (HasRow(items.value, ProcessingRow) <==> AutoEmbed(tab.form))
    ensures items.Some? ==>
              (HasRow(items.value, PlaylistRow) <==> tab.form.downloadType == Playlist && tab.tracker.downloadComplete)
  {
    var t := tab.tracker;
    if t.isDownloading || t.downloadComplete then
      Some(Render(t.download,
                  if AutoEmbed(tab.form) then Some(t.embed) else None,
                  if tab.form.downloadType == Playlist && t.downloadComplete then Some(t.playlist) else None))
    else None
  }

  datatype Action = CreatePlaylistAction | EmbedLyricsAction | EditCoverAction

  /** The buttons under the download button after a completed download. */
  function FollowUpActions(tab: Tab): (acts: set<Action>)
    ensures CreatePlaylistAction in acts <==> tab.tracker.downloadComplete
    ensures EmbedLyricsAction in acts <==> ManualEmbedOffered(tab)
    ensures EditCoverAction in acts <==> tab.tracker.downloadComplete
  {
    if !tab.tracker.downloadComplete then {}
    else if ManualEmbedOffered(tab) then {CreatePlaylistAction, EmbedLyricsAction, EditCoverAction}
    else {CreatePlaylistAction, EditCoverAction}
  }

  /** A valid tab shows the command of a finished download: after the
      completing tick the command box holds exactly the spotdl command the
      form describes. */
  lemma CommandShownAfterCompletion(tab: Tab)
    requires TabValid(tab) && tab.tracker.downloadTimer.Some?
    requires tab.tracker.progress + 2 >= 100
    ensures CommandBox(OnDownloadTick(tab).tracker) == Some(FormCommand(tab.form))
  {
    var f := tab.form;
    SpotdlCommandNotEmpty(f.url, f.outputDir, f.bitrate, f.generateLyrics);
  }
}
