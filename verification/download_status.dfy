/** The multi-stage job tracker behind both download tabs
    (src/hooks/useDownloadStatus.ts).

    The hook keeps three `ProcessInfo` records (download, embed, playlist)
    plus a few flags, and drives each record with its own `setInterval`.
    Here the hook's state is one immutable `Tracker`; every interval is an
    explicit timer field, and every interval callback is a `Tick` transition
    that is only defined while its timer is registered.  `clearInterval`
    resets the field.  Starting a stage again while its old interval still
    runs replaces the timer: overlapping intervals of one stage are not
    modelled. */
module DownloadStatus {
  import opened Wrappers
  import opened Text
  import opened StatusDisplay
  import opened Commands

  /** Which embedding simulation the embed timer runs. */
  datatype EmbedKind = Lyrics | Thumbnails

  datatype Tracker = Tracker(
    isDownloading: bool,
    progress: nat,
    downloadComplete: bool,
    currentCommand: string,
    download: ProcessInfo,
    embed: ProcessInfo,
    playlist: ProcessInfo,
    // the running download interval and the download type its closure captured
    downloadTimer: Option<DownloadType>,
    // the running embed interval and which simulation it belongs to
    embedTimer: Option<EmbedKind>,
    // whether the playlist interval runs
    playlistTimer: bool)

  const NotStarted: ProcessInfo := ProcessInfo(Pending, 0, "Not started")
  const Waiting: ProcessInfo := ProcessInfo(Pending, 0, "Waiting for download to complete")
  const DownloadStarted: ProcessInfo := ProcessInfo(Active, 0, "Starting download...")
  const DownloadDone: ProcessInfo := ProcessInfo(Complete, 100, "Download complete")
  const PlaylistReady: ProcessInfo := ProcessInfo(Active, 0, "Ready to create playlist")
  const PlaylistStarted: ProcessInfo := ProcessInfo(Active, 0, "Creating playlist...")
  const PlaylistDone: ProcessInfo := ProcessInfo(Complete, 100, "Playlist created successfully")

  function EmbedStarted(kind: EmbedKind): ProcessInfo {
    match kind
    case Lyrics => ProcessInfo(Active, 0, "Starting lyrics embedding...")
    case Thumbnails => ProcessInfo(Active, 0, "Processing thumbnails...")
  }

  function EmbedDone(kind: EmbedKind): ProcessInfo {
    match kind
    case Lyrics => ProcessInfo(Complete, 100, "Lyrics embedding complete")
    case Thumbnails => ProcessInfo(Complete, 100, "Thumbnails embedded successfully")
  }

  function DownloadingMessage(n: nat): string {
    "Downloading... (" + NatToString(n) + "%)"
  }

  function EmbeddingMessage(kind: EmbedKind, n: nat): string {
    match kind
    case Lyrics => "Embedding lyrics (" + NatToString(n) + "%)..."
    case Thumbnails => "Embedding thumbnails (" + NatToString(n) + "%)..."
  }

  function PlaylistMessage(n: nat): string {
    "Creating playlist (" + NatToString(n) + "%)..."
  }

  // ---------------------------------------------------------------------
  // The invariant every reachable tracker keeps
  // ---------------------------------------------------------------------

  /** A stage record the hook can produce: progress within 0..100, complete
      exactly at 100, and never `error` (no code path sets it). */
  predicate StageValid(p: ProcessInfo) {
    p.progress <= 100 && (p.status == Complete <==> p.progress == 100) && p.status != Error
  }

  predicate Valid(t: Tracker) {
    && StageValid(t.download) && StageValid(t.embed) && StageValid(t.playlist)
    // the progress counter and the download record move together
    && t.progress == t.download.progress
    // the download flags mirror the download interval and record
    && (t.isDownloading <==> t.downloadTimer.Some?)
    && (t.downloadComplete <==> t.download.status == Complete)
    && (t.downloadTimer.Some? ==> t.download.status == Active)
    // a running interval belongs to an unfinished stage
    && (t.embedTimer.Some? ==> t.embed.status != Complete)
    && (t.playlistTimer ==> t.playlist.status != Complete)
  }

  /** The hook's state on first render: nothing started, no interval. */
  function Init(): (t: Tracker)
    ensures Valid(t)
    ensures !t.isDownloading && !t.downloadComplete && t.progress == 0 && t.currentCommand == ""
    ensures t.download == t.embed == t.playlist == NotStarted
    ensures t.downloadTimer.None? && t.embedTimer.None? && !t.playlistTimer
  {
    Tracker(false, 0, false, "", NotStarted, NotStarted, NotStarted, None, None, false)
  }

  // ---------------------------------------------------------------------
  // Download
  // ---------------------------------------------------------------------

  /** `startDownload`: reset all three stages and register the download
      interval, which captures the download type. */
  function StartDownload(t: Tracker, command: string, ty: DownloadType): (r: Tracker)
    ensures r.download == DownloadStarted
    ensures r.embed == Waiting && r.playlist == Waiting
    ensures r.isDownloading && r.progress == 0 && !r.downloadComplete
    ensures r.currentCommand == command
    ensures r.downloadTimer == Some(ty)
    ensures r.embedTimer == t.embedTimer && r.playlistTimer == t.playlistTimer
    ensures Valid(t) ==> Valid(r)
  {
    t.(download := DownloadStarted, embed := Waiting, playlist := Waiting,
       isDownloading := true, progress := 0, downloadComplete := false,
       currentCommand := command, downloadTimer := Some(ty))
  }

  /** One call of the download interval's callback.  The second component
      says whether this tick completed the download, i.e. whether the
      `onComplete` callback runs. */
  function DownloadTick(t: Tracker): (r: (Tracker, bool))
    requires t.downloadTimer.Some?
    ensures r.1 <==> t.progress + 2 >= 100
    ensures !r.1 ==> r.0.progress == t.progress + 2
    ensures !r.1 ==> r.0.download == t.download.(progress := t.progress + 2, message := DownloadingMessage(t.progress + 2))
    ensures !r.1 ==> r.0.isDownloading == t.isDownloading && r.0.downloadTimer == t.downloadTimer && r.0.playlist == t.playlist
    ensures r.1 ==> r.0.progress == 100 && r.0.download == DownloadDone
    ensures r.1 ==> !r.0.isDownloading && r.0.downloadComplete && r.0.downloadTimer.None?
    ensures r.1 && t.downloadTimer.value == Playlist ==> r.0.playlist == PlaylistReady
    ensures r.1 && t.downloadTimer.value == Single ==> r.0.playlist == t.playlist
    ensures r.0.embed == t.embed && r.0.embedTimer == t.embedTimer && r.0.playlistTimer == t.playlistTimer
    ensures r.0.currentCommand == t.currentCommand
    ensures Valid(t) ==> Valid(r.0)
  {
    var n := t.progress + 2;
    if n < 100 then
      (t.(progress := n, download := t.download.(progress := n, message := DownloadingMessage(n))), false)
    else
      var done := t.(progress := 100, isDownloading := false, downloadComplete := true,
                     download := DownloadDone, downloadTimer := None);
      match t.downloadTimer.value
      case Playlist => (done.(playlist := PlaylistReady), true)
      case Single => (done, true)
  }

  // ---------------------------------------------------------------------
  // Embedding (lyrics or thumbnails)
  // ---------------------------------------------------------------------

  /** `simulateEmbedLyrics` / `simulateEmbedThumbnails`: activate the embed
      stage and register its interval. */
  function SimulateEmbed(t: Tracker, kind: EmbedKind): (r: Tracker)
    ensures r.embed.status == Active && r.embed.progress == 0
    ensures r.embedTimer == Some(kind)
    ensures r == t.(embed := EmbedStarted(kind), embedTimer := Some(kind))
    ensures Valid(t) ==> Valid(r)
  {
    t.(embed := EmbedStarted(kind), embedTimer := Some(kind))
  }

  /** One call of the embed interval's callback: five more percent, and
      completion with the kind's final message once 100 is reached. */
  function EmbedTick(t: Tracker): (r: Tracker)
    requires t.embedTimer.Some?
    ensures t.embed.progress + 5 < 100 ==>
              r.embed == t.embed.(progress := t.embed.progress + 5,
                                  message := EmbeddingMessage(t.embedTimer.value, t.embed.progress + 5))
              && r.embedTimer == t.embedTimer
    ensures t.embed.progress + 5 >= 100 ==> r.embed == EmbedDone(t.embedTimer.value) && r.embedTimer.None?
    ensures r.(embed := t.embed, embedTimer := t.embedTimer) == t
    ensures Valid(t) ==> Valid(r)
  {
    var kind := t.embedTimer.value;
    var n := t.embed.progress + 5;
    if n >= 100 then t.(embed := EmbedDone(kind), embedTimer := None)
    else t.(embed := t.embed.(progress := n, message := EmbeddingMessage(kind, n)))
  }

  // ---------------------------------------------------------------------
  // Playlist creation
  // ---------------------------------------------------------------------

  /** `createPlaylist`: activate the playlist stage, publish the `find`
      command and register the playlist interval.  It reports success
      unconditionally; an empty name is not checked here. */
  function CreatePlaylist(t: Tracker, playlistName: string, outputDir: string): (r: (Tracker, bool))
    ensures r.1
    ensures r.0.playlist == PlaylistStarted && r.0.playlistTimer
    ensures r.0.currentCommand == PlaylistCommand(playlistName, outputDir)
    ensures r.0.(playlist := t.playlist, playlistTimer := t.playlistTimer, currentCommand := t.currentCommand) == t
    ensures Valid(t) ==> Valid(r.0)
  {
    (t.(playlist := PlaylistStarted, currentCommand := PlaylistCommand(playlistName, outputDir),
        playlistTimer := true), true)
  }

  /** One call of the playlist interval's callback: ten more percent. */
  function PlaylistTick(t: Tracker): (r: Tracker)
    requires t.playlistTimer
    ensures t.playlist.progress + 10 < 100 ==>
              r.playlist == t.playlist.(progress := t.playlist.progress + 10,
                                        message := PlaylistMessage(t.playlist.progress + 10))
              && r.playlistTimer
    ensures t.playlist.progress + 10 >= 100 ==> r.playlist == PlaylistDone && !r.playlistTimer
    ensures r.(playlist := t.playlist, playlistTimer := t.playlistTimer) == t
    ensures Valid(t) ==> Valid(r)
  {
    var n := t.playlist.progress + 10;
    if n >= 100 then t.(playlist := PlaylistDone, playlistTimer := false)
    else t.(playlist := t.playlist.(progress := n, message := PlaylistMessage(n)))
  }

  // ---------------------------------------------------------------------
  // The three stages seen uniformly
  // ---------------------------------------------------------------------

  datatype Stage = DownloadStage | EmbedStage | PlaylistStage

  /** The increment of each stage's interval. */
  function Step(stage: Stage): nat {
    match stage
    case DownloadStage => 2
    case EmbedStage => 5
    case PlaylistStage => 10
  }

  predicate Running(t: Tracker, stage: Stage) {
    match stage
    case DownloadStage => t.downloadTimer.Some?
    case EmbedStage => t.embedTimer.Some?
    case PlaylistStage => t.playlistTimer
  }

  function Info(t: Tracker, stage: Stage): ProcessInfo {
    match stage
    case DownloadStage => t.download
    case EmbedStage => t.embed
    case PlaylistStage => t.playlist
  }

  /** One callback of the stage's interval. */
  function Tick(t: Tracker, stage: Stage): Tracker
    requires Running(t, stage)
  {
    match stage
    case DownloadStage => DownloadTick(t).0
    case EmbedStage => EmbedTick(t)
    case PlaylistStage => PlaylistTick(t)
  }

  /** `k` callbacks of the stage's interval; callbacks after the interval
      was cleared do not happen. */
  function Ticks(t: Tracker, stage: Stage, k: nat): Tracker
    decreases k
  {
    if k == 0 then t
    else
      var u := Ticks(t, stage, k - 1);
      if Running(u, stage) then Tick(u, stage) else u
  }

  /** Every tick keeps the invariant and advances its stage by exactly the
      stage's step, clamped at 100; the stage finishes exactly when the clamp
      is reached, and its status is kept until then. */
  lemma TickAdvances(t: Tracker, stage: Stage)
    requires Valid(t) && Running(t, stage)
    ensures Valid(Tick(t, stage))
    ensures Info(t, stage).progress + Step(stage) < 100 ==>
              Info(Tick(t, stage), stage).progress == Info(t, stage).progress + Step(stage)
              && Info(Tick(t, stage), stage).status == Info(t, stage).status
              && Running(Tick(t, stage), stage)
    ensures Info(t, stage).progress + Step(stage) >= 100 ==>
              Info(Tick(t, stage), stage).progress == 100
              && Info(Tick(t, stage), stage).status == Complete
              && !Running(Tick(t, stage), stage)
    ensures Info(Tick(t, stage), stage).progress > Info(t, stage).progress
  {
  }

  /** A tick of the embed or playlist stage changes nothing but that stage;
      a download tick leaves the embed stage alone. */
  lemma TickIsolated(t: Tracker, stage: Stage)
    requires Running(t, stage)
    ensures stage != DownloadStage ==>
              Tick(t, stage).download == t.download && Tick(t, stage).progress == t.progress
              && Tick(t, stage).isDownloading == t.isDownloading
              && Tick(t, stage).downloadComplete == t.downloadComplete
              && Tick(t, stage).currentCommand == t.currentCommand
    ensures stage != EmbedStage ==> Tick(t, stage).embed == t.embed && Tick(t, stage).embedTimer == t.embedTimer
    ensures stage != PlaylistStage ==> Tick(t, stage).playlistTimer == t.playlistTimer
    ensures stage == EmbedStage ==> Tick(t, stage).playlist == t.playlist
  {
  }

  /** Repeated ticks from a valid tracker whose stage runs with progress `p`:
      after `k` ticks the stage stands at `p + k * step`, still running with
      its status kept, as long as that stays below 100; from the first tick
      that reaches 100 on, it is complete at 100 and its interval is gone. */
  lemma {:induction false} TicksProgress(t: Tracker, stage: Stage, k: nat)
    requires Valid(t) && Running(t, stage)
    ensures Valid(Ticks(t, stage, k))
    ensures Info(t, stage).progress + k * Step(stage) < 100 ==>
              Running(Ticks(t, stage, k), stage)
              && Info(Ticks(t, stage, k), stage).progress == Info(t, stage).progress + k * Step(stage)
              && Info(Ticks(t, stage, k), stage).status == Info(t, stage).status
    ensures Info(t, stage).progress + k * Step(stage) >= 100 ==>
              !Running(Ticks(t, stage, k), stage)
              && Info(Ticks(t, stage, k), stage).progress == 100
              && Info(Ticks(t, stage, k), stage).status == Complete
    decreases k
  {
    if k > 0 {
      var p := Info(t, stage).progress;
      var s := Step(stage);
      TicksProgress(t, stage, k - 1);
      var u := Ticks(t, stage, k - 1);
      assert (k - 1) * s + s == k * s;
      if Running(u, stage) {
        TickAdvances(u, stage);
      } else {
        assert p + (k - 1) * s >= 100;
      }
    }
  }

  /** While a download is running, its ticks do not touch the embed stage,
      and before completion they do not touch the playlist stage either. */
  lemma {:induction false} DownloadTicksIsolated(t: Tracker, k: nat)
    requires Valid(t) && Running(t, DownloadStage)
    ensures Ticks(t, DownloadStage, k).embed == t.embed
    ensures Ticks(t, DownloadStage, k).embedTimer == t.embedTimer
    ensures Ticks(t, DownloadStage, k).playlistTimer == t.playlistTimer
    ensures Ticks(t, DownloadStage, k).currentCommand == t.currentCommand
    ensures t.progress + 2 * k < 100 ==> Ticks(t, DownloadStage, k).playlist == t.playlist
    decreases k
  {
    if k > 0 {
      DownloadTicksIsolated(t, k - 1);
      var u := Ticks(t, DownloadStage, k - 1);
      if Running(u, DownloadStage) && t.progress + 2 * k < 100 {
        TicksProgress(t, DownloadStage, k - 1);
        assert u.progress == t.progress + 2 * (k - 1);
      }
    }
  }

  /** A fresh download reaches 98% after 49 ticks, still running with the
      embed and playlist stages waiting. */
  lemma DownloadRunsFortyNineTicks(t: Tracker, command: string, ty: DownloadType)
    requires Valid(t)
    ensures var before := Ticks(StartDownload(t, command, ty), DownloadStage, 49);
            before.downloadTimer == Some(ty) && before.progress == 98
            && before.download.status == Active && before.isDownloading
            && before.embed == Waiting && before.playlist == Waiting
  {
    var s := StartDownload(t, command, ty);
    TicksProgress(s, DownloadStage, 49);
    DownloadTicksIsolated(s, 49);
    DownloadTypeKept(s, 49);
  }

  /** The download interval keeps the type it captured while it runs. */
  lemma {:induction false} DownloadTypeKept(t: Tracker, k: nat)
    requires t.downloadTimer.Some?
    ensures Ticks(t, DownloadStage, k).downloadTimer.Some? ==> Ticks(t, DownloadStage, k).downloadTimer == t.downloadTimer
    decreases k
  {
    if k > 0 {
      DownloadTypeKept(t, k - 1);
    }
  }

  /** ... and completes on the 50th: complete at 100, no longer downloading,
      and the playlist stage activated exactly for playlist downloads (still
      waiting otherwise). */
  lemma DownloadCompletesAfterFiftyTicks(t: Tracker, command: string, ty: DownloadType)
    requires Valid(t)
    ensures var after := Ticks(StartDownload(t, command, ty), DownloadStage, 50);
            after.download == DownloadDone && after.progress == 100
            && !after.isDownloading && after.downloadComplete
            && after.embed == Waiting
            && (after.playlist == PlaylistReady <==> ty == Playlist)
            && (ty == Single ==> after.playlist == Waiting)
  {
    var s := StartDownload(t, command, ty);
    DownloadRunsFortyNineTicks(t, command, ty);
    var before := Ticks(s, DownloadStage, 49);
    assert Ticks(s, DownloadStage, 50) == DownloadTick(before).0;
    assert Waiting.message != PlaylistReady.message by {
      assert |Waiting.message| != |PlaylistReady.message|;
    }
  }

  /** An embedding started on its own is still active at 95% after 19
      ticks, with its interval of the same kind running... */
  lemma EmbedRunsNineteenTicks(t: Tracker, kind: EmbedKind)
    requires Valid(t)
    ensures var before := Ticks(SimulateEmbed(t, kind), EmbedStage, 19);
            before.embedTimer == Some(kind)
            && before.embed.status == Active && before.embed.progress == 95
  {
    var s := SimulateEmbed(t, kind);
    TicksProgress(s, EmbedStage, 19);
    EmbedKindKept(s, 19);
  }

  /** ... and the 20th tick completes it with the kind's final record,
      whatever simulation it is. */
  lemma EmbedCompletesAfterTwentyTicks(t: Tracker, kind: EmbedKind)
    requires Valid(t)
    ensures var after := Ticks(SimulateEmbed(t, kind), EmbedStage, 20);
            after.embed == EmbedDone(kind) && !Running(after, EmbedStage)
  {
    var s := SimulateEmbed(t, kind);
    EmbedRunsNineteenTicks(t, kind);
    var before := Ticks(s, EmbedStage, 19);
    assert Ticks(s, EmbedStage, 20) == EmbedTick(before);
  }

  /** The embed interval keeps its kind while it runs. */
  lemma {:induction false} EmbedKindKept(t: Tracker, k: nat)
    requires t.embedTimer.Some?
    ensures Ticks(t, EmbedStage, k).embedTimer.Some? ==> Ticks(t, EmbedStage, k).embedTimer == t.embedTimer
    decreases k
  {
    if k > 0 {
      EmbedKindKept(t, k - 1);
    }
  }

  /** A playlist creation completes on its 10th tick and not before. */
  lemma PlaylistCompletesAfterTenTicks(t: Tracker, playlistName: string, outputDir: string)
    requires Valid(t)
    ensures var s := CreatePlaylist(t, playlistName, outputDir).0;
            Running(Ticks(s, PlaylistStage, 9), PlaylistStage)
            && Ticks(s, PlaylistStage, 9).playlist.progress == 90
    ensures var s := CreatePlaylist(t, playlistName, outputDir).0;
            Ticks(s, PlaylistStage, 10).playlist == PlaylistDone
            && !Running(Ticks(s, PlaylistStage, 10), PlaylistStage)
  {
    var s := CreatePlaylist(t, playlistName, outputDir).0;
    TicksProgress(s, PlaylistStage, 9);
  }

  /** A reset forgets everything before it: starting twice in a row is the
      same as starting once with the second command and type. */
  lemma StartDownloadAbsorbs(t: Tracker, c1: string, ty1: DownloadType, c2: string, ty2: DownloadType)
    ensures StartDownload(StartDownload(t, c1, ty1), c2, ty2) == StartDownload(t, c2, ty2)
  {
  }

  // ---------------------------------------------------------------------
  // The command box of the two download tabs
  // ---------------------------------------------------------------------

  /** Both download tabs show the published command once a download has
      completed and nothing is downloading. */
  function CommandBox(t: Tracker): (c: Option<string>)
    ensures c.Some? <==> t.currentCommand != "" && !t.isDownloading && t.downloadComplete
    ensures c.Some? ==> c.value == t.currentCommand
  {
    if t.currentCommand != "" && !t.isDownloading && t.downloadComplete then Some(t.currentCommand) else None
  }

  /** The box disappears when a download starts, appears with the started
      command on the completing tick, and is not affected by the embed and
      playlist intervals. */
  lemma CommandBoxLifecycle(t: Tracker, command: string, ty: DownloadType)
    requires Valid(t)
    ensures CommandBox(StartDownload(t, command, ty)).None?
    ensures Running(t, DownloadStage) && t.progress + 2 >= 100 && t.currentCommand != "" ==>
              CommandBox(Tick(t, DownloadStage)) == Some(t.currentCommand)
    ensures Running(t, DownloadStage) && t.progress + 2 < 100 ==> CommandBox(Tick(t, DownloadStage)).None?
    ensures Running(t, EmbedStage) ==> CommandBox(Tick(t, EmbedStage)) == CommandBox(t)
    ensures Running(t, PlaylistStage) ==> CommandBox(Tick(t, PlaylistStage)) == CommandBox(t)
  {
  }
}
