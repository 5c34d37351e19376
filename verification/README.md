# Audio Vault control panel: a Dafny model of its download and tagging logic

Audio Vault is a browser control panel for the command-line tools spotdl,
yt-dlp and eyeD3. Most of it is React layout, but several of its components
and hooks hold small pieces of deterministic logic. This project models those
pieces as immutable Dafny datatypes and pure functions, and proves what they
promise:

- **The job tracker** (`useDownloadStatus`), in `download_status.dfy`. It
  keeps three stage records: download, embed and playlist. `startDownload`
  resets all three. Every `setInterval` callback is an explicit `Tick`
  transition that exists only while its interval is registered. The download
  step is +2, the embed step +5 and the playlist step +10. Each stage is
  clamped at 100 and then becomes complete. A completed playlist download
  activates the playlist stage; a single download does not.
- **The command builders**, in `commands.dfy`. These build the yt-dlp command
  with its four-way thumbnail table, the spotdl command with its optional
  `--generate-lrc`, the eyeD3 lyrics command and the `find … > name.m3u`
  playlist command. Each builder is paired with its word list. The command is
  always the space-join of its words. Cutting the command at spaces gives the
  words back when no user value contains a space.
- **The two download tabs**, in `youtube_tab.dfy` and `spotify_tab.dfy`. They
  cover:
  - the form and its disabled controls;
  - the URL check;
  - the follow-up embedding that the `onComplete` closure captures when the
    download button is pressed;
  - the lyrics checkbox coupling;
  - the status list, the command box and the follow-up buttons.
- **The status list** (`StatusDisplay`), in `status_display.dfy`. It covers
  which rows appear, in which order, and when a progress bar is drawn.
- **The older downloads page** (`DownloadsPage`), in `downloads_page.dfy`. It
  has one unclamped counter. The counter steps +10 for Spotify and +8 for
  YouTube, and is reset to 0 on the tick after it reaches or passes 100. The YouTube
  counter reaches 104% before the reset.
- **The metadata editor** (`MetadataPage`), in `metadata_page.dfy`. It guesses
  artist and title from a file name of the form `artist - title.ext`. The
  regular expression `\.[^/.]+$` is modelled as a predicate on positions. The
  page also edits one tag field at a time and clears the form.
- **Sign-in** (`AuthContext`), in `auth.dfy`. Login looks up the two built-in
  accounts and stores the match without its password; logout forgets the
  user.
- **The dialogs**:
  - the metadata album-cover dialog (`AlbumCoverUpload`), where a save takes
    its image from the active tab only;
  - the download-page cover dialog (`AlbumCoverDialog`), where file and URL
    exclude each other and the preview takes precedence over the URL;
  - the playlist dialog and the folder dialog, whose create buttons need a
    name.

The shared helpers live in `wrappers.dfy` and `text.dfy`:
- `Option`;
- `Result`, whose error side carries the `Problem` that the source reports in
  a destructive toast;
- substring search;
- JavaScript's `split` and `join` on a separator;
- decimal rendering of numbers for `${n}` in template literals.

Every form handler that the source refuses with a toast returns
`Err(problem)`, and its state is unchanged. Sign-in is the exception. Its
`login` reports failure as `false`, as the source's promise does, and it ends
the loading state whether it succeeds or fails. A press on a disabled control
changes nothing. Browser values that the code obtains from the environment are
parameters:
- `URL.createObjectURL(file)` becomes `objectUrl`;
- `new Date().getFullYear()` becomes `currentYear`.

## Model

| member | source | states |
|---|---|---|
| `StatusDisplay.Render` | src/components/downloads/StatusDisplay.tsx:16-33 | The download item is always present and first. A processing or playlist item is present exactly when that record is supplied, and it shows that record. Items appear strictly in the order Download, Processing, Playlist. A bar is drawn on an item exactly when the item is active with 0 < progress < 100. |
| `DownloadStatus.Init` | src/hooks/useDownloadStatus.ts:13-37 | The first state: all three records are pending/0 "Not started", nothing is downloading or complete, the command is empty, no interval runs, and the tracker invariant holds. |
| `DownloadStatus.StartDownload` | src/hooks/useDownloadStatus.ts:39-62 | Whatever the prior state, download becomes active/0 "Starting download...", while embed and playlist become pending/0 "Waiting for download to complete". It also sets downloading = true, progress = 0, complete = false and the given command. The download interval is registered with the given type. The invariant is preserved. |
| `DownloadStatus.DownloadTick` | src/hooks/useDownloadStatus.ts:65-108 | The tick completes (and `onComplete` runs) exactly when progress + 2 ≥ 100. Otherwise progress grows by exactly 2 with a "Downloading... (n%)" message. On completion: download is complete/100, downloading stops, complete is set and the interval is cleared. The playlist stage becomes active "Ready to create playlist" exactly for the playlist type and is untouched for a single download. The embed record, the other intervals and the command are unchanged. The invariant is preserved. |
| `DownloadStatus.SimulateEmbed` | src/hooks/useDownloadStatus.ts:111-158 | For lyrics or thumbnails: the embed stage becomes active/0 with that simulation's start message and the embed interval is registered. Nothing else changes. The invariant is preserved. |
| `DownloadStatus.EmbedTick` | src/hooks/useDownloadStatus.ts:125-180 | Below 100, embed progress grows by exactly 5 with the kind's "Embedding … (n%)..." message and the interval keeps running. At ≥ 100 the stage becomes the kind's complete/100 record and the interval is cleared. Nothing outside the embed stage changes. |
| `DownloadStatus.CreatePlaylist` | src/hooks/useDownloadStatus.ts:183-199 | Always reports success, even for an empty name. The playlist stage becomes active/0 "Creating playlist...", the published command is exactly the `find` command for that name and directory, and the playlist interval is registered. Nothing else changes. |
| `DownloadStatus.PlaylistTick` | src/hooks/useDownloadStatus.ts:201-226 | Below 100, playlist progress grows by exactly 10 with a "Creating playlist (n%)..." message. At ≥ 100 it becomes complete/100 "Playlist created successfully" and the interval is cleared. Nothing outside the playlist stage changes. |
| `DownloadStatus.TickAdvances` | src/hooks/useDownloadStatus.ts:65-226 | For any running stage, one tick keeps the invariant and strictly increases that stage's progress. Below 100 it adds exactly the stage's step and keeps the status and the interval. Otherwise the stage is complete at 100 and its interval is gone. |
| `DownloadStatus.TickIsolated` | src/hooks/useDownloadStatus.ts:65-226 | Only the ticked stage changes. Embed and playlist ticks leave the download record, counter, flags and command alone. Download and playlist ticks leave the embed stage alone. An embed tick leaves the playlist stage alone. |
| `DownloadStatus.TicksProgress` | src/hooks/useDownloadStatus.ts:65-226 | After k ticks of a running stage starting at progress p: if p + k·step < 100, the stage stands at exactly p + k·step and is still running with its status kept. From the first tick that reaches 100 onward, it is complete at 100 and no longer running. The invariant holds throughout. |
| `DownloadStatus.DownloadTicksIsolated` | src/hooks/useDownloadStatus.ts:65-108 | Any number of download ticks leave the embed record, the other intervals and the command unchanged. Before completion they also leave the playlist record unchanged. |
| `DownloadStatus.DownloadRunsFortyNineTicks` | src/hooks/useDownloadStatus.ts:65-106 | After 49 ticks, a freshly started download is still active at 98% with its captured type, and embed and playlist are still waiting. |
| `DownloadStatus.DownloadCompletesAfterFiftyTicks` | src/hooks/useDownloadStatus.ts:65-108 | The 50th tick completes the download at 100 and ends the downloading state. Afterwards, embed is still waiting, the playlist stage is "Ready to create playlist" exactly for the playlist type, and it is still waiting for a single download. |
| `DownloadStatus.EmbedRunsNineteenTicks` | src/hooks/useDownloadStatus.ts:111-158 | After 19 ticks, a started embedding of either kind is still active at 95%, with its interval of the same kind running. |
| `DownloadStatus.EmbedCompletesAfterTwentyTicks` | src/hooks/useDownloadStatus.ts:111-181 | The 20th tick completes a started embedding with the kind's final record and clears its interval. |
| `DownloadStatus.PlaylistCompletesAfterTenTicks` | src/hooks/useDownloadStatus.ts:183-229 | A started playlist creation is still running at 90% after 9 ticks and complete "Playlist created successfully" after the 10th. |
| `DownloadStatus.StartDownloadAbsorbs` | src/hooks/useDownloadStatus.ts:39-62 | The reset forgets what came before: starting twice equals starting once with the second command and type. |
| `Commands.ThumbnailFlags` | src/components/downloads/YoutubeDownloadTab.tsx:57-64 | The thumbnail slot is empty exactly when neither thumbnail box is ticked. |
| `Commands.ThumbnailFlagTable` | src/components/downloads/YoutubeDownloadTab.tsx:57-64 | The four-row table: both boxes give `--write-all-thumbnails --embed-thumbnail`; embed alone gives `--embed-thumbnail`; write-all alone gives `--write-all-thumbnails`; neither gives the empty string. |
| `Commands.ThumbnailWords` | src/components/downloads/YoutubeDownloadTab.tsx:57-64 | The thumbnail words contain `--embed-thumbnail` exactly when embedding is chosen, and `--write-all-thumbnails` exactly when write-all is chosen. They contain no spaces, and with no option they are a single empty word, which is the double space of the command. |
| `Commands.ThumbnailWordsJoin` | src/components/downloads/YoutubeDownloadTab.tsx:57-64 | Joining the thumbnail words with spaces gives back the flag text that is spliced into the command. |
| `Commands.PlaylistFlag` | src/components/downloads/YoutubeDownloadTab.tsx:66 | `--yes-playlist` exactly for the playlist type, `--no-playlist` exactly for a single download. |
| `Commands.YtDlpCommandIsJoin` | src/components/downloads/YoutubeDownloadTab.tsx:67 | For all inputs, the yt-dlp command is the space-join of its words: `yt-dlp`, the bare URL, `-x --audio-format mp3 --audio-quality <b>k`, the thumbnail words, the playlist flag, `-o` and the quoted `<dir>/%(title)s.%(ext)s`. |
| `Commands.YtDlpCommandSplits` | src/components/downloads/YoutubeDownloadTab.tsx:67 | When neither the URL nor the directory contains a space, cutting the yt-dlp command at spaces gives exactly its words. In particular the unquoted URL is exactly one argument, and an unset thumbnail slot is one empty argument. |
| `Commands.LyricsFlag` | src/components/downloads/SpotifyDownloadTab.tsx:52 | `--generate-lrc` exactly when lyrics files are requested, and empty otherwise. |
| `Commands.SpotdlCommandIsJoin` | src/components/downloads/SpotifyDownloadTab.tsx:52 | For all inputs, the spotdl command is the space-join of `spotdl download "<url>" --output "<dir>" --format mp3 --bitrate <b>k` and the lyrics word, so a missing `--generate-lrc` leaves a trailing space. |
| `Commands.SpotdlCommandSplits` | src/components/downloads/SpotifyDownloadTab.tsx:52 | When neither the URL nor the directory contains a space, cutting the spotdl command at spaces gives exactly its words. |
| `Commands.EyeD3LyricsCommandIsJoin` | src/components/downloads/SpotifyDownloadTab.tsx:65 | For every directory, the eyeD3 command is the space-join of `find "<dir>" -name "*.mp3" -exec eyeD3 --add-lyrics="{}.lrc" {} \;`. It depends on the output directory alone. |
| `Commands.EyeD3LyricsCommandSplits` | src/components/downloads/SpotifyDownloadTab.tsx:65 | When the directory contains no space, cutting the eyeD3 command at spaces gives exactly its words. |
| `Commands.PlaylistCommandIsJoin` | src/hooks/useDownloadStatus.ts:197 | For every name and directory, the playlist command is the space-join of `find "<dir>" -name "*.mp3" > "<dir>/<name>.m3u"`. |
| `Commands.PlaylistCommandSplits` | src/hooks/useDownloadStatus.ts:197 | When neither the name nor the directory contains a space, cutting the playlist command at spaces gives exactly its words. |
| `YoutubeTab.Init` | src/components/downloads/YoutubeDownloadTab.tsx:27-32 | The form starts as: empty URL, `/youtube`, embed thumbnails on, write-all off, single, 320 kbps. The tracker starts fresh. |
| `YoutubeTab.ApplyEdit` | src/components/downloads/YoutubeDownloadTab.tsx:89-185 | While a download runs, every control is disabled and an edit changes nothing. Otherwise exactly the edited form field takes the new value. The tracker is never touched. |
| `YoutubeTab.HandleDownload` | src/components/downloads/YoutubeDownloadTab.tsx:46-79 | While a download runs, the button is disabled and a press changes nothing. Otherwise it is refused with "URL required" exactly when the URL is empty. On success the tracker is reset as `startDownload` does: progress 0, not complete, download "Starting download...", embed and playlist waiting, and the embed and playlist intervals kept. It runs exactly the yt-dlp command built from the form, with the form's download type. The completion follow-up is thumbnails exactly when a thumbnail option is ticked. |
| `YoutubeTab.OnDownloadTick` | src/components/downloads/YoutubeDownloadTab.tsx:70-78 | Compared with the tab before the tick: the counter moves 2 up, or to 100 on the tick that reaches 100. For a valid tracker, that tick, and only that one, leaves the download complete and no longer running. The thumbnail stage is started by exactly that tick, and only when thumbnails were asked for when the download started. Otherwise the embed record and interval are untouched. The published command and the form stay. |
| `YoutubeTab.EditKeepsValid` | src/components/downloads/YoutubeDownloadTab.tsx:89-185 | Edits keep the tab invariant. Because the form is frozen while downloading, the captured type and follow-up still match the form. |
| `YoutubeTab.HandleDownloadKeepsValid` | src/components/downloads/YoutubeDownloadTab.tsx:46-79 | A started download keeps the tab invariant. |
| `YoutubeTab.OnDownloadTickKeepsValid` | src/components/downloads/YoutubeDownloadTab.tsx:70-78 | A download tick, including the thumbnail follow-up, keeps the tab invariant. |
| `YoutubeTab.CompletionStartsThumbnails` | src/components/downloads/YoutubeDownloadTab.tsx:73-77 | On the completing tick of a valid tab: with a thumbnail option ticked, the thumbnail embedding starts at "Processing thumbnails..."; without one, the embed stage and interval stay as they were. |
| `YoutubeTab.DownloadRunFromTab` | src/components/downloads/YoutubeDownloadTab.tsx:46-79 | A download started from the tab is at 98% after 49 ticks. The next tick completes it, and the embed stage is then active exactly when a thumbnail option was ticked. |
| `YoutubeTab.StatusPanel` | src/components/downloads/YoutubeDownloadTab.tsx:199-205 | The list is shown exactly while downloading or after completion, with the download record first. The processing row appears exactly for a ticked thumbnail option after completion. The playlist row appears exactly for a completed playlist download. |
| `DownloadStatus.CommandBox` | src/components/downloads/YoutubeDownloadTab.tsx:194-196 | The command box of either tab appears exactly when there is a command, nothing is downloading and the download is complete, and it shows that command. |
| `DownloadStatus.CommandBoxLifecycle` | src/hooks/useDownloadStatus.ts:39-108 | Starting a download hides the box. A tick that has not yet completed the download keeps it hidden. The completing tick shows the started command. Embed and playlist ticks leave the box as it was. |
| `YoutubeTab.FollowUpActions` | src/components/downloads/YoutubeDownloadTab.tsx:217-248 | After completion: Create Playlist exactly for the playlist type; Edit Cover and New Folder always. Before completion: nothing. |
| `YoutubeTab.CommandShownAfterCompletion` | src/components/downloads/YoutubeDownloadTab.tsx:194-196 | After the completing tick, the command box shows exactly the yt-dlp command that the (frozen) form describes. The tab invariant ties the running command to the form. |
| `SpotifyTab.Init` | src/components/downloads/SpotifyDownloadTab.tsx:22-27 | The form starts as: empty URL, `/audio`, generate and embed lyrics on, single, 320 kbps. The tracker starts fresh. |
| `SpotifyTab.ApplyEdit` | src/components/downloads/SpotifyDownloadTab.tsx:80-168 | A disabled control changes nothing. All controls are disabled while downloading, and the embed box is also disabled while lyrics are not generated. Otherwise exactly the edited field changes, except that unticking "generate lyrics" also unticks "embed lyrics". |
| `SpotifyTab.HandleDownload` | src/components/downloads/SpotifyDownloadTab.tsx:41-70 | While a download runs, the button is disabled and a press changes nothing. Otherwise it is refused with "URL required" exactly when the URL is empty. On success the tracker is reset as `startDownload` does: progress 0, not complete, download "Starting download...", embed and playlist waiting, and the embed and playlist intervals kept. It runs exactly the spotdl command built from the form, with the form's type. The follow-up is lyrics exactly when both lyrics boxes are ticked. |
| `SpotifyTab.OnDownloadTick` | src/components/downloads/SpotifyDownloadTab.tsx:55-69 | Compared with the tab before the tick: the counter moves 2 up, or to 100 on the tick that reaches 100. For a valid tracker, that tick, and only that one, leaves the download complete and no longer running. The lyrics stage is started by exactly that tick, and only when both lyrics boxes were ticked when the download started. Otherwise the embed record and interval are untouched. The published command and the form stay. |
| `SpotifyTab.ClickEmbedLyrics` | src/components/downloads/SpotifyDownloadTab.tsx:214-223 | The manual button starts the lyrics embedding when it is offered. It changes nothing otherwise, so a newly registered embed interval implies the button was offered. |
| `SpotifyTab.InitValid` | src/components/downloads/SpotifyDownloadTab.tsx:24-25 | The initial tab satisfies the invariant, including "embed lyrics implies generate lyrics". |
| `SpotifyTab.EditKeepsValid` | src/components/downloads/SpotifyDownloadTab.tsx:148-168 | Every control edit keeps "embed lyrics implies generate lyrics" and the rest of the tab invariant. |
| `SpotifyTab.HandleDownloadKeepsValid` | src/components/downloads/SpotifyDownloadTab.tsx:41-70 | A started download keeps the tab invariant. |
| `SpotifyTab.OnDownloadTickKeepsValid` | src/components/downloads/SpotifyDownloadTab.tsx:55-69 | A download tick, including the lyrics follow-up, keeps the tab invariant. |
| `SpotifyTab.ClickEmbedLyricsKeepsValid` | src/components/downloads/SpotifyDownloadTab.tsx:214-223 | The manual embed keeps the tab invariant. |
| `SpotifyTab.CompletionStartsLyrics` | src/components/downloads/SpotifyDownloadTab.tsx:58-61 | On the completing tick: with both lyrics boxes ticked, the lyrics embedding starts at "Starting lyrics embedding..."; otherwise the embed stage and interval stay as they were. |
| `SpotifyTab.LyricsEmbeddedOneWay` | src/components/downloads/SpotifyDownloadTab.tsx:214-223 | After a completed download with lyrics files, exactly one of automatic embedding and the manual button applies. |
| `SpotifyTab.NoLyricsNoEmbedding` | src/components/downloads/SpotifyDownloadTab.tsx:214 | Without lyrics files, neither automatic embedding nor the manual button applies. |
| `SpotifyTab.DownloadRunFromTab` | src/components/downloads/SpotifyDownloadTab.tsx:41-70 | A download started from the tab is at 98% after 49 ticks. The next tick completes it, and the embed stage is then active exactly when both lyrics boxes were ticked. |
| `SpotifyTab.StatusPanel` | src/components/downloads/SpotifyDownloadTab.tsx:185-191 | The list is shown exactly while downloading or after completion. The processing row appears exactly when lyrics are embedded automatically, even during the download. The playlist row appears exactly for a completed playlist download. |
| `SpotifyTab.FollowUpActions` | src/components/downloads/SpotifyDownloadTab.tsx:203-234 | After completion: Create Playlist and Edit Cover always, and Embed Lyrics exactly when the manual embed is offered. Before completion: nothing. |
| `SpotifyTab.CommandShownAfterCompletion` | src/components/downloads/SpotifyDownloadTab.tsx:180-182 | After the completing tick, the command box shows exactly the spotdl command that the (frozen) form describes. |
| `DownloadsPage.Init` | src/pages/DownloadsPage.tsx:12-15 | Both URLs are empty, nothing is downloading and the counter is 0. |
| `DownloadsPage.Start` | src/pages/DownloadsPage.tsx:18-61 | While a download runs, both buttons are disabled and a press changes nothing. Otherwise, for either source, the press is refused with "URL required", page unchanged, exactly when that source's URL is empty. On success, downloading starts at 0 with that source's interval. The URLs are kept. |
| `DownloadsPage.SetUrl` | src/pages/DownloadsPage.tsx:110-118 | Typing sets that source's URL and nothing else. While a download runs the fields are disabled and typing changes nothing. |
| `DownloadsPage.SetUrlThenStart` | src/pages/DownloadsPage.tsx:18-61 | Typing keeps the page invariant. On an idle page, the next press after typing is refused exactly when the typed URL is empty. |
| `DownloadsPage.Tick` | src/pages/DownloadsPage.tsx:33-77 | A counter at ≥ 100 is reset to 0, downloading stops and the interval is cleared. Otherwise the counter grows by the source's step (Spotify 10, YouTube 8) and nothing else changes. |
| `DownloadsPage.StartKeepsValid` | src/pages/DownloadsPage.tsx:18-61 | Starting keeps the page invariant: downloading exactly while an interval runs, counter below 100 + step while it runs, and 0 otherwise. |
| `DownloadsPage.TicksKeepValid` | src/pages/DownloadsPage.tsx:33-77 | Any number of ticks keep that invariant, so progress never exceeds 100 + step − 1: 109 for Spotify and 107 for YouTube. |
| `DownloadsPage.TicksCount` | src/pages/DownloadsPage.tsx:33-77 | Counting from 0, after k ticks the counter is exactly k·step, as long as every earlier value was below 100. |
| `DownloadsPage.SpotifyEndsOnEleventhTick` | src/pages/DownloadsPage.tsx:33-46 | A Spotify download shows 100% after 10 ticks. The 11th tick ends it with the counter back at 0. |
| `DownloadsPage.YoutubeEndsOnFourteenthTick` | src/pages/DownloadsPage.tsx:64-77 | A YouTube download goes from 96% to 104% on the 13th tick, while still downloading. The 14th tick ends it at 0. |
| `DownloadsPage.EndedStaysEnded` | src/pages/DownloadsPage.tsx:33-77 | Once the interval is cleared, further time changes nothing. |
| `DownloadsPage.ProgressShown` | src/pages/DownloadsPage.tsx:121-128 | The percentage and bar are shown exactly while downloading, with the current counter. |
| `MetadataPage.StripExtension` | src/pages/MetadataPage.tsx:39-43 | When the pattern `\.[^/.]+$` matches at position i, the result is the name before i. When it matches nowhere, the name is returned unchanged. |
| `MetadataPage.AddExtensionStrips` | src/pages/MetadataPage.tsx:39-43 | Stripping `base.ext` gives `base` for every non-empty extension without `.` or `/`. |
| `MetadataPage.NoDotUnchanged` | src/pages/MetadataPage.tsx:39-43 | A name without a dot is left unchanged. |
| `MetadataPage.ParseFilename` | src/pages/MetadataPage.tsx:34-44 | With a `" - "` in the name: the artist is the text before the first one, and the title is the next segment without its extension (further segments are dropped). Without one: the artist is empty and the title is the name without its extension. |
| `MetadataPage.ParseFilenameRoundTrip` | src/pages/MetadataPage.tsx:34-44 | `artist - title.ext` parses back to exactly (artist, title). This holds whenever the separator occurs in neither part nor straddles the end of the artist, and the extension is a proper one. |
| `MetadataPage.Init` | src/pages/MetadataPage.tsx:11-20 | No file is selected and all five fields are empty. |
| `MetadataPage.HandleFileChange` | src/pages/MetadataPage.tsx:22-59 | Choosing no file changes nothing. Otherwise the first file is selected; artist and title are guessed from its name; album and genre are emptied. The year field is a decimal numeral without leading zeros whose value is the current year. |
| `MetadataPage.HandleMetadataChange` | src/pages/MetadataPage.tsx:61-67 | With no file selected, the tag inputs are disabled and typing changes nothing. Otherwise the named field takes the typed value. The other four fields and the selected file are always unchanged. |
| `MetadataPage.EditAfterLoad` | src/pages/MetadataPage.tsx:22-67 | Once a file is loaded, typing into any tag field sets that field. |
| `MetadataPage.HandleClearFile` | src/pages/MetadataPage.tsx:77-86 | No file is selected and all five fields are empty. |
| `MetadataPage.ClearForgets` | src/pages/MetadataPage.tsx:77-86 | After any load and edit, clearing returns the page to its initial state. |
| `MetadataPage.EditUndo` | src/pages/MetadataPage.tsx:61-67 | Typing a field's old value back undoes an edit. |
| `Auth.FindAccount` | src/contexts/AuthContext.tsx:52-54 | Finds an account exactly when some account matches both email and password, and then it finds the first one. |
| `Auth.Login` | src/contexts/AuthContext.tsx:45-85 | Succeeds exactly when a built-in account matches both email and password. On success the stored user is that account without its password. On failure the result is `false`, which is where the source shows its failure toast, and the user is unchanged. Loading is off afterwards on every path. |
| `Auth.Logout` | src/contexts/AuthContext.tsx:87-94 | Nobody is signed in afterwards. |
| `Auth.MatchUnique` | src/contexts/AuthContext.tsx:21-24 | The built-in emails differ, so at most one account matches a sign-in. |
| `Auth.KnownAccounts` | src/contexts/AuthContext.tsx:21-65 | The two built-in sign-ins succeed and store `1/admin/admin@example.com` and `2/user/user@example.com`. |
| `Auth.WrongPasswordRefused` | src/contexts/AuthContext.tsx:21-73 | Any password other than `password123` is refused, even for a known email, and the user is unchanged. |
| `Auth.LogoutAfterLogin` | src/contexts/AuthContext.tsx:45-94 | Logging out after any login attempt leaves the same session as logging out before it, with loading off. |
| `AlbumCoverUpload.Init` | src/components/metadata/AlbumCoverUpload.tsx:30-33 | Nothing is chosen or previewed, and the upload tab is active. |
| `AlbumCoverUpload.HandleFileChange` | src/components/metadata/AlbumCoverUpload.tsx:38-56 | Choosing nothing changes nothing. A file whose type does not start with `image/` is refused with "Invalid file type" and the state is kept. An image becomes the uploaded file and is previewed under its object URL, with nothing else changed. |
| `AlbumCoverUpload.SetUrl` | src/components/metadata/AlbumCoverUpload.tsx:141 | Only the URL field changes. |
| `AlbumCoverUpload.SetTab` | src/components/metadata/AlbumCoverUpload.tsx:102 | Only the active tab changes. |
| `AlbumCoverUpload.HandleUrlPreview` | src/components/metadata/AlbumCoverUpload.tsx:58-69 | Refused with "URL required" exactly when the URL is empty. Otherwise the preview becomes the URL and nothing else changes. |
| `AlbumCoverUpload.HandleSave` | src/components/metadata/AlbumCoverUpload.tsx:71-90 | Saves exactly when the upload tab is active with a file, or the URL tab is active with a non-empty URL. It hands over the file or the URL of the active tab, and afterwards file, URL and preview are cleared and the dialog is closed. Otherwise it is refused with "No image selected". |
| `AlbumCoverUpload.Cancel` | src/components/metadata/AlbumCoverUpload.tsx:184-193 | File, URL and preview are cleared and the dialog closes; the tab is kept. |
| `AlbumCoverUpload.SaveEndsLikeCancel` | src/components/metadata/AlbumCoverUpload.tsx:85-193 | A successful save ends in exactly the state a cancel would. |
| `AlbumCoverUpload.SaveIgnoresInactiveTab` | src/components/metadata/AlbumCoverUpload.tsx:71-83 | The inactive tab's content is never saved: on the URL tab with an empty URL, and on the upload tab with no file, the save is refused. |
| `AlbumCoverUpload.ChosenImageIsSaved` | src/components/metadata/AlbumCoverUpload.tsx:38-83 | An image chosen on the upload tab is exactly what the next save hands over. |
| `AlbumCoverUpload.TypedUrlIsSaved` | src/components/metadata/AlbumCoverUpload.tsx:58-76 | A non-empty URL typed on the URL tab previews as that URL, and the next save hands over exactly that URL, even with a file uploaded on the other tab. |
| `AlbumCoverUpload.TabDecidesSave` | src/components/metadata/AlbumCoverUpload.tsx:71-76 | With both a file and a URL set, the upload tab saves the file and the URL tab saves the URL. |
| `AlbumCoverDialog.Init` | src/components/downloads/AlbumCoverDialog.tsx:27-29 | URL, file and preview all start empty. |
| `AlbumCoverDialog.HandleFileChange` | src/components/downloads/AlbumCoverDialog.tsx:34-49 | Choosing nothing changes nothing. Otherwise the first file is set, the preview is its object URL and the URL field is emptied. |
| `AlbumCoverDialog.TypeUrl` | src/components/downloads/AlbumCoverDialog.tsx:76-85 | With a file chosen the field is disabled and nothing changes. Otherwise the field takes the value. A non-empty value also becomes the preview and drops the file. Emptying the field keeps the preview and the file. |
| `AlbumCoverDialog.RemoveFile` | src/components/downloads/AlbumCoverDialog.tsx:107-115 | With a file chosen, file and preview are cleared and the URL is kept. Without a file there is no button, so nothing changes. |
| `AlbumCoverDialog.HandleApplyCover` | src/components/downloads/AlbumCoverDialog.tsx:51-62 | Refused with "input required" exactly when there is neither URL nor file. Otherwise the cover is applied with the dialog unchanged. |
| `AlbumCoverDialog.PreviewSource` | src/components/downloads/AlbumCoverDialog.tsx:128-131 | The preview image is shown exactly when there is a URL or a preview. It is drawn from the preview when there is one, otherwise from the URL, and its source is never empty. |
| `AlbumCoverDialog.EmbedRowFollowsEmbedding` | src/components/downloads/AlbumCoverDialog.tsx:141-149 | The embedding row appears at 0% when an embedding starts, still shows 95% after nineteen ticks, and is gone after the twentieth tick completes the stage. |
| `AlbumCoverDialog.HandlersKeepValid` | src/components/downloads/AlbumCoverDialog.tsx:34-115 | Choosing a file, typing a URL and removing the file all keep file and URL exclusive. |
| `AlbumCoverDialog.LastChoiceApplies` | src/components/downloads/AlbumCoverDialog.tsx:34-85 | Whatever was chosen last applies. A file after a URL empties the URL and can be applied. A URL after removing the file is previewed and can be applied. |
| `AlbumCoverDialog.EmptiedUrlKeepsPreview` | src/components/downloads/AlbumCoverDialog.tsx:76-82 | Emptying the URL field after typing a URL keeps showing the typed image, while applying is refused. |
| `PlaylistDialog.Init` | src/components/downloads/PlaylistDialog.tsx:28-29 | The name starts empty and the directory starts at the given output directory. |
| `PlaylistDialog.HandleCreate` | src/components/downloads/PlaylistDialog.tsx:33-48 | Refused with "input required" exactly when the name is empty. Otherwise exactly the typed name and directory are handed on. The dialog's fields are unchanged either way; the source keeps them whatever the callee reports. |
| `StatusDisplay.ActiveProgress` | src/components/downloads/PlaylistDialog.tsx:76-78 | The dialog's bar is drawn exactly while the stage is active, at the stage's progress. The album cover dialog's embedding row follows the same rule. |
| `StatusDisplay.DialogBarCoversListBar` | src/components/downloads/StatusDisplay.tsx:21-23 | Wherever the status list draws a bar, the dialogs draw one at the same progress. The dialogs also draw a bar, where the list does not, for exactly the active stages at 0% or at 100% or beyond. |
| `PlaylistDialog.CreateForwardsToTracker` | src/components/downloads/PlaylistDialog.tsx:43 | An accepted request, handed to the tracker's `createPlaylist`, publishes the `find` command for exactly the typed name and directory, and the bar appears at 0. |
| `PlaylistDialog.BarGoneWhenDone` | src/components/downloads/PlaylistDialog.tsx:76-78 | The bar shows 90% after nine playlist ticks and disappears after the tenth. |
| `FolderDialog.Init` | src/components/downloads/FolderDialog.tsx:24-25 | The name starts empty and the parent directory starts at the given initial directory. |
| `FolderDialog.HandleCreate` | src/components/downloads/FolderDialog.tsx:29-41 | Refused with "input required", dialog unchanged, exactly when the name is empty. Otherwise exactly name and parent directory are handed on, the name is emptied and the parent is kept. |
| `FolderDialog.CreateTwiceRefused` | src/components/downloads/FolderDialog.tsx:29-41 | A second create without typing a new name is refused. |
| `FolderDialog.CreateKeepsParent` | src/components/downloads/FolderDialog.tsx:29-41 | Creating two folders by typing only names hands on the same parent directory both times. |

## Left out

- `src/server.js` is not part of this model. It passes a request body to `child_process.exec`, which is process I/O with nothing to verify. Because the yt-dlp URL is not quoted, a URL containing shell syntax would reach that shell unchanged. `Commands.YtDlpCommandSplits` states the benign case only.
- Interval periods (300, 200, 150, 500 and 400 ms) are left out. Each interval is one abstract tick transition.
- Overlapping intervals of one stage are left out. Pressing "Embed Lyrics" again, or calling `createPlaylist` while an earlier interval still runs, would leave two intervals racing on one record. In the model a restart replaces the stage's interval.
- Interleavings of different stages' intervals are left out. Each stage is stepped on its own with `Ticks`. `TickIsolated` states which records each tick leaves alone.
- React's asynchronous state batching and stale closures are left out. The `onComplete` closure is modelled as a decision captured when the button is pressed. This matches the form being frozen while the download runs.
- The transient "Download complete!" message written one statement before the final record (src/hooks/useDownloadStatus.ts:70-74) is left out. It is overwritten in the same callback.
- Toasts are left out as notifications. A destructive toast that aborts a handler is the `Err` side of a `Result`.
- The `console.log` of the eyeD3 command and `URL.revokeObjectURL` have no effect on state and are left out.
- The image `onError` placeholder fallback and the file-size label in the cover dialog are rendering only and are left out.
- `URL.createObjectURL` and `new Date().getFullYear()` read the browser and the clock. They are parameters (`objectUrl`, `currentYear`).
- The `error` status exists in the type, and nothing sets it. The tracker invariant states that it never occurs. No error transition is modelled.
- The `catch` branch of `login` is left out. The lookup it guards cannot throw in the model.
- The simulated 500 ms delay of `login` and the `isLoading = true` before it are left out. Only the state after `login` returns is modelled.
- The localStorage persistence of the signed-in user is left out, together with its restore on first load (src/contexts/AuthContext.tsx:31-43). The same goes for `src/hooks/useTheme.ts` and `src/pages/SettingsPage.tsx`. All of this is browser storage.
- `src/components/settings/ProfileSettingsDialog.tsx` is not part of this model. It holds a single password-presence check whose inputs go nowhere.
- The routing and layout files are not part of this model. These are `App.tsx`, `MainLayout.tsx`, `Sidebar.tsx`, `LoginPage.tsx`, `LoginForm.tsx`, `DashboardPage.tsx`, `PageHeader.tsx` and `CommandDisplay.tsx`. They contain no logic beyond navigation and rendering.
- Opening and closing the dialogs through `onOpenChange` is left out, except where a handler closes its own dialog. The same goes for the playlist dialog's `isYoutube` label prop.
- `AlbumCoverUpload` tracks `isOpen` as its own field. In the source it is the parent's prop, set through `onOpenChange`.
- The metadata page's save button only shows a toast, so it is left out.
