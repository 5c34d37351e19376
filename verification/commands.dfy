/** Command synthesis: the shell command strings the download tabs and the
    tracker build from form state, for yt-dlp, spotdl, eyeD3 and `find`.

    Every builder is pure template concatenation. Each one is paired with
    its word list, the arguments a reader sees when the command is cut at
    single spaces. The command is always the space-join of its words, and
    cutting it at spaces gives the words back exactly when no user-supplied
    value contains a space. An empty template slot shows up as an empty word:
    the double space left by empty thumbnail flags and the trailing space
    left by a missing `--generate-lrc`. */
module Commands {
  import opened Text

  /** Download type selected on a tab. */
  datatype DownloadType = Single | Playlist

  /** The four bitrates offered by the bitrate selector. */
  datatype Bitrate = Kbps128 | Kbps192 | Kbps256 | Kbps320 {
    function Text(): string {
      match this
      case Kbps128 => "128"
      case Kbps192 => "192"
      case Kbps256 => "256"
      case Kbps320 => "320"
    }
  }

  function Quote(s: string): string {
    "\"" + s + "\""
  }

  // ---------------------------------------------------------------------
  // yt-dlp
  // ---------------------------------------------------------------------

  /** The thumbnail options chosen by the two independent checkboxes. */
  function ThumbnailFlags(embed: bool, writeAll: bool): (flags: string)
    ensures flags == "" <==> !embed && !writeAll
  {
    if embed && writeAll then "--write-all-thumbnails" + " " + "--embed-thumbnail"
    else if embed then "--embed-thumbnail"
    else if writeAll then "--write-all-thumbnails"
    else ""
  }

  /** The words of the thumbnail slot; a single empty word when no option is set. */
  function ThumbnailWords(embed: bool, writeAll: bool): (ws: seq<string>)
    ensures |ws| >= 1 && Spaceless(ws)
    ensures "--embed-thumbnail" in ws <==> embed
    ensures "--write-all-thumbnails" in ws <==> writeAll
  {
    if embed && writeAll then ["--write-all-thumbnails", "--embed-thumbnail"]
    else if embed then ["--embed-thumbnail"]
    else if writeAll then ["--write-all-thumbnails"]
    else [""]
  }

  /** The thumbnail words join to the flag string of the same options. */
  lemma ThumbnailWordsJoin(embed: bool, writeAll: bool)
    ensures Join(ThumbnailWords(embed, writeAll), " ") == ThumbnailFlags(embed, writeAll)
  {
    if embed && writeAll {
      Join2("--write-all-thumbnails", "--embed-thumbnail", " ");
    }
  }

  /** The four-row table of thumbnail options. */
  lemma ThumbnailFlagTable()
    ensures ThumbnailFlags(true, true) == "--write-all-thumbnails --embed-thumbnail"
    ensures ThumbnailFlags(true, false) == "--embed-thumbnail"
    ensures ThumbnailFlags(false, true) == "--write-all-thumbnails"
    ensures ThumbnailFlags(false, false) == ""
  {
  }

  /** `--yes-playlist` for a playlist download, `--no-playlist` otherwise. */
  function PlaylistFlag(ty: DownloadType): (flag: string)
    ensures flag == "--yes-playlist" <==> ty == Playlist
    ensures flag == "--no-playlist" <==> ty == Single
  {
    match ty
    case Playlist => "--yes-playlist"
    case Single => assert "--no-playlist"[2] != "--yes-playlist"[2]; "--no-playlist"
  }

  const OutputTemplate: string := "/%(title)s.%(ext)s"

  /** The yt-dlp command; the URL is not quoted, the output template is. */
  function YtDlpCommand(url: string, outputDir: string, embed: bool, writeAll: bool,
                        ty: DownloadType, bitrate: Bitrate): string
  {
    "yt-dlp" + " " + url + " " + "-x" + " " + "--audio-format" + " " + "mp3" + " " + "--audio-quality"
    + " " + (bitrate.Text() + "k") + " " + ThumbnailFlags(embed, writeAll) + " " + PlaylistFlag(ty)
    + " " + "-o" + " " + Quote(outputDir + OutputTemplate)
  }

  /** The command always starts with the program name, so it is never empty. */
  lemma YtDlpCommandNotEmpty(url: string, outputDir: string, embed: bool, writeAll: bool,
                             ty: DownloadType, bitrate: Bitrate)
    ensures |YtDlpCommand(url, outputDir, embed, writeAll, ty, bitrate)| > 6
  {
  }

  function YtDlpWords(url: string, outputDir: string, embed: bool, writeAll: bool,
                      ty: DownloadType, bitrate: Bitrate): seq<string>
  {
    ["yt-dlp", url, "-x", "--audio-format", "mp3", "--audio-quality", bitrate.Text() + "k"]
    + ThumbnailWords(embed, writeAll)
    + [PlaylistFlag(ty), "-o", Quote(outputDir + OutputTemplate)]
  }

  /** The yt-dlp command is the space-join of its words. */
  lemma YtDlpCommandIsJoin(url: string, outputDir: string, embed: bool, writeAll: bool,
                           ty: DownloadType, bitrate: Bitrate)
    ensures YtDlpCommand(url, outputDir, embed, writeAll, ty, bitrate)
         == Join(YtDlpWords(url, outputDir, embed, writeAll, ty, bitrate), " ")
  {
    YtDlpWordsJoined(url, outputDir, embed, writeAll, ty, bitrate);
    YtDlpShape("yt-dlp", url, "-x", "--audio-format", "mp3", "--audio-quality", bitrate.Text() + "k",
               ThumbnailFlags(embed, writeAll), PlaylistFlag(ty), "-o", Quote(outputDir + OutputTemplate), " ");
  }

  lemma YtDlpWordsJoined(url: string, outputDir: string, embed: bool, writeAll: bool,
                         ty: DownloadType, bitrate: Bitrate)
    ensures Join(YtDlpWords(url, outputDir, embed, writeAll, ty, bitrate), " ")
         == ("yt-dlp" + " " + url + " " + "-x") + " "
            + (("--audio-format" + " " + "mp3" + " " + "--audio-quality") + " "
               + ((bitrate.Text() + "k") + " "
                  + (ThumbnailFlags(embed, writeAll) + " "
                     + (PlaylistFlag(ty) + " " + "-o" + " " + Quote(outputDir + OutputTemplate)))))
  {
    var a := ["yt-dlp", url, "-x"];
    var b := ["--audio-format", "mp3", "--audio-quality"];
    var c := [bitrate.Text() + "k"];
    var thumbs := ThumbnailWords(embed, writeAll);
    var tail := [PlaylistFlag(ty), "-o", Quote(outputDir + OutputTemplate)];
    ThumbnailWordsJoin(embed, writeAll);
    assert YtDlpWords(url, outputDir, embed, writeAll, ty, bitrate) == a + (b + (c + (thumbs + tail)));
    JoinAppend(thumbs, tail, " ");
    JoinAppend(c, thumbs + tail, " ");
    JoinAppend(b, c + (thumbs + tail), " ");
    JoinAppend(a, b + (c + (thumbs + tail)), " ");
    Join3("yt-dlp", url, "-x", " ");
    Join3("--audio-format", "mp3", "--audio-quality", " ");
    Join3(PlaylistFlag(ty), "-o", Quote(outputDir + OutputTemplate), " ");
  }

  /** Cutting the yt-dlp command at spaces recovers its words when neither
      the URL nor the directory holds a space: the URL is exactly one argument. */
  lemma YtDlpCommandSplits(url: string, outputDir: string, embed: bool, writeAll: bool,
                           ty: DownloadType, bitrate: Bitrate)
    requires ' ' !in url && ' ' !in outputDir
    ensures Split(YtDlpCommand(url, outputDir, embed, writeAll, ty, bitrate), " ")
         == YtDlpWords(url, outputDir, embed, writeAll, ty, bitrate)
  {
    YtDlpCommandIsJoin(url, outputDir, embed, writeAll, ty, bitrate);
    YtDlpWordsSpaceless(url, outputDir, embed, writeAll, ty, bitrate);
    SplitJoin(YtDlpWords(url, outputDir, embed, writeAll, ty, bitrate), ' ');
  }

  lemma YtDlpWordsSpaceless(url: string, outputDir: string, embed: bool, writeAll: bool,
                            ty: DownloadType, bitrate: Bitrate)
    requires ' ' !in url && ' ' !in outputDir
    ensures Spaceless(YtDlpWords(url, outputDir, embed, writeAll, ty, bitrate))
  {
    var head := ["yt-dlp", url, "-x", "--audio-format", "mp3", "--audio-quality", bitrate.Text() + "k"];
    var tail := [PlaylistFlag(ty), "-o", Quote(outputDir + OutputTemplate)];
    BitrateNoSpace(bitrate);
    assert Spaceless(tail) by {
      QuoteNoSpace(outputDir + OutputTemplate);
    }
    SpacelessConcat(head, ThumbnailWords(embed, writeAll));
    SpacelessConcat(head + ThumbnailWords(embed, writeAll), tail);
  }

  /** Regrouping the command's words the way the join of the word list
      nests them. */
  lemma YtDlpShape(w0: string, w1: string, w2: string, w3: string, w4: string, w5: string, w6: string,
                   w7: string, w8: string, w9: string, w10: string, sp: string)
    ensures w0 + sp + w1 + sp + w2 + sp + w3 + sp + w4 + sp + w5 + sp + w6 + sp + w7 + sp + w8 + sp + w9 + sp + w10
         == (w0 + sp + w1 + sp + w2) + sp + ((w3 + sp + w4 + sp + w5) + sp + (w6 + sp + (w7 + sp + (w8 + sp + w9 + sp + w10))))
  {
  }

  // ---------------------------------------------------------------------
  // spotdl and eyeD3
  // ---------------------------------------------------------------------

  /** `--generate-lrc` exactly when lyrics files are requested. */
  function LyricsFlag(generateLyrics: bool): (flag: string)
    ensures flag == "--generate-lrc" <==> generateLyrics
    ensures flag == "" <==> !generateLyrics
  {
    if generateLyrics then "--generate-lrc" else ""
  }

  /** The spotdl command `spotdl download "<url>" --output "<dir>" --format mp3
      --bitrate <b>k <lrc>`, written word by word; URL and output directory
      are quoted. */
  function SpotdlCommand(url: string, outputDir: string, bitrate: Bitrate, generateLyrics: bool): string
  {
    "spotdl" + " " + "download" + " " + Quote(url) + " " + "--output" + " " + Quote(outputDir)
    + " " + "--format" + " " + "mp3" + " " + "--bitrate" + " " + (bitrate.Text() + "k")
    + " " + LyricsFlag(generateLyrics)
  }

  /** The command always starts with the program name, so it is never empty. */
  lemma SpotdlCommandNotEmpty(url: string, outputDir: string, bitrate: Bitrate, generateLyrics: bool)
    ensures |SpotdlCommand(url, outputDir, bitrate, generateLyrics)| > 6
  {
  }

  function SpotdlWords(url: string, outputDir: string, bitrate: Bitrate, generateLyrics: bool): seq<string>
  {
    ["spotdl", "download", Quote(url), "--output", Quote(outputDir), "--format", "mp3",
     "--bitrate", bitrate.Text() + "k", LyricsFlag(generateLyrics)]
  }

  /** The spotdl command is the space-join of its words; it always ends in a
      lyrics word, empty when no lyrics are generated (the trailing space). */
  lemma SpotdlCommandIsJoin(url: string, outputDir: string, bitrate: Bitrate, generateLyrics: bool)
    ensures SpotdlCommand(url, outputDir, bitrate, generateLyrics)
         == Join(SpotdlWords(url, outputDir, bitrate, generateLyrics), " ")
  {
    SpotdlWordsJoined(url, outputDir, bitrate, generateLyrics);
    SpotdlShape("spotdl", "download", Quote(url), "--output", Quote(outputDir), "--format", "mp3",
                "--bitrate", bitrate.Text() + "k", LyricsFlag(generateLyrics), " ");
  }

  lemma SpotdlWordsJoined(url: string, outputDir: string, bitrate: Bitrate, generateLyrics: bool)
    ensures Join(SpotdlWords(url, outputDir, bitrate, generateLyrics), " ")
         == ("spotdl" + " " + "download" + " " + Quote(url)) + " "
            + (("--output" + " " + Quote(outputDir) + " " + "--format") + " "
               + (("mp3" + " " + "--bitrate" + " " + (bitrate.Text() + "k")) + " " + LyricsFlag(generateLyrics)))
  {
    var a := ["spotdl", "download", Quote(url)];
    var b := ["--output", Quote(outputDir), "--format"];
    var c := ["mp3", "--bitrate", bitrate.Text() + "k"];
    var d := [LyricsFlag(generateLyrics)];
    assert SpotdlWords(url, outputDir, bitrate, generateLyrics) == a + (b + (c + d));
    JoinAppend(c, d, " ");
    JoinAppend(b, c + d, " ");
    JoinAppend(a, b + (c + d), " ");
    Join3("spotdl", "download", Quote(url), " ");
    Join3("--output", Quote(outputDir), "--format", " ");
    Join3("mp3", "--bitrate", bitrate.Text() + "k", " ");
  }

  /** Cutting the spotdl command at spaces recovers its words when neither
      the URL nor the directory holds a space: the quoted URL is one argument. */
  lemma SpotdlCommandSplits(url: string, outputDir: string, bitrate: Bitrate, generateLyrics: bool)
    requires ' ' !in url && ' ' !in outputDir
    ensures Split(SpotdlCommand(url, outputDir, bitrate, generateLyrics), " ")
         == SpotdlWords(url, outputDir, bitrate, generateLyrics)
  {
    SpotdlCommandIsJoin(url, outputDir, bitrate, generateLyrics);
    BitrateNoSpace(bitrate);
    QuoteNoSpace(url);
    QuoteNoSpace(outputDir);
    SplitJoin(SpotdlWords(url, outputDir, bitrate, generateLyrics), ' ');
  }

  /** Regrouping the command's words the way the join of the word list
      nests them. */
  lemma SpotdlShape(w0: string, w1: string, w2: string, w3: string, w4: string, w5: string, w6: string,
                    w7: string, w8: string, w9: string, sp: string)
    ensures w0 + sp + w1 + sp + w2 + sp + w3 + sp + w4 + sp + w5 + sp + w6 + sp + w7 + sp + w8 + sp + w9
         == (w0 + sp + w1 + sp + w2) + sp + ((w3 + sp + w4 + sp + w5) + sp + ((w6 + sp + w7 + sp + w8) + sp + w9))
  {
  }

  /** The separate eyeD3 step that embeds each track's `.lrc` file,
      `find "<dir>" -name "*.mp3" -exec eyeD3 --add-lyrics="{}.lrc" {} \;`,
      written word by word; it depends on the output directory alone. */
  function EyeD3LyricsCommand(outputDir: string): string
  {
    "find" + " " + Quote(outputDir) + " " + "-name" + " " + "\"*.mp3\"" + " " + "-exec" + " " + "eyeD3"
    + " " + "--add-lyrics=\"{}.lrc\"" + " " + "{}" + " " + "\\;"
  }

  function EyeD3LyricsWords(outputDir: string): seq<string>
  {
    ["find", Quote(outputDir), "-name", "\"*.mp3\"", "-exec", "eyeD3",
     "--add-lyrics=\"{}.lrc\"", "{}", "\\;"]
  }

  /** The eyeD3 command is the space-join of its words. */
  lemma EyeD3LyricsCommandIsJoin(outputDir: string)
    ensures EyeD3LyricsCommand(outputDir) == Join(EyeD3LyricsWords(outputDir), " ")
  {
    EyeD3LyricsWordsJoined(outputDir);
    NineWordShape("find", Quote(outputDir), "-name", "\"*.mp3\"", "-exec", "eyeD3",
                  "--add-lyrics=\"{}.lrc\"", "{}", "\\;", " ");
  }

  lemma EyeD3LyricsWordsJoined(outputDir: string)
    ensures Join(EyeD3LyricsWords(outputDir), " ")
         == ("find" + " " + Quote(outputDir) + " " + "-name") + " "
            + (("\"*.mp3\"" + " " + "-exec" + " " + "eyeD3") + " " + ("--add-lyrics=\"{}.lrc\"" + " " + "{}" + " " + "\\;"))
  {
    var a := ["find", Quote(outputDir), "-name"];
    var b := ["\"*.mp3\"", "-exec", "eyeD3"];
    var c := ["--add-lyrics=\"{}.lrc\"", "{}", "\\;"];
    assert EyeD3LyricsWords(outputDir) == a + (b + c);
    JoinAppend(b, c, " ");
    JoinAppend(a, b + c, " ");
    Join3("find", Quote(outputDir), "-name", " ");
    Join3("\"*.mp3\"", "-exec", "eyeD3", " ");
    Join3("--add-lyrics=\"{}.lrc\"", "{}", "\\;", " ");
  }

  /** Cutting the eyeD3 command at spaces recovers its words when the
      directory holds no space. */
  lemma EyeD3LyricsCommandSplits(outputDir: string)
    requires ' ' !in outputDir
    ensures Split(EyeD3LyricsCommand(outputDir), " ") == EyeD3LyricsWords(outputDir)
  {
    EyeD3LyricsCommandIsJoin(outputDir);
    QuoteNoSpace(outputDir);
    SplitJoin(EyeD3LyricsWords(outputDir), ' ');
  }

  /** Regrouping nine words the way the join of three three-word lists
      nests them. */
  lemma NineWordShape(w0: string, w1: string, w2: string, w3: string, w4: string, w5: string,
                      w6: string, w7: string, w8: string, sp: string)
    ensures w0 + sp + w1 + sp + w2 + sp + w3 + sp + w4 + sp + w5 + sp + w6 + sp + w7 + sp + w8
         == (w0 + sp + w1 + sp + w2) + sp + ((w3 + sp + w4 + sp + w5) + sp + (w6 + sp + w7 + sp + w8))
  {
  }

  // ---------------------------------------------------------------------
  // Playlist file
  // ---------------------------------------------------------------------

  /** The command that lists the directory's mp3 files into `<name>.m3u`,
      `find "<dir>" -name "*.mp3" > "<dir>/<name>.m3u"`, written word by word. */
  function PlaylistCommand(playlistName: string, outputDir: string): string
  {
    "find" + " " + Quote(outputDir) + " " + "-name" + " " + "\"*.mp3\"" + " " + ">"
    + " " + Quote(outputDir + "/" + playlistName + ".m3u")
  }

  function PlaylistWords(playlistName: string, outputDir: string): seq<string>
  {
    ["find", Quote(outputDir), "-name", "\"*.mp3\"", ">", Quote(outputDir + "/" + playlistName + ".m3u")]
  }

  /** The playlist command is the space-join of its words. */
  lemma PlaylistCommandIsJoin(playlistName: string, outputDir: string)
    ensures PlaylistCommand(playlistName, outputDir) == Join(PlaylistWords(playlistName, outputDir), " ")
  {
    var a := ["find", Quote(outputDir), "-name"];
    var b := ["\"*.mp3\"", ">", Quote(outputDir + "/" + playlistName + ".m3u")];
    assert PlaylistWords(playlistName, outputDir) == a + b;
    JoinAppend(a, b, " ");
    Join3("find", Quote(outputDir), "-name", " ");
    Join3("\"*.mp3\"", ">", Quote(outputDir + "/" + playlistName + ".m3u"), " ");
  }

  /** Cutting the playlist command at spaces recovers its words when neither
      name nor directory holds a space. */
  lemma PlaylistCommandSplits(playlistName: string, outputDir: string)
    requires ' ' !in playlistName && ' ' !in outputDir
    ensures Split(PlaylistCommand(playlistName, outputDir), " ") == PlaylistWords(playlistName, outputDir)
  {
    PlaylistCommandIsJoin(playlistName, outputDir);
    QuoteNoSpace(outputDir);
    QuoteNoSpace(outputDir + "/" + playlistName + ".m3u");
    SplitJoin(PlaylistWords(playlistName, outputDir), ' ');
  }

  // ---------------------------------------------------------------------
  // Helpers
  // ---------------------------------------------------------------------

  /** None of the words holds a space. */
  predicate Spaceless(ws: seq<string>) {
    forall k | 0 <= k < |ws| :: ' ' !in ws[k]
  }

  lemma SpacelessConcat(a: seq<string>, b: seq<string>)
    requires Spaceless(a) && Spaceless(b)
    ensures Spaceless(a + b)
  {
  }

  lemma QuoteNoSpace(s: string)
    requires ' ' !in s
    ensures ' ' !in Quote(s)
  {
  }

  lemma BitrateNoSpace(b: Bitrate)
    ensures ' ' !in b.Text() + "k"
  {
  }

  lemma Join2(a: string, b: string, sep: string)
    ensures Join([a, b], sep) == a + sep + b
  {
    assert [a, b][1..] == [b];
  }

  lemma Join3(a: string, b: string, c: string, sep: string)
    ensures Join([a, b, c], sep) == a + sep + b + sep + c
  {
    Join2(b, c, sep);
    assert [a, b, c][1..] == [b, c];
  }
}
