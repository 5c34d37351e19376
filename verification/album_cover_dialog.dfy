/** The album cover dialog of the download page
    (src/components/downloads/AlbumCoverDialog.tsx): a URL field and a file
    upload that exclude each other, a preview, and an apply that needs one of
    them. */
module AlbumCoverDialog {
  import opened Wrappers
  import opened StatusDisplay
  import opened DownloadStatus

  datatype CoverFile = CoverFile(name: string, size: nat)

  datatype Dialog = Dialog(albumCoverUrl: string, albumCoverFile: Option<CoverFile>, albumCoverPreview: string)

  function Init(): (d: Dialog)
    ensures d.albumCoverUrl == "" && d.albumCoverFile.None? && d.albumCoverPreview == ""
  {
    Dialog("", None, "")
  }

  /** File and URL exclude each other: with a file chosen the URL is empty. */
  predicate Valid(d: Dialog) {
    d.albumCoverFile.Some? ==> d.albumCoverUrl == ""
  }

  /** The URL field accepts input only while no file is chosen. */
  predicate UrlInputEnabled(d: Dialog) {
    d.albumCoverFile.None?
  }

  /** `handleFileChange`: the first chosen file becomes the cover, previewed
      under the browser's object URL (a parameter here), and the URL field is
      emptied.  Choosing nothing changes nothing. */
  function HandleFileChange(d: Dialog, files: seq<CoverFile>, objectUrl: string): (r: Dialog)
    ensures |files| == 0 ==> r == d
    ensures |files| > 0 ==> r.albumCoverFile == Some(files[0]) && r.albumCoverPreview == objectUrl
                            && r.albumCoverUrl == ""
  {
    if |files| == 0 then d else Dialog("", Some(files[0]), objectUrl)
  }

  /** Typing in the URL field (possible only without a file): a non-empty
      URL is previewed and drops any file; emptying the field touches
      nothing else. */
  function TypeUrl(d: Dialog, value: string): (r: Dialog)
    ensures !UrlInputEnabled(d) ==> r == d
    ensures UrlInputEnabled(d) ==> r.albumCoverUrl == value
    ensures UrlInputEnabled(d) && value != "" ==> r.albumCoverPreview == value && r.albumCoverFile.None?
    ensures UrlInputEnabled(d) && value == "" ==>
              r.albumCoverPreview == d.albumCoverPreview && r.albumCoverFile == d.albumCoverFile
  {
    if !UrlInputEnabled(d) then d
    else if value != "" then Dialog(value, None, value)
    else d.(albumCoverUrl := "")
  }

  /** The button beside a chosen file: forget the file and its preview.
      Without a file there is no such button. */
  function RemoveFile(d: Dialog): (r: Dialog)
    ensures d.albumCoverFile.Some? ==> r.albumCoverFile.None? && r.albumCoverPreview == ""
                                       && r.albumCoverUrl == d.albumCoverUrl
    ensures d.albumCoverFile.None? ==> r == d
  {
    if d.albumCoverFile.Some? then d.(albumCoverFile := None, albumCoverPreview := "") else d
  }

  /** `handleApplyCover`: refused with neither URL nor file; otherwise
      `onSetAlbumCover` is called and the dialog is left as it is. */
  function HandleApplyCover(d: Dialog): (r: Result<Dialog>)
    ensures r.Err? <==> d.albumCoverUrl == "" && d.albumCoverFile.None?
    ensures r.Err? ==> r.problem == CoverInputRequired
    ensures r.Ok? ==> r.value == d
  {
    if d.albumCoverUrl == "" && d.albumCoverFile.None? then Err(CoverInputRequired) else Ok(d)
  }

  /** The preview image: shown when there is a URL or a preview, and drawn
      from the preview when there is one, else from the URL. */
  function PreviewSource(d: Dialog): (src: Option<string>)
    ensures src.Some? <==> d.albumCoverUrl != "" || d.albumCoverPreview != ""
    ensures src.Some? ==> src.value != ""
    ensures src.Some? && d.albumCoverPreview != "" ==> src.value == d.albumCoverPreview
    ensures src.Some? && d.albumCoverPreview == "" ==> src.value == d.albumCoverUrl
  {
    if d.albumCoverUrl == "" && d.albumCoverPreview == "" then None
    else if d.albumCoverPreview != "" then Some(d.albumCoverPreview)
    else Some(d.albumCoverUrl)
  }

  lemma InitValid()
    ensures Valid(Init())
  {
  }

  /** Every handler keeps file and URL exclusive. */
  lemma HandlersKeepValid(d: Dialog, files: seq<CoverFile>, objectUrl: string, value: string)
    requires Valid(d)
    ensures Valid(HandleFileChange(d, files, objectUrl))
    ensures Valid(TypeUrl(d, value))
    ensures Valid(RemoveFile(d))
  {
  }

  /** Whatever was chosen last wins: a file after a URL empties the URL and
      applies; a URL after removing the file drops nothing else and applies. */
  lemma LastChoiceApplies(d: Dialog, f: CoverFile, objectUrl: string, url: string)
    requires url != ""
    ensures var withFile := HandleFileChange(TypeUrl(d, url), [f], objectUrl);
            withFile.albumCoverUrl == "" && HandleApplyCover(withFile).Ok?
    ensures var withUrl := TypeUrl(RemoveFile(HandleFileChange(d, [f], objectUrl)), url);
            withUrl.albumCoverFile.None? && withUrl.albumCoverUrl == url
            && PreviewSource(withUrl) == Some(url) && HandleApplyCover(withUrl).Ok?
  {
  }

  /** The embedding row follows the tracker's embed stage: it appears at 0
      when embedding starts, still shows 95 after nineteen ticks, and is
      gone once the twentieth tick completes the stage. */
  lemma EmbedRowFollowsEmbedding(t: Tracker, kind: EmbedKind)
    requires DownloadStatus.Valid(t)
    ensures var s := SimulateEmbed(t, kind);
            && ActiveProgress(s.embed) == Some(0)
            && ActiveProgress(Ticks(s, EmbedStage, 19).embed) == Some(95)
            && ActiveProgress(Ticks(s, EmbedStage, 20).embed).None?
  {
    EmbedRunsNineteenTicks(t, kind);
    EmbedCompletesAfterTwentyTicks(t, kind);
  }

  /** Emptying the URL field after typing a URL keeps showing the typed
      image, while applying is refused: the preview is not cleared with the
      field. */
  lemma EmptiedUrlKeepsPreview(d: Dialog, url: string)
    requires UrlInputEnabled(d) && url != ""
    ensures var e := TypeUrl(TypeUrl(d, url), "");
            e.albumCoverUrl == "" && PreviewSource(e) == Some(url) && HandleApplyCover(e).Err?
  {
  }
}
