/** The album cover dialog of the metadata tools
    (src/components/metadata/AlbumCoverUpload.tsx): an upload tab and a URL
    tab, a preview, and a save that takes its image from the active tab
    only. */
module AlbumCoverUpload {
  import opened Wrappers
  import opened Text

  datatype ImageFile = ImageFile(name: string, mimeType: string)

  datatype CoverTab = UploadTab | UrlTab

  datatype Upload = Upload(
    albumCoverUrl: string,
    uploadedFile: Option<ImageFile>,
    previewUrl: string,
    activeTab: CoverTab,
    isOpen: bool)

  /** What is handed to `onSave`: the file or the URL. */
  datatype Saved = SavedFile(file: ImageFile) | SavedUrl(url: string)

  function Init(isOpen: bool): (u: Upload)
    ensures u.albumCoverUrl == "" && u.uploadedFile.None? && u.previewUrl == ""
    ensures u.activeTab == UploadTab && u.isOpen == isOpen
  {
    Upload("", None, "", UploadTab, isOpen)
  }

  predicate IsImage(f: ImageFile) {
    StartsWith(f.mimeType, "image/")
  }

  /** `handleFileChange`: nothing chosen changes nothing; a file that is not
      an image is refused; an image becomes the uploaded file, previewed
      under the object URL the browser hands out (a parameter here). */
  function HandleFileChange(u: Upload, chosen: Option<ImageFile>, objectUrl: string): (r: Result<Upload>)
    ensures chosen.None? ==> r == Ok(u)
    ensures r.Err? <==> chosen.Some? && !IsImage(chosen.value)
    ensures r.Err? ==> r.problem == InvalidFileType
    ensures chosen.Some? && IsImage(chosen.value) ==>
              r == Ok(u.(uploadedFile := chosen, previewUrl := objectUrl))
  {
    match chosen
    case None => Ok(u)
    case Some(f) =>
      if !IsImage(f) then Err(InvalidFileType)
      else Ok(u.(uploadedFile := Some(f), previewUrl := objectUrl))
  }

  /** Typing in the URL field. */
  function SetUrl(u: Upload, url: string): (r: Upload)
    ensures r.albumCoverUrl == url
    ensures r.(albumCoverUrl := u.albumCoverUrl) == u
  {
    u.(albumCoverUrl := url)
  }

  /** Switching tabs. */
  function SetTab(u: Upload, tab: CoverTab): (r: Upload)
    ensures r.activeTab == tab
    ensures r.(activeTab := u.activeTab) == u
  {
    u.(activeTab := tab)
  }

  /** `handleUrlPreview`: an empty URL is refused; otherwise it is previewed. */
  function HandleUrlPreview(u: Upload): (r: Result<Upload>)
    ensures r.Err? <==> u.albumCoverUrl == ""
    ensures r.Err? ==> r.problem == ImageUrlRequired
    ensures r.Ok? ==> r.value.previewUrl == u.albumCoverUrl
    ensures r.Ok? ==> r.value.(previewUrl := u.previewUrl) == u
  {
    if u.albumCoverUrl == "" then Err(ImageUrlRequired) else Ok(u.(previewUrl := u.albumCoverUrl))
  }

  /** The state after the dialog is left: nothing chosen, nothing previewed,
      closed; the active tab is kept. */
  function Cleared(u: Upload): Upload {
    u.(uploadedFile := None, albumCoverUrl := "", previewUrl := "", isOpen := false)
  }

  /** `handleSave`: the uploaded file when the upload tab is active and a
      file is set, else the URL when the URL tab is active and the URL is
      non-empty; otherwise nothing is saved and the state is kept.  A save
      leaves the dialog cleared and closed. */
  function HandleSave(u: Upload): (r: Result<(Saved, Upload)>)
    ensures r.Ok? <==> (u.activeTab == UploadTab && u.uploadedFile.Some?)
                       || (u.activeTab == UrlTab && u.albumCoverUrl != "")
    ensures r.Err? ==> r.problem == NoImageSelected
    ensures r.Ok? && u.activeTab == UploadTab ==> r.value.0 == SavedFile(u.uploadedFile.value)
    ensures r.Ok? && u.activeTab == UrlTab ==> r.value.0 == SavedUrl(u.albumCoverUrl)
    ensures r.Ok? ==> r.value.1.uploadedFile.None? && r.value.1.albumCoverUrl == ""
                      && r.value.1.previewUrl == "" && !r.value.1.isOpen
  {
    match u.activeTab
    case UploadTab =>
      if u.uploadedFile.Some? then Ok((SavedFile(u.uploadedFile.value), Cleared(u))) else Err(NoImageSelected)
    case UrlTab =>
      if u.albumCoverUrl != "" then Ok((SavedUrl(u.albumCoverUrl), Cleared(u))) else Err(NoImageSelected)
  }

  /** Cancel: the same cleared, closed state, whatever was chosen. */
  function Cancel(u: Upload): (r: Upload)
    ensures r.uploadedFile.None? && r.albumCoverUrl == "" && r.previewUrl == "" && !r.isOpen
    ensures r.activeTab == u.activeTab
  {
    Cleared(u)
  }

  /** A successful save ends in exactly the state a cancel would. */
  lemma SaveEndsLikeCancel(u: Upload)
    requires HandleSave(u).Ok?
    ensures HandleSave(u).value.1 == Cancel(u)
  {
  }

  /** The inactive tab's content is never saved: with the URL tab active an
      uploaded file alone is refused, and the other way round. */
  lemma SaveIgnoresInactiveTab(u: Upload)
    ensures u.activeTab == UrlTab && u.albumCoverUrl == "" ==> HandleSave(u).Err?
    ensures u.activeTab == UploadTab && u.uploadedFile.None? ==> HandleSave(u).Err?
  {
  }

  /** Choosing an image on the upload tab makes a save hand over exactly
      that file. */
  lemma ChosenImageIsSaved(u: Upload, f: ImageFile, objectUrl: string)
    requires IsImage(f)
    requires u.activeTab == UploadTab
    ensures var chosen := HandleFileChange(u, Some(f), objectUrl).value;
            HandleSave(chosen).Ok? && HandleSave(chosen).value.0 == SavedFile(f)
  {
  }

  /** The URL path end to end: a URL typed on the URL tab previews as that
      URL, and a save hands over exactly that URL, even with a file
      uploaded on the other tab. */
  lemma TypedUrlIsSaved(u: Upload, url: string)
    requires url != ""
    ensures var typed := SetUrl(SetTab(u, UrlTab), url);
            && HandleUrlPreview(typed).Ok? && HandleUrlPreview(typed).value.previewUrl == url
            && HandleSave(typed).Ok? && HandleSave(typed).value.0 == SavedUrl(url)
  {
  }

  /** Switching tabs decides what a save takes: with both a file and a URL
      set, the upload tab saves the file and the URL tab the URL. */
  lemma TabDecidesSave(u: Upload)
    requires u.uploadedFile.Some? && u.albumCoverUrl != ""
    ensures HandleSave(SetTab(u, UploadTab)).value.0 == SavedFile(u.uploadedFile.value)
    ensures HandleSave(SetTab(u, UrlTab)).value.0 == SavedUrl(u.albumCoverUrl)
  {
  }
}
