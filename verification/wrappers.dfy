/** Failure-carrying results shared by the handlers of the control panel.

    A form handler that rejects its input shows a destructive notification
    and returns without touching any state; the model returns `Err(problem)`
    and the caller keeps its previous state.  Sign-in is the exception: it
    reports failure through its boolean result, as the source's `login`
    does, and ends its loading state either way. */
module Wrappers {

  datatype Option<T> = None | Some(value: T)

  /** The reasons a form handler refuses to act (its destructive
      notifications). */
  datatype Problem =
    | UrlRequired            // empty Spotify or YouTube URL
    | PlaylistNameRequired   // empty playlist name
    | FolderNameRequired     // empty folder name
    | InvalidFileType        // album cover that is not an image
    | ImageUrlRequired       // URL preview with an empty URL
    | NoImageSelected        // saving a cover with nothing selected on the active tab
    | CoverInputRequired     // applying a cover with neither URL nor file

  datatype Result<T> = Ok(value: T) | Err(problem: Problem)
}
