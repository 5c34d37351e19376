/** The new-folder dialog (src/components/downloads/FolderDialog.tsx): a
    name and a parent directory, and a create button that needs a name and
    empties it afterwards. */
module FolderDialog {
  import opened Wrappers

  datatype Dialog = Dialog(folderName: string, parentDir: string)

  /** What `onCreateFolder` receives. */
  datatype Request = Request(name: string, dir: string)

  /** The parent directory starts at the directory the dialog was given. */
  function Init(initialDir: string): (d: Dialog)
    ensures d.folderName == "" && d.parentDir == initialDir
  {
    Dialog("", initialDir)
  }

  function SetName(d: Dialog, name: string): (r: Dialog)
    ensures r.folderName == name && r.parentDir == d.parentDir
  {
    d.(folderName := name)
  }

  function SetParentDir(d: Dialog, dir: string): (r: Dialog)
    ensures r.parentDir == dir && r.folderName == d.folderName
  {
    d.(parentDir := dir)
  }

  /** `handleCreateFolder`: an empty name is refused and the dialog kept;
      otherwise name and parent directory are handed on and the name field
      is emptied, the parent directory kept. */
  function HandleCreate(d: Dialog): (r: (Dialog, Result<Request>))
    ensures r.1.Err? <==> d.folderName == ""
    ensures r.1.Err? ==> r.1.problem == FolderNameRequired && r.0 == d
    ensures r.1.Ok? ==> r.1.value == Request(d.folderName, d.parentDir)
    ensures r.1.Ok? ==> r.0.folderName == "" && r.0.parentDir == d.parentDir
  {
    if d.folderName == "" then (d, Err(FolderNameRequired))
    else (d.(folderName := ""), Ok(Request(d.folderName, d.parentDir)))
  }

  /** A second press without typing a new name is refused: every create
      needs a name typed since the last one. */
  lemma CreateTwiceRefused(d: Dialog)
    ensures HandleCreate(HandleCreate(d).0).1.Err?
  {
  }

  /** Several folders in the same parent: the directory survives each
      create, so typing only names hands on the same parent every time. */
  lemma CreateKeepsParent(d: Dialog, first: string, second: string)
    requires first != "" && second != ""
    ensures var d1 := HandleCreate(SetName(d, first)).0;
            HandleCreate(SetName(d, first)).1 == Ok(Request(first, d.parentDir))
            && HandleCreate(SetName(d1, second)).1 == Ok(Request(second, d.parentDir))
  {
  }
}
