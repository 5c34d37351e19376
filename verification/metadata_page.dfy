/** The metadata editor page (src/pages/MetadataPage.tsx): guessing artist
    and title from a chosen file's name, editing the five tag fields, and
    clearing the form. */
module MetadataPage {
  import opened Wrappers
  import opened Text

  // ---------------------------------------------------------------------
  // `name.replace(/\.[^/.]+$/, "")`
  // ---------------------------------------------------------------------

  /** The extension pattern matches at `i`: a dot followed by at least one
      character, running to the end of the name, with neither a dot nor a
      slash after it. */
  predicate ExtensionAt(s: string, i: nat) {
    && i + 1 < |s|
    && s[i] == '.'
    && forall j | i < j < |s| :: s[j] != '.' && s[j] != '/'
  }

  /** The pattern matches at one position at most. */
  lemma ExtensionAtUnique(s: string, i: nat, j: nat)
    requires ExtensionAt(s, i) && ExtensionAt(s, j)
    ensures i == j
  {
  }

  /** Position of the last dot of `s`. */
  function LastDot(s: string): (r: Option<nat>)
    ensures r.Some? ==> r.value < |s| && s[r.value] == '.' && forall j | r.value < j < |s| :: s[j] != '.'
    ensures r.None? ==> forall j | 0 <= j < |s| :: s[j] != '.'
    decreases |s|
  {
    if |s| == 0 then None
    else if s[|s| - 1] == '.' then Some(|s| - 1)
    else LastDot(s[..|s| - 1])
  }

  /** The name with its final extension removed, when it has one; any other
      name is returned as it is. */
  function StripExtension(s: string): (r: string)
    ensures forall i: nat | i < |s| :: ExtensionAt(s, i) ==> r == s[..i]
    ensures (forall i: nat | i < |s| :: !ExtensionAt(s, i)) ==> r == s
  {
    match LastDot(s)
    case None => s
    case Some(i) =>
      if i + 1 < |s| && forall j | i < j < |s| :: s[j] != '/' then
        assert ExtensionAt(s, i);
        s[..i]
      else
        assert forall k: nat | k < |s| :: !ExtensionAt(s, k) by {
          forall k: nat | k < |s| ensures !ExtensionAt(s, k) {
            if k < i {
              assert s[i] == '.';
            }
          }
        }
        s
  }

  /** Appending an extension and stripping it again gives the base back. */
  lemma AddExtensionStrips(base: string, ext: string)
    requires |ext| >= 1
    requires forall k | 0 <= k < |ext| :: ext[k] != '.' && ext[k] != '/'
    ensures StripExtension(base + "." + ext) == base
  {
    var s := base + "." + ext;
    assert forall j | |base| < j < |s| :: s[j] == ext[j - |base| - 1];
    assert ExtensionAt(s, |base|);
    assert s[..|base|] == base;
  }

  /** A name without a dot is left unchanged. */
  lemma NoDotUnchanged(s: string)
    requires '.' !in s
    ensures StripExtension(s) == s
  {
    forall i: nat | i < |s| ensures !ExtensionAt(s, i) {
      assert s[i] in s;
    }
  }

  // ---------------------------------------------------------------------
  // Artist and title from the file name
  // ---------------------------------------------------------------------

  const Separator: string := " - "

  /** Artist and title guessed from a file name: with a `" - "` the text
      before the first one is the artist and the next segment, without its
      extension, the title; further segments are dropped.  Without one the
      artist is empty and the title is the name without its extension. */
  function ParseFilename(name: string): (r: (string, string))
    ensures !Contains(name, Separator) ==> r == ("", StripExtension(name))
    ensures Contains(name, Separator) ==>
              IndexOf(name, Separator).Some? &&
              var i := IndexOf(name, Separator).value;
              && r.0 == name[..i]
              && r.1 == StripExtension(Split(name[i + |Separator|..], Separator)[0])
  {
    if Contains(name, Separator) then
      IndexOfFirst(name, Separator);
      var parts := Split(name, Separator);
      (parts[0], StripExtension(parts[1]))
    else
      ("", StripExtension(name))
  }

  /** A name written as `artist - title.ext` parses back to that artist and
      title, provided the separator occurs in neither part (nor straddles the
      artist's end) and the extension is a proper one. */
  lemma ParseFilenameRoundTrip(artist: string, title: string, ext: string)
    requires !Contains(artist + " -", Separator)
    requires !Contains(title + "." + ext, Separator)
    requires |ext| >= 1
    requires forall k | 0 <= k < |ext| :: ext[k] != '.' && ext[k] != '/'
    ensures ParseFilename(artist + Separator + title + "." + ext) == (artist, title)
  {
    var rest := title + "." + ext;
    var name := artist + Separator + rest;
    var n := |artist|;
    assert name[n..n + 3] == Separator;
    forall j: nat | j < n ensures !OccursAt(name, Separator, j) {
      if j + 3 <= |name| {
        assert name[j..j + 3] == (artist + " -")[j..j + 3];
        assert !OccursAt(artist + " -", Separator, j);
      }
    }
    IndexOfAt(name, Separator, n);
    assert Contains(name, Separator) by {
      assert OccursAt(name, Separator, n);
    }
    assert name == artist + Separator + title + "." + ext;
    assert name[..n] == artist;
    assert name[n + 3..] == rest;
    SplitSingle(rest, Separator);
    assert Split(rest, Separator)[0] == rest;
    AddExtensionStrips(title, ext);
  }

  // ---------------------------------------------------------------------
  // The page state and its handlers
  // ---------------------------------------------------------------------

  datatype AudioFile = AudioFile(name: string)

  datatype Metadata = Metadata(title: string, artist: string, album: string, year: string, genre: string)

  datatype Field = Title | Artist | Album | Year | Genre

  function Get(m: Metadata, f: Field): string {
    match f
    case Title => m.title
    case Artist => m.artist
    case Album => m.album
    case Year => m.year
    case Genre => m.genre
  }

  datatype Page = Page(selectedFile: Option<AudioFile>, metadata: Metadata)

  const Blank: Metadata := Metadata("", "", "", "", "")

  function Init(): (page: Page)
    ensures page.selectedFile.None?
    ensures forall f: Field :: Get(page.metadata, f) == ""
  {
    Page(None, Blank)
  }

  /** `handleFileChange`: with no file chosen nothing happens; otherwise the
      first file is selected and the tags are guessed from its name, with
      empty album and genre and the current year (a parameter here). */
  function HandleFileChange(page: Page, files: seq<AudioFile>, currentYear: nat): (r: Page)
    ensures |files| == 0 ==> r == page
    ensures |files| > 0 ==> r.selectedFile == Some(files[0])
    ensures |files| > 0 ==> r.metadata.artist == ParseFilename(files[0].name).0
                            && r.metadata.title == ParseFilename(files[0].name).1
    ensures |files| > 0 ==> r.metadata.album == "" && r.metadata.genre == ""
    ensures |files| > 0 ==> AllDigits(r.metadata.year) && DecimalValue(r.metadata.year) == currentYear
    ensures |files| > 0 ==> |r.metadata.year| >= 1 && (r.metadata.year[0] == '0' ==> r.metadata.year == "0")
  {
    if |files| == 0 then page
    else
      var (artist, title) := ParseFilename(files[0].name);
      DecimalRoundTrip(currentYear);
      Page(Some(files[0]), Metadata(title, artist, "", NatToString(currentYear), ""))
  }

  /** `handleMetadataChange`: the edited field takes the typed value.  The
      tag inputs are disabled until a file is selected; typing then changes
      nothing. */
  function HandleMetadataChange(page: Page, field: Field, value: string): (r: Page)
    ensures page.selectedFile.None? ==> r == page
    ensures page.selectedFile.Some? ==> Get(r.metadata, field) == value
    ensures forall f: Field | f != field :: Get(r.metadata, f) == Get(page.metadata, f)
    ensures r.selectedFile == page.selectedFile
  {
    if page.selectedFile.None? then page
    else
      var m := page.metadata;
      page.(metadata := match field
        case Title => m.(title := value)
        case Artist => m.(artist := value)
        case Album => m.(album := value)
        case Year => m.(year := value)
        case Genre => m.(genre := value))
  }

  /** The tags become editable once a file is loaded: after choosing a
      file, typing into any field sets it. */
  lemma EditAfterLoad(page: Page, files: seq<AudioFile>, year: nat, field: Field, value: string)
    requires |files| > 0
    ensures var loaded := HandleFileChange(page, files, year);
            Get(HandleMetadataChange(loaded, field, value).metadata, field) == value
  {
  }

  /** `handleClearFile`: no file and five empty fields, the page's start. */
  function HandleClearFile(page: Page): (r: Page)
    ensures r.selectedFile.None?
    ensures forall f: Field :: Get(r.metadata, f) == ""
  {
    Init()
  }

  /** Clearing forgets everything: whatever was loaded or edited, the page
      is back at its initial state. */
  lemma ClearForgets(page: Page, files: seq<AudioFile>, year: nat, field: Field, value: string)
    ensures HandleClearFile(HandleMetadataChange(HandleFileChange(page, files, year), field, value)) == Init()
  {
    var r := HandleClearFile(HandleMetadataChange(HandleFileChange(page, files, year), field, value));
    assert Get(r.metadata, Title) == "" && Get(r.metadata, Artist) == "" && Get(r.metadata, Album) == "";
    assert Get(r.metadata, Year) == "" && Get(r.metadata, Genre) == "";
  }

  /** Editing a field twice keeps only the last value, and editing it back
      to its old value undoes the edit. */
  lemma EditUndo(page: Page, field: Field, value: string)
    ensures HandleMetadataChange(HandleMetadataChange(page, field, value), field, Get(page.metadata, field)) == page
  {
    var r := HandleMetadataChange(HandleMetadataChange(page, field, value), field, Get(page.metadata, field));
    assert forall f: Field :: Get(r.metadata, f) == Get(page.metadata, f);
    assert Get(r.metadata, Title) == Get(page.metadata, Title);
    assert Get(r.metadata, Artist) == Get(page.metadata, Artist);
    assert Get(r.metadata, Album) == Get(page.metadata, Album);
    assert Get(r.metadata, Year) == Get(page.metadata, Year);
    assert Get(r.metadata, Genre) == Get(page.metadata, Genre);
  }
}
