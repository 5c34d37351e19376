/** The older downloads page (src/pages/DownloadsPage.tsx): one URL field per
    source, one shared progress counter and a simulated download per source
    that counts up by a fixed step and falls back to 0 once it has passed
    100.  Unlike the tracker of the tabs, the counter is not clamped: the
    YouTube step of 8 carries it to 104 before the reset. */
module DownloadsPage {
  import opened Wrappers

  datatype Source = Spotify | Youtube {
    /** The increment of the source's interval. */
    function Step(): nat {
      match this
      case Spotify => 10
      case Youtube => 8
    }
  }

  datatype Page = Page(
    spotifyUrl: string,
    youtubeUrl: string,
    isDownloading: bool,
    progress: nat,
    // the running interval and the source that registered it
    timer: Option<Source>)

  function Url(page: Page, src: Source): string {
    match src
    case Spotify => page.spotifyUrl
    case Youtube => page.youtubeUrl
  }

  function Init(): (page: Page)
    ensures !page.isDownloading && page.progress == 0 && page.timer.None?
    ensures page.spotifyUrl == "" && page.youtubeUrl == ""
  {
    Page("", "", false, 0, None)
  }

  /** Typing into a source's URL field; both fields are disabled while a
      download runs, and typing then changes nothing. */
  function SetUrl(page: Page, src: Source, url: string): (r: Page)
    ensures page.isDownloading ==> r == page
    ensures !page.isDownloading ==> Url(r, src) == url
    ensures forall other: Source | other != src :: Url(r, other) == Url(page, other)
    ensures r.isDownloading == page.isDownloading && r.progress == page.progress && r.timer == page.timer
  {
    if page.isDownloading then page
    else match src
      case Spotify => page.(spotifyUrl := url)
      case Youtube => page.(youtubeUrl := url)
  }

  /** `handleSpotifyDownload` / `handleYoutubeDownload`: refuse an empty URL
      and leave the page alone; otherwise start counting from 0.  Both
      buttons are disabled while a download runs, and a press on them then
      changes nothing. */
  function Start(page: Page, src: Source): (r: Result<Page>)
    ensures page.isDownloading ==> r == Ok(page)
    ensures r.Err? <==> !page.isDownloading && Url(page, src) == ""
    ensures r.Err? ==> r.problem == UrlRequired
    ensures !page.isDownloading && r.Ok? ==>
              r.value.isDownloading && r.value.progress == 0 && r.value.timer == Some(src)
    ensures r.Ok? ==> r.value.spotifyUrl == page.spotifyUrl && r.value.youtubeUrl == page.youtubeUrl
  {
    if page.isDownloading then Ok(page)
    else if Url(page, src) == "" then Err(UrlRequired)
    else Ok(page.(isDownloading := true, progress := 0, timer := Some(src)))
  }

  /** One call of the interval's callback: a counter that has reached 100
      is reset to 0 and the download ends; otherwise it grows by the step. */
  function Tick(page: Page): (r: Page)
    requires page.timer.Some?
    ensures page.progress >= 100 ==> r.progress == 0 && !r.isDownloading && r.timer.None?
    ensures page.progress < 100 ==>
              r.progress == page.progress + page.timer.value.Step()
              && r.isDownloading == page.isDownloading && r.timer == page.timer
    ensures r.spotifyUrl == page.spotifyUrl && r.youtubeUrl == page.youtubeUrl
  {
    if page.progress >= 100 then page.(progress := 0, isDownloading := false, timer := None)
    else page.(progress := page.progress + page.timer.value.Step())
  }

  /** `k` callbacks; none happen once the interval is cleared. */
  function Ticks(page: Page, k: nat): Page
    decreases k
  {
    if k == 0 then page
    else
      var p := Ticks(page, k - 1);
      if p.timer.Some? then Tick(p) else p
  }

  /** The only bound the counter keeps: below 100 plus the running step,
      and back at 0 once nothing runs. */
  predicate Valid(page: Page) {
    && (page.isDownloading <==> page.timer.Some?)
    && (page.timer.Some? ==> page.progress < 100 + page.timer.value.Step())
    && (page.timer.None? ==> page.progress == 0)
  }

  lemma InitValid()
    ensures Valid(Init())
  {
  }

  lemma StartKeepsValid(page: Page, src: Source)
    requires Valid(page)
    ensures Start(page, src).Ok? ==> Valid(Start(page, src).value)
    ensures Start(page, src).Err? ==> Url(page, src) == ""
  {
  }

  /** Typing keeps the invariant, and a typed URL is what the next press
      starts with: a non-empty one is accepted, an empty one refused. */
  lemma SetUrlThenStart(page: Page, src: Source, url: string)
    requires Valid(page)
    ensures Valid(SetUrl(page, src, url))
    ensures !page.isDownloading ==> (Start(SetUrl(page, src, url), src).Err? <==> url == "")
  {
  }

  lemma TickKeepsValid(page: Page)
    requires Valid(page) && page.timer.Some?
    ensures Valid(Tick(page))
  {
  }

  lemma {:induction false} TicksKeepValid(page: Page, k: nat)
    requires Valid(page)
    ensures Valid(Ticks(page, k))
    decreases k
  {
    if k > 0 {
      TicksKeepValid(page, k - 1);
      if Ticks(page, k - 1).timer.Some? {
        TickKeepsValid(Ticks(page, k - 1));
      }
    }
  }

  /** Counting from a fresh start: after `k` ticks the counter stands at
      `k * step` as long as every earlier value stayed below 100. */
  lemma {:induction false} TicksCount(page: Page, src: Source, k: nat)
    requires page.timer == Some(src) && page.progress == 0
    requires k == 0 || (k - 1) * src.Step() < 100
    ensures Ticks(page, k).progress == k * src.Step()
    ensures Ticks(page, k).timer == Some(src)
    ensures Ticks(page, k).isDownloading == page.isDownloading
    decreases k
  {
    if k > 0 {
      var s := src.Step();
      if k > 1 {
        assert (k - 2) * s < (k - 1) * s;
      }
      TicksCount(page, src, k - 1);
      assert (k - 1) * s + s == k * s;
    }
  }

  /** A Spotify download shows 100% after ten ticks and ends on the 11th. */
  lemma SpotifyEndsOnEleventhTick(page: Page)
    requires !page.isDownloading && Start(page, Spotify).Ok?
    ensures var s := Start(page, Spotify).value;
            Ticks(s, 10).progress == 100 && Ticks(s, 10).isDownloading
    ensures var s := Start(page, Spotify).value;
            Ticks(s, 11).progress == 0 && !Ticks(s, 11).isDownloading && Ticks(s, 11).timer.None?
  {
    TicksCount(Start(page, Spotify).value, Spotify, 10);
  }

  /** A YouTube download overshoots to 104% after 13 ticks and ends on the 14th. */
  lemma YoutubeEndsOnFourteenthTick(page: Page)
    requires !page.isDownloading && Start(page, Youtube).Ok?
    ensures var s := Start(page, Youtube).value;
            Ticks(s, 12).progress == 96 && Ticks(s, 13).progress == 104 && Ticks(s, 13).isDownloading
    ensures var s := Start(page, Youtube).value;
            Ticks(s, 14).progress == 0 && !Ticks(s, 14).isDownloading && Ticks(s, 14).timer.None?
  {
    TicksCount(Start(page, Youtube).value, Youtube, 12);
    TicksCount(Start(page, Youtube).value, Youtube, 13);
  }

  /** Once the download has ended further time changes nothing. */
  lemma {:induction false} EndedStaysEnded(page: Page, k: nat)
    requires page.timer.None?
    ensures Ticks(page, k) == page
    decreases k
  {
    if k > 0 {
      EndedStaysEnded(page, k - 1);
    }
  }

  /** The percentage label and bar: shown only while downloading. */
  function ProgressShown(page: Page): (shown: Option<nat>)
    ensures shown.Some? <==> page.isDownloading
    ensures shown.Some? ==> shown.value == page.progress
  {
    if page.isDownloading then Some(page.progress) else None
  }
}
