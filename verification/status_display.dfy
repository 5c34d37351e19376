/** The `ProcessInfo` record of one tracked stage and the status list that
    renders up to three of them (src/components/downloads/StatusDisplay.tsx). */
module StatusDisplay {
  import opened Wrappers

  /** A stage's status is exactly one of these four. */
  datatype Status = Pending | Active | Complete | Error

  datatype ProcessInfo = ProcessInfo(status: Status, progress: nat, message: string)

  /** A progress bar is drawn beside an item only while the stage is active
      and its progress lies strictly between 0 and 100. */
  predicate ShowsProgressBar(info: ProcessInfo) {
    info.status == Active && 0 < info.progress < 100
  }

  /** The progress row of the playlist and album-cover dialogs: drawn while
      the stage is active, at the stage's progress, including at 0 and 100. */
  function ActiveProgress(info: ProcessInfo): (shown: Option<nat>)
    ensures shown.Some? <==> info.status == Active
    ensures shown.Some? ==> shown.value == info.progress
  {
    if info.status == Active then Some(info.progress) else None
  }

  /** The dialogs draw a bar wherever the status list does, and more: an
      active stage at 0 or at 100 or beyond has a dialog bar but no bar in
      the list. */
  lemma DialogBarCoversListBar(info: ProcessInfo)
    ensures ShowsProgressBar(info) ==> ActiveProgress(info) == Some(info.progress)
    ensures ActiveProgress(info).Some? && !ShowsProgressBar(info)
            <==> info.status == Active && (info.progress == 0 || info.progress >= 100)
  {
  }

  /** The three rows the list can hold, in display order. */
  datatype Row = DownloadRow | ProcessingRow | PlaylistRow {
    function Label(): string {
      match this
      case DownloadRow => "Download"
      case ProcessingRow => "Processing"
      case PlaylistRow => "Playlist"
    }

    function Rank(): nat {
      match this
      case DownloadRow => 0
      case ProcessingRow => 1
      case PlaylistRow => 2
    }
  }

  /** One rendered item: its row, the record shown, and whether a bar is drawn. */
  datatype Item = Item(row: Row, info: ProcessInfo, bar: bool)

  function RenderItem(row: Row, info: ProcessInfo): Item {
    Item(row, info, ShowsProgressBar(info))
  }

  predicate HasRow(items: seq<Item>, row: Row) {
    exists k | 0 <= k < |items| :: items[k].row == row
  }

  /** The status list: the download item always, then the processing and
      playlist items when they are supplied, in that order. */
  function Render(download: ProcessInfo, embed: Option<ProcessInfo>, playlist: Option<ProcessInfo>): (items: seq<Item>)
    ensures 1 <= |items| <= 3
    ensures items[0].row == DownloadRow && items[0].info == download
    ensures HasRow(items, ProcessingRow) <==> embed.Some?
    ensures HasRow(items, PlaylistRow) <==> playlist.Some?
    ensures forall k | 0 <= k < |items| :: items[k].row == ProcessingRow ==> items[k].info == embed.value
    ensures forall k | 0 <= k < |items| :: items[k].row == PlaylistRow ==> items[k].info == playlist.value
    ensures forall i, j | 0 <= i < j < |items| :: items[i].row.Rank() < items[j].row.Rank()
    ensures forall k | 0 <= k < |items| :: items[k].bar <==> ShowsProgressBar(items[k].info)
  {
    var d := RenderItem(DownloadRow, download);
    match (embed, playlist)
    case (Some(e), Some(p)) =>
      var items := [d, RenderItem(ProcessingRow, e), RenderItem(PlaylistRow, p)];
      assert items[1].row == ProcessingRow && items[2].row == PlaylistRow;
      items
    case (Some(e), None) =>
      var items := [d, RenderItem(ProcessingRow, e)];
      assert items[1].row == ProcessingRow;
      items
    case (None, Some(p)) =>
      var items := [d, RenderItem(PlaylistRow, p)];
      assert items[1].row == PlaylistRow;
      items
    case (None, None) => [d]
  }
}
