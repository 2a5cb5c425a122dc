/**
 * Media sources handed to the host player, kept as opaque values. A
 * concatenated source is only described by its items' URLs and the
 * placeholder extent each item is given (its nominal duration in ms).
 */
module Media {
  import opened Wrappers

  const MS_PER_SECOND: int := 1000

  datatype Placeholder = Placeholder(url: Option<string>, extentMs: int)

  datatype MediaSource =
    | ProgressiveSource(url: Option<string>)
    | ConcatenatedSource(items: seq<Placeholder>)

  /** The placeholder of one item: its URL with extent `duration * 1000L`. */
  function PlaceholderFor(url: Option<string>, durationSeconds: int): Placeholder {
    Placeholder(url, durationSeconds * MS_PER_SECOND)
  }
}
