/**
 * What both code generations of the mod share: the preview type of the API
 * package, and the mutable `java.util.List` that tooltip builders append to.
 */
module PreviewApi {

  /** The kind of preview currently requested by the player. */
  datatype PreviewType = NoPreview | Compact | Full

  /**
   * A list owned by the caller and passed by reference; callees append lines
   * to it in place.
   */
  class LineList<T> {
    var lines: seq<T>

    constructor ()
      ensures lines == []
    {
      lines := [];
    }

    method Add(line: T)
      modifies this
      ensures lines == old(lines) + [line]
    {
      lines := lines + [line];
    }
  }
}
