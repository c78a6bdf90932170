/**
 * The media description attached to a non-text message. Its parser, its
 * textual rendering and its type-specific fields live outside message.go;
 * this model keeps them opaque and exposes only the two fields message.go
 * writes: the resolved media path and the host used to build media links.
 */
module Media {
  import opened Wrappers

  /**
   * A snapshot of a media description. `kind` and `detail` stand for the
   * type-specific fields filled in by the parser, which this model never
   * looks into.
   */
  datatype MediaView = MediaView(kind: int, detail: string, mediaPath: string, host: string)

  class MediaMessage {
    var Kind: int
    var Detail: string
    var MediaPath: string
    var Host: string

    /** The current contents of this description as a value. */
    function View(): MediaView
      reads this
    {
      MediaView(Kind, Detail, MediaPath, Host)
    }

    constructor (v: MediaView)
      ensures View() == v
    {
      Kind, Detail, MediaPath, Host := v.kind, v.detail, v.mediaPath, v.host;
    }

    /** Binds the host used to build media-reference links. */
    method SetHost(host: string)
      modifies this
      ensures View() == old(View()).(host := host)
    {
      Host := host;
    }
  }

  /**
   * NewMediaMessage: runs the media parser `parse` on a type code and its
   * content and allocates the resulting description, or gives null when the
   * parser fails.
   */
  method NewMediaMessage(parse: (int, string) -> Option<MediaView>, kind: int, content: string)
    returns (r: MediaMessage?)
    ensures r == null <==> parse(kind, content).None?
    ensures r != null ==> fresh(r) && r.View() == parse(kind, content).value
  {
    var parsed := parse(kind, content);
    if parsed.Some? {
      r := new MediaMessage(parsed.value);
    } else {
      r := null;
    }
  }
}
