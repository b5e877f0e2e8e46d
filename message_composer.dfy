/**
 * The message composer of the mass-dispatch page: the kind an attached file is
 * given, the drop handler, and the enablement of the AI button. The object URL
 * the browser creates for a file (`URL.createObjectURL`) is an input.
 */
module MessageComposer {
  import opened Wrappers
  import Text
  import opened BrowserFiles

  datatype MediaKind = Image | Pdf | Document

  /** The attachment record handed to `onMediaAttach`. */
  datatype Media = Media(url: string, kind: MediaKind, name: string)

  /** The kind of a file by MIME type: an `image/` prefix first, then exactly `application/pdf`,
      and `document` for everything else. */
  function Classify(mimeType: string): (k: MediaKind)
    ensures k == Image <==> Text.StartsWith(mimeType, "image/")
    ensures k == Pdf <==> !Text.StartsWith(mimeType, "image/") && mimeType == "application/pdf"
    ensures k == Document <==> !Text.StartsWith(mimeType, "image/") && mimeType != "application/pdf"
  {
    if Text.StartsWith(mimeType, "image/") then Image
    else if mimeType == "application/pdf" then Pdf
    else Document
  }

  /** `handleFileUpload(file)`: the record keeps the file's name and its object URL. */
  function AttachFile(file: FileInfo, objectUrl: FileInfo -> string): (m: Media)
    ensures m.name == file.name && m.url == objectUrl(file)
    ensures m.kind == Classify(file.mimeType)
    ensures m.kind == Image <==> Text.StartsWith(file.mimeType, "image/")
  {
    Media(objectUrl(file), Classify(file.mimeType), file.name)
  }

  /** `handleDrop`: only the first dropped file is attached, and an empty drop attaches
      nothing. The file input's `files?.[0]` follows the same rule. */
  function Drop(files: seq<FileInfo>, objectUrl: FileInfo -> string): (r: Option<Media>)
    ensures r.None? <==> files == []
    ensures r.Some? ==> r.value.name == files[0].name && r.value.url == objectUrl(files[0])
                        && r.value.kind == Classify(files[0].mimeType)
  {
    if |files| > 0 then Some(AttachFile(files[0], objectUrl)) else None
  }

  /** `disabled={!message.trim()}` on the AI button: disabled exactly for a message made
      only of whitespace. */
  function AIButtonDisabled(message: string): (r: bool)
    ensures r <==> Text.IsBlank(message)
  {
    Text.TrimEmptyIffBlank(message);
    Text.Trim(message) == ""
  }
}
