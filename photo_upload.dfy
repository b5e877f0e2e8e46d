/**
 * The photo dialog of the standalone composer: the checks on a chosen file,
 * the checks on a typed URL, and the callbacks it makes to its parent. The
 * `FileReader` finishes after the handler has returned, so its load event is
 * a separate step; whether `new URL(s)` accepts a string is an input.
 */
module PhotoUpload {
  import opened Wrappers
  import Text
  import opened BrowserFiles

  /** `5 * 1024 * 1024`: the largest accepted file, in bytes. */
  const MaxPhotoBytes: int := 5242880

  datatype FileCheck = NoFile | NotAnImage | TooLarge | AcceptedFile

  datatype UrlCheck = BlankUrl | InvalidUrl | AcceptedUrl

  datatype UploadMethod = FileTab | UrlTab

  /** A call the dialog makes on its parent, by prop name. */
  datatype Callback = Upload(photoUrl: string) | RemovePhoto | Close

  /** The file checks, in order: a file at all, an `image/` type, at most 5 MiB. */
  function CheckFile(file: Option<FileInfo>): (r: FileCheck)
    ensures r == NoFile <==> file.None?
    ensures r == NotAnImage <==> file.Some? && !Text.StartsWith(file.value.mimeType, "image/")
    ensures r == TooLarge <==>
              file.Some? && Text.StartsWith(file.value.mimeType, "image/") && file.value.size > MaxPhotoBytes
    ensures r == AcceptedFile <==>
              file.Some? && Text.StartsWith(file.value.mimeType, "image/") && file.value.size <= MaxPhotoBytes
  {
    if file.None? then NoFile
    else if !Text.StartsWith(file.value.mimeType, "image/") then NotAnImage
    else if file.value.size > MaxPhotoBytes then TooLarge
    else AcceptedFile
  }

  /** The limit is inclusive: exactly 5 MiB passes, one byte more does not. */
  lemma SizeLimitIsInclusive(name: string, mimeType: string)
    requires Text.StartsWith(mimeType, "image/")
    ensures CheckFile(Some(FileInfo(name, mimeType, 5 * 1024 * 1024))) == AcceptedFile
    ensures CheckFile(Some(FileInfo(name, mimeType, 5 * 1024 * 1024 + 1))) == TooLarge
  {
  }

  /** The URL checks: some non-blank text, then `new URL(photoUrl)` on the untrimmed text. */
  function CheckUrl(photoUrl: string, parsesAsUrl: string -> bool): (r: UrlCheck)
    ensures r == BlankUrl <==> Text.IsBlank(photoUrl)
    ensures r == InvalidUrl <==> !Text.IsBlank(photoUrl) && !parsesAsUrl(photoUrl)
    ensures r == AcceptedUrl <==> !Text.IsBlank(photoUrl) && parsesAsUrl(photoUrl)
  {
    Text.TrimEmptyIffBlank(photoUrl);
    if Text.Trim(photoUrl) == "" then BlankUrl
    else if !parsesAsUrl(photoUrl) then InvalidUrl
    else AcceptedUrl
  }

  class PhotoUploadDialog {
    var uploadMethod: UploadMethod
    var photoUrl: string
    var isUploading: bool
    /** Files handed to a `FileReader` whose load event has not fired yet. */
    var pendingReads: nat
    /** The parent's callbacks, in the order the dialog called them. */
    var calls: seq<Callback>

    constructor ()
      ensures uploadMethod == FileTab && photoUrl == "" && !isUploading
      ensures pendingReads == 0 && calls == []
    {
      uploadMethod := FileTab;
      photoUrl := "";
      isUploading := false;
      pendingReads := 0;
      calls := [];
    }

    /** The two tab buttons. */
    method SelectMethod(m: UploadMethod)
      modifies this`uploadMethod
      ensures uploadMethod == m
    {
      uploadMethod := m;
    }

    /** The URL input's `onChange`. */
    method EditUrl(text: string)
      modifies this`photoUrl
      ensures photoUrl == text
    {
      photoUrl := text;
    }

    /** `handleFileUpload`: a rejected file changes nothing; an accepted one starts a read,
        and the busy flag is already cleared when the handler returns, before the read ends. */
    method HandleFileUpload(file: Option<FileInfo>) returns (r: FileCheck)
      modifies this`isUploading, this`pendingReads
      ensures r == CheckFile(file)
      ensures r == AcceptedFile ==> pendingReads == old(pendingReads) + 1 && !isUploading
      ensures r != AcceptedFile ==> pendingReads == old(pendingReads) && isUploading == old(isUploading)
    {
      r := CheckFile(file);
      if r != AcceptedFile {
        return;
      }
      isUploading := true;
      pendingReads := pendingReads + 1;
      isUploading := false;
    }

    /** The reader's `onload`: the data URL goes to `onUpload`. */
    method OnFileRead(dataUrl: string)
      requires pendingReads > 0
      modifies this`pendingReads, this`calls
      ensures pendingReads == old(pendingReads) - 1
      ensures calls == old(calls) + [Upload(dataUrl)]
    {
      pendingReads := pendingReads - 1;
      calls := calls + [Upload(dataUrl)];
    }

    /** `handleUrlUpload`: a blank or unparsable URL is reported and kept in the input; an
        accepted one goes to `onUpload` exactly as typed and the input is cleared. */
    method HandleUrlUpload(parsesAsUrl: string -> bool) returns (r: UrlCheck)
      modifies this`photoUrl, this`calls
      ensures r == CheckUrl(old(photoUrl), parsesAsUrl)
      ensures r == AcceptedUrl ==> calls == old(calls) + [Upload(old(photoUrl))] && photoUrl == ""
      ensures r != AcceptedUrl ==> calls == old(calls) && photoUrl == old(photoUrl)
    {
      r := CheckUrl(photoUrl, parsesAsUrl);
      if r == AcceptedUrl {
        calls := calls + [Upload(photoUrl)];
        photoUrl := "";
      }
    }

    /** `handleRemove`: removes the photo, then closes the dialog. */
    method HandleRemove()
      modifies this`calls
      ensures calls == old(calls) + [RemovePhoto, Close]
    {
      calls := calls + [RemovePhoto, Close];
    }
  }
}
