/** What the dashboard reads from a browser `File`: its name, MIME type and size. */
module BrowserFiles {

  datatype FileInfo = FileInfo(name: string, mimeType: string, size: nat)
}
