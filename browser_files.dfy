/**
 * What the two upload components share: the browser's File objects as
 * plain values, their temporary ids, and how a request to the upload
 * endpoint can end.
 */
module BrowserFiles {

  /** A File picked in the browser: its name, its MIME type as reported, and its size in bytes. */
  datatype SelectedFile = SelectedFile(name: string, mime: string, size: nat)

  const MiB := 1024 * 1024

  /**
   * `temp-${Date.now()}-${index}`: the clock reading when the selection was
   * made and the file's position among the files that were added.
   */
  datatype TempId = TempId(stamp: int, index: nat)

  /**
   * How a request to the upload endpoint ends: a reply whose `success` is
   * true, a reply without it, or an exception (network failure, body that
   * is not JSON).
   */
  datatype UploadOutcome = Success | NotSuccess | Throws
}
