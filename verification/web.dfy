/**
 * The browser values the client code passes around, reduced to the
 * attributes the application reads.
 */
module Web {

  /** A `File` picked or dropped by the user: its name, its MIME type and its size in bytes. */
  datatype File = File(name: string, mimeType: string, size: nat)

  /** A `Blob` returned by the server: the processed image, identified by its type and size. */
  datatype Blob = Blob(mimeType: string, size: nat)
}
