/** The browser objects the upload form handles, reduced to the data the form looks at. */
module Media {

  type Bytes = seq<bv8>

  /** A `File` (or `Blob`): its name, its MIME type and its content. */
  datatype File = File(name: string, mime: string, bytes: Bytes)

  /** A URL made by `URL.createObjectURL`: opaque, it stands for the file it was made from. */
  datatype ObjectUrl = BlobUrl(target: File)
}
