/** Binary audio data as the browser hands it around: bytes and typed blobs. */
module Media {

  /** One byte; also one unsigned 8-bit time-domain sample, centred on 128. */
  type Byte = b: int | 0 <= b < 256

  /** A `Blob`: its bytes and its MIME type (`""` when untyped). */
  datatype Blob = Blob(data: seq<Byte>, mimeType: string) {
    function Size(): nat { |data| }
  }

  /** `new Blob([])`. */
  const EmptyBlob := Blob([], "")
}
