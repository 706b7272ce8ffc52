/** The Song record (internal/models/song.go). */
module Models {

  /**
   * Go's `time.Time`. The core only stores and forwards it, so the model
   * keeps it opaque: values can be compared for equality and nothing else.
   */
  type Time(==)

  /** One row of the `songs` table, field for field. */
  datatype Song = Song(
    id: int,
    groupName: string,
    songName: string,
    releaseDate: Time,
    text: string,
    link: string)
}
