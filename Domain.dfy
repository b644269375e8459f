/** The records shared by command generation and the job service, and the
    exceptions command generation can end in. */
module Domain {

  /** The exceptions `createCommand` can throw, one constructor per throw site. */
  datatype Failure =
    | MissingLanguage       // "Missing language for stream" (any unparsable stream line)
    | InvalidNumber         // `toInt` of a stream index beyond Kotlin's Int range
    | NoVideoStream         // the `!!` on `streams["Video"]` when there is no Video stream
    | MultipleVideoStreams  // "Multiple video streams found"
    | UnknownStreamType     // "Unknown stream type found"
    | NoMediaTracks         // `maxOf` over an empty list of media tracks

  datatype Result<T> = Ok(value: T) | Err(error: Failure)

  /** A `java.io.File` as its parent directory and its name. */
  datatype FileRef = FileRef(parent: string, name: string) {
    /** The path the file stands for: parent, separator, name. */
    function Path(): string { parent + "/" + name }
  }

  /** The daemon's configured `directory.source` and `directory.destination`. */
  datatype Config = Config(sourceDirectory: string, destinationDirectory: string)

  /** `domain/Task.kt`: one transcoding job. */
  datatype Task = Task(
    sourceFile: FileRef,
    command: seq<string>,
    temporaryOutputFile: FileRef,
    outputFile: FileRef,
    frameCount: int
  )
}
