/** Records shared by the track collection and the per-track player (src/types.ts). */
module Types {

  datatype Option<+T> = None | Some(value: T)

  /** A selected audio file. The app reads only its name; the payload is carried along untouched. */
  datatype File = File(name: string, payload: seq<bv8>)

  /** One uploaded track: an id, the file name, the user-chosen original key and the object URL. */
  datatype Song = Song(id: string, name: string, key: string, file: File, url: string)
}
