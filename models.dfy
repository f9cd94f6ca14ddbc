/** Value types shared by the plugin and the sandbox engine: the optional
    value, bytes, and the chat framework's file resource. */
module Models {

  datatype Option<+T> = None | Some(value: T)

  newtype byte = x: int | 0 <= x < 256

  /** Where a resource's file lives: a plain path string (as an uploaded
      attachment carries it), or the directory join `dir / rel`, kept
      uninterpreted. */
  datatype FilePath = PathText(text: string) | Child(dir: string, rel: string)

  /** A chat resource; the sandbox only ever creates ones of kind "file". */
  datatype Resource = Resource(kind: string, path: FilePath)

  const FileKind: string := "file"
}
