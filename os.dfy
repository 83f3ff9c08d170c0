/**
 * The parts of the operating system the provider touches: files, read whole
 * or streamed, and environment variables.
 */
module Os {

  type Bytes = seq<bv8>

  /**
   * A snapshot of the file system: a path that can be opened and read maps
   * to its contents; a path that is absent does not exist.
   */
  type FileSystem = map<string, Bytes>

  /** `os.Getenv`: the empty string for an unset variable. */
  function Getenv(env: map<string, string>, key: string): (v: string)
    ensures key !in env ==> v == ""
    ensures key in env ==> v == env[key]
  {
    if key in env then env[key] else ""
  }

  /**
   * What `io.Copy(part, reader)` moves after `reader, _ := os.Open(path)`:
   * the whole file, or nothing when the open failed (a nil *os.File reads
   * as an error and the copy stops at once).
   */
  function CopiedContents(fs: FileSystem, path: string): Bytes {
    if path in fs then fs[path] else []
  }
}
