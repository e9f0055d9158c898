/** What configuration files are called and how their contents are recognised. */
module Files {
  import opened Bytes

  type Content = seq<byte>

  /** SHA-256 is taken to be injective: a digest stands for the bytes it was computed from. */
  datatype Digest = Digest(content: Content)

  /** A file in the user's directory, or a rendered revision in the manager's own directory. */
  datatype ConfigPath = ExternalPath(name: string) | ManagedPath(id: string, contentRevision: nat)

  /** An atomic write that fails may have replaced the file already: the error can come after the rename. */
  datatype WriteOutcome = Written | FailedOld | FailedNew
}
