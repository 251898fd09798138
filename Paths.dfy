/** The two files a CA keeps under its root directory, and how their paths are formed. */
module Paths {

  /** File name of the CA certificate (PEM) under the CA root. */
  const RootName: string := "rootCA.pem"

  /** File name of the CA private key (PEM) under the CA root. */
  const RootKeyName: string := "rootCA-key.pem"

  /** `path` starts with `dir`. */
  predicate HasPrefix(path: string, dir: string) {
    |dir| <= |path| && path[..|dir|] == dir
  }

  /** `path` ends with `name`. */
  predicate HasSuffix(path: string, name: string) {
    |name| <= |path| && path[|path| - |name|..] == name
  }

  /**
   * Joins a directory and a file name with one separator; an empty directory
   * yields the name alone. Lexical clean-up of the directory part (doubled or
   * trailing separators, "." and "..") is not modelled.
   */
  function Join(dir: string, name: string): (path: string)
    ensures dir == "" ==> path == name
    ensures dir != "" ==> |path| == |dir| + 1 + |name| && HasPrefix(path, dir) && path[|dir|] == '/'
    ensures HasSuffix(path, name)
  {
    if dir == "" then name else dir + "/" + name
  }

  /** Within one directory, different file names give different paths. */
  lemma JoinInjective(dir: string, a: string, b: string)
    requires Join(dir, a) == Join(dir, b)
    ensures a == b
  {
  }
}
