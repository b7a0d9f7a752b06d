/** An abstract directory tree, standing in for the file system that
    `os.walk` and `Path.iterdir` read. */
module FileTree {

  /** Whether listing a directory succeeds: it may raise `PermissionError`
      or some other `OSError`. */
  datatype Access = Readable | PermissionDenied | Failing(reason: string)

  datatype Entry =
    | File(name: string)
    | Dir(name: string, access: Access, children: seq<Entry>)

  /** `os.path.join(parent, name)` for a single name component. */
  function JoinPath(parent: string, name: string): (r: string)
    ensures |r| > |name| && r[|r| - |name|..] == name && r[|r| - |name| - 1] == '/'
    ensures parent <= r
  {
    if |parent| > 0 && parent[|parent| - 1] == '/' then parent + name else parent + "/" + name
  }
}
