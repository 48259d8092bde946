/** The file system as a value. Each path names a file with its content or a
    directory; every call on a path in `broken` fails (I/O errors, a parent
    that cannot be searched). A file in `locked` has permissions that deny
    access to it (mode 000): os.Stat on it succeeds, reading and writing it
    fail. */
module FileSystem {
  import opened Outcomes

  datatype Node = File(content: string) | Directory

  datatype Disk = Disk(nodes: map<string, Node>, broken: set<string>, locked: set<string>)

  /** What a sequence of writes left behind: the error that stopped it, if
      any, and the disk as it then was. */
  datatype WriteOutcome = WriteOutcome(err: Option<Error>, disk: Disk)

  datatype StatResult = NotExist | StatError | IsFile | IsDir

  /** os.Stat, read through os.IsNotExist. */
  function Stat(d: Disk, p: string): (r: StatResult)
    ensures r == NotExist <==> p !in d.broken && p !in d.nodes
    ensures r == IsDir <==> p !in d.broken && p in d.nodes && d.nodes[p].Directory?
    ensures r == StatError <==> p in d.broken
  {
    if p in d.broken then StatError
    else if p !in d.nodes then NotExist
    else if d.nodes[p].Directory? then IsDir
    else IsFile
  }

  /** os.ReadFile. */
  function ReadFile(d: Disk, p: string): (r: Result<string>)
    ensures r.Ok? <==> p !in d.broken && p !in d.locked && p in d.nodes && d.nodes[p].File?
    ensures r.Ok? ==> r.value == d.nodes[p].content
    ensures r.Err? ==> r.error == ReadFailed(p)
  {
    if p in d.broken || p in d.locked || p !in d.nodes || d.nodes[p].Directory? then Err(ReadFailed(p))
    else Ok(d.nodes[p].content)
  }

  /** os.WriteFile: creates or truncates the file; nothing else changes. */
  function WriteFile(d: Disk, p: string, content: string): (r: Result<Disk>)
    ensures r.Ok? <==> p !in d.broken && p !in d.locked && !(p in d.nodes && d.nodes[p].Directory?)
    ensures r.Ok? ==> r.value == d.(nodes := d.nodes[p := File(content)])
    ensures r.Err? ==> r.error == WriteFailed(p)
  {
    if p in d.broken || p in d.locked || (p in d.nodes && d.nodes[p].Directory?) then Err(WriteFailed(p))
    else Ok(d.(nodes := d.nodes[p := File(content)]))
  }

  /** os.MkdirAll: succeeds on an existing directory; only the named
      directory is recorded (intermediate directories are not modelled). */
  function MkdirAll(d: Disk, dir: string): (r: Result<Disk>)
    ensures r.Ok? <==> dir !in d.broken && !(dir in d.nodes && d.nodes[dir].File?)
    ensures r.Ok? ==> r.value == d.(nodes := d.nodes[dir := Directory])
    ensures forall p :: r.Ok? && p in d.nodes && d.nodes[p].File? ==> p in r.value.nodes && r.value.nodes[p] == d.nodes[p]
  {
    if dir in d.broken || (dir in d.nodes && d.nodes[dir].File?) then Err(MkdirFailed(dir))
    else Ok(d.(nodes := d.nodes[dir := Directory]))
  }

  /** What was written can be read back unchanged. */
  lemma WriteThenRead(d: Disk, p: string, content: string)
    requires WriteFile(d, p, content).Ok?
    ensures ReadFile(WriteFile(d, p, content).value, p) == Ok(content)
  {
  }
}
