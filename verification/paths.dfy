/** Slash-separated paths, a simplified `path/filepath`. Join drops an empty
    element and a directory that is exactly ".", and does not double the
    root's slash, as filepath.Join does; the rest of filepath.Clean (a
    leading "./" inside a longer directory, ".." elements, doubled or
    trailing slashes) is not modelled. */
module Paths {
  import opened Outcomes

  /** Index of the last '/' in `p`, or -1 when there is none. */
  function LastSlash(p: string): (k: int)
    ensures -1 <= k < |p|
    ensures k >= 0 ==> p[k] == '/'
    ensures forall j :: k < j < |p| ==> p[j] != '/'
  {
    if p == [] then -1
    else if p[|p| - 1] == '/' then |p| - 1
    else LastSlash(p[..|p| - 1])
  }

  /** filepath.Join of two elements. */
  function Join(dir: string, name: string): string {
    if name == [] then (if dir == [] then [] else dir)
    else if dir == [] || dir == "." then name
    else if dir == "/" then "/" + name
    else dir + "/" + name
  }

  /** filepath.Join of three elements. */
  function Join3(a: string, b: string, c: string): string {
    Join(Join(a, b), c)
  }

  /** filepath.Dir: everything before the last separator, "." when there is none. */
  function Dir(p: string): string {
    var k := LastSlash(p);
    if k < 0 then "." else if k == 0 then "/" else p[..k]
  }

  /** filepath.Base: everything after the last separator; "." for the empty path. */
  function Base(p: string): string {
    if p == [] then "." else p[LastSlash(p) + 1..]
  }

  /** filepath.Rel for a target below `base`; None where Rel would fail.
      A target that is not below `base` (which needs ".." elements) is not
      modelled and reads as a failure. */
  function Rel(base: string, target: string): Option<string> {
    if target == base then Some(".")
    else if base == "/" && target != [] && target[0] == '/' then Some(target[1..])
    else if |base| + 1 <= |target| && target[..|base| + 1] == base + "/" then Some(target[|base| + 1..])
    else if base == "." && target != [] && target[0] != '/' then Some(target)
    else None
  }

  /** A file name joined to a directory comes back out of Base and Dir. */
  lemma JoinSplits(dir: string, name: string)
    requires name != [] && '/' !in name
    requires dir != [] && dir != "."
    ensures Base(Join(dir, name)) == name
    ensures Dir(Join(dir, name)) == dir
  {
    if dir == "/" {
      var p := "/" + name;
      assert forall j :: 0 < j < |p| ==> p[j] == name[j - 1];
      assert LastSlash(p) == 0;
      assert p[1..] == name;
      return;
    }
    var p := dir + "/" + name;
    assert p[|dir|] == '/';
    assert forall j :: |dir| < j < |p| ==> p[j] == name[j - |dir| - 1];
    var k := LastSlash(p);
    assert k == |dir|;
    assert p[..k] == dir;
    assert p[k + 1..] == name;
  }

  /** Joining to "." or to the empty directory leaves the name as it is. */
  lemma JoinCurrentDir(name: string)
    requires name != []
    ensures Join(".", name) == name && Join("", name) == name
  {
  }

  /** Rel undoes Join below a working directory. */
  lemma RelOfJoin(base: string, name: string)
    requires base != [] && base != "." && name != []
    ensures Rel(base, Join(base, name)) == Some(name)
  {
    if base == "/" {
      assert ("/" + name)[1..] == name;
      return;
    }
    var t := base + "/" + name;
    assert t[..|base| + 1] == base + "/";
    assert t != base;
    assert t[|base| + 1..] == name;
  }
}
