/** The slice of the filesystem the pipeline touches: path joining as `os.path.join` does it
    for two POSIX components, directory entries, and text reads. */
module Files {
  import opened Wrappers

  /** A stored file: text written by `open(..., "w")`, or an image written by the page. */
  datatype FileData = Text(contents: string) | Png

  /** What `os.path.join(dir, name)` puts in front of a relative name. */
  function DirPrefix(dir: string): (p: string)
    ensures |dir| <= |p| && p[..|dir|] == dir
    ensures p == "" || p[|p| - 1] == '/'
  {
    if dir == "" || dir[|dir| - 1] == '/' then dir else dir + "/"
  }

  /** `os.path.join(dir, name)`: an absolute name replaces the directory. */
  function Join(dir: string, name: string): string
  {
    if |name| > 0 && name[0] == '/' then name else DirPrefix(dir) + name
  }

  /** The entry name of `path` when it lies directly inside `dir`, as a directory listing names it. */
  function EntryName(dir: string, path: string): (r: Option<string>)
    ensures r.Some? ==> '/' !in r.value && path == DirPrefix(dir) + r.value
  {
    var p := DirPrefix(dir);
    if |p| <= |path| && path[..|p|] == p && '/' !in path[|p|..] then Some(path[|p|..]) else None
  }

  /** Joining a plain entry name onto a directory and listing that directory give the name back. */
  lemma EntryNameOfJoin(dir: string, name: string)
    requires '/' !in name
    ensures Join(dir, name) == DirPrefix(dir) + name
    ensures EntryName(dir, Join(dir, name)) == Some(name)
  {
    var p := DirPrefix(dir);
    var path := p + name;
    assert |name| > 0 ==> name[0] in name;
    assert path[..|p|] == p;
    assert path[|p|..] == name;
  }

  /** `open(path, "r").read()`: only a text file at that path can be read back as text. */
  function ReadText(files: map<string, FileData>, path: string): (r: Option<string>)
    ensures r.Some? <==> path in files && files[path].Text?
    ensures r.Some? ==> files[path] == Text(r.value)
  {
    if path in files && files[path].Text? then Some(files[path].contents) else None
  }
}
