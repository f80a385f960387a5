/**
  The filesystem the installer works on, made abstract.

  The state is a value `Tree`: the directories (with the permission bits they
  were created with), the regular files (with their bytes) and the working
  directory. Paths are plain strings, joined with "/".

  An operation fails for the reason the operating system would give it (the
  target is missing, or already exists) or because the environment injects a
  `Fault` for it (permission denied, missing parent, an I/O error): the fault
  set is the oracle that stands for everything the model does not see.

  The class `Os` holds that state and offers the capabilities the installer
  uses: `Chdir`, `Mkdir` and `Remove` (the `Chder`, `Mkder` and `Remover`
  interfaces, with the real `os` package as their contract), `WriteFile`
  (`ioutil.WriteFile`) and the `osX` helpers `ReadFiles` and `CopyFile`.
*/
module FileSystem {

  type Path = string
  type Bytes = seq<bv8>

  /** Permission bits as an `os.FileMode` carries them. */
  type FileMode = nat

  /** `filepath.Join(dir, name)` for a clean directory and a single clean name. */
  function Join(dir: Path, name: string): Path
  {
    dir + "/" + name
  }

  /** A failure the environment injects for one operation on one path. */
  datatype Fault =
    | ChdirFault(path: Path)
    | MkdirFault(path: Path)
    | RemoveFault(path: Path)
    | WriteFault(path: Path)
    | CopyFault(path: Path)   // keyed by the destination of the copy

  datatype Tree = Tree(dirs: map<Path, FileMode>, files: map<Path, Bytes>, cwd: Path)

  predicate Exists(t: Tree, p: Path)
  {
    p in t.dirs || p in t.files
  }

  /** `os.Chdir` succeeds on a directory that can be entered. */
  predicate CanChdir(t: Tree, faults: set<Fault>, p: Path)
  {
    p in t.dirs && ChdirFault(p) !in faults
  }

  /** `os.Mkdir` refuses a path that already exists. */
  predicate CanMkdir(t: Tree, faults: set<Fault>, p: Path)
  {
    !Exists(t, p) && MkdirFault(p) !in faults
  }

  function MadeDir(t: Tree, p: Path, perm: FileMode): Tree
  {
    t.(dirs := t.dirs[p := perm])
  }

  predicate IsEmptyDir(t: Tree, p: Path)
  {
    && p in t.dirs
    && (forall q :: q in t.dirs ==> !(p + "/" <= q))
    && (forall q :: q in t.files ==> !(p + "/" <= q))
  }

  /** `os.Remove` deletes a file or an empty directory. */
  predicate CanRemove(t: Tree, faults: set<Fault>, p: Path)
  {
    (p in t.files || IsEmptyDir(t, p)) && RemoveFault(p) !in faults
  }

  function Removed(t: Tree, p: Path): Tree
  {
    t.(dirs := t.dirs - {p}, files := t.files - {p})
  }

  /** `ioutil.WriteFile` creates or truncates a file; it cannot write over a directory. */
  predicate CanWrite(t: Tree, faults: set<Fault>, p: Path)
  {
    p !in t.dirs && WriteFault(p) !in faults
  }

  function Written(t: Tree, p: Path, data: Bytes): Tree
  {
    t.(files := t.files[p := data])
  }

  /** `osX.CopyFile` reads a whole regular file and writes it to a destination that is not a directory. */
  predicate CanCopy(t: Tree, faults: set<Fault>, src: Path, dst: Path)
  {
    src in t.files && dst !in t.dirs && CopyFault(dst) !in faults
  }

  function Copied(t: Tree, src: Path, dst: Path): Tree
    requires src in t.files
  {
    t.(files := t.files[dst := t.files[src]])
  }

  class Os {
    var dirs: map<Path, FileMode>
    var files: map<Path, Bytes>
    var cwd: Path

    /** The failures this environment will report. */
    const faults: set<Fault>

    /** What `osX.ReadFiles` lists for a directory, in listing order; a missing key is a listing error. */
    const listings: map<Path, seq<string>>

    function State(): Tree
      reads this
    {
      Tree(dirs, files, cwd)
    }

    constructor (t: Tree, faults: set<Fault>, listings: map<Path, seq<string>>)
      ensures State() == t
      ensures this.faults == faults && this.listings == listings
    {
      dirs, files, cwd := t.dirs, t.files, t.cwd;
      this.faults, this.listings := faults, listings;
    }

    method Chdir(p: Path) returns (ok: bool)
      modifies this
      ensures ok == CanChdir(old(State()), faults, p)
      ensures State() == if ok then old(State()).(cwd := p) else old(State())
    {
      ok := p in dirs && ChdirFault(p) !in faults;
      if ok {
        cwd := p;
      }
    }

    method Mkdir(p: Path, perm: FileMode) returns (ok: bool)
      modifies this
      ensures ok == CanMkdir(old(State()), faults, p)
      ensures State() == if ok then MadeDir(old(State()), p, perm) else old(State())
    {
      ok := p !in dirs && p !in files && MkdirFault(p) !in faults;
      if ok {
        dirs := dirs[p := perm];
      }
    }

    method Remove(p: Path) returns (ok: bool)
      modifies this
      ensures ok == CanRemove(old(State()), faults, p)
      ensures State() == if ok then Removed(old(State()), p) else old(State())
    {
      ok := CanRemove(State(), faults, p);
      if ok {
        dirs, files := dirs - {p}, files - {p};
      }
    }

    /** Writing is atomic here: a refused write leaves the old tree, with no created or truncated file. */
    method WriteFile(p: Path, data: Bytes) returns (ok: bool)
      modifies this
      ensures ok == CanWrite(old(State()), faults, p)
      ensures State() == if ok then Written(old(State()), p, data) else old(State())
    {
      ok := p !in dirs && WriteFault(p) !in faults;
      if ok {
        files := files[p := data];
      }
    }

    method ReadFiles(dir: Path) returns (names: seq<string>, ok: bool)
      ensures ok <==> dir in listings
      ensures ok ==> names == listings[dir]
      ensures !ok ==> names == []
    {
      if dir in listings {
        names, ok := listings[dir], true;
      } else {
        names, ok := [], false;
      }
    }

    method CopyFile(src: Path, dst: Path) returns (ok: bool)
      modifies this
      ensures ok == CanCopy(old(State()), faults, src, dst)
      ensures ok ==> dst in files && files[dst] == old(files[src])
      ensures State() == if ok then Copied(old(State()), src, dst) else old(State())
    {
      ok := src in files && dst !in dirs && CopyFault(dst) !in faults;
      if ok {
        files := files[dst := files[src]];
      }
    }
  }
}
