/**
  An abstract, immutable model of the container engine's builder API.

  Nothing is executed: a container is the sequence of operations recorded on it,
  and a directory is an opaque base handle plus the sub-directories written over it,
  in the order they were written. Every builder call returns a new value.
 */
module Engine {
  import opened Wrappers

  /** Where the contents of a directory come from. */
  datatype Handle =
    | Scratch                                   // a fresh, empty directory
    | GitTree(url: string, branch: string)      // the tree of a branch of a git repository
    | ContainerPath(container: Container, path: string)  // a path inside a container

  /** A directory value: a base handle and the sub-directories written over it. */
  datatype Directory = Directory(base: Handle, overrides: seq<Mount>)
  {
    /** The directory most recently written at exactly `path`, if any. */
    function Entry(path: string): Option<Directory>
    {
      LastWrite(overrides, path)
    }

    /** A new directory whose entry at `path` is `content`; every other entry is unchanged. */
    function WithDirectory(path: string, content: Directory): (d: Directory)
      ensures d.base == base
      ensures |d.overrides| == |overrides| + 1
      ensures d.Entry(path) == Some(content)
      ensures forall q :: q != path ==> d.Entry(q) == Entry(q)
    {
      Directory(base, overrides + [Mount(path, content)])
    }
  }

  /** A directory placed at a path. */
  datatype Mount = Mount(path: string, content: Directory)

  /** A file written into a container. */
  datatype File = File(path: string, contents: string, permissions: nat)

  /** One recorded operation of a container. */
  datatype Op =
    | From(image: string)
    | WithWorkdir(workdir: string)
    | WithNewFile(file: File)
    | WithExec(args: seq<string>)
    | WithDirectory(mount: Mount)

  /** A container: the operations recorded on it, oldest first. */
  datatype Container = Container(ops: seq<Op>)
  {
    function From(image: string): Container
    {
      Container(ops + [Op.From(image)])
    }

    function WithWorkdir(path: string): Container
    {
      Container(ops + [Op.WithWorkdir(path)])
    }

    function WithNewFile(path: string, contents: string, permissions: nat): Container
    {
      Container(ops + [Op.WithNewFile(File(path, contents, permissions))])
    }

    function WithExec(args: seq<string>): Container
    {
      Container(ops + [Op.WithExec(args)])
    }

    function WithDirectory(path: string, dir: Directory): Container
    {
      Container(ops + [Op.WithDirectory(Mount(path, dir))])
    }

    /** The directory at `path` inside this container, as a fresh handle. */
    function DirectoryAt(path: string): Directory
    {
      Directory(ContainerPath(this, path), [])
    }

    /** The argument vectors of the container's exec operations, in order. */
    function Execs(): seq<seq<string>>
    {
      Pick(ops, ExecOf)
    }

    /** The files written into the container, in order. */
    function Files(): seq<File>
    {
      Pick(ops, FileOf)
    }

    /** The directories mounted into the container, in order. */
    function Mounts(): seq<Mount>
    {
      Pick(ops, MountOf)
    }
  }

  /** The result of exporting a directory: Go's `(ok bool, err error)` pair. */
  datatype ExportReply = ExportReply(ok: bool, err: Option<string>)

  /** A new container with no operations recorded. */
  function NewContainer(): Container
  {
    Container([])
  }

  /** A new empty directory. */
  function EmptyDirectory(): Directory
  {
    Directory(Scratch, [])
  }

  /** The last write at `path` in `ms`: the latest one wins. */
  function LastWrite(ms: seq<Mount>, path: string): (r: Option<Directory>)
    ensures r.Some? <==> exists i :: 0 <= i < |ms| && ms[i].path == path
    ensures r.Some? ==> exists i :: 0 <= i < |ms| && ms[i] == Mount(path, r.value)
                                  && forall j :: i < j < |ms| ==> ms[j].path != path
  {
    if |ms| == 0 then None
    else if ms[|ms| - 1].path == path then Some(ms[|ms| - 1].content)
    else LastWrite(ms[..|ms| - 1], path)
  }

  /** The payloads `f` finds in `ops`, in order. */
  function Pick<T>(ops: seq<Op>, f: Op -> Option<T>): (r: seq<T>)
    ensures |r| <= |ops|
    ensures forall x :: x in r ==> exists i :: 0 <= i < |ops| && f(ops[i]) == Some(x)
  {
    if |ops| == 0 then []
    else (match f(ops[0]) case Some(x) => [x] case None => []) + Pick(ops[1..], f)
  }

  function ExecOf(op: Op): Option<seq<string>>
  {
    if op.WithExec? then Some(op.args) else None
  }

  function FileOf(op: Op): Option<File>
  {
    if op.WithNewFile? then Some(op.file) else None
  }

  function MountOf(op: Op): Option<Mount>
  {
    if op.WithDirectory? then Some(op.mount) else None
  }

  /** Picking distributes over concatenation. */
  lemma {:induction false} PickAppend<T>(a: seq<Op>, b: seq<Op>, f: Op -> Option<T>)
    ensures Pick(a + b, f) == Pick(a, f) + Pick(b, f)
    decreases |a|
  {
    if |a| > 0 {
      assert (a + b)[1..] == a[1..] + b;
      PickAppend(a[1..], b, f);
    } else {
      assert a + b == b;
    }
  }

  /** Operations `f` finds nothing in contribute nothing. */
  lemma {:induction false} PickNone<T>(ops: seq<Op>, f: Op -> Option<T>)
    requires forall i :: 0 <= i < |ops| ==> f(ops[i]).None?
    ensures Pick(ops, f) == []
    decreases |ops|
  {
    if |ops| > 0 {
      PickNone(ops[1..], f);
    }
  }

  /** When `f` finds a payload in every operation, the payloads come out one per operation. */
  lemma {:induction false} PickAll<T>(ops: seq<Op>, f: Op -> Option<T>)
    requires forall i :: 0 <= i < |ops| ==> f(ops[i]).Some?
    ensures Pick(ops, f) == seq(|ops|, i requires 0 <= i < |ops| => f(ops[i]).value)
    decreases |ops|
  {
    if |ops| > 0 {
      PickAll(ops[1..], f);
    }
  }
}
