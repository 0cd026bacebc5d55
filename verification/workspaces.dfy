/**
  Task-level workspaces: their binding to directories at the start of a run
  and the path each one is mounted at inside a step's container.
 */
module Workspaces {
  import opened Engine
  import opened Script

  /** The workspace that is special-cased to hold the project's source tree. */
  const SourceName: string := "source"

  /** Where the source tree is mounted, and every step's working directory. */
  const SourceRoot: string := "/workspace/source"

  /** The parent of a workspace's default mount path. */
  const WorkspaceRoot: string := "/workspace/"

  /** A workspace as the task declares it; an empty `mountPath` means "use the default". */
  datatype WorkspaceDecl = WorkspaceDecl(name: string, mountPath: string)

  /** A declared workspace bound to the directory that backs it for the run. */
  datatype BoundWorkspace = BoundWorkspace(name: string, directory: Directory, mountPath: string)

  /** Binds every declared workspace, in declaration order, to a fresh empty directory. */
  function Bind(decls: seq<WorkspaceDecl>): seq<BoundWorkspace>
  {
    seq(|decls|, i requires 0 <= i < |decls| =>
      BoundWorkspace(decls[i].name, EmptyDirectory(), decls[i].mountPath))
  }

  /** The path and the directory a workspace is mounted with: `source` always gets the
      project tree at the source root, any other workspace its own directory at its
      declared path, or under the workspace root when it declares none. */
  function Resolve(w: BoundWorkspace, project: Directory): (m: Mount)
    ensures m.path != ""
    ensures w.name == SourceName ==> m == Mount(SourceRoot, project)
    ensures w.name != SourceName ==> m.content == w.directory
    ensures w.name != SourceName && w.mountPath != "" ==> m.path == w.mountPath
    ensures w.name != SourceName && w.mountPath == "" ==>
              HasPrefix(m.path, WorkspaceRoot) && m.path[|WorkspaceRoot|..] == w.name
  {
    if w.name == SourceName then Mount(SourceRoot, project)
    else
      var mountPath := if w.mountPath == "" then WorkspaceRoot + w.name else w.mountPath;
      Mount(mountPath, w.directory)
  }

  /** Two workspaces relying on the default path never collide. */
  lemma DefaultMountPathsDistinct(v: BoundWorkspace, w: BoundWorkspace, project: Directory)
    requires v.name != SourceName && w.name != SourceName && v.name != w.name
    requires v.mountPath == "" && w.mountPath == ""
    ensures Resolve(v, project).path != Resolve(w, project).path
  {
  }

  /** Every workspace other than `source` is mounted from an empty directory. */
  lemma BoundNonSourceIsEmpty(decls: seq<WorkspaceDecl>, project: Directory, k: nat)
    requires k < |decls| && decls[k].name != SourceName
    ensures Resolve(Bind(decls)[k], project).content == EmptyDirectory()
    ensures Resolve(Bind(decls)[k], project).path ==
              if decls[k].mountPath == "" then WorkspaceRoot + decls[k].name else decls[k].mountPath
  {
  }
}
