/**
  The build of a task: every step's container is built in order, the directory at
  the source root of each is written into one output directory, and that directory is
  exported. In this model each write replaces the entry at the source root; the
  engine's merge of file trees is not modelled. The export's `(ok, err)` pair is
  turned into a single outcome.
 */
module Pipeline {
  import opened Wrappers
  import opened Engine
  import opened Script
  import opened Workspaces
  import opened Steps

  const ProjectUrl: string := "https://github.com/tektoncd/pipeline"
  const ProjectBranch: string := "main"

  /** The project's source tree, fetched once before the first step and never replaced. */
  const Project: Directory := Directory(GitTree(ProjectUrl, ProjectBranch), [])

  /** Where the output directory is exported to. */
  const ExportDestination: string := "foo"

  /** The error reported when the export says "not ok" without an error of its own. */
  const NotOkMessage: string := "Not OK"

  /** The resolved task: its workspace declarations and its steps, in order. */
  datatype TaskSpec = TaskSpec(workspaces: seq<WorkspaceDecl>, steps: seq<Step>)

  /** `names[i]` is the script file name generated for `steps[i]`. */
  predicate NamesFor(steps: seq<Step>, names: seq<string>)
  {
    |names| == |steps| && forall i :: 0 <= i < |steps| ==> NameFits(steps[i], names[i])
  }

  /** What a step writes into the output directory: its container's directory at the
      source root, written at the source root. */
  function StepWrite(step: Step, name: string, ws: seq<BoundWorkspace>, project: Directory): (m: Mount)
    requires NameFits(step, name)
    ensures m.path == SourceRoot
  {
    Mount(SourceRoot, StepContainer(step, name, ws, project).DirectoryAt(SourceRoot))
  }

  /** The writes of `steps` into the output directory, one per step, oldest first. */
  function Writes(steps: seq<Step>, names: seq<string>, ws: seq<BoundWorkspace>, project: Directory): (w: seq<Mount>)
    requires NamesFor(steps, names)
    ensures |w| == |steps|
    ensures forall i :: 0 <= i < |w| ==> w[i].path == SourceRoot
  {
    seq(|steps|, i requires 0 <= i < |steps| && NameFits(steps[i], names[i]) => StepWrite(steps[i], names[i], ws, project))
  }

  /** The directory that `writes`, applied in order to a fresh empty directory, give:
      the recorded writes are exactly `writes`. */
  function Fold(writes: seq<Mount>): (d: Directory)
    ensures d.base == Scratch
    ensures d.overrides == writes
  {
    if |writes| == 0 then EmptyDirectory()
    else
      var n := |writes| - 1;
      assert writes[..n] + [writes[n]] == writes;
      Fold(writes[..n]).WithDirectory(writes[n].path, writes[n].content)
  }

  /** Writes that all go to `root` leave no entry anywhere else, and, when there is at
      least one, the last one is the entry at `root`. */
  lemma FoldEntries(writes: seq<Mount>, root: string)
    requires forall i :: 0 <= i < |writes| ==> writes[i].path == root
    ensures forall q :: q != root ==> Fold(writes).Entry(q) == None
    ensures |writes| > 0 ==> Fold(writes).Entry(root) == Some(writes[|writes| - 1].content)
  {
  }

  /** The output directory after building `steps`: it starts empty, and each step writes
      its container's source-root directory at the source root. */
  function Outputs(steps: seq<Step>, names: seq<string>, ws: seq<BoundWorkspace>, project: Directory): (d: Directory)
    requires NamesFor(steps, names)
    ensures d.base == Scratch
    ensures |d.overrides| == |steps|
    ensures |steps| == 0 ==> d == EmptyDirectory()
  {
    Fold(Writes(steps, names, ws, project))
  }

  /** The entries of the output directory under the modelled directory algebra, where a
      write replaces the entry at its path: nothing is written outside the source root,
      and, after at least one step, the source root holds the last step's container
      directory at that path. */
  lemma OutputsEntries(steps: seq<Step>, names: seq<string>, ws: seq<BoundWorkspace>, project: Directory)
    requires NamesFor(steps, names)
    ensures forall q :: q != SourceRoot ==> Outputs(steps, names, ws, project).Entry(q) == None
    ensures |steps| > 0 ==>
              var last := |steps| - 1;
              Outputs(steps, names, ws, project).Entry(SourceRoot)
                == Some(StepContainer(steps[last], names[last], ws, project).DirectoryAt(SourceRoot))
  {
    var w := Writes(steps, names, ws, project);
    FoldEntries(w, SourceRoot);
    if |steps| > 0 {
      var last := |steps| - 1;
      assert w[last] == StepWrite(steps[last], names[last], ws, project);
    }
  }

  /** One more step of the fold: the output directory of the first `i + 1` steps. */
  lemma OutputsStep(steps: seq<Step>, names: seq<string>, ws: seq<BoundWorkspace>, project: Directory, i: nat)
    requires NamesFor(steps, names) && i < |steps|
    ensures NamesFor(steps[..i], names[..i]) && NamesFor(steps[..i + 1], names[..i + 1])
    ensures Outputs(steps[..i + 1], names[..i + 1], ws, project)
         == Outputs(steps[..i], names[..i], ws, project).WithDirectory(SourceRoot, StepContainer(steps[i], names[i], ws, project).DirectoryAt(SourceRoot))
  {
    assert NamesFor(steps[..i], names[..i]) && NamesFor(steps[..i + 1], names[..i + 1]);
    var w := Writes(steps[..i + 1], names[..i + 1], ws, project);
    assert w[..i] == Writes(steps[..i], names[..i], ws, project);
    assert w[i] == StepWrite(steps[i], names[i], ws, project);
  }

  /** The build's outcome from the export's reply: an error is passed on unchanged,
      and "not ok" without an error is a failure too. */
  function CheckExport(reply: ExportReply): (r: Outcome<string>)
    ensures r == Pass <==> reply.ok && reply.err == None
    ensures reply.err.Some? ==> r == Fail(reply.err.value)
    ensures reply.err == None && !reply.ok ==> r == Fail(NotOkMessage)
  {
    match reply.err
    case Some(e) => Fail(e)
    case None => if reply.ok then Pass else Fail(NotOkMessage)
  }

  /** Binds the declared workspaces, one by one, each to a fresh empty directory. */
  method BindWorkspaces(decls: seq<WorkspaceDecl>) returns (workspaces: seq<BoundWorkspace>)
    ensures workspaces == Bind(decls)
  {
    workspaces := [];
    var j := 0;
    while j < |decls|
      invariant 0 <= j <= |decls|
      invariant workspaces == Bind(decls[..j])
    {
      var w := decls[j];
      workspaces := workspaces + [BoundWorkspace(w.name, EmptyDirectory(), w.mountPath)];
      j := j + 1;
    }
    assert decls[..j] == decls;
  }

  /** Builds one step's container: image and working directory, then the script file and
      its exec or the command's exec, then one mount per task workspace. */
  method BuildStep(step: Step, filename: string, workspaces: seq<BoundWorkspace>, project: Directory)
    returns (tc: Container)
    requires NameFits(step, filename)
    ensures tc == StepContainer(step, filename, workspaces, project)
  {
    tc := NewContainer().From(step.image).WithWorkdir(SourceRoot);
    if step.script != "" {
      var scriptFile := ScriptPath(filename);
      tc := tc.WithNewFile(scriptFile, ScriptContents(step.script), ScriptPermissions).WithExec([scriptFile]);
    } else {
      tc := tc.WithExec(step.command + step.args);
    }
    ghost var head := tc.ops;
    assert head == [From(step.image), WithWorkdir(SourceRoot)] + ExecOps(step, filename);
    var k := 0;
    while k < |workspaces|
      invariant 0 <= k <= |workspaces|
      invariant tc.ops == head + MountOps(workspaces, project)[..k]
    {
      var m := Resolve(workspaces[k], project);
      tc := tc.WithDirectory(m.path, m.content);
      k := k + 1;
    }
    assert MountOps(workspaces, project)[..k] == MountOps(workspaces, project);
  }

  /** Builds every step's container, in order, and writes each one's source-root
      directory into the output directory, which starts empty. */
  method BuildSteps(steps: seq<Step>, names: seq<string>, workspaces: seq<BoundWorkspace>, project: Directory)
    returns (outputs: Directory)
    requires NamesFor(steps, names)
    ensures outputs == Outputs(steps, names, workspaces, project)
  {
    outputs := EmptyDirectory();
    var i := 0;
    while i < |steps|
      invariant 0 <= i <= |steps|
      invariant outputs == Outputs(steps[..i], names[..i], workspaces, project)
    {
      var tc := BuildStep(steps[i], names[i], workspaces, project);
      OutputsStep(steps, names, workspaces, project, i);
      outputs := outputs.WithDirectory(SourceRoot, tc.DirectoryAt(SourceRoot));
      i := i + 1;
    }
    assert steps[..i] == steps && names[..i] == names;
  }

  /** The build of a resolved task, step by step. `names` holds the generated script
      file names and `exporter` stands for the engine's export of a directory. */
  method Build(spec: TaskSpec, names: seq<string>, exporter: (Directory, string) -> ExportReply)
    returns (outcome: Outcome<string>)
    requires NamesFor(spec.steps, names)
    ensures outcome == CheckExport(exporter(Outputs(spec.steps, names, Bind(spec.workspaces), Project), ExportDestination))
  {
    var workspaces := BindWorkspaces(spec.workspaces);
    var outputs := BuildSteps(spec.steps, names, workspaces, Project);
    var reply := exporter(outputs, ExportDestination);
    if reply.err.Some? {
      return Fail(reply.err.value);
    }
    if !reply.ok {
      return Fail(NotOkMessage);
    }
    return Pass;
  }

  /** A task without steps exports the empty directory it started with. */
  lemma NoStepsExportsEmpty(spec: TaskSpec, names: seq<string>)
    requires NamesFor(spec.steps, names) && |spec.steps| == 0
    ensures Outputs(spec.steps, names, Bind(spec.workspaces), Project) == EmptyDirectory()
  {
  }

  /** The fold records one write per step, oldest first, each the step container's directory
      at the source root: whatever the engine makes of repeated writes, it combines exactly
      these trees, in this order. */
  lemma OutputsRecordsEveryStep(steps: seq<Step>, names: seq<string>, ws: seq<BoundWorkspace>, project: Directory)
    requires NamesFor(steps, names)
    ensures Outputs(steps, names, ws, project).overrides
         == seq(|steps|, i requires 0 <= i < |steps| && NameFits(steps[i], names[i]) =>
                  Mount(SourceRoot, StepContainer(steps[i], names[i], ws, project).DirectoryAt(SourceRoot)))
  {
  }

  /** Under the modelled directory algebra, where a write replaces the entry at its path,
      only the last step's write is an entry of the output: two runs that end in the same
      step, with the same generated name, have the same entries whatever came before. */
  lemma OnlyLastStepExported(steps1: seq<Step>, names1: seq<string>, steps2: seq<Step>, names2: seq<string>,
                             ws: seq<BoundWorkspace>, project: Directory)
    requires NamesFor(steps1, names1) && NamesFor(steps2, names2)
    requires |steps1| > 0 && |steps2| > 0
    requires steps1[|steps1| - 1] == steps2[|steps2| - 1] && names1[|names1| - 1] == names2[|names2| - 1]
    ensures forall q :: Outputs(steps1, names1, ws, project).Entry(q) == Outputs(steps2, names2, ws, project).Entry(q)
  {
    OutputsEntries(steps1, names1, ws, project);
    OutputsEntries(steps2, names2, ws, project);
  }

  /** In every step, the workspace named `source` mounts the original project tree at the
      source root, and every other workspace an empty directory at its resolved path:
      no step's mounts see what an earlier step produced. */
  lemma StepMounts(spec: TaskSpec, names: seq<string>, i: nat, k: nat)
    requires NamesFor(spec.steps, names) && i < |spec.steps| && k < |spec.workspaces|
    ensures var mounts := StepContainer(spec.steps[i], names[i], Bind(spec.workspaces), Project).Mounts();
            var decl := spec.workspaces[k];
            && |mounts| == |spec.workspaces|
            && (decl.name == SourceName ==> mounts[k] == Mount(SourceRoot, Project))
            && (decl.name != SourceName ==> mounts[k].content == EmptyDirectory())
            && (decl.name != SourceName ==>
                  mounts[k].path == (if decl.mountPath == "" then WorkspaceRoot + decl.name else decl.mountPath))
  {
    var ws := Bind(spec.workspaces);
    MountsPerStep(spec.steps[i], names[i], ws, Project);
    if spec.workspaces[k].name != SourceName {
      BoundNonSourceIsEmpty(spec.workspaces, Project, k);
    }
  }

  /** A step mounts the project tree exactly when the task declares a workspace named
      `source`: a task without one never mounts the project tree in any step. */
  lemma ProjectMountedIffSource(spec: TaskSpec, names: seq<string>, i: nat)
    requires NamesFor(spec.steps, names) && i < |spec.steps|
    ensures Mount(SourceRoot, Project) in StepContainer(spec.steps[i], names[i], Bind(spec.workspaces), Project).Mounts()
        <==> exists k :: 0 <= k < |spec.workspaces| && spec.workspaces[k].name == SourceName
  {
    var mounts := StepContainer(spec.steps[i], names[i], Bind(spec.workspaces), Project).Mounts();
    MountsPerStep(spec.steps[i], names[i], Bind(spec.workspaces), Project);
    if Mount(SourceRoot, Project) in mounts {
      var k :| 0 <= k < |mounts| && mounts[k] == Mount(SourceRoot, Project);
      assert spec.workspaces[k].name == SourceName;
    }
    if k :| 0 <= k < |spec.workspaces| && spec.workspaces[k].name == SourceName {
      StepMounts(spec, names, i, k);
      assert mounts[k] == Mount(SourceRoot, Project);
    }
  }

  /** A step running `echo hi`, with the `source` workspace declared at another path: the
      script gets the shell preamble and mode 0755, runs as the only argument, and the
      project is still mounted at the source root. */
  lemma EchoHiStep(step: Step, name: string)
    requires step.script == "echo hi" && IsPlainName(name)
    ensures var c := StepContainer(step, name, Bind([WorkspaceDecl(SourceName, "/elsewhere")]), Project);
            && c.Files() == [File(ScriptsDir + "/" + name, "#!/bin/sh\nset -e\necho hi", ScriptPermissions)]
            && c.Execs() == [[ScriptsDir + "/" + name]]
            && c.Mounts() == [Mount(SourceRoot, Project)]
  {
    var ws := Bind([WorkspaceDecl(SourceName, "/elsewhere")]);
    assert ws[0].name == SourceName;
    ScriptModeContainer(step, name, ws, Project);
    MountsPerStep(step, name, ws, Project);
    assert step.script[0] == 'e';
    PlainScriptGetsPreamble(step.script);
    assert DefaultScriptPreamble + "echo hi" == "#!/bin/sh\nset -e\necho hi";
  }
}
