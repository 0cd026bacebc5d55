/**
  The container one step of a task runs in: its image and working directory,
  the script file or command it executes, and the task's workspaces mounted
  after the exec.
 */
module Steps {
  import opened Wrappers
  import opened Engine
  import opened Script
  import opened Workspaces

  /** A step of the resolved task spec. `workspaces` are the step's own workspace
      declarations, which the build does not use. */
  datatype Step = Step(
    name: string,
    image: string,
    command: seq<string>,
    args: seq<string>,
    script: string,
    workspaces: seq<string>)

  /** A non-empty script wins over the command and arguments. */
  predicate ScriptMode(step: Step)
  {
    step.script != ""
  }

  /** The file name generated for a script step must be usable as a single path component. */
  predicate NameFits(step: Step, filename: string)
  {
    ScriptMode(step) ==> IsPlainName(filename)
  }

  /** The operations that write the script (script mode) and run the step. */
  function ExecOps(step: Step, filename: string): (e: seq<Op>)
    requires NameFits(step, filename)
    ensures 1 <= |e| <= 2 && e[|e| - 1].WithExec?
    ensures forall k :: 0 <= k < |e| ==> e[k].WithNewFile? || e[k].WithExec?
  {
    if ScriptMode(step) then
      var scriptFile := ScriptPath(filename);
      var file := File(scriptFile, ScriptContents(step.script), ScriptPermissions);
      [WithNewFile(file), WithExec([scriptFile])]
    else
      [WithExec(step.command + step.args)]
  }

  /** One mount operation per task workspace, in declaration order. */
  function MountOps(ws: seq<BoundWorkspace>, project: Directory): (m: seq<Op>)
    ensures |m| == |ws|
    ensures forall k :: 0 <= k < |m| ==> m[k] == Op.WithDirectory(Resolve(ws[k], project))
  {
    seq(|ws|, i requires 0 <= i < |ws| => Op.WithDirectory(Resolve(ws[i], project)))
  }

  /** The container built for `step`; `filename` is the generated script file name. */
  function StepContainer(step: Step, filename: string, ws: seq<BoundWorkspace>, project: Directory): Container
    requires NameFits(step, filename)
  {
    Container([From(step.image), WithWorkdir(SourceRoot)] + ExecOps(step, filename) + MountOps(ws, project))
  }

  /** Every step container starts from the step's image with the source root as working
      directory, neither is set again later, and its exec comes before every mount. */
  lemma ContainerLayout(step: Step, filename: string, ws: seq<BoundWorkspace>, project: Directory)
    requires NameFits(step, filename)
    ensures var ops := StepContainer(step, filename, ws, project).ops;
            && |ops| >= 3
            && ops[0] == From(step.image) && ops[1] == WithWorkdir(SourceRoot)
            && (forall k :: 2 <= k < |ops| ==> !ops[k].From? && !ops[k].WithWorkdir?)
            && (forall j, k :: 0 <= j < |ops| && 0 <= k < |ops| && ops[j].WithExec? && ops[k].WithDirectory? ==> j < k)
  {
    Layout([From(step.image), WithWorkdir(SourceRoot)], ExecOps(step, filename), MountOps(ws, project));
  }

  /** Where the three segments of a step container's operations sit. */
  lemma Layout(h: seq<Op>, e: seq<Op>, m: seq<Op>)
    requires |h| == 2 && h[0].From? && h[1].WithWorkdir? && |e| >= 1
    requires forall k :: 0 <= k < |e| ==> e[k].WithNewFile? || e[k].WithExec?
    requires forall k :: 0 <= k < |m| ==> m[k].WithDirectory?
    ensures var ops := h + e + m;
            && (forall k :: 2 <= k < |ops| ==> ops[k].WithNewFile? || ops[k].WithExec? || ops[k].WithDirectory?)
            && (forall k :: 0 <= k < |ops| && ops[k].WithDirectory? ==> 2 + |e| <= k)
            && (forall j :: 0 <= j < |ops| && ops[j].WithExec? ==> j < 2 + |e|)
  {
    var ops := h + e + m;
    forall k | 0 <= k < |ops|
      ensures 2 <= k < 2 + |e| ==> ops[k].WithNewFile? || ops[k].WithExec?
      ensures 2 + |e| <= k ==> ops[k].WithDirectory?
      ensures k < 2 ==> ops[k] == h[k]
    {
      if k < 2 {
      } else if k < 2 + |e| {
        assert ops[k] == e[k - 2];
      } else {
        assert ops[k] == m[k - 2 - |e|];
      }
    }
  }

  /** Script mode: the script is written to its file with mode 0755, right after the
      working directory is set, and then that file is run as the whole argument vector,
      whatever the command and arguments hold. */
  lemma ScriptModeContainer(step: Step, filename: string, ws: seq<BoundWorkspace>, project: Directory)
    requires ScriptMode(step) && IsPlainName(filename)
    ensures var c := StepContainer(step, filename, ws, project);
            && c.Files() == [File(ScriptPath(filename), ScriptContents(step.script), ScriptPermissions)]
            && c.Execs() == [[ScriptPath(filename)]]
            && c.ops[2] == Op.WithNewFile(File(ScriptPath(filename), ScriptContents(step.script), ScriptPermissions))
            && c.ops[3] == Op.WithExec([ScriptPath(filename)])
  {
    ExecsOfContainer(step, filename, ws, project);
    FilesOfContainer(step, filename, ws, project);
    var e := ExecOps(step, filename);
    var ops := StepContainer(step, filename, ws, project).ops;
    assert ops == [From(step.image), WithWorkdir(SourceRoot)] + e + MountOps(ws, project);
    assert ops[2] == e[0] && ops[3] == e[1];
  }

  /** Command mode: no file is written and the exec, right after the working directory is
      set, runs the command followed by the arguments, unchanged, even when both are empty. */
  lemma CommandModeContainer(step: Step, filename: string, ws: seq<BoundWorkspace>, project: Directory)
    requires !ScriptMode(step)
    ensures var c := StepContainer(step, filename, ws, project);
            && c.Files() == []
            && c.Execs() == [step.command + step.args]
            && c.ops[2] == Op.WithExec(step.command + step.args)
  {
    ExecsOfContainer(step, filename, ws, project);
    FilesOfContainer(step, filename, ws, project);
    var e := ExecOps(step, filename);
    var ops := StepContainer(step, filename, ws, project).ops;
    assert ops == [From(step.image), WithWorkdir(SourceRoot)] + e + MountOps(ws, project);
    assert ops[2] == e[0];
  }

  /** Every task workspace is mounted, once and in declaration order, in every step. */
  lemma MountsPerStep(step: Step, filename: string, ws: seq<BoundWorkspace>, project: Directory)
    requires NameFits(step, filename)
    ensures var c := StepContainer(step, filename, ws, project);
            && |c.Mounts()| == |ws|
            && forall k :: 0 <= k < |ws| ==> c.Mounts()[k] == Resolve(ws[k], project)
  {
    MountsOfContainer(step, filename, ws, project);
  }

  /** The step's own workspace declarations make no difference to its container. */
  lemma StepWorkspacesIgnored(step: Step, other: seq<string>, filename: string, ws: seq<BoundWorkspace>, project: Directory)
    requires NameFits(step, filename)
    ensures StepContainer(step.(workspaces := other), filename, ws, project) == StepContainer(step, filename, ws, project)
  {
  }

  /** The execs of a step container are those of its exec segment. */
  lemma ExecsOfContainer(step: Step, filename: string, ws: seq<BoundWorkspace>, project: Directory)
    requires NameFits(step, filename)
    ensures StepContainer(step, filename, ws, project).Execs() == Pick(ExecOps(step, filename), ExecOf)
  {
    var head: seq<Op> := [From(step.image), WithWorkdir(SourceRoot)];
    var e := ExecOps(step, filename);
    var m := MountOps(ws, project);
    PartsOf(head, e, m, ExecOf);
    PickNone(head, ExecOf);
    PickNone(m, ExecOf);
  }

  /** The files of a step container are those of its exec segment. */
  lemma FilesOfContainer(step: Step, filename: string, ws: seq<BoundWorkspace>, project: Directory)
    requires NameFits(step, filename)
    ensures StepContainer(step, filename, ws, project).Files() == Pick(ExecOps(step, filename), FileOf)
  {
    var head: seq<Op> := [From(step.image), WithWorkdir(SourceRoot)];
    var e := ExecOps(step, filename);
    var m := MountOps(ws, project);
    PartsOf(head, e, m, FileOf);
    PickNone(head, FileOf);
    PickNone(m, FileOf);
  }

  /** The mounts of a step container are the resolved task workspaces. */
  lemma MountsOfContainer(step: Step, filename: string, ws: seq<BoundWorkspace>, project: Directory)
    requires NameFits(step, filename)
    ensures StepContainer(step, filename, ws, project).Mounts()
         == seq(|ws|, i requires 0 <= i < |ws| => Resolve(ws[i], project))
  {
    var head: seq<Op> := [From(step.image), WithWorkdir(SourceRoot)];
    var e := ExecOps(step, filename);
    var m := MountOps(ws, project);
    assert StepContainer(step, filename, ws, project).ops == head + e + m;
    MountsAfterPrefix(head, e, m);
    MountOpsPicked(ws, project);
  }

  /** Segments that mount nothing add nothing in front of the mounts. */
  lemma MountsAfterPrefix(h: seq<Op>, e: seq<Op>, m: seq<Op>)
    requires forall k :: 0 <= k < |h| ==> !h[k].WithDirectory?
    requires forall k :: 0 <= k < |e| ==> !e[k].WithDirectory?
    ensures Pick(h + e + m, MountOf) == Pick(m, MountOf)
  {
    PartsOf(h, e, m, MountOf);
    PickNone(h, MountOf);
    PickNone(e, MountOf);
  }

  /** The mounts recorded by the mount segment are the resolved workspaces, in order. */
  lemma MountOpsPicked(ws: seq<BoundWorkspace>, project: Directory)
    ensures Pick(MountOps(ws, project), MountOf) == seq(|ws|, i requires 0 <= i < |ws| => Resolve(ws[i], project))
  {
    var m := MountOps(ws, project);
    var r := seq(|ws|, i requires 0 <= i < |ws| => Resolve(ws[i], project));
    PickAll(m, MountOf);
    var p := seq(|m|, i requires 0 <= i < |m| => MountOf(m[i]).value);
    assert |p| == |r|;
    forall i | 0 <= i < |r| ensures p[i] == r[i] {
      assert m[i] == Op.WithDirectory(Resolve(ws[i], project));
    }
  }

  lemma PartsOf<T>(a: seq<Op>, b: seq<Op>, c: seq<Op>, f: Op -> Option<T>)
    ensures Pick(a + b + c, f) == Pick(a, f) + Pick(b, f) + Pick(c, f)
  {
    PickAppend(a + b, c, f);
    PickAppend(a, b, f);
  }
}
