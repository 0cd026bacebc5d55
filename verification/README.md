# Tekton task steps as Dagger containers — a Dafny model

This project models the core of `build` in `main.go`. `build` takes a resolved Tekton
task (its workspaces and its ordered steps) and turns every step into a Dagger
container. For each step it:

- starts from the step's image with `/workspace/source` as working directory;
- runs the step's inline script or its command and arguments;
- mounts the task's workspaces;
- copies the container's `/workspace/source` directory into one `outputs` directory.

At the end it exports `outputs` to `foo` and turns the export's `(ok, err)` pair into a
single error.

The engine is not executed. A container is the list of builder operations recorded on it
(`From`, `WithWorkdir`, `WithNewFile`, `WithExec`, `WithDirectory`). A directory is an opaque
handle plus the sub-directories written over it. The handle is one of three things: a fresh
empty directory, the tree of a git branch, or a path inside a container. All values are
immutable, and every builder call returns a new value.

Modules:

- `Wrappers` (`wrappers.dfy`): `Option` and `Outcome`.
- `Engine` (`engine.dfy`): the recorded-operation model of containers and directories.
  `Directory.Entry` is "last write wins" at a path. `Container.Execs`, `Files` and `Mounts`
  list what a container runs, writes and mounts. `ExportReply` is the export's `(ok, err)` pair.
- `Script` (`script.dfy`): the default preamble and the scripts directory. It also holds
  Go's `strings.TrimSpace` with `unicode.IsSpace`, the shebang test, the file contents, the
  file path and the permission bits (octal 0755).
- `Workspaces` (`workspaces.dfy`): workspace declarations, their binding to empty
  directories (the struct `myWorkspaces`), and mount-path resolution, including the
  special case for `source`.
- `Steps` (`steps.dfy`): a step and the container built for it.
- `Pipeline` (`pipeline.dfy`): the fold of the steps into the output directory, the
  normalisation of the export reply, and the method `Build`. `Build` follows the loops of
  `build` and is proved equal to the functional definitions.

The model follows the code as written:

- The project tree is fetched once and never replaced. When the task declares a workspace
  named `source`, every step mounts that original tree at `/workspace/source`. A task
  without one never mounts the project tree (`Pipeline.ProjectMountedIffSource`). No step
  sees an earlier step's result through its mounts (`Pipeline.StepMounts`).
- The workspace mounts are recorded after the step's exec (`Steps.ContainerLayout`).
- Every workspace other than `source` is bound to an empty directory.
- The workspaces a step declares for itself are ignored (`Steps.StepWorkspacesIgnored`).
- The output directory starts empty, so a task without steps exports an empty directory
  (`Pipeline.NoStepsExportsEmpty`). Every step writes its container's `/workspace/source`
  into it at `/workspace/source`, one write per step, oldest first
  (`Pipeline.OutputsRecordsEveryStep`).

## Model

| member | source | states |
|---|---|---|
| `Script.TrimSpace` | main.go:74 | the trimmed script is the slice of the script left after dropping white space (Go's `unicode.IsSpace`) at both ends; it is empty or begins and ends with a non-space character |
| `Script.HasShebang` | main.go:74-75 | the shebang test: the trimmed script begins with `#!`. `Script.ShebangIgnoresTrailingSpace` states it in terms of the leading white space alone |
| `Script.ShebangIgnoresTrailingSpace` | main.go:74-75 | the shebang test on the fully trimmed script holds exactly when the script, without its leading white space, begins with `#!` |
| `Script.ScriptContents` | main.go:74-78 | the contents of the script file; its contract is carried by `Script.MaterialisedScript`, `Script.ScriptContentsIdempotent`, `Script.ScriptIsSuffix`, `Script.PlainScriptGetsPreamble` and `Script.IndentedShebangKept` |
| `Script.MaterialisedScript` | main.go:74-78 | the file contents always begin with an interpreter directive; a script with `#!` after its leading white space is kept unchanged; any other script gets `#!/bin/sh\nset -e\n` in front of the untrimmed script |
| `Script.ScriptContentsIdempotent` | main.go:74-78 | materialising already-materialised contents changes nothing |
| `Script.ScriptIsSuffix` | main.go:76-78 | the user's script always appears verbatim at the end of the file contents |
| `Script.PlainScriptGetsPreamble` | main.go:74-78 | a script whose first character is neither white space nor `#` (such as `echo hi`) gets the preamble |
| `Script.IndentedShebangKept` | main.go:74-77 | a script made of any run of white space, then `#!`, then anything is written byte for byte, leading white space included |
| `Script.ScriptPath` | main.go:79 | the script file lies directly in `/tekton/scripts`, and the generated name can be read back from its path |
| `Script.ScriptPathInjective` | main.go:73-79 | distinct generated names give distinct script files |
| `Workspaces.Bind` | main.go:62-65 | every declared workspace, in order, bound to an empty directory with its name and declared path; its contract is carried by `Workspaces.BoundNonSourceIsEmpty` and `Pipeline.BindWorkspaces` |
| `Workspaces.Resolve` | main.go:90-97 | `source` is mounted at `/workspace/source` with the project tree whatever path it declares; any other workspace is mounted with its own directory at its declared path, or at `/workspace/<name>` when none is declared |
| `Workspaces.DefaultMountPathsDistinct` | main.go:93-96 | two non-source workspaces with different names and no declared path never share a mount path |
| `Workspaces.BoundNonSourceIsEmpty` | main.go:62-65 | every declared workspace other than `source` is mounted from an empty directory at its declared or default path |
| `Steps.ScriptMode` | main.go:71 | a step runs its script exactly when the script is non-empty; its contract is carried by `Steps.ScriptModeContainer` (script run, command and args ignored) and `Steps.CommandModeContainer` (command and args run, no file written) |
| `Steps.ExecOps` | main.go:71-85 | the operations that run a step: one or two, each a file write or an exec, ending in an exec |
| `Steps.MountOps` | main.go:86-99 | the mounts of a step container; its contract is carried by `Steps.MountsPerStep`, through the `Mounts()` view, and by `Pipeline.BuildStep`, which proves the loop of main.go:87-99 equal to it |
| `Steps.StepContainer` | main.go:68-99 | the container built for a step; its contract is carried by `Steps.ContainerLayout`, `Steps.ScriptModeContainer`, `Steps.CommandModeContainer`, `Steps.MountsPerStep` and `Steps.StepWorkspacesIgnored` |
| `Steps.ContainerLayout` | main.go:68-99 | a step container begins with `From(image)` and then `WithWorkdir("/workspace/source")`; neither appears again, and its exec comes before every mount |
| `Steps.ScriptModeContainer` | main.go:71-81 | with a non-empty script, whatever the command and args hold, the only file written is the materialised script at its path with mode 0755, and the only exec runs exactly that path. The file is written right after the working directory is set, and the exec follows it at once |
| `Steps.CommandModeContainer` | main.go:82-85 | with an empty script, no file is written and the only exec runs `command ++ args` unchanged, the empty argument vector included. That exec comes right after the working directory is set |
| `Steps.MountsPerStep` | main.go:86-99 | each step mounts every task workspace exactly once, in declaration order, with its resolved path and directory |
| `Steps.StepWorkspacesIgnored` | main.go:86 | a step's own workspace declarations do not change its container |
| `Engine.Directory.WithDirectory` | main.go:100 | writing a directory at a path makes it that path's entry and leaves every other entry unchanged (last write wins) |
| `Pipeline.StepWrite` | main.go:100 | the single write of one step into the output directory; its contract is carried by `Pipeline.OutputsRecordsEveryStep` |
| `Pipeline.Writes` | main.go:67-101 | the writes of all steps into the output directory, one per step and in step order; its contract is carried by `Pipeline.OutputsRecordsEveryStep` |
| `Pipeline.Fold` | main.go:60-100 | writing a sequence of directories, in order, into a fresh empty directory records exactly those writes |
| `Pipeline.Outputs` | main.go:60-100 | the output directory is built on a fresh empty directory with one write per step; no steps leave it empty |
| `Pipeline.OutputsRecordsEveryStep` | main.go:60-100 | the writes into the output directory are, in step order, each step container's `/workspace/source` directory written at `/workspace/source`, and nothing else |
| `Pipeline.OutputsEntries` | main.go:60-100 | under the replace semantics of `Engine.Directory.WithDirectory`: nothing is written outside `/workspace/source`, and after at least one step its entry there is the last step's container directory at that path |
| `Pipeline.OnlyLastStepExported` | main.go:100 | under the replace semantics of `Engine.Directory.WithDirectory`: two step sequences that end in the same step with the same generated name have the same entries |
| `Pipeline.NoStepsExportsEmpty` | main.go:60 | a task without steps exports the empty directory |
| `Pipeline.StepMounts` | main.go:57-99 | in every step, `source` mounts the original project tree at `/workspace/source`, and every other workspace an empty directory at its resolved path |
| `Pipeline.ProjectMountedIffSource` | main.go:86-97 | a step mounts the project tree at `/workspace/source` exactly when the task declares a workspace named `source`; without one, no step mounts it |
| `Pipeline.CheckExport` | main.go:102-110 | the build succeeds exactly when the export reports ok with no error; an error is passed on unchanged; "not ok" without an error fails with `Not OK` |
| `Pipeline.BindWorkspaces` | main.go:62-65 | the binding loop binds each declared workspace, in order, to a fresh empty directory, keeping its name and declared path |
| `Pipeline.BuildStep` | main.go:67-99 | the builder calls of one loop iteration yield exactly the step container described above |
| `Pipeline.BuildSteps` | main.go:60-101 | the step loop builds each step's container and writes its `/workspace/source` directory into the output directory, yielding exactly the folded output directory |
| `Pipeline.Build` | main.go:57-110 | the whole build's outcome is the normalised reply of exporting the folded output directory to `foo` |
| `Pipeline.EchoHiStep` | main.go:71-97 | a step whose script is `echo hi` writes `#!/bin/sh\nset -e\necho hi` with mode 0755 and runs that file alone. When only `source` is declared, with some other path, the project is still mounted at `/workspace/source` |

## Left out

- Loading the task from YAML (`readTask`, `readKubernetesYAML`, main.go:113-130): file I/O and Kubernetes decoding. The resolved task is the input `TaskSpec`. `readTask` also ignores its `path` argument.
- Parameter, context, workspace, result and exit-code substitution and validation (`applySubstitution`, main.go:132-165): these are calls into Tekton code outside this model. The model starts from their result, including the constant `packages` parameter.
- The Dagger connection, the pipeline name and the git fetch (main.go:51-59): engine plumbing. The fetched tree is the constant `Pipeline.Project`, a git-tree handle.
- The random script-name generator (main.go:73): its output is an input, one name per step.
- Script.ScriptPath: requires a plain file name, meaning non-empty, no `/`, and not `.` or `..`. For such names, `filepath.Join` just inserts a `/`. Path cleaning of other names is not modelled. The generator always returns a name ending in `-` and five random characters, and Tekton step names contain no `/`.
- Script.TrimSpace: works on Unicode characters rather than UTF-8 bytes. Invalid UTF-8 is not modelled.
- Engine.Directory.WithDirectory: models writing a directory at a path as replacing the entry at exactly that path. The engine's real merge of file trees, and the relation between nested paths, are not modelled.
- Pipeline.OnlyLastStepExported: holds under the modelled replace semantics only. The engine merges trees, so files that an earlier step left under `/workspace/source` and that the last step does not overwrite also reach `foo`. `Pipeline.OutputsRecordsEveryStep` states the writes that are combined, whatever the combination.
- Pipeline.OutputsEntries: the same limit. Its statement about the `/workspace/source` entry holds under the replace semantics, not the engine's merge.
- Execution: what an exec does to a container's files, lazy evaluation, and failures while evaluating a step are not modelled. Operations are recorded data.
- The export itself (main.go:102): writing to the host filesystem is the parameter `exporter`. Only its `(ok, err)` reply is modelled.
- The debug `fmt.Println` (main.go:89), `main` with `log.Panic` (main.go:25-29), `defer client.Close()` and context cancellation: output, process exit and engine plumbing.
