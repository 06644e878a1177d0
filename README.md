# conair: the container lifecycle commands, modelled in Dafny

conair manages systemd-nspawn containers on a btrfs store. This project models
the orchestration at its core:

- `run`: snapshot an image into a new container, attach named snapshot
  volumes inside it, then enable and start the container's unit instance;
- `bootstrap`: create an image subvolume, build an Arch root in it, attach it to
  the bridge;
- the container package's helpers: building an image (bootstrap tool, then
  three build steps), fetching a pre-built image archive, and installing and
  removing the shared supervisor unit rendered from its template.

The host is one map from absolute paths to entries (subvolume, text file,
downloaded archive) plus the trace of every external call attempted. Each call
the code makes into something it does not own (the btrfs store, the process
supervisor, pacstrap, tar, HTTP, the network-descriptor writer, file creation
and removal) is an `Op`. An `Op` fails when it is in the environment's set of
faults or when the current entries forbid it (a subvolume or snapshot
destination that exists, a snapshot source that is missing, removing a path
that is absent, writing a file that was not created). A failed call changes
no entry. So every property below is stated for every environment. The
environment is deterministic per call: a given call, with the same arguments,
fails every time or never, so a repeated call cannot fail once and succeed
once.

Files:

- `machine.dfy`: the host (`Host` class, `World` value), `Apply` and the
  fail-fast reference semantics `Pipeline`.
- `text.dfy`: `Split` (Go's `strings.Split` for a one-character separator) and
  its inverse `Join`.
- `nspawn.dfy`: the unit template, `CreateUnit`/`RemoveUnit`, the `Container`
  handle, `CreateImage`, `FetchImage`.
- `run.dfy`: `runRun`.
- `bootstrap.dfy`: `runBootstrap`.

Each imperative Go function is a Dafny method over a `Host`. Its postcondition
equates the exit code or status, and the host it leaves, with a specification
function of the starting host. The properties are lemmas about those
functions.

## Model

| member | source | states |
|---|---|---|
| Text.Split | run.go:70 | `strings.Split` on one separator character: at least one part; no part contains the separator; joining the parts with the separator gives back the input |
| Text.JoinInjective | run.go:70 | two lists of separator-free parts that join to the same string are equal, so splitting loses nothing |
| Text.SplitJoin | run.go:70 | splitting the join of separator-free parts returns exactly those parts |
| Text.SplitSingle | run.go:70 | the split has a single part exactly when the separator does not occur |
| Text.SplitFirst | run.go:70 | the first part ends at the first separator and the rest is split the same way |
| Machine.Pipeline | nspawn/nspawn.go:118-162 | steps run in order until the first failure, which is the result; the calls made are a prefix of the steps; success means every step was called; a failure names the last call made |
| Machine.PipelineFirst | nspawn/nspawn.go:118-122 | a pipeline runs its first step, and runs the rest only when that step succeeded |
| Machine.PipelineConcat | nspawn/nspawn.go:118-162 | running a + b is running a, then b only when a succeeded |
| Machine.PipelineFirstFailure | nspawn/nspawn.go:118-162 | when step k is the first to fail, the result is step k's failure and the calls are exactly steps 0..k |
| Machine.PipelineOkSteps | nspawn/nspawn.go:118-162 | in a successful pipeline every step succeeded, in the world the steps before it left |
| Machine.Host.Exists | run.go:80 | the existence check reads the current entries and changes nothing |
| Machine.Host.Perform | run.go:55-56 | one external call: its outcome and the new host are those of `Apply` (a failed call changes no entry; every call is recorded in the trace) |
| Nspawn.UnitPathFixed | nspawn/nspawn.go:57 | the unit lives at `/etc/systemd/system/conair@.service`, the systemd directory of line 13 |
| Nspawn.RenderWithoutPlaceholders | nspawn/nspawn.go:72 | executing a template that has no placeholder gives its own text, whatever the values |
| Nspawn.RenderKeepsLiterals | nspawn/nspawn.go:14-27 | rendering changes only placeholders: filled with their own spellings, a template renders to its source text, so `%i` and `${MACHINE_ID}` survive unchanged |
| Nspawn.RenderReadsOnlyUsedFields | nspawn/nspawn.go:46-55 | the rendered text depends only on the fields the template mentions |
| Nspawn.UnitTemplateSource | nspawn/nspawn.go:14-27 | `UNIT_TEMPLATE`, the unit template as written, is its literal text with `{{.Directory}}` three times and `{{.Bridge}}` once in between |
| Nspawn.UnitTemplateFields | nspawn/nspawn.go:19-21 | the directory placeholder occurs three times and the bridge placeholder once |
| Nspawn.RenderedUnit | nspawn/nspawn.go:14-27 | the rendered unit is the same literal text with the container path at the three directory places and the bridge after `--network-bridge=` |
| Nspawn.CreateUnit | nspawn/nspawn.go:51-77 | creates (truncating) `/etc/systemd/system/conair@.service`, then writes the rendered unit into it, stopping at the first failure and returning it |
| Nspawn.CreateUnitOutcome | nspawn/nspawn.go:57-76 | on success the unit path holds exactly the rendered unit and no other entry changed; a failure names one of the two calls; a failed create changes nothing |
| Nspawn.RemoveUnit | nspawn/nspawn.go:79-81 | removes the same unit path and returns the removal's outcome |
| Nspawn.RemoveUnitOutcome | nspawn/nspawn.go:79-81 | removing an absent unit fails and changes nothing; removing a present one that the environment allows deletes exactly that file |
| Nspawn.InstallThenRemove | nspawn/nspawn.go:57-80 | install and remove target the same file: after both succeed the host is as before, minus the unit file |
| Nspawn.Container.constructor | run.go:61 | a handle with the given name and root directory and no binds or snapshot specs |
| Nspawn.Container.SetBinds | run.go:62-64 | records the bind specs and nothing else |
| Nspawn.Container.SetSnapshots | run.go:65-67 | records the snapshot specs and nothing else |
| Nspawn.Container.Enable | run.go:93 | the supervisor call that enables the instance named after the container |
| Nspawn.Container.Start | run.go:98 | the supervisor call that starts the instance named after the container |
| Nspawn.Container.Build | nspawn/nspawn.go:109-111 | one offline build step run in the container's root directory |
| Nspawn.Unchecked | nspawn/nspawn.go:109-111 | calls whose results are ignored are all made, in order; build steps change no entry |
| Nspawn.Pacstrap | nspawn/nspawn.go:84-98 | pacstrap with `-c -d dest`, then the 31 fixed packages, the fixed environment, run in the current directory |
| Nspawn.CreateImageSpec | nspawn/nspawn.go:83-114 | a failure is always pacstrap's; the calls made are a prefix of pacstrap followed by the three build steps |
| Nspawn.CreateImage | nspawn/nspawn.go:83-114 | pacstrap for path/name with the fixed packages and environment; on its failure that failure is returned; otherwise the three build steps run and the result is success |
| Nspawn.CreateImageBootstrapFails | nspawn/nspawn.go:103-105 | a failed pacstrap is the result and no build step runs |
| Nspawn.CreateImageBuilds | nspawn/nspawn.go:107-113 | after a successful pacstrap exactly ENABLE `systemd-networkd systemd-resolved`, RUN `rm -f /etc/resolv.conf`, RUN `ln -sf ...` run in path/name, in that order, and the result is success whatever they return |
| Nspawn.ArchivePath | nspawn/nspawn.go:117 | the archive file is path + "/" + image + ".tar.bz2": inside path, with the `.tar.bz2` suffix |
| Nspawn.ArchiveUrl | nspawn/nspawn.go:126 | the download URL is url + "/" + image + ".tar.bz2" |
| Nspawn.Extract | nspawn/nspawn.go:140-141 | tar `xjf` on the archive file, with the fixed environment, run in path + "/" + newImage |
| Nspawn.FetchTargets | nspawn/nspawn.go:116-141 | the archive goes to path/image.tar.bz2, is downloaded from url/image.tar.bz2 and is extracted in path/newImage |
| Nspawn.FetchImage | nspawn/nspawn.go:116-163 | create the archive file, download, copy, extract, remove the archive, stopping at the first failure and returning it |
| Nspawn.FetchRemovesArchiveOnlyAfterExtraction | nspawn/nspawn.go:155-161 | whenever the archive removal is attempted, the four steps before it (extraction included) all succeeded |
| Nspawn.FetchExtractionFails | nspawn/nspawn.go:155-157 | a failed extraction is the result, the removal is never attempted and the downloaded archive stays on disk |
| Nspawn.FetchSucceeds | nspawn/nspawn.go:116-163 | a successful fetch made all five calls in order and leaves no archive behind |
| RunWorkflow.ContainerName | run.go:46-52 | the container is the second argument when given, the image otherwise |
| RunWorkflow.ContainerPath | run.go:53 | the container path is `.#` followed by the container name, which it determines |
| RunWorkflow.SnapshotVolume | run.go:77 | the snapshot volume is `.cnr-snapshot-` followed by the spec's name |
| RunWorkflow.ParseAttach | run.go:70-78 | a spec is malformed exactly when it has no `:`; otherwise the name is the text before the first `:` and the destination the text up to the next `:` or the end, and later parts are ignored |
| RunWorkflow.ParseAttachOf | run.go:70-78 | conversely, `name:dest` and `name:dest:more` parse to that name and destination |
| RunWorkflow.AttachOne | run.go:70-90 | one spec: a malformed spec fails with no call; at most two calls, each a removal or a snapshot; on success the spec was well formed and its destination exists |
| RunWorkflow.AttachAll | run.go:69-91 | the attach loop only ever removes and snapshots, and only appends to the trace |
| RunWorkflow.Compose | run.go:55-91 | the filesystem part of a run begins by opening the store and snapshotting the image to the container path, and calls neither Enable nor Start |
| RunWorkflow.RunSpec | run.go:38-104 | the exit code of a run is 0 or 1, and calls are only ever appended |
| RunWorkflow.Run | run.go:38-104 | `runRun`: exit code and resulting host equal `RunSpec`; bind specs cause no call; the result of opening the store is ignored |
| RunWorkflow.RunWithoutArguments | run.go:39-42 | without arguments the result is 1 and no call is made |
| RunWorkflow.RunSnapshotsImage | run.go:44-56 | a run first opens the store, then snapshots the image to `.#` + container, where the container is the second argument if given and the image otherwise |
| RunWorkflow.RunImageSnapshotFails | run.go:56-59 | a failed image snapshot (environment failure, missing image or taken container path) gives 1 right away: no spec is attached and neither Enable nor Start is called |
| RunWorkflow.AttachMalformed | run.go:72-75 | a spec without `:` fails before any call |
| RunWorkflow.AttachOverwrites | run.go:77-90 | spec `name:dest` snapshots `.cnr-snapshot-name` onto `.#container/dest`; an existing destination is removed first, and a failed removal means no snapshot; on success the destination holds exactly the source volume and nothing else changed |
| RunWorkflow.AttachAllConcat | run.go:69-91 | attaching a + b is attaching a, then b only if a succeeded |
| RunWorkflow.AttachFirstFailure | run.go:69-91 | specs are tried in order; the first failing spec's failure is the loop's result, and later specs are never tried |
| RunWorkflow.AttachAllSucceeded | run.go:69-91 | a successful loop attached every spec, each in the world the earlier ones left |
| RunWorkflow.RunActivatesLast | run.go:93-103 | composition calls neither Enable nor Start; after it comes Enable, then Start only if Enable succeeded; the result is 0 exactly when composition, Enable and Start all succeed, and 1 otherwise |
| RunWorkflow.AttachOnlyTouchesDestinations | run.go:80-90 | the attach loop leaves every entry that is not one of the specs' destinations as it was |
| BootstrapWorkflow.ImagePath | bootstrap.go:26 | the image subvolume is `machines/` followed by the image name |
| BootstrapWorkflow.BootstrapSpec | bootstrap.go:19-52 | the exit code is 0 or 1 and the calls made are a prefix of the fixed bootstrap plan |
| BootstrapWorkflow.Bootstrap | bootstrap.go:19-52 | `runBootstrap`: exit code and resulting host equal `BootstrapSpec` |
| BootstrapWorkflow.BootstrapWithoutArguments | bootstrap.go:20-23 | without arguments the result is 1 and no call is made |
| BootstrapWorkflow.BootstrapFailFast | bootstrap.go:28-50 | order is Init, Subvolume at `machines/` + image, image build in imagesPath/image, network descriptor for imagesPath/image; the first failure gives 1 and nothing after it runs; a created subvolume is never removed; the result is 0 exactly when all four steps succeed |
| BootstrapWorkflow.BootstrapFollowsPlan | bootstrap.go:28-51 | the calls made are a prefix of the fixed plan, success made every call of the plan, and the result is 0 or 1 |
| BootstrapWorkflow.BuildsInCreatedSubvolume | bootstrap.go:26-46 | when the images directory is the store's `machines` directory, the image is built in the subvolume just created |

## Left out

- attach.go is not part of this model. It is a single call into the container handle.
- Real I/O is reduced to an outcome and a change of entries. Left out are the bytes downloaded over HTTP, what pacstrap and tar put on disk, the standard streams handed to the tools, and the progress messages and error text printed to standard error.
- A snapshot copies the entry at its source path only. Paths nested below a subvolume are not carried along.
- The btrfs and networkd packages and the container handle's runtime are opaque calls. They fail only through the environment or the entry rules above. Init, Enable, Start, Build and ClientNetwork change no entry.
- Nspawn.CreateUnit: a failed write leaves the truncated, empty unit file. The model follows the code here (create, then write) rather than an atomic replacement of the old unit. Partial writes are not modelled.
- Nspawn.CreateUnit: parsing the constant template cannot fail, so that error path is not modelled. Only `{{.Bridge}}` and `{{.Directory}}` substitution is modelled, not the general template engine.
- The other templates (service environment, machine-id, build-step wrapper) are not modelled. No function modelled here uses them.
- Nspawn.CreateImage: the build steps' failures are ignored, exactly as the code ignores them. A stricter design would treat a failed build step as fatal; this model does not.
- RunWorkflow.Run: the error from opening the store is ignored, as in the code.
- Nspawn.FetchImage: the deferred closes and the panic in CreateUnit's deferred close are not modelled. That includes the deferred `resp.Body.Close()` that runs before the HTTP error is checked.
- Command-line flag registration and help text are not modelled, nor what the supervisor does with the installed unit.
- RunWorkflow.AttachOverwrites, RunWorkflow.AttachOnlyTouchesDestinations: paths are compared as strings. `.`, `..` and repeated or trailing `/` are not resolved, so "no other entry changed" and "a volume never coincides with a destination" hold only for destinations in normal form. A destination such as `../.cnr-snapshot-a`, or the `//data` that a spec `name:/data` produces, names a different key in the model but may name the same file on the host.
- RunWorkflow.Run: an existing destination is detected with the store's side-effect-free existence check on the same key that the removal targets. The type of entry there does not matter.
