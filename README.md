# Fake container runtime: lifecycle engine model

This project models the core of a stand-in for a node agent's container
runtime: the kubelet CRI v1alpha1 runtime and image services. The real
runtime keeps all state in memory and hands the physical work to small
helper programs (`pod`, `showip`, `ct`). The model has three parts.

- **Identifier builder** (`Ids`). A sandbox ID is `name_namespace_uid_attempt`
  and a container ID is `sandboxID_name_attempt`, with the attempt written in
  decimal.
- **Label filter** (`Labels`). A selector matches when it is a sub-map of the
  labels.
- **Runtime service** (`Runtime.RuntimeService`). The Sandbox Registry
  (`sandboxes`) and the Container Registry (`containers`) are map fields that
  each mutating operation reassigns. Sandboxes go READY → NOT_READY → removed.
  Containers go CREATED → RUNNING → EXITED → removed. A read of a container
  runs a liveness probe that can turn RUNNING into EXITED.
- **Image service** (`Images.ImageService`). This is a map from tag-free image
  names to placeholder images.

Every call to a helper program is an input of the operation that makes it:
a success flag, the `showip` output, or, for `ListContainers`, the set of
container IDs whose `ct check` succeeds. A ghost log, `calls`, records each
invocation with its arguments, in order. It states which helper an operation
runs, when, and with what arguments, and that the queries run none. The image
service likewise logs, in `lookups`, every image-directory path it checks.
Clock readings (`time.Now()`) are a `now` parameter. Go map iteration order is
unspecified, so each list answer is specified by membership (every selected
entry, nothing else, no entry twice) and not by order.

StartContainer marks the container RUNNING and records `StartedAt` *before*
it runs `ct start`, and it does not roll back when `ct start` fails
(fakecr/service/runtime.go:333-340). Such a container is left RUNNING, though
a reader might expect it to stay CREATED.
StopContainer commits EXITED and `FinishedAt` before `ct stop` in the same way.
StopContainer accepts a container in any state, so a CREATED container can go
straight to EXITED.

`Scenarios` holds client sequences that follow from the contracts alone:
- stopping a sandbox twice;
- running a sandbox and then finding it in the list and the status;
- starting a container whose sandbox was removed;
- a container that turns EXITED on a failed check;
- pulling one image under two tags.

## Model

| member | source | states |
|---|---|---|
| `Ids.Decimal` | fakecr/service/utils.go:28-32 | `%d` of an attempt: at least one digit, no leading zero, and the digits read back as the number |
| `Ids.SandboxNameSeparatesFields` | fakecr/service/utils.go:31-33 | metadata that differ in exactly one of name, namespace, uid and attempt give different sandbox IDs |
| `Ids.ContainerNameSeparatesFields` | fakecr/service/utils.go:27-29 | differing in exactly one of sandbox ID, name and attempt gives different container IDs |
| `Ids.SandboxNameNotInjective` | fakecr/service/utils.go:31-33 | fields may contain `_`, so two distinct metadata share an ID (full injectivity does not hold) |
| `Ids.SandboxNameRecoversAttempt` | fakecr/service/utils.go:31-33 | the last `_`-separated segment of a sandbox ID is the decimal attempt |
| `Ids.ContainerNameRecoversAttempt` | fakecr/service/utils.go:27-29 | the last `_`-separated segment of a container ID is the decimal attempt |
| `Labels.FilterInLabels` | fakecr/service/utils.go:35-47 | the early-exit walk over the selector answers true iff every selector key is in the labels with the same value |
| `Labels.EmptySelectorMatchesAll` | fakecr/service/utils.go:36-46 | an empty selector matches any labels |
| `Labels.MatchesReflexive` | fakecr/service/utils.go:35-47 | any label map matches itself |
| `Labels.MatchesTransitive` | fakecr/service/utils.go:35-47 | extra labels never break a match: a selector of `l` selects any `l'` that `l` matches |
| `Labels.MismatchRejects` | fakecr/service/utils.go:37-43 | a selector key that is missing from the labels, or has another value there, rejects |
| `Labels.ProdSelectorExamples` | fakecr/service/utils.go:35-47 | `{"env":"prod"}` matches `{"env":"prod","team":"x"}` and rejects `{"env":"dev"}` and `{}` |
| `Runtime.WriteInit` | fakecr/service/runtime.go:252-276 | the script is the shebang, a blank line, one `export` line per env and one `mount -o bind` line per mount, both in input order; it has 2 + envs + mounts lines |
| `Runtime.RuntimeService.constructor` | fakecr/service/runtime.go:63-71 | both registries start empty |
| `Runtime.RuntimeService.RunPodSandbox` | fakecr/service/runtime.go:119-157 | `pod create` then `showip`; if either fails, the sandboxes are unchanged and `showip` is not run after a failed create; otherwise a READY entry with the raw `showip` output as IP and the config hostname is stored at BuildSandboxName and that ID is returned; containers are untouched |
| `Runtime.RuntimeService.StopPodSandbox` | fakecr/service/runtime.go:159-174 | an unknown ID is NotFound and nothing changes; a known one has only its state set to NOT_READY; no helper is run |
| `Runtime.RuntimeService.RemovePodSandbox` | fakecr/service/runtime.go:176-191 | an unknown ID is NotFound and nothing changes; a known one runs `pod remove` with its hostname and is deleted whatever that returns; containers are untouched |
| `Runtime.RuntimeService.PodSandboxStatus` | fakecr/service/runtime.go:193-206 | the stored status of a known ID, NotFound otherwise; no state change, no helper run |
| `Runtime.RuntimeService.ListPodSandbox` | fakecr/service/runtime.go:208-241 | exactly the sandboxes passing the id, state and label conditions (ANDed, each optional), each once; no state change |
| `Runtime.RuntimeService.CreateContainer` | fakecr/service/runtime.go:279-314 | without checking the sandbox, stores a CREATED entry at BuildContainerName with the sandbox back-reference and the image as image reference, replacing any entry with that ID; if the init script cannot be written, nothing changes |
| `Runtime.RuntimeService.StartContainer` | fakecr/service/runtime.go:316-344 | a missing container or a missing sandbox is NotFound with no change; otherwise RUNNING and StartedAt are committed, then `ct start` runs, and its failure is answered but not rolled back |
| `Runtime.RuntimeService.StopContainer` | fakecr/service/runtime.go:346-369 | a missing container is NotFound; otherwise EXITED and FinishedAt are committed before `ct stop` and kept when it fails |
| `Runtime.RuntimeService.RemoveContainer` | fakecr/service/runtime.go:371-379 | unconditional delete; an absent ID is a successful no-op; sandboxes are untouched |
| `Runtime.RuntimeService.CheckState` | fakecr/service/runtime.go:381-389 | only a RUNNING entry is checked; a failed `ct check` turns it EXITED |
| `Runtime.RuntimeService.ContainerStatus` | fakecr/service/runtime.go:434-451 | a missing ID is NotFound with no change; otherwise the entry is probed and its refreshed status answered |
| `Runtime.RuntimeService.ListContainers` | fakecr/service/runtime.go:391-432 | every entry is probed, and each RUNNING one is checked exactly once; the answer is exactly the refreshed entries passing the id, sandbox, state and label conditions, each once |
| `Runtime.MarkNotReadyIdempotent` | fakecr/service/runtime.go:164-170 | marking a sandbox NOT_READY twice equals marking it once, and nothing but the state changes |
| `Runtime.ProbeOnlyTouchesRunning` | fakecr/service/runtime.go:381-389 | CREATED and EXITED entries never change; RUNNING stays RUNNING iff the check succeeds; the probe never produces RUNNING and changes only the state |
| `Runtime.RefreshIdempotent` | fakecr/service/runtime.go:398-399 | the refresh keeps the keys, and a second refresh with the same check answers changes nothing |
| `Runtime.NoSandboxFilterSelectsAll` | fakecr/service/runtime.go:215-226 | a nil filter, or one with every condition unset, lists every sandbox |
| `Runtime.SandboxFilterIsConjunction` | fakecr/service/runtime.go:216-226 | the sandbox filter selects the intersection of its id, state and label conditions |
| `Runtime.SandboxIdFilterSelectsOne` | fakecr/service/runtime.go:217-219 | a non-empty id condition selects at most that one sandbox |
| `Runtime.NoContainerFilterSelectsAll` | fakecr/service/runtime.go:401-414 | a nil filter, or one with every condition unset, lists every container |
| `Runtime.ContainerFilterIsConjunction` | fakecr/service/runtime.go:401-414 | the container filter selects the intersection of its id, sandbox, state and label conditions |
| `Runtime.UnknownStateSelectsNothing` | fakecr/service/runtime.go:408-410 | no stored container is UNKNOWN, so filtering on that state lists nothing |
| `Images.ImageName` | fakecr/service/image.go:95-96 | the name is the longest prefix of the reference without `:`: the part before the first `:`, or all of it |
| `Images.ImageNameUnique` | fakecr/service/image.go:96 | any prefix without `:` that ends at a `:` or at the end is the image name |
| `Images.ImageNameDropsTag` | fakecr/service/image.go:96 | `name:tag` has the name `name` |
| `Images.ImageNameOfUntagged` | fakecr/service/image.go:96 | a reference without `:` is its own name |
| `Images.ImageNameIgnoresTag` | fakecr/service/image.go:95-110 | one name under two tags gives the same name, and so the same pulled reference |
| `Images.TaggedReferenceIsNeverRegistered` | fakecr/service/image.go:83-85 | registered names are tag-free, so a tagged reference never has a status |
| `Images.ImageFilterSelectsNothing` | fakecr/service/image.go:62-71 | repo tags are always empty, so a set image filter selects no image |
| `Images.ImageService.constructor` | fakecr/service/image.go:42-47 | the registry starts empty |
| `Images.ImageService.ListImages` | fakecr/service/image.go:57-75 | with no filter or no image spec, every image; with an image spec, only images whose repo tags contain it; each once |
| `Images.ImageService.ImageStatus` | fakecr/service/image.go:78-86 | exact-key lookup of the unstripped reference; an absent key gives no image, not an error; no state change |
| `Images.ImageService.PullImage` | fakecr/service/image.go:88-111 | a known name answers the name with no directory check and no change; an unknown name is checked at `<root>/images/<name>`, fails with the registry unchanged if absent, else adds exactly the placeholder `{Id: name, Size: 1, RepoTags: []}` |
| `Images.ImageService.RemoveImage` | fakecr/service/image.go:113-121 | deletes the exact key unconditionally; an absent key is a successful no-op |
| `Scenarios.StopPodSandboxTwice` | fakecr/service/runtime.go:159-174 | a second StopPodSandbox answers as the first and leaves the state of one stop |
| `Scenarios.RunPodSandboxThenQuery` | fakecr/service/runtime.go:119-241 | with `showip` printing 10.0.0.5, the sandbox is listed READY with no filter, and its status has that IP |
| `Scenarios.StartAfterSandboxRemoved` | fakecr/service/runtime.go:316-331 | starting a container whose sandbox was removed fails with NotFound, and the container stays CREATED |
| `Scenarios.ContainerExitsOnFailedCheck` | fakecr/service/runtime.go:381-432 | RUNNING after a listing whose check succeeds, EXITED after one whose check fails, with no StopContainer |
| `Scenarios.PullImageTwice` | fakecr/service/image.go:88-111 | two tags of one new name register one image and answer the name twice; the second pull needs no directory entry |

## Left out

- Helper programs (`Run`, `Output`, fakecr/service/runtime.go:73-88) are not run. Their exit status and output are inputs. Spawn failures and non-zero exits are the same `ExecutorFailed`. Error message texts are not modelled.
- The runtime service's binary and root directories are not modelled, and neither is the path of each helper program. The ghost log records the program and its arguments.
- File I/O in WriteInit is not modelled. This covers opening with `O_CREATE` and no `O_TRUNC` (so a shorter script would leave the old file's tail), the 0700 mode, and the script's path under `<root>/nodes/<node>/pods/<sandbox>/`. CreateContainer receives only whether the write succeeded.
- Runtime.WriteInit: Go's `%q` quoting is the `quote` parameter, not an implementation of `strconv.Quote`. Each line's text is stated without the `\n` that ends it.
- Images.ImagePath: `filepath.Join` path cleaning is not modelled. The path is the root, `/images/` and the name concatenated. `os.Stat` is the `present` input, and any `Stat` error counts as absence.
- Nil request fields (a missing metadata or image spec) panic in Go. The model's requests always carry them.
- Both services serialise calls with `sync.Mutex`. Each operation is modelled as atomic.
- `glog` logging is left out.
- Version, Status, PortForward, Exec, Attach, ExecSync and UpdateRuntimeConfig answer constants and change nothing, so they are left out.
- `fakecr/fakecr.go` (the gRPC server bootstrap) and the C helpers under `src/` are not part of this model.
- Status and list answers are values. Go returns pointers into the registries, and aliasing through them is not modelled.
- A Go label selector can be nil or an empty map. Both select everything, so the model has a single map in which empty means unset.
