/**
 The values exchanged over the container runtime interface (CRI v1alpha1) as
 the fake runtime uses them: metadata, states, the status records kept in the
 registries, the list filters, and the errors a call can fail with.
 */
module Cri {

  /** The protobuf `uint32` of the `attempt` counters. */
  type uint32 = x: int | 0 <= x < 0x1_0000_0000

  datatype Option<+T> = None | Some(value: T)

  /** A call either answers with a value or fails with an error. */
  datatype Result<+T> = Ok(value: T) | Err(error: Error)

  datatype Error =
    | SandboxNotFound(sandboxId: string)      // "pod sandbox ... not found"
    | ContainerNotFound(containerId: string)  // "container ... not found"
    | ExecutorFailed                          // a helper command exited non-zero or could not be spawned
    | InitWriteFailed                         // opening or writing the init script failed
    | ImageNotExists(path: string)            // the image directory entry is missing

  type Labels = map<string, string>

  datatype PodSandboxMetadata = PodSandboxMetadata(name: string, uid: string, namespace: string, attempt: uint32)

  datatype ContainerMetadata = ContainerMetadata(name: string, attempt: uint32)

  datatype PodSandboxState = SandboxReady | SandboxNotReady

  datatype ContainerState = ContainerCreated | ContainerRunning | ContainerExited | ContainerUnknown

  /** The request of RunPodSandbox. */
  datatype PodSandboxConfig = PodSandboxConfig(
    metadata: PodSandboxMetadata,
    hostname: string,
    labels: Labels,
    annotations: Labels)

  datatype KeyValue = KeyValue(key: string, value: string)

  datatype Mount = Mount(containerPath: string, hostPath: string)

  /** The request of CreateContainer; `image` is the `Image` field of its image spec. */
  datatype ContainerConfig = ContainerConfig(
    metadata: ContainerMetadata,
    image: string,
    envs: seq<KeyValue>,
    mounts: seq<Mount>,
    labels: Labels,
    annotations: Labels)

  /** What PodSandboxStatus answers; `ip` is the network status address. */
  datatype PodSandboxStatus = PodSandboxStatus(
    id: string,
    metadata: PodSandboxMetadata,
    state: PodSandboxState,
    createdAt: int,
    ip: string,
    labels: Labels,
    annotations: Labels)

  /** A Sandbox Registry entry: the status plus the hostname handed to the executor. */
  datatype FakePodSandbox = FakePodSandbox(status: PodSandboxStatus, hostname: string)

  /** One item of a ListPodSandbox answer (no network status, no hostname). */
  datatype PodSandbox = PodSandbox(
    id: string,
    metadata: PodSandboxMetadata,
    state: PodSandboxState,
    createdAt: int,
    labels: Labels,
    annotations: Labels)

  /** What ContainerStatus answers; `image` is the image spec, `imageRef` the reference. */
  datatype ContainerStatus = ContainerStatus(
    id: string,
    metadata: ContainerMetadata,
    state: ContainerState,
    createdAt: int,
    startedAt: int,
    finishedAt: int,
    image: string,
    imageRef: string,
    labels: Labels,
    annotations: Labels)

  /** A Container Registry entry: the status plus the (non-owning) sandbox back-reference. */
  datatype FakeContainer = FakeContainer(status: ContainerStatus, sandboxId: string)

  /** One item of a ListContainers answer (no start or finish time). */
  datatype Container = Container(
    id: string,
    podSandboxId: string,
    metadata: ContainerMetadata,
    image: string,
    imageRef: string,
    state: ContainerState,
    createdAt: int,
    labels: Labels,
    annotations: Labels)

  /**
   A ListPodSandbox filter. The empty `id` means "any id"; an empty
   `labelSelector` selects everything, exactly as a nil selector does.
   */
  datatype PodSandboxFilter = PodSandboxFilter(id: string, state: Option<PodSandboxState>, labelSelector: Labels)

  /** A ListContainers filter; the empty `id` and `podSandboxId` mean "any". */
  datatype ContainerFilter = ContainerFilter(
    id: string,
    podSandboxId: string,
    state: Option<ContainerState>,
    labelSelector: Labels)

  /** An image as the image service reports it. */
  datatype Image = Image(id: string, repoTags: seq<string>, size: nat)

  /** A ListImages filter: the optional image spec whose name must be among the tags. */
  datatype ImageFilter = ImageFilter(image: Option<string>)
}
