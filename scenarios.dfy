/**
 Client sequences over the two services: what a caller can conclude from the
 operations' contracts alone when it chains several calls.
 */
module Scenarios {
  import opened Cri
  import opened Ids
  import opened Runtime
  import opened Images

  /** A second StopPodSandbox answers as the first did and changes nothing more. */
  method StopPodSandboxTwice(s: RuntimeService, id: string) returns (r1: Result<()>, r2: Result<()>)
    requires s.Valid()
    modifies s
    ensures s.Valid() && r1 == r2
    ensures s.sandboxes == if id in old(s.sandboxes)
                           then old(s.sandboxes)[id := MarkNotReady(old(s.sandboxes)[id])]
                           else old(s.sandboxes)
    ensures s.containers == old(s.containers) && s.calls == old(s.calls)
  {
    r1 := s.StopPodSandbox(id);
    ghost var once := s.sandboxes;
    r2 := s.StopPodSandbox(id);
    if id in once {
      MarkNotReadyIdempotent(old(s.sandboxes)[id]);
      assert once[id := MarkNotReady(once[id])] == once;
    }
  }

  /**
   With both helper programs succeeding and `showip` printing 10.0.0.5, the
   new sandbox is listed READY and its status carries that address.
   */
  method RunPodSandboxThenQuery(s: RuntimeService, config: PodSandboxConfig, now: int)
    returns (r: Result<string>, items: seq<PodSandbox>, st: Result<PodSandboxStatus>)
    requires s.Valid()
    modifies s
    ensures r == Ok(BuildSandboxName(config.metadata))
    ensures PodSandbox(r.value, config.metadata, SandboxReady, now, config.labels, config.annotations) in items
    ensures st.Ok? && st.value.ip == "10.0.0.5" && st.value.state == SandboxReady
  {
    r := s.RunPodSandbox(config, now, true, Some("10.0.0.5"));
    items := s.ListPodSandbox(None);
    assert r.value in SelectedSandboxIds(s.sandboxes, None);
    st := s.PodSandboxStatus(r.value);
  }

  /** A container whose sandbox was removed cannot start, and stays CREATED. */
  method StartAfterSandboxRemoved(s: RuntimeService, sandboxConfig: PodSandboxConfig,
                                  config: ContainerConfig, now: int)
    returns (start: Result<()>, state: ContainerState)
    requires s.Valid()
    modifies s
    ensures start == Err(SandboxNotFound(BuildSandboxName(sandboxConfig.metadata)))
    ensures state == ContainerCreated
  {
    var run := s.RunPodSandbox(sandboxConfig, now, true, Some("10.0.0.5"));
    var sandboxId := run.value;
    var created := s.CreateContainer(sandboxId, config, now, true);
    var containerId := created.value;
    var removed := s.RemovePodSandbox(sandboxId);
    start := s.StartContainer(containerId, now, true);
    state := s.containers[containerId].status.state;
  }

  /**
   A started container is reported RUNNING while its check succeeds and
   EXITED by the first listing whose check fails, with no StopContainer.
   */
  method ContainerExitsOnFailedCheck(s: RuntimeService, sandboxConfig: PodSandboxConfig,
                                     config: ContainerConfig, now: int)
    returns (first: ContainerState, second: ContainerState)
    requires s.Valid()
    modifies s
    ensures first == ContainerRunning && second == ContainerExited
  {
    var run := s.RunPodSandbox(sandboxConfig, now, true, Some("10.0.0.5"));
    var created := s.CreateContainer(run.value, config, now, true);
    var id := created.value;
    var started := s.StartContainer(id, now, true);
    var items1 := s.ListContainers(None, {id});
    first := s.containers[id].status.state;
    var items2 := s.ListContainers(None, {});
    second := s.containers[id].status.state;
  }

  /**
   Pulling one name under two tags registers one image and answers the name
   twice; the second pull does not look at the image directory, so it
   succeeds even when the directory entry has gone.
   */
  method PullImageTwice(svc: ImageService, name: string, tag1: string, tag2: string)
    returns (r1: Result<string>, r2: Result<string>)
    requires svc.Valid() && ':' !in name && name !in svc.images
    modifies svc
    ensures r1 == Ok(name) && r2 == Ok(name)
    ensures svc.images == old(svc.images)[name := MakeFakeImage(name)]
    ensures |svc.images| == |old(svc.images)| + 1
    ensures svc.lookups == old(svc.lookups) + [ImagePath(svc.rootDir, name)]
  {
    ImageNameIgnoresTag(name, tag1, tag2);
    r1 := svc.PullImage(name + ":" + tag1, true);
    r2 := svc.PullImage(name + ":" + tag2, false);
  }
}
